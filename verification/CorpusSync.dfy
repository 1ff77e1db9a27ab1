/** Bringing the vector index in line with the files of the requested corpora, through a cache of content hashes. */
module CorpusSync {
  import opened Options
  import opened VectorIndex
  import opened Hashing

  /** A file found under a corpus, with its stripped text; None when it cannot be read. */
  datatype Source = Source(corpus: string, doc: DocId, text: Option<string>)

  type Docs = map<DocId, Stored>
  type Hashes = map<DocId, string>

  predicate Readable(s: Source) {
    s.text.Some? && s.text.value != ""
  }

  function ContentOf(s: Source): Stored
    requires Readable(s)
  {
    Stored(s.text.value, s.corpus)
  }

  function SeenIds(files: seq<Source>): set<DocId> {
    set i | 0 <= i < |files| && Readable(files[i]) :: files[i].doc
  }

  ghost predicate DistinctDocs(files: seq<Source>) {
    forall i, j :: 0 <= i < j < |files| ==> files[i].doc != files[j].doc
  }

  /** The hash that is cached says the text is indexed already. */
  predicate Skipped(sha: string -> string, hashes: Hashes, s: Source)
    requires Readable(s)
  {
    s.doc in hashes && hashes[s.doc] == sha(s.text.value)
  }

  /** Every cached hash is the hash of the text indexed for that document. */
  ghost predicate CacheRight(sha: string -> string, hashes: Hashes, docs: Docs) {
    forall d :: d in hashes ==> d in docs && hashes[d] == sha(docs[d].text)
  }

  // ----- the upserts -----

  ghost predicate SameAt(m: Docs, n: Docs, d: DocId) {
    (d in m <==> d in n) && (d in m && d in n ==> m[d] == n[d])
  }

  /**
   After the files: skipped documents are as they were, the other readable ones hold their files, and no others changed.
   All readable ones would be skipped now.
   */
  ghost predicate Uploaded(sha: string -> string, files: seq<Source>, docs0: Docs, hashes0: Hashes, docs: Docs, hashes: Hashes) {
    && (forall d {:trigger SameAt(docs0, docs, d)} :: d !in SeenIds(files) ==> SameAt(docs0, docs, d))
    && (forall d :: d !in SeenIds(files) ==> (d in hashes0 <==> d in hashes) && (d in hashes0 && d in hashes ==> hashes0[d] == hashes[d]))
    && (forall i :: 0 <= i < |files| && Readable(files[i]) ==>
          if Skipped(sha, hashes0, files[i]) then SameAt(docs0, docs, files[i].doc)
          else files[i].doc in docs && docs[files[i].doc] == ContentOf(files[i]))
    && (forall i :: 0 <= i < |files| && Readable(files[i]) ==> Skipped(sha, hashes, files[i]))
  }

  lemma {:induction false} SeenMore(files: seq<Source>, s: Source)
    ensures SeenIds(files + [s]) == SeenIds(files) + if Readable(s) then {s.doc} else {}
  {
    var more := files + [s];
    forall d | d in SeenIds(files) ensures d in SeenIds(more) {
      var i :| 0 <= i < |files| && Readable(files[i]) && files[i].doc == d;
      assert more[i] == files[i];
    }
    assert more[|files|] == s;
  }

  /** One more file, skipped or uploaded. */
  lemma {:induction false} UploadedMore(sha: string -> string, files: seq<Source>, s: Source,
                                        docs0: Docs, hashes0: Hashes, docs: Docs, hashes: Hashes)
    requires Uploaded(sha, files, docs0, hashes0, docs, hashes) && Readable(s) && s.doc !in SeenIds(files)
    ensures Skipped(sha, hashes, s) <==> Skipped(sha, hashes0, s)
    ensures Skipped(sha, hashes, s) ==> Uploaded(sha, files + [s], docs0, hashes0, docs, hashes)
    ensures !Skipped(sha, hashes, s) ==>
              Uploaded(sha, files + [s], docs0, hashes0, docs[s.doc := ContentOf(s)], hashes[s.doc := sha(s.text.value)])
  {
    SeenMore(files, s);
    var more, docs1 := files + [s], docs[s.doc := ContentOf(s)];
    assert SameAt(docs0, docs, s.doc);
    if Skipped(sha, hashes, s) {
      forall i | 0 <= i < |more| && Readable(more[i])
        ensures if Skipped(sha, hashes0, more[i]) then SameAt(docs0, docs, more[i].doc)
                else more[i].doc in docs && docs[more[i].doc] == ContentOf(more[i])
      {
      }
    } else {
      forall d | d !in SeenIds(more) ensures SameAt(docs0, docs1, d) {
        assert SameAt(docs0, docs, d);
      }
      forall i | 0 <= i < |more| && Readable(more[i])
        ensures if Skipped(sha, hashes0, more[i]) then SameAt(docs0, docs1, more[i].doc)
                else more[i].doc in docs1 && docs1[more[i].doc] == ContentOf(more[i])
      {
        if i < |files| {
          assert files[i].doc in SeenIds(files);
        }
      }
    }
  }

  lemma {:induction false} UnreadableMore(sha: string -> string, files: seq<Source>, s: Source,
                                          docs0: Docs, hashes0: Hashes, docs: Docs, hashes: Hashes)
    requires Uploaded(sha, files, docs0, hashes0, docs, hashes) && !Readable(s)
    ensures Uploaded(sha, files + [s], docs0, hashes0, docs, hashes)
  {
    SeenMore(files, s);
  }

  // ----- what a sync should achieve -----

  /** The index holds, for the requested corpora, exactly the readable non-empty files. */
  ghost predicate IndexRight(files: seq<Source>, corpora: set<string>, docs: Docs) {
    && (forall i :: 0 <= i < |files| && Readable(files[i]) ==>
          files[i].doc in docs && docs[files[i].doc] == ContentOf(files[i]))
    && (forall d :: d in docs && docs[d].corpus in corpora ==> d in SeenIds(files))
  }

  ghost predicate OthersUntouched(corpora: set<string>, docs0: Docs, docs: Docs) {
    forall d {:trigger SameAt(docs0, docs, d)} ::
      (d in docs0 && docs0[d].corpus !in corpora) || (d in docs && docs[d].corpus !in corpora) ==> SameAt(docs0, docs, d)
  }

  /** Files belong to the requested corpora, and a document's corpus never changes: its path fixes it. */
  ghost predicate CorporaFixed(files: seq<Source>, corpora: set<string>, docs: Docs) {
    forall i :: 0 <= i < |files| ==>
      files[i].corpus in corpora && (files[i].doc in docs ==> docs[files[i].doc].corpus == files[i].corpus)
  }

  /**
   Which calls of the backend raise: the number of the failing statement for each document's upsert and delete, and
   whether asking for the known documents raises.
   */
  datatype Faults = Faults(upsert: DocId -> nat, delete: DocId -> nat, list: bool)

  /** The upsert of a changed file raises. */
  predicate UploadRaises(sha: string -> string, m: Embedder, faults: Faults, hashes: Hashes, s: Source) {
    Readable(s) && !Skipped(sha, hashes, s) && !(Embeds(m, s.text.value) && faults.upsert(s.doc) >= 5)
  }

  ghost predicate UploadsFine(sha: string -> string, m: Embedder, faults: Faults, hashes: Hashes, files: seq<Source>) {
    forall i :: 0 <= i < |files| ==> !UploadRaises(sha, m, faults, hashes, files[i])
  }

  predicate DropsFine(faults: Faults, stale: set<DocId>) {
    forall d :: d in stale ==> faults.delete(d) >= 3
  }

  /** What is skipped is indexed with the text the file has now. */
  ghost predicate SkipsSound(sha: string -> string, files: seq<Source>, docs: Docs, hashes: Hashes) {
    forall i :: 0 <= i < |files| && Readable(files[i]) && Skipped(sha, hashes, files[i]) ==>
      files[i].doc in docs && docs[files[i].doc].text == files[i].text.value
  }

  function Stale(docs: Docs, corpora: set<string>, seen: set<DocId>): set<DocId> {
    set d | d in docs && docs[d].corpus in corpora && d !in seen
  }

  /** A sync that raised nothing leaves the index right exactly when its skips were sound. */
  lemma {:induction false} RightIffSkipsSound(sha: string -> string, files: seq<Source>, corpora: set<string>,
                                              docs0: Docs, hashes0: Hashes, docs1: Docs, hashes1: Hashes)
    requires Uploaded(sha, files, docs0, hashes0, docs1, hashes1) && CorporaFixed(files, corpora, docs0)
    ensures var docs := docs1 - Stale(docs1, corpora, SeenIds(files));
            IndexRight(files, corpora, docs) <==> SkipsSound(sha, files, docs0, hashes0)
  {
    var docs := docs1 - Stale(docs1, corpora, SeenIds(files));
    forall i | 0 <= i < |files| && Readable(files[i])
      ensures SameAt(docs1, docs, files[i].doc)
      ensures (files[i].doc in docs && docs[files[i].doc] == ContentOf(files[i])) <==>
              (Skipped(sha, hashes0, files[i]) ==> files[i].doc in docs0 && docs0[files[i].doc].text == files[i].text.value)
    {
      assert files[i].doc in SeenIds(files);
    }
    if SkipsSound(sha, files, docs0, hashes0) {
      assert IndexRight(files, corpora, docs);
    }
    if IndexRight(files, corpora, docs) {
      assert SkipsSound(sha, files, docs0, hashes0);
    }
  }

  /** Wherever a sync stops, documents of corpora it was not asked for are as they were. */
  lemma {:induction false} OthersKept(sha: string -> string, files: seq<Source>, corpora: set<string>,
                                      docs0: Docs, hashes0: Hashes, docs1: Docs, hashes1: Hashes, dropped: set<DocId>)
    requires Uploaded(sha, files, docs0, hashes0, docs1, hashes1) && CorporaFixed(files, corpora, docs0)
    requires forall d :: d in dropped ==> d in docs1 && docs1[d].corpus in corpora
    ensures OthersUntouched(corpora, docs0, docs1 - dropped)
  {
    var docs := docs1 - dropped;
    forall d | (d in docs0 && docs0[d].corpus !in corpora) || (d in docs && docs[d].corpus !in corpora)
      ensures SameAt(docs0, docs, d)
    {
      OtherKept(sha, files, corpora, docs0, hashes0, docs1, hashes1, d);
    }
  }

  lemma {:induction false} OtherKept(sha: string -> string, files: seq<Source>, corpora: set<string>,
                                     docs0: Docs, hashes0: Hashes, docs1: Docs, hashes1: Hashes, d: DocId)
    requires Uploaded(sha, files, docs0, hashes0, docs1, hashes1) && CorporaFixed(files, corpora, docs0)
    requires (d in docs0 && docs0[d].corpus !in corpora) || (d in docs1 && docs1[d].corpus !in corpora)
    ensures SameAt(docs0, docs1, d)
  {
    if d !in SeenIds(files) {
      assert SameAt(docs0, docs1, d);
    }
  }

  /** Which documents are stale does not depend on the uploads. */
  lemma {:induction false} StaleBefore(sha: string -> string, files: seq<Source>, corpora: set<string>,
                                       docs0: Docs, hashes0: Hashes, docs1: Docs, hashes1: Hashes)
    requires Uploaded(sha, files, docs0, hashes0, docs1, hashes1)
    ensures Stale(docs1, corpora, SeenIds(files)) == Stale(docs0, corpora, SeenIds(files))
  {
    forall d | d !in SeenIds(files) ensures SameAt(docs0, docs1, d) {
    }
  }

  lemma {:induction false} StillSkipped(sha: string -> string, files: seq<Source>, hashes: Hashes, stale: set<DocId>)
    requires forall i :: 0 <= i < |files| && Readable(files[i]) ==> Skipped(sha, hashes, files[i])
    requires stale !! SeenIds(files)
    ensures forall i :: 0 <= i < |files| && Readable(files[i]) ==> Skipped(sha, hashes - stale, files[i])
  {
    forall i | 0 <= i < |files| && Readable(files[i]) ensures Skipped(sha, hashes - stale, files[i]) {
      assert files[i].doc in SeenIds(files);
    }
  }

  /** A right cache makes every skip sound, whatever the files are now. */
  lemma {:induction false} RightCacheSkipsSoundly(sha: string -> string, files: seq<Source>, docs: Docs, hashes: Hashes)
    requires Injective(sha) && CacheRight(sha, hashes, docs)
    ensures SkipsSound(sha, files, docs, hashes)
  {
  }

  /** Of the stale documents those not left have been dropped, with their cache entries. */
  ghost predicate Dropping(docs0: Docs, hashes0: Hashes, docs: Docs, hashes: Hashes, stale: set<DocId>, left: set<DocId>) {
    && left <= stale && stale <= docs0.Keys && docs == docs0 - (stale - left) && hashes == hashes0 - (stale - left)
  }

  lemma {:induction false} DropNext(
    docs0: Docs, hashes0: Hashes, docs: Docs, hashes: Hashes, stale: set<DocId>, left: set<DocId>, id: DocId)
    requires Dropping(docs0, hashes0, docs, hashes, stale, left) && id in left
    ensures Dropping(docs0, hashes0, docs - {id}, hashes - {id}, stale, left - {id})
  {
    assert stale - (left - {id}) == (stale - left) + {id};
  }

  datatype Outcome = Synced(count: nat) | Raised

  class Syncer {
    const sha: string -> string
    var hashes: Hashes

    constructor (h: string -> string)
      ensures sha == h && hashes == map[]
    {
      sha, hashes := h, map[];
    }

    /**
     The whole sync against a backend that persists. It raises exactly when one of the calls it makes does, and even then
     the cache stays right and other corpora are untouched. Without a raise the index is right exactly when what the cache
     made it skip was, and the next sync would skip every file.
     */
    method Sync(backend: SqliteVecBackend, files: seq<Source>, corpora: set<string>, faults: Faults) returns (r: Outcome)
      requires backend.Valid() && DistinctDocs(files) && CorporaFixed(files, corpora, backend.docs)
      modifies this, backend
      ensures backend.Valid()
      ensures old(CacheRight(sha, hashes, backend.docs)) ==> CacheRight(sha, hashes, backend.docs)
      ensures r.Synced? <==> old(UploadsFine(sha, backend.embedder, faults, hashes, files)) && !faults.list &&
                             DropsFine(faults, old(Stale(backend.docs, corpora, SeenIds(files))))
      ensures r.Synced? ==>
                r.count == |set i | 0 <= i < |files| && files[i].text.Some? && files[i].text.value != "" :: files[i].doc|
      ensures r.Synced? ==> (IndexRight(files, corpora, backend.docs) <==>
                             SkipsSound(sha, files, old(backend.docs), old(hashes)))
      ensures r.Synced? ==> forall i :: 0 <= i < |files| && Readable(files[i]) ==> Skipped(sha, hashes, files[i])
      ensures OthersUntouched(corpora, old(backend.docs), backend.docs)
    {
      ghost var docs0, hashes0 := backend.docs, hashes;
      var ok, seen, done, marked := UploadAll(backend, files, faults);
      ghost var docs1, hashes1 := backend.docs, hashes;
      if !ok {
        OthersKept(sha, files[..done], corpora, docs0, hashes0, docs1, marked, {});
        assert docs1 - {} == docs1;
        return Raised;
      }
      assert files[..done] == files;
      StaleBefore(sha, files, corpora, docs0, hashes0, docs1, hashes1);
      ghost var dropped;
      ok, dropped := DropStale(backend, corpora, seen, faults);
      OthersKept(sha, files, corpora, docs0, hashes0, docs1, hashes1, dropped);
      if !ok {
        return Raised;
      }
      RightIffSkipsSound(sha, files, corpora, docs0, hashes0, docs1, hashes1);
      StillSkipped(sha, files, hashes1, dropped);
      assert seen == set i | 0 <= i < |files| && files[i].text.Some? && files[i].text.value != "" :: files[i].doc;
      r := Synced(|seen|);
    }

    /** The loop over the files; on a raise those before the failing one are done. */
    method UploadAll(backend: SqliteVecBackend, files: seq<Source>, faults: Faults)
      returns (ok: bool, seen: set<DocId>, ghost done: nat, ghost marked: Hashes)
      requires backend.Valid() && DistinctDocs(files)
      modifies this, backend
      ensures backend.Valid()
      ensures old(CacheRight(sha, hashes, backend.docs)) ==> CacheRight(sha, hashes, backend.docs)
      ensures ok <==> old(UploadsFine(sha, backend.embedder, faults, hashes, files))
      ensures ok ==> seen == SeenIds(files) && done == |files| && marked == hashes
      ensures done <= |files| && Uploaded(sha, files[..done], old(backend.docs), old(hashes), backend.docs, marked)
    {
      seen := {};
      ghost var docs0, hashes0, good := backend.docs, hashes, CacheRight(sha, hashes, backend.docs);
      for i := 0 to |files|
        invariant backend.Valid() && seen == SeenIds(files[..i]) && (good ==> CacheRight(sha, hashes, backend.docs))
        invariant Uploaded(sha, files[..i], docs0, hashes0, backend.docs, hashes)
        invariant forall j :: 0 <= j < i ==> !UploadRaises(sha, backend.embedder, faults, hashes0, files[j])
      {
        var more;
        done, marked := i, hashes;
        ok, more := UploadNext(backend, files[i], files[..i], docs0, hashes0, faults);
        assert files[..i + 1] == files[..i] + [files[i]];
        seen := seen + more;
        if !ok {
          return;
        }
      }
      assert files[..|files|] == files;
      ok, done, marked := true, |files|, hashes;
    }

    /** One turn of the loop over the files; an unreadable or empty one is passed over. */
    method UploadNext(backend: SqliteVecBackend, s: Source, ghost before: seq<Source>, ghost docs0: Docs, ghost hashes0: Hashes,
                      faults: Faults)
      returns (ok: bool, seen: set<DocId>)
      requires backend.Valid() && s.doc !in SeenIds(before)
      requires Uploaded(sha, before, docs0, hashes0, backend.docs, hashes)
      modifies this, backend
      ensures backend.Valid() && SeenIds(before + [s]) == SeenIds(before) + seen
      ensures old(CacheRight(sha, hashes, backend.docs)) ==> CacheRight(sha, hashes, backend.docs)
      ensures ok <==> !UploadRaises(sha, backend.embedder, faults, hashes0, s)
      ensures ok ==> Uploaded(sha, before + [s], docs0, hashes0, backend.docs, hashes)
      ensures !ok ==> backend.docs == old(backend.docs)
    {
      SeenMore(before, s);
      if !Readable(s) {
        UnreadableMore(sha, before, s, docs0, hashes0, backend.docs, hashes);
        return true, {};
      }
      UploadedMore(sha, before, s, docs0, hashes0, backend.docs, hashes);
      seen := {s.doc};
      ok := UploadOne(backend, s, faults);
    }

    /** Checks the cache and marks it before the costly call; a call that raises has the mark taken back. */
    method UploadOne(backend: SqliteVecBackend, s: Source, faults: Faults) returns (ok: bool)
      requires backend.Valid() && Readable(s)
      modifies this, backend
      ensures backend.Valid()
      ensures old(CacheRight(sha, hashes, backend.docs)) ==> CacheRight(sha, hashes, backend.docs)
      ensures ok <==> !old(UploadRaises(sha, backend.embedder, faults, hashes, s))
      ensures !ok ==> backend.docs == old(backend.docs) && hashes == old(hashes) - {s.doc}
      ensures ok && old(Skipped(sha, hashes, s)) ==> backend.docs == old(backend.docs) && hashes == old(hashes)
      ensures ok && !old(Skipped(sha, hashes, s)) ==>
                backend.docs == old(backend.docs)[s.doc := ContentOf(s)] && hashes == old(hashes)[s.doc := sha(s.text.value)]
    {
      var hash := sha(s.text.value);
      if s.doc in hashes && hashes[s.doc] == hash {
        return true;
      }
      hashes := hashes[s.doc := hash];
      ok := backend.Upsert(s.doc, s.text.value, s.corpus, faults.upsert(s.doc));
      if !ok {
        hashes := hashes - {s.doc};
      }
    }

    /** Deletes what is stale, from the index and from the cache; on a raise some of it. */
    method DropStale(backend: SqliteVecBackend, corpora: set<string>, seen: set<DocId>, faults: Faults)
      returns (ok: bool, ghost dropped: set<DocId>)
      requires backend.Valid()
      modifies this, backend
      ensures backend.Valid()
      ensures old(CacheRight(sha, hashes, backend.docs)) ==> CacheRight(sha, hashes, backend.docs)
      ensures dropped <= old(Stale(backend.docs, corpora, seen))
      ensures backend.docs == old(backend.docs) - dropped && hashes == old(hashes) - dropped
      ensures ok ==> dropped == old(Stale(backend.docs, corpora, seen))
      ensures ok <==> !faults.list && DropsFine(faults, old(Stale(backend.docs, corpora, seen)))
    {
      if faults.list {
        return false, {};
      }
      var left := StaleIds(backend, corpora, seen);
      ghost var docs0, hashes0, stale, good := backend.docs, hashes, left, CacheRight(sha, hashes, backend.docs);
      while left != {}
        invariant backend.Valid() && Dropping(docs0, hashes0, backend.docs, hashes, stale, left)
        invariant good ==> CacheRight(sha, hashes, backend.docs)
        invariant DropsFine(faults, stale - left)
      {
        var id :| id in left;
        ok := DropOne(backend, id, faults);
        if !ok {
          return ok, stale - left;
        }
        DropNext(docs0, hashes0, docs0 - (stale - left), hashes0 - (stale - left), stale, left, id);
        left := left - {id};
      }
      assert stale - left == stale;
      ok, dropped := true, stale;
    }

    static method StaleIds(backend: SqliteVecBackend, corpora: set<string>, seen: set<DocId>) returns (stale: set<DocId>)
      requires backend.Valid()
      ensures stale == Stale(backend.docs, corpora, seen)
    {
      var inScope := backend.KnownDocIds(corpora);
      stale := inScope - seen;
    }

    method DropOne(backend: SqliteVecBackend, id: DocId, faults: Faults) returns (ok: bool)
      requires backend.Valid() && id in backend.docs
      modifies this, backend
      ensures backend.Valid() && backend.docs == if ok then old(backend.docs) - {id} else old(backend.docs)
      ensures hashes == if ok then old(hashes) - {id} else old(hashes)
      ensures old(CacheRight(sha, hashes, backend.docs)) ==> CacheRight(sha, hashes, backend.docs)
      ensures ok <==> faults.delete(id) >= 3
    {
      ok := backend.Delete(id, faults.delete(id));
      if ok {
        hashes := hashes - {id};
      }
    }

    /** The placeholder backend stores nothing and is never cached for, so a real one later sees every file as changed. */
    method SyncToNull(files: seq<Source>) returns (count: nat)
      ensures count == |set i | 0 <= i < |files| && files[i].text.Some? && files[i].text.value != "" :: files[i].doc|
    {
      var seen: set<DocId> := {};
      for i := 0 to |files|
        invariant seen == SeenIds(files[..i])
      {
        assert files[..i + 1] == files[..i] + [files[i]];
        SeenMore(files[..i], files[i]);
        if Readable(files[i]) {
          seen := seen + {files[i].doc};
        }
      }
      assert files[..|files|] == files;
      assert seen == set i | 0 <= i < |files| && files[i].text.Some? && files[i].text.value != "" :: files[i].doc;
      count := |seen|;
    }

    /** From a right cache, a sync that raises nothing makes the index right. */
    method SyncFromRightCache(backend: SqliteVecBackend, files: seq<Source>, corpora: set<string>, faults: Faults)
      returns (r: Outcome)
      requires backend.Valid() && DistinctDocs(files) && CorporaFixed(files, corpora, backend.docs)
      requires Injective(sha) && CacheRight(sha, hashes, backend.docs)
      modifies this, backend
      ensures backend.Valid() && CacheRight(sha, hashes, backend.docs)
      ensures r.Synced? ==> IndexRight(files, corpora, backend.docs)
    {
      RightCacheSkipsSoundly(sha, files, backend.docs, hashes);
      r := Sync(backend, files, corpora, faults);
    }
  }
}
