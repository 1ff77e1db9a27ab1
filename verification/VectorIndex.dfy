/** The sqlite-vec backend: two tables kept in step by transactions that may fail at any statement. */
module VectorIndex {
  import opened Options

  type DocId = string
  datatype Rowid = Rowid(n: int)
  type Vector = seq<real>

  datatype Row = Row(doc: DocId, text: string, corpus: string)

  datatype Stored = Stored(text: string, corpus: string)

  /** The embedder, None where it raises or does not return one vector, and the backend's dimension. */
  datatype Embedder = Embedder(embed: string -> Option<Vector>, dim: nat)

  predicate Embeds(m: Embedder, text: string) {
    m.embed(text).Some? && |m.embed(text).value| == m.dim
  }

  type Meta = map<Rowid, Row>
  type Index = map<Rowid, Vector>
  type Rows = map<DocId, Rowid>

  ghost predicate HasRow(meta: Meta, rows: Rows, d: DocId) {
    d in rows && rows[d] in meta && meta[rows[d]].doc == d
  }

  ghost predicate OwnRow(meta: Meta, rows: Rows, r: Rowid) {
    r in meta && meta[r].doc in rows && rows[meta[r].doc] == r
  }

  ghost predicate Embedded(m: Embedder, meta: Meta, index: Index, r: Rowid) {
    r in meta && r in index && Embeds(m, meta[r].text) && index[r] == m.embed(meta[r].text).value
  }

  /** The tables hold the same rowids, a document has one row, and each vector embeds the text beside it. */
  ghost predicate InStep(m: Embedder, meta: Meta, index: Index, rows: Rows) {
    && meta.Keys == index.Keys
    && (forall d {:trigger HasRow(meta, rows, d)} :: d in rows ==> HasRow(meta, rows, d))
    && (forall r {:trigger OwnRow(meta, rows, r)} :: r in meta ==> OwnRow(meta, rows, r))
    && (forall r {:trigger Embedded(m, meta, index, r)} :: r in meta ==> Embedded(m, meta, index, r))
  }

  ghost predicate DocTold(meta: Meta, rows: Rows, docs: map<DocId, Stored>, d: DocId) {
    d in rows && rows[d] in meta && d in docs && docs[d] == Stored(meta[rows[d]].text, meta[rows[d]].corpus)
  }

  /** The documents are what the tables hold. */
  ghost predicate Tells(meta: Meta, rows: Rows, docs: map<DocId, Stored>) {
    && rows.Keys == docs.Keys
    && (forall d {:trigger DocTold(meta, rows, docs, d)} :: d in rows ==> DocTold(meta, rows, docs, d))
  }

  /** Writing a document's row, the one it has or one nothing uses, together with its vector. */
  lemma {:induction false} PutKeepsStep(m: Embedder, meta: Meta, index: Index, rows: Rows, r: Rowid, row: Row)
    requires InStep(m, meta, index, rows) && Embeds(m, row.text)
    requires row.doc in rows ==> r == rows[row.doc]
    requires row.doc !in rows ==> r !in meta
    ensures InStep(m, meta[r := row], index[r := m.embed(row.text).value], rows[row.doc := r])
  {
    var meta', index', rows' := meta[r := row], index[r := m.embed(row.text).value], rows[row.doc := r];
    forall d | d in rows' ensures HasRow(meta', rows', d) {
      assert d != row.doc ==> HasRow(meta, rows, d);
      assert row.doc in rows ==> HasRow(meta, rows, row.doc);
    }
    forall q | q in meta' ensures OwnRow(meta', rows', q) && Embedded(m, meta', index', q) {
      assert q != r ==> OwnRow(meta, rows, q) && Embedded(m, meta, index, q);
    }
  }

  lemma {:induction false} PutDocs(
    m: Embedder, meta: Meta, index: Index, rows: Rows, docs: map<DocId, Stored>, r: Rowid, row: Row)
    requires InStep(m, meta, index, rows) && Tells(meta, rows, docs)
    requires row.doc in rows ==> r == rows[row.doc]
    requires row.doc !in rows ==> r !in meta
    ensures Tells(meta[r := row], rows[row.doc := r], docs[row.doc := Stored(row.text, row.corpus)])
  {
    var meta', rows', docs' := meta[r := row], rows[row.doc := r], docs[row.doc := Stored(row.text, row.corpus)];
    forall d | d in rows' ensures DocTold(meta', rows', docs', d) {
      assert d != row.doc ==> HasRow(meta, rows, d) && DocTold(meta, rows, docs, d);
      assert row.doc in rows ==> HasRow(meta, rows, row.doc);
    }
  }

  lemma {:induction false} RemoveKeepsStep(
    m: Embedder, meta: Meta, index: Index, rows: Rows, docs: map<DocId, Stored>, doc: DocId)
    requires InStep(m, meta, index, rows) && Tells(meta, rows, docs) && doc in rows
    ensures rows[doc] in meta
    ensures InStep(m, meta - {rows[doc]}, index - {rows[doc]}, rows - {doc})
    ensures Tells(meta - {rows[doc]}, rows - {doc}, docs - {doc})
  {
    var row := rows[doc];
    var meta', index', rows', docs' := meta - {row}, index - {row}, rows - {doc}, docs - {doc};
    assert HasRow(meta, rows, doc);
    forall d | d in rows' ensures HasRow(meta', rows', d) && DocTold(meta', rows', docs', d) {
      assert HasRow(meta, rows, d) && DocTold(meta, rows, docs, d);
    }
    forall q | q in meta' ensures OwnRow(meta', rows', q) && Embedded(m, meta', index', q) {
      assert OwnRow(meta, rows, q) && Embedded(m, meta, index, q);
    }
  }

  class SqliteVecBackend {
    const embedder: Embedder
    var meta: Meta
    var index: Index
    /** The row of each document, and what the tables say about it. */
    ghost var rows: Rows
    ghost var docs: map<DocId, Stored>

    ghost predicate Valid()
      reads this
    {
      InStep(embedder, meta, index, rows) && Tells(meta, rows, docs)
    }

    constructor (m: Embedder)
      ensures Valid() && docs == map[] && embedder == m
    {
      embedder, meta, index, rows, docs := m, map[], map[], map[], map[];
    }

    /** `SELECT rowid ... WHERE doc_id = ?`. */
    method FindRow(doc: DocId) returns (row: Option<Rowid>)
      requires Valid()
      ensures row == if doc in rows then Some(rows[doc]) else None
    {
      var left := meta.Keys;
      while left != {}
        invariant left <= meta.Keys && forall r :: r in meta && meta[r].doc == doc ==> r in left
      {
        var r :| r in left;
        if meta[r].doc == doc {
          assert OwnRow(meta, rows, r);
          return Some(r);
        }
        left := left - {r};
      }
      assert doc in rows ==> HasRow(meta, rows, doc);
      row := None;
    }

    /** The rowid of an insert without one: past every rowid in the table. */
    method FreshRowid() returns (row: Rowid)
      ensures row !in meta
    {
      row := Rowid(1);
      var left := meta.Keys;
      while left != {}
        invariant left <= meta.Keys && forall r :: r in meta && r !in left ==> r.n < row.n
      {
        var r :| r in left;
        if r.n >= row.n {
          row := Rowid(r.n + 1);
        }
        left := left - {r};
      }
    }

    /**
     Inserts or replaces a document. `fault` is the number of the statement that raises, if any; whichever it is, the
     tables are afterwards as they were before.
     */
    method Upsert(doc: DocId, text: string, corpus: string, fault: nat) returns (ok: bool)
      requires Valid()
      modifies this
      ensures Valid()
      ensures docs == if ok then old(docs)[doc := Stored(text, corpus)] else old(docs)
      ensures !ok ==> meta == old(meta) && index == old(index)
      ensures ok <==> embedder.embed(text).Some? && |embedder.embed(text).value| == embedder.dim && fault >= 5
    {
      if !Embeds(embedder, text) || fault == 0 {
        return false;
      }
      var found := FindRow(doc);
      if fault == 1 {
        return false;
      }
      var row;
      if found.Some? {
        row := found.value;
      } else {
        row := FreshRowid();
      }
      PutKeepsStep(embedder, meta, index, rows, row, Row(doc, text, corpus));
      PutDocs(embedder, meta, index, rows, docs, row, Row(doc, text, corpus));
      ok := WriteRows(row, found.Some?, Row(doc, text, corpus), fault);
      if ok {
        rows, docs := rows[doc := row], docs[doc := Stored(text, corpus)];
      }
    }

    /** The three writes of the transaction, rolled back together. */
    method WriteRows(row: Rowid, exists_: bool, content: Row, fault: nat) returns (ok: bool)
      requires Embeds(embedder, content.text)
      modifies `meta, `index
      ensures meta == if ok then old(meta)[row := content] else old(meta)
      ensures index == if ok then old(index)[row := embedder.embed(content.text).value] else old(index)
      ensures ok <==> fault !in {2, 3, 4}
    {
      var meta0, index0 := meta, index;
      if exists_ {
        index := index - {row};
        if fault == 2 {
          meta, index := meta0, index0;
          return false;
        }
      } else if fault == 2 {
        return false;
      }
      meta := meta[row := content];
      if fault == 3 {
        meta, index := meta0, index0;
        return false;
      }
      index := index[row := embedder.embed(content.text).value];
      if fault == 4 {
        meta, index := meta0, index0;
        return false;
      }
      ok := true;
    }

    /** Removes a document; without one there is nothing to do. */
    method Delete(doc: DocId, fault: nat) returns (ok: bool)
      requires Valid()
      modifies this
      ensures Valid()
      ensures docs == if ok then old(docs) - {doc} else old(docs)
      ensures !ok ==> meta == old(meta) && index == old(index)
      ensures ok <==> fault >= 3 || (doc !in old(docs) && fault > 0)
    {
      var meta0, index0 := meta, index;
      var found := FindRow(doc);
      if fault == 0 {
        return false;
      }
      if found.None? {
        return true;
      }
      RemoveKeepsStep(embedder, meta, index, rows, docs, doc);
      index := index - {found.value};
      if fault == 1 {
        index := index0;
        return false;
      }
      meta := meta - {found.value};
      if fault == 2 {
        meta, index := meta0, index0;
        return false;
      }
      docs := docs - {doc};
      rows := rows - {doc};
      ok := true;
    }

    /** The documents of the given corpora. */
    method KnownDocIds(corpora: set<string>) returns (ids: set<DocId>)
      requires Valid()
      ensures ids == set d | d in docs && docs[d].corpus in corpora
    {
      ids := {};
      var left := meta.Keys;
      assert forall d :: d in rows ==> HasRow(meta, rows, d) && DocTold(meta, rows, docs, d);
      while left != {}
        invariant left <= meta.Keys
        invariant forall d :: d in ids <==> d in rows && rows[d] !in left && meta[rows[d]].corpus in corpora
      {
        var r :| r in left;
        assert OwnRow(meta, rows, r);
        assert DocTold(meta, rows, docs, meta[r].doc);
        if meta[r].corpus in corpora {
          ids := ids + {meta[r].doc};
        }
        left := left - {r};
      }
    }
  }
}
