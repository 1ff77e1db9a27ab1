/** The prompt queue's file: one JSON record per line. */
module QueueText {
  import opened Options
  import opened Blanks

  datatype Entry = Entry(timestamp: string, user: string, prompt: string)

  /** `json.dumps`, and `json.loads` with None where it raises. */
  datatype Codec = Codec(dump: Entry -> string, load: string -> Option<Entry>, space: char -> bool)

  /** Records contain no raw newline, have no blanks around them, and decode to what was encoded. */
  ghost predicate Faithful(c: Codec) {
    && c.space('\n')
    && forall e {:trigger c.dump(e)} :: NoNewline(c.dump(e)) && Trimmed(c, c.dump(e)) && c.load(c.dump(e)) == Some(e)
  }

  ghost predicate NoNewline(s: string) {
    forall i :: 0 <= i < |s| ==> s[i] != '\n'
  }

  ghost predicate Trimmed(c: Codec, s: string) {
    s != "" && !c.space(s[0]) && !c.space(s[|s| - 1])
  }

  function Text(c: Codec, es: seq<Entry>): string {
    if es == [] then "" else c.dump(es[0]) + "\n" + Text(c, es[1..])
  }

  /** Python's iteration over the lines of a file, newlines included. */
  function LineEnd(s: string): (n: nat)
    ensures n <= |s| && (s != "" ==> n > 0)
  {
    if s == "" then 0 else if s[0] == '\n' then 1 else 1 + LineEnd(s[1..])
  }

  /** The entries of a line: one, or none when it is blank or does not decode. */
  function OfLine(c: Codec, line: string): seq<Entry> {
    var s := Strip(c.space, line);
    if s == "" then [] else if c.load(s).Some? then [c.load(s).value] else []
  }

  function Entries(c: Codec, text: string): seq<Entry> {
    if text == "" then []
    else
      var n := LineEnd(text);
      OfLine(c, text[..n]) + Entries(c, text[n..])
  }

  lemma {:induction false} LineEndAt(s: string, rest: string)
    requires NoNewline(s)
    ensures LineEnd(s + "\n" + rest) == |s| + 1
  {
    var t := s + "\n" + rest;
    if s == "" {
      assert t[0] == '\n';
    } else {
      assert t[1..] == s[1..] + "\n" + rest;
      LineEndAt(s[1..], rest);
    }
  }

  lemma {:induction false} StripRecord(c: Codec, s: string)
    requires Trimmed(c, s) && c.space('\n')
    ensures Strip(c.space, s + "\n") == s
  {
    assert (s + "\n")[0] == s[0];
    assert (s + "\n")[..|s|] == s;
    assert StripRight(c.space, s + "\n") == StripRight(c.space, s) == s;
  }

  lemma {:induction false} FirstRecord(c: Codec, s: string, more: string)
    requires NoNewline(s) && Trimmed(c, s) && c.space('\n') && c.load(s).Some?
    ensures Entries(c, s + "\n" + more) == [c.load(s).value] + Entries(c, more)
  {
    var text := s + "\n" + more;
    LineEndAt(s, more);
    StripRecord(c, s);
    assert text[..|s| + 1] == s + "\n" && text[|s| + 1..] == more;
    assert OfLine(c, text[..|s| + 1]) == [c.load(s).value];
  }

  lemma {:induction false} MoreRecords(c: Codec, es: seq<Entry>, rest: string)
    requires Faithful(c) && es != []
    ensures Entries(c, Text(c, es) + rest) == [es[0]] + Entries(c, Text(c, es[1..]) + rest)
  {
    var s, more := c.dump(es[0]), Text(c, es[1..]) + rest;
    FirstRecord(c, s, more);
    assert Text(c, es) + rest == s + "\n" + more;
  }

  lemma {:induction false} HeadFirst(es: seq<Entry>, more: seq<Entry>)
    requires es != []
    ensures es + more == [es[0]] + (es[1..] + more)
  {
  }

  /** Reading back what was appended gives the entries, whatever lines come after. */
  lemma {:induction false} ReadsBack(c: Codec, es: seq<Entry>, rest: string)
    requires Faithful(c)
    ensures Entries(c, Text(c, es) + rest) == es + Entries(c, rest)
  {
    if es == [] {
      assert Text(c, es) + rest == rest;
      assert [] + Entries(c, rest) == Entries(c, rest);
    } else {
      ReadsBack(c, es[1..], rest);
      MoreRecords(c, es, rest);
      HeadFirst(es, Entries(c, rest));
    }
  }

  lemma {:induction false} TextOfEntries(c: Codec, es: seq<Entry>)
    requires Faithful(c)
    ensures Entries(c, Text(c, es)) == es
  {
    ReadsBack(c, es, "");
    assert Text(c, es) + "" == Text(c, es);
  }

  lemma {:induction false} TextAppends(c: Codec, es: seq<Entry>, e: Entry)
    ensures Text(c, es + [e]) == Text(c, es) + c.dump(e) + "\n"
  {
    if es == [] {
      assert [e][1..] == [];
      assert Text(c, [e]) == c.dump(e) + "\n" + Text(c, []);
    } else {
      assert (es + [e])[1..] == es[1..] + [e];
      TextAppends(c, es[1..], e);
    }
  }

  method ReadLines(c: Codec, text: string) returns (entries: seq<Entry>)
    ensures entries == Entries(c, text)
  {
    entries := [];
    var rest := text;
    while rest != ""
      invariant Entries(c, text) == entries + Entries(c, rest)
      decreases |rest|
    {
      var n := LineEnd(rest);
      entries := entries + OfLine(c, rest[..n]);
      rest := rest[n..];
    }
  }

  /** The queue file, with its three operations; each runs inside one critical section. */
  class QueueFile {
    const codec: Codec
    var exists_: bool
    var text: string
    ghost var contents: seq<Entry>

    ghost predicate Valid()
      reads this
    {
      Faithful(codec) && text == Text(codec, contents) && (!exists_ ==> contents == [])
    }

    constructor (c: Codec)
      requires Faithful(c)
      ensures Valid() && contents == [] && codec == c
    {
      codec, exists_, text, contents := c, false, "", [];
    }

    method Enqueue(e: Entry)
      requires Valid()
      modifies this
      ensures Valid() && contents == old(contents) + [e]
    {
      TextAppends(codec, contents, e);
      exists_ := true;
      text := text + codec.dump(e) + "\n";
      contents := contents + [e];
    }

    method ReadEntries() returns (entries: seq<Entry>)
      requires Valid()
      ensures entries == contents
    {
      TextOfEntries(codec, contents);
      entries := ReadLines(codec, text);
    }

    /** Everything queued, oldest first, and the file left empty. */
    method Dequeue() returns (entries: seq<Entry>)
      requires Valid()
      modifies this
      ensures Valid() && entries == old(contents) && contents == []
    {
      if !exists_ {
        return [];
      }
      entries := ReadEntries();
      text, contents := "", [];
    }

    method Peek() returns (entries: seq<Entry>)
      requires Valid()
      ensures entries == contents
    {
      if !exists_ {
        return [];
      }
      entries := ReadEntries();
    }
  }
}

/** Enqueuers, dequeuers and peekers of one queue file, as processes that may crash at any step. */
module PromptQueue {
  import opened Options
  import opened QueueText

  type Pid = nat

  datatype Call = Enqueue(e: Entry) | Dequeue | Peek

  datatype Pc =
    | Idle
    | Waiting(call: Call)
    | Holding(call: Call)
    | Appended(e: Entry)
    | HasRead(call: Call, batch: seq<Entry>)
    | Truncated(batch: seq<Entry>)
    | Crashed(before: Pc)

  datatype Taken = Taken(pid: Pid, batch: seq<Entry>)
  datatype Added = Added(pid: Pid, e: Entry)

  /** `added` and `taken` list the appends and truncations in lock order; the last two maps, what callers were told. */
  datatype Shared = Shared(
    file: Option<seq<Entry>>,
    holder: Option<Pid>,
    pcs: map<Pid, Pc>,
    added: seq<Added>,
    taken: seq<Taken>,
    delivered: map<Pid, seq<Entry>>,
    peeked: map<Pid, seq<Entry>>)

  datatype Event = Start(p: Pid, call: Call) | Acquire(p: Pid) | Append(p: Pid) | Read(p: Pid) | Truncate(p: Pid)
                 | Release(p: Pid) | Crash(p: Pid)

  predicate Enabled(s: Shared, e: Event) {
    e.p in s.pcs &&
    var pc := s.pcs[e.p];
    match e
    case Start(_, _) => pc.Idle?
    case Acquire(_) => pc.Waiting? && s.holder.None?
    case Append(_) => pc.Holding? && pc.call.Enqueue?
    case Read(_) => pc.Holding? && !pc.call.Enqueue?
    case Truncate(_) => pc.HasRead? && pc.call.Dequeue?
    case Release(_) => pc.Appended? || pc.Truncated? || (pc.HasRead? && pc.call.Peek?)
    case Crash(_) => !pc.Crashed?
  }

  function Contents(s: Shared): seq<Entry> {
    if s.file.Some? then s.file.value else []
  }

  /** Without a file, dequeue and peek return at once; enqueue's open creates it before waiting for the lock. */
  function NextPc(s: Shared, e: Event): Pc
    requires Enabled(s, e)
  {
    var pc := s.pcs[e.p];
    match e
    case Start(_, call) => if s.file.None? && !call.Enqueue? then Idle else Waiting(call)
    case Acquire(_) => Holding(pc.call)
    case Append(_) => Appended(pc.call.e)
    case Read(_) => HasRead(pc.call, Contents(s))
    case Truncate(_) => Truncated(pc.batch)
    case Release(_) => Idle
    case Crash(_) => Crashed(pc)
  }

  function NextFile(s: Shared, e: Event): Option<seq<Entry>>
    requires Enabled(s, e)
  {
    match e
    case Start(_, call) => if call.Enqueue? then Some(Contents(s)) else s.file
    case Append(p) => Some(Contents(s) + [s.pcs[p].call.e])
    case Truncate(_) => Some([])
    case _ => s.file
  }

  function NextHolder(s: Shared, e: Event): Option<Pid>
    requires Enabled(s, e)
  {
    if e.Acquire? then Some(e.p)
    else if e.Release? || (e.Crash? && s.holder == Some(e.p)) then None else s.holder
  }

  function Of(m: map<Pid, seq<Entry>>, p: Pid): seq<Entry> {
    if p in m then m[p] else []
  }

  function Next(s: Shared, e: Event): Shared
    requires Enabled(s, e)
  {
    var pc := s.pcs[e.p];
    Shared(NextFile(s, e), NextHolder(s, e), s.pcs[e.p := NextPc(s, e)],
           if e.Append? then s.added + [Added(e.p, pc.call.e)] else s.added,
           if e.Truncate? then s.taken + [Taken(e.p, pc.batch)] else s.taken,
           if e.Release? && pc.Truncated? then s.delivered[e.p := Of(s.delivered, e.p) + pc.batch] else s.delivered,
           if e.Release? && pc.HasRead? then s.peeked[e.p := pc.batch] else s.peeked)
  }

  // ----- runs -----

  ghost predicate Initial(s: Shared) {
    && s.file.None? && s.holder.None? && s.added == [] && s.taken == [] && s.delivered == map[] && s.peeked == map[]
    && forall p :: p in s.pcs ==> s.pcs[p] == Idle
  }

  ghost predicate Step(s: Shared, t: Shared) {
    exists e :: Enabled(s, e) && t == Next(s, e)
  }

  ghost predicate Run(states: seq<Shared>) {
    states != [] && Initial(states[0]) && forall i :: 0 <= i < |states| - 1 ==> Step(states[i], states[i + 1])
  }

  // ----- the ledger -----

  function AllTaken(taken: seq<Taken>): seq<Entry> {
    if taken == [] then [] else AllTaken(taken[..|taken| - 1]) + taken[|taken| - 1].batch
  }

  function AllAdded(added: seq<Added>): seq<Entry> {
    if added == [] then [] else AllAdded(added[..|added| - 1]) + [added[|added| - 1].e]
  }

  function TakenBy(taken: seq<Taken>, p: Pid): seq<Entry> {
    if taken == [] then []
    else
      var n := |taken| - 1;
      TakenBy(taken[..n], p) + if taken[n].pid == p then taken[n].batch else []
  }

  predicate Critical(pc: Pc) {
    pc.Holding? || pc.Appended? || pc.HasRead? || pc.Truncated?
  }

  ghost predicate LockHeld(s: Shared) {
    && (forall p :: p in s.pcs && Critical(s.pcs[p]) ==> s.holder == Some(p))
    && (s.holder.Some? ==> s.holder.value in s.pcs && Critical(s.pcs[s.holder.value]))
  }

  /** What was read is still what is there. */
  ghost predicate ReadIsCurrent(s: Shared) {
    forall p :: p in s.pcs && s.pcs[p].HasRead? ==> s.pcs[p].batch == Contents(s)
  }

  ghost predicate Conserved(s: Shared) {
    AllTaken(s.taken) + Contents(s) == AllAdded(s.added)
  }

  /** Taken from the file, and not delivered to the caller: under way, or lost in a crash. */
  function Undelivered(pc: Pc): seq<Entry> {
    if pc.Truncated? then pc.batch else if pc.Crashed? && pc.before.Truncated? then pc.before.batch else []
  }

  ghost predicate Delivery(s: Shared) {
    forall p :: p in s.pcs ==> TakenBy(s.taken, p) == Of(s.delivered, p) + Undelivered(s.pcs[p])
  }

  ghost predicate Invariant(s: Shared) {
    LockHeld(s) && ReadIsCurrent(s) && Conserved(s) && Delivery(s)
  }

  lemma {:induction false} LockKept(s: Shared, e: Event)
    requires Enabled(s, e) && LockHeld(s)
    ensures LockHeld(Next(s, e))
  {
  }

  lemma {:induction false} ReadKept(s: Shared, e: Event)
    requires Enabled(s, e) && LockHeld(s) && ReadIsCurrent(s)
    ensures ReadIsCurrent(Next(s, e))
  {
  }

  lemma {:induction false} ConservedKept(s: Shared, e: Event)
    requires Enabled(s, e) && ReadIsCurrent(s) && Conserved(s)
    ensures Conserved(Next(s, e))
  {
    var t, pc := Next(s, e), s.pcs[e.p];
    if e.Append? {
      assert t.added[..|s.added|] == s.added;
    } else if e.Truncate? {
      assert t.taken[..|s.taken|] == s.taken;
    }
  }

  lemma {:induction false} DeliveryKept(s: Shared, e: Event)
    requires Enabled(s, e) && Delivery(s)
    ensures Delivery(Next(s, e))
  {
    var t := Next(s, e);
    forall p | p in t.pcs ensures TakenBy(t.taken, p) == Of(t.delivered, p) + Undelivered(t.pcs[p]) {
      if e.Truncate? {
        assert t.taken[..|s.taken|] == s.taken;
      }
    }
  }

  lemma {:induction false} RunKeeps(states: seq<Shared>, i: nat)
    requires Run(states) && i < |states|
    ensures Invariant(states[i])
  {
    if i > 0 {
      RunKeeps(states, i - 1);
      assert Step(states[i - 1], states[i]);
      var e :| Enabled(states[i - 1], e) && states[i] == Next(states[i - 1], e);
      LockKept(states[i - 1], e);
      ReadKept(states[i - 1], e);
      ConservedKept(states[i - 1], e);
      DeliveryKept(states[i - 1], e);
    }
  }

  // ----- what holds at every point of every run -----

  lemma {:induction false} MutualExclusion(states: seq<Shared>, i: nat, p: Pid, q: Pid)
    requires Run(states) && i < |states| && p in states[i].pcs && q in states[i].pcs
    requires Critical(states[i].pcs[p]) && Critical(states[i].pcs[q])
    ensures p == q
  {
    RunKeeps(states, i);
  }

  /** The lock is never left behind: whoever holds it is in its critical section. */
  lemma {:induction false} LockIsInUse(states: seq<Shared>, i: nat, p: Pid)
    requires Run(states) && i < |states| && states[i].holder == Some(p)
    ensures p in states[i].pcs && Critical(states[i].pcs[p])
  {
    RunKeeps(states, i);
  }

  /** The batches taken, in lock order, and then the file, are the entries appended, in lock order: once each, first in first out. */
  lemma {:induction false} FirstInFirstOut(states: seq<Shared>, i: nat)
    requires Run(states) && i < |states|
    ensures var s := states[i];
            AllTaken(s.taken) + Contents(s) == AllAdded(s.added)
  {
    RunKeeps(states, i);
  }

  /** A dequeuer is given every entry it took; only one that crashes after truncating loses its last batch. */
  lemma {:induction false} TakenIsDelivered(states: seq<Shared>, i: nat, p: Pid)
    requires Run(states) && i < |states| && p in states[i].pcs
    ensures var s := states[i];
            && TakenBy(s.taken, p) == Of(s.delivered, p) + Undelivered(s.pcs[p])
            && (s.pcs[p].Idle? ==> TakenBy(s.taken, p) == Of(s.delivered, p))
  {
    RunKeeps(states, i);
  }

  /** A peek returns all that is queued when it holds the lock, and takes nothing. */
  lemma {:induction false} PeekSeesAll(states: seq<Shared>, i: nat, p: Pid)
    requires Run(states) && i < |states| && p in states[i].pcs && states[i].pcs[p].HasRead? && states[i].pcs[p].call.Peek?
    ensures var s, t := states[i], Next(states[i], Release(p));
            && AllTaken(s.taken) + t.peeked[p] == AllAdded(s.added) && t.file == s.file && t.taken == s.taken
  {
    RunKeeps(states, i);
  }

  /**
   How a call begins: to enqueue opens the file, creating it if need be, and waits for the lock; without a file there is
   nothing to dequeue or to peek at, and the call returns at once.
   */
  lemma {:induction false} CallBegins(s: Shared, p: Pid, call: Call)
    requires p in s.pcs && s.pcs[p] == Idle
    ensures Enabled(s, Start(p, call))
    ensures var t := Next(s, Start(p, call));
            && Contents(t) == Contents(s) && t.holder == s.holder && t.added == s.added && t.taken == s.taken
            && (call.Enqueue? ==> t.file.Some? && t.pcs[p] == Waiting(call))
            && (!call.Enqueue? ==> t.file == s.file && t.pcs[p] == if s.file.Some? then Waiting(call) else Idle)
  {
  }

  // ----- one call on its own -----

  /** Whenever nobody holds the lock, a call can run to its return undisturbed: the entry is queued last. */
  lemma {:induction false} EnqueueCompletes(s: Shared, p: Pid, e: Entry) returns (t: Shared)
    requires p in s.pcs && s.pcs[p] == Idle && s.holder.None?
    ensures exists a, b, c :: Step(s, a) && Step(a, b) && Step(b, c) && Step(c, t)
    ensures Contents(t) == Contents(s) + [e] && t.holder.None? && t.pcs == s.pcs
  {
    var a := Next(s, Start(p, Enqueue(e)));
    var b := Next(a, Acquire(p));
    var c := Next(b, Append(p));
    t := Next(c, Release(p));
    assert Step(s, a) && Step(a, b) && Step(b, c) && Step(c, t);
    assert t.pcs == s.pcs;
  }

  /** Everything queued is given to the caller, and nothing is left. */
  lemma {:induction false} DequeueCompletes(s: Shared, p: Pid) returns (t: Shared)
    requires p in s.pcs && s.pcs[p] == Idle && s.holder.None?
    ensures s.file.Some? ==> exists a, b, c, d :: Step(s, a) && Step(a, b) && Step(b, c) && Step(c, d) && Step(d, t)
    ensures s.file.None? ==> Step(s, t) && t == s
    ensures Contents(t) == [] && t.holder.None? && t.pcs == s.pcs
    ensures Of(t.delivered, p) == Of(s.delivered, p) + Contents(s)
  {
    var a := Next(s, Start(p, Dequeue));
    if s.file.None? {
      t := a;
      assert t.pcs == s.pcs;
      assert Step(s, t);
    } else {
      var b := Next(a, Acquire(p));
      var c := Next(b, Read(p));
      var d := Next(c, Truncate(p));
      t := Next(d, Release(p));
      assert Step(s, a) && Step(a, b) && Step(b, c) && Step(c, d) && Step(d, t);
      assert t.pcs == s.pcs;
    }
  }

  /** Everything queued is shown to the caller, and all of it stays. */
  lemma {:induction false} PeekCompletes(s: Shared, p: Pid) returns (t: Shared)
    requires p in s.pcs && s.pcs[p] == Idle && s.holder.None?
    ensures s.file.Some? ==> exists a, b, c :: Step(s, a) && Step(a, b) && Step(b, c) && Step(c, t)
    ensures s.file.Some? ==> t.file == s.file && t.holder.None? && t.pcs == s.pcs && Of(t.peeked, p) == Contents(s)
  {
    if s.file.None? {
      t := s;
    } else {
      var a := Next(s, Start(p, Peek));
      var b := Next(a, Acquire(p));
      var c := Next(b, Read(p));
      t := Next(c, Release(p));
      assert Step(s, a) && Step(a, b) && Step(b, c) && Step(c, t);
      assert t.pcs == s.pcs;
    }
  }
}
