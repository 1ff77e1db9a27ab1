/** Task state as the state file holds it. */
module TaskState {

  /** A JSON value; only `None` has to be told apart from the others. */
  datatype Json = Null | Json(text: string)

  type Task = map<string, Json>
  type State = map<string, Task>

  datatype Op = SetTask(id: string, task: Task) | DeleteTask(id: string)

  /** The two mutations, `d.update({id: task})` and `d.pop(id, None)`. */
  function Apply(op: Op, d: State): State {
    match op
    case SetTask(id, task) => d[id := task]
    case DeleteTask(id) => d - {id}
  }
}

/** `_locked_persist_json` run by any number of processes on one file, any of which may crash at any step. */
module LockedState {
  import opened Options
  import opened TaskState

  type Pid = nat
  type Inode = nat

  /** What a file may hold: nothing but blanks, a whole document, or something that does not parse to a dict. */
  datatype Content = Blank | Document(state: State) | Unreadable

  /** Where a process stands between two steps; `next` is the state it is about to write. */
  datatype Pc =
    | Idle
    | Waiting(op: Op)
    | Holding(op: Op)
    | HasRead(op: Op, next: State)
    | Writing(op: Op, next: State, temp: Inode)
    | Written(op: Op, next: State, temp: Inode)
    | Replaced(op: Op, next: State)
    | Failing(op: Op)
    | Crashed(committed: Option<Op>)

  datatype Commit = Commit(pid: Pid, op: Op)

  /** An unlocked reader holds the inode it opened; `at` counts the commits at that moment. */
  datatype Reader = Reader(inode: Inode, at: nat)

  datatype Shared = Shared(
    path: Option<Inode>,
    inodes: map<Inode, Content>,
    holder: Option<Pid>,
    pcs: map<Pid, Pc>,
    views: map<Pid, State>,
    returned: map<Pid, seq<Op>>,
    readers: map<nat, Reader>,
    commits: seq<Commit>)

  datatype Event =
    | Call(p: Pid, op: Op)
    | Acquire(p: Pid)
    | Read(p: Pid, readable: bool)
    | MakeTemp(p: Pid, inode: Inode, made: bool)
    | WriteSome(p: Pid)
    | WriteTemp(p: Pid, written: bool)
    | Replace(p: Pid, replaced: bool)
    | Release(p: Pid)
    | Crash(p: Pid)
    | OpenUnlocked(r: nat)

  /** The state in a file, or None where reading it raises. */
  function Parse(c: Content): Option<State> {
    match c
    case Blank => Some(map[])
    case Document(d) => Some(d)
    case Unreadable => None
  }

  function AtPath(s: Shared): Option<Content> {
    if s.path.Some? && s.path.value in s.inodes then Some(s.inodes[s.path.value]) else None
  }

  predicate Enabled(s: Shared, e: Event) {
    match e
    case OpenUnlocked(r) => s.path.Some?
    case _ =>
      e.p in s.pcs &&
      var pc := s.pcs[e.p];
      match e
      case Call(_, _) => pc.Idle?
      case Acquire(_) => pc.Waiting? && s.holder.None?
      case Read(_, _) => pc.Holding?
      case MakeTemp(_, inode, _) => pc.HasRead? && inode !in s.inodes
      case WriteSome(_) => pc.Writing?
      case WriteTemp(_, _) => pc.Writing?
      case Replace(_, _) => pc.Written?
      case Release(_) => pc.Replaced? || pc.Failing?
      case Crash(_) => !pc.Crashed?
  }

  /** Where the moving process is afterwards. */
  function NextPc(s: Shared, e: Event): Pc
    requires Enabled(s, e) && !e.OpenUnlocked?
  {
    var pc := s.pcs[e.p];
    match e
    case Call(_, op) => Waiting(op)
    case Acquire(_) => Holding(pc.op)
    case Read(_, readable) => AfterRead(AtPath(s), pc.op, readable)
    case MakeTemp(_, inode, made) => if made then Writing(pc.op, pc.next, inode) else Failing(pc.op)
    case WriteSome(_) => pc
    case WriteTemp(_, written) => if written then Written(pc.op, pc.next, pc.temp) else Failing(pc.op)
    case Replace(_, replaced) => if replaced then Replaced(pc.op, pc.next) else Failing(pc.op)
    case Release(_) => Idle
    case Crash(_) => Crashed(if pc.Replaced? then Some(pc.op) else None)
  }

  /** Reading fails on an I/O error or on text that is not a dict; either way nothing is written. */
  function AfterRead(found: Option<Content>, op: Op, readable: bool): Pc {
    if found.None? then HasRead(op, Apply(op, map[]))
    else if readable && Parse(found.value).Some? then HasRead(op, Apply(op, Parse(found.value).value))
    else Failing(op)
  }

  predicate Commits(e: Event) {
    e.Replace? && e.replaced
  }

  predicate Writes(e: Event) {
    e.WriteSome? || e.WriteTemp?
  }

  function NextPath(s: Shared, e: Event): Option<Inode>
    requires Enabled(s, e)
  {
    if Commits(e) then Some(s.pcs[e.p].temp) else s.path
  }

  function NextInodes(s: Shared, e: Event): map<Inode, Content>
    requires Enabled(s, e)
  {
    if e.MakeTemp? && e.made then s.inodes[e.inode := Blank]
    else if Writes(e) then
      s.inodes[s.pcs[e.p].temp := if e.WriteTemp? && e.written then Document(s.pcs[e.p].next) else Unreadable]
    else s.inodes
  }

  /** A crash closes the lock file, which gives the lock up. */
  function NextHolder(s: Shared, e: Event): Option<Pid>
    requires Enabled(s, e)
  {
    if e.Acquire? then Some(e.p)
    else if e.Release? || (e.Crash? && s.holder == Some(e.p)) then None else s.holder
  }

  function NextReturned(s: Shared, e: Event): map<Pid, seq<Op>>
    requires Enabled(s, e)
  {
    if e.Release? && s.pcs[e.p].Replaced? then s.returned[e.p := Returned(s.returned, e.p) + [s.pcs[e.p].op]]
    else s.returned
  }

  function Returned(returned: map<Pid, seq<Op>>, p: Pid): seq<Op> {
    if p in returned then returned[p] else []
  }

  function NextCommits(s: Shared, e: Event): seq<Commit>
    requires Enabled(s, e)
  {
    if Commits(e) then s.commits + [Commit(e.p, s.pcs[e.p].op)] else s.commits
  }

  function Next(s: Shared, e: Event): Shared
    requires Enabled(s, e)
  {
    Shared(NextPath(s, e), NextInodes(s, e), NextHolder(s, e),
           if e.OpenUnlocked? then s.pcs else s.pcs[e.p := NextPc(s, e)],
           if e.Release? && s.pcs[e.p].Replaced? then s.views[e.p := s.pcs[e.p].next] else s.views,
           NextReturned(s, e),
           if e.OpenUnlocked? then s.readers[e.r := Reader(s.path.value, |s.commits|)] else s.readers,
           NextCommits(s, e))
  }

  // ----- runs -----

  /** Processes that have done nothing, and whatever file is there. */
  ghost predicate Initial(s: Shared, file: Option<Content>) {
    && s.holder.None? && s.readers == map[] && s.views == map[] && s.commits == []
    && (forall p :: p in s.pcs ==> s.pcs[p] == Idle)
    && (forall p :: p in s.returned ==> s.returned[p] == [])
    && (s.path.Some? ==> s.path.value in s.inodes) && AtPath(s) == file
  }

  ghost predicate Step(s: Shared, t: Shared) {
    exists e :: Enabled(s, e) && t == Next(s, e)
  }

  ghost predicate Run(states: seq<Shared>, file: Option<Content>) {
    states != [] && Initial(states[0], file) && forall i :: 0 <= i < |states| - 1 ==> Step(states[i], states[i + 1])
  }

  // ----- what the file should hold -----

  function Fold(d: State, commits: seq<Commit>): State {
    if commits == [] then d
    else Apply(commits[|commits| - 1].op, Fold(d, commits[..|commits| - 1]))
  }

  /** The state the first writer starts from. */
  function Base(file: Option<Content>): State {
    if file.Some? && Parse(file.value).Some? then Parse(file.value).value else map[]
  }

  /** The file after the first `k` commits. */
  function Version(file: Option<Content>, commits: seq<Commit>, k: nat): Option<Content>
    requires k <= |commits|
  {
    if k == 0 then file else Some(Document(Fold(Base(file), commits[..k])))
  }

  predicate Critical(pc: Pc) {
    pc.Holding? || pc.HasRead? || pc.Writing? || pc.Written? || pc.Replaced? || pc.Failing?
  }

  ghost predicate LockHeld(s: Shared) {
    && (forall p :: p in s.pcs && Critical(s.pcs[p]) ==> s.holder == Some(p))
    && (s.holder.Some? ==> s.holder.value in s.pcs && Critical(s.pcs[s.holder.value]))
  }

  ghost predicate FileCurrent(s: Shared, file: Option<Content>) {
    && (s.path.Some? ==> s.path.value in s.inodes)
    && AtPath(s) == Version(file, s.commits, |s.commits|)
  }

  /** The process in the critical section works from the current file. */
  ghost predicate WorkCurrent(s: Shared, file: Option<Content>) {
    forall p :: p in s.pcs ==> PcCurrent(s, file, s.pcs[p])
  }

  ghost predicate PcCurrent(s: Shared, file: Option<Content>, pc: Pc) {
    var now := Fold(Base(file), s.commits);
    match pc
    case HasRead(op, next) => next == Apply(op, now) && MayCommit(file)
    case Writing(op, next, temp) => next == Apply(op, now) && MayCommit(file) && Private(s, temp)
    case Written(op, next, temp) =>
      next == Apply(op, now) && MayCommit(file) && Private(s, temp) && s.inodes[temp] == Document(next)
    case Replaced(op, next) => next == now && s.commits != []
    case _ => true
  }

  predicate MayCommit(file: Option<Content>) {
    file.Some? ==> Parse(file.value).Some?
  }

  /** A temporary file that no path and no reader refers to. */
  ghost predicate Private(s: Shared, temp: Inode) {
    temp in s.inodes && s.path != Some(temp) && forall r :: r in s.readers ==> s.readers[r].inode != temp
  }

  ghost predicate ReadersSettled(s: Shared, file: Option<Content>) {
    forall r :: r in s.readers ==> ReaderSettled(s, file, s.readers[r])
  }

  ghost predicate ReaderSettled(s: Shared, file: Option<Content>, r: Reader) {
    r.at <= |s.commits| && r.inode in s.inodes && Some(s.inodes[r.inode]) == Version(file, s.commits, r.at)
  }

  function OpsOf(commits: seq<Commit>, p: Pid): seq<Op> {
    if commits == [] then []
    else
      var n := |commits| - 1;
      OpsOf(commits[..n], p) + if commits[n].pid == p then [commits[n].op] else []
  }

  /** Committed but not reported to the caller yet, or ever after a crash. */
  function Unreported(pc: Pc): seq<Op> {
    if pc.Replaced? then [pc.op]
    else if pc.Crashed? && pc.committed.Some? then [pc.committed.value] else []
  }

  ghost predicate CommitsAccounted(s: Shared) {
    && (forall p :: p in s.pcs ==> OpsOf(s.commits, p) == Returned(s.returned, p) + Unreported(s.pcs[p]))
    && (forall i :: 0 <= i < |s.commits| ==> s.commits[i].pid in s.pcs)
  }

  /** A process's in-memory state is the file as some commit left it. */
  ghost predicate ViewsSettled(s: Shared, file: Option<Content>) {
    forall p :: p in s.views ==> IsVersion(s, file, s.views[p])
  }

  ghost predicate IsVersion(s: Shared, file: Option<Content>, d: State) {
    exists k :: 1 <= k <= |s.commits| && Some(Document(d)) == Version(file, s.commits, k)
  }

  ghost predicate Invariant(s: Shared, file: Option<Content>) {
    LockHeld(s) && FileCurrent(s, file) && WorkCurrent(s, file) && ReadersSettled(s, file) && CommitsAccounted(s) &&
    ViewsSettled(s, file) &&
    (s.commits != [] ==> MayCommit(file))
  }

  // ----- each part is kept by every step -----

  lemma {:induction false} LockKept(s: Shared, e: Event)
    requires Enabled(s, e) && LockHeld(s)
    ensures LockHeld(Next(s, e))
  {
    if !e.OpenUnlocked? {
      assert forall q :: q in s.pcs && q != e.p ==> q in Next(s, e).pcs && Next(s, e).pcs[q] == s.pcs[q];
    }
  }

  lemma {:induction false} VersionsKept(file: Option<Content>, commits: seq<Commit>, c: Commit, k: nat)
    requires k <= |commits|
    ensures Version(file, commits + [c], k) == Version(file, commits, k)
  {
    assert (commits + [c])[..k] == commits[..k];
  }

  lemma {:induction false} FoldNow(file: Option<Content>, commits: seq<Commit>, c: Commit)
    ensures Fold(Base(file), commits + [c]) == Apply(c.op, Fold(Base(file), commits))
    ensures Version(file, commits + [c], |commits| + 1) == Some(Document(Apply(c.op, Fold(Base(file), commits))))
  {
    assert (commits + [c])[..|commits|] == commits;
    assert (commits + [c])[..|commits| + 1] == commits + [c];
  }

  lemma {:induction false} CurrentState(s: Shared, file: Option<Content>)
    requires FileCurrent(s, file) && (s.commits != [] ==> MayCommit(file))
    requires AtPath(s).Some? ==> Parse(AtPath(s).value).Some?
    ensures Fold(Base(file), s.commits) == if AtPath(s).Some? then Parse(AtPath(s).value).value else map[]
    ensures MayCommit(file)
  {
    assert s.commits[..|s.commits|] == s.commits;
  }

  lemma {:induction false} ReplaceMakesCurrent(s: Shared, p: Pid, file: Option<Content>)
    requires Enabled(s, Replace(p, true)) && FileCurrent(s, file) && PcCurrent(s, file, s.pcs[p])
    ensures FileCurrent(Next(s, Replace(p, true)), file)
  {
    FoldNow(file, s.commits, Commit(p, s.pcs[p].op));
  }

  lemma {:induction false} FileKept(s: Shared, e: Event, file: Option<Content>)
    requires Enabled(s, e) && FileCurrent(s, file) && WorkCurrent(s, file)
    ensures FileCurrent(Next(s, e), file)
  {
    if e.Replace? && e.replaced {
      ReplaceMakesCurrent(s, e.p, file);
    } else {
      if e.WriteTemp? || e.WriteSome? {
        assert PcCurrent(s, file, s.pcs[e.p]);
      }
      FileUntouched(s, e);
    }
  }

  /** Only a rename changes the file. */
  lemma {:induction false} FileUntouched(s: Shared, e: Event)
    requires Enabled(s, e) && (s.path.Some? ==> s.path.value in s.inodes) && !(e.Replace? && e.replaced)
    requires e.WriteTemp? || e.WriteSome? ==> s.path != Some(s.pcs[e.p].temp)
    ensures Next(s, e).path == s.path && Next(s, e).commits == s.commits && AtPath(Next(s, e)) == AtPath(s)
    ensures s.path.Some? ==> s.path.value in Next(s, e).inodes
  {
  }

  lemma {:induction false} WorkKept(s: Shared, e: Event, file: Option<Content>)
    requires Enabled(s, e) && LockHeld(s) && FileCurrent(s, file) && WorkCurrent(s, file) && ReadersSettled(s, file)
    requires s.commits != [] ==> MayCommit(file)
    ensures WorkCurrent(Next(s, e), file)
  {
    var t := Next(s, e);
    forall q | q in t.pcs ensures PcCurrent(t, file, t.pcs[q]) {
      assert PcCurrent(s, file, s.pcs[q]);
      PcKept(s, e, file, q);
    }
  }

  lemma {:induction false} PcKept(s: Shared, e: Event, file: Option<Content>, q: Pid)
    requires Enabled(s, e) && LockHeld(s) && FileCurrent(s, file) && ReadersSettled(s, file) && q in s.pcs
    requires PcCurrent(s, file, s.pcs[q]) && (s.commits != [] ==> MayCommit(file))
    ensures PcCurrent(Next(s, e), file, Next(s, e).pcs[q])
  {
    if e.OpenUnlocked? || e.p != q {
      OtherPcKept(s, e, file, q);
    } else if e.Read? {
      if AtPath(s).Some? ==> Parse(AtPath(s).value).Some? {
        CurrentState(s, file);
      }
    } else if e.MakeTemp? {
      NewTempIsPrivate(s, e.inode, file);
    } else if e.Replace? {
      FoldNow(file, s.commits, Commit(q, s.pcs[q].op));
    } else {
      OwnStep(s, e, file);
    }
  }

  lemma {:induction false} OwnStep(s: Shared, e: Event, file: Option<Content>)
    requires Enabled(s, e) && !e.OpenUnlocked? && !e.Read? && !e.MakeTemp? && !e.Replace?
    requires PcCurrent(s, file, s.pcs[e.p])
    ensures PcCurrent(Next(s, e), file, Next(s, e).pcs[e.p])
  {
  }

  lemma {:induction false} NewTempIsPrivate(s: Shared, inode: Inode, file: Option<Content>)
    requires inode !in s.inodes && FileCurrent(s, file) && ReadersSettled(s, file)
    ensures Private(s.(inodes := s.inodes[inode := Blank]), inode)
  {
    forall r | r in s.readers ensures s.readers[r].inode != inode {
      assert ReaderSettled(s, file, s.readers[r]);
    }
  }

  /** A step of another process finds this one outside the critical section, or is outside itself. */
  lemma {:induction false} OtherPcKept(s: Shared, e: Event, file: Option<Content>, q: Pid)
    requires Enabled(s, e) && LockHeld(s) && q in s.pcs && (e.OpenUnlocked? || e.p != q)
    requires PcCurrent(s, file, s.pcs[q])
    ensures q in Next(s, e).pcs && Next(s, e).pcs[q] == s.pcs[q] && PcCurrent(Next(s, e), file, s.pcs[q])
  {
    if Critical(s.pcs[q]) && !e.OpenUnlocked? {
      assert !Critical(s.pcs[e.p]);
    }
  }

  lemma {:induction false} ReadersKept(s: Shared, e: Event, file: Option<Content>)
    requires Enabled(s, e) && FileCurrent(s, file) && WorkCurrent(s, file) && ReadersSettled(s, file)
    ensures ReadersSettled(Next(s, e), file)
  {
    var t := Next(s, e);
    forall r | r in t.readers ensures ReaderSettled(t, file, t.readers[r]) {
      if r in s.readers {
        assert ReaderSettled(s, file, s.readers[r]);
      }
      match e
      case Replace(p, replaced) =>
        VersionsKept(file, s.commits, Commit(p, s.pcs[p].op), s.readers[r].at);
      case WriteTemp(p, written) =>
        assert PcCurrent(s, file, s.pcs[p]);
      case _ =>
    }
  }

  lemma {:induction false} OpsOfMore(commits: seq<Commit>, c: Commit, p: Pid)
    ensures OpsOf(commits + [c], p) == OpsOf(commits, p) + if c.pid == p then [c.op] else []
  {
    assert (commits + [c])[..|commits|] == commits;
  }

  lemma {:induction false} AccountKept(s: Shared, e: Event)
    requires Enabled(s, e) && CommitsAccounted(s)
    ensures CommitsAccounted(Next(s, e))
  {
    var t := Next(s, e);
    forall q | q in t.pcs ensures OpsOf(t.commits, q) == Returned(t.returned, q) + Unreported(t.pcs[q]) {
      if e.Replace? && e.replaced {
        OpsOfMore(s.commits, Commit(e.p, s.pcs[e.p].op), q);
      } else {
        AccountOf(s, e, q);
      }
    }
    PidsKept(s, e);
  }

  lemma {:induction false} PidsKept(s: Shared, e: Event)
    requires Enabled(s, e)
    ensures Next(s, e).pcs.Keys == s.pcs.Keys
    ensures Next(s, e).commits == s.commits || (e.Replace? && Next(s, e).commits == s.commits + [Commit(e.p, s.pcs[e.p].op)])
  {
  }

  lemma {:induction false} AccountOf(s: Shared, e: Event, q: Pid)
    requires Enabled(s, e) && q in s.pcs && !(e.Replace? && e.replaced)
    ensures q in Next(s, e).pcs && Next(s, e).commits == s.commits
    ensures Returned(Next(s, e).returned, q) + Unreported(Next(s, e).pcs[q]) == Returned(s.returned, q) + Unreported(s.pcs[q])
  {
  }

  lemma {:induction false} CommitOnlyReadable(s: Shared, e: Event, file: Option<Content>)
    requires Enabled(s, e) && WorkCurrent(s, file) && (s.commits != [] ==> MayCommit(file))
    ensures Next(s, e).commits != [] ==> MayCommit(file)
  {
    if e.Replace? {
      assert PcCurrent(s, file, s.pcs[e.p]);
    }
  }

  lemma {:induction false} VersionKept(s: Shared, e: Event, file: Option<Content>, d: State)
    requires Enabled(s, e) && IsVersion(s, file, d)
    ensures IsVersion(Next(s, e), file, d)
  {
    var k :| 1 <= k <= |s.commits| && Some(Document(d)) == Version(file, s.commits, k);
    if Commits(e) {
      VersionsKept(file, s.commits, Commit(e.p, s.pcs[e.p].op), k);
    }
    assert Some(Document(d)) == Version(file, Next(s, e).commits, k);
  }

  lemma {:induction false} ViewsKept(s: Shared, e: Event, file: Option<Content>)
    requires Enabled(s, e) && WorkCurrent(s, file) && ViewsSettled(s, file)
    ensures ViewsSettled(Next(s, e), file)
  {
    var t := Next(s, e);
    forall p | p in t.views ensures IsVersion(t, file, t.views[p]) {
      if e.Release? && s.pcs[e.p].Replaced? && p == e.p {
        assert PcCurrent(s, file, s.pcs[p]);
        assert s.commits[..|s.commits|] == s.commits;
        assert Some(Document(t.views[p])) == Version(file, t.commits, |t.commits|);
      } else {
        VersionKept(s, e, file, t.views[p]);
      }
    }
  }

  lemma {:induction false} InvariantKept(s: Shared, e: Event, file: Option<Content>)
    requires Enabled(s, e) && Invariant(s, file)
    ensures Invariant(Next(s, e), file)
  {
    LockKept(s, e);
    FileKept(s, e, file);
    WorkKept(s, e, file);
    ReadersKept(s, e, file);
    AccountKept(s, e);
    ViewsKept(s, e, file);
    CommitOnlyReadable(s, e, file);
  }

  lemma {:induction false} RunKeeps(states: seq<Shared>, file: Option<Content>, i: nat)
    requires Run(states, file) && i < |states|
    ensures Invariant(states[i], file)
  {
    if i > 0 {
      RunKeeps(states, file, i - 1);
      assert Step(states[i - 1], states[i]);
      var e :| Enabled(states[i - 1], e) && states[i] == Next(states[i - 1], e);
      InvariantKept(states[i - 1], e, file);
    }
  }

  // ----- what holds at every point of every run -----

  /** The lock is never left behind: whoever holds it is in its critical section. */
  lemma {:induction false} LockIsInUse(states: seq<Shared>, file: Option<Content>, i: nat, p: Pid)
    requires Run(states, file) && i < |states| && states[i].holder == Some(p)
    ensures p in states[i].pcs && Critical(states[i].pcs[p])
  {
    RunKeeps(states, file, i);
  }

  lemma {:induction false} MutualExclusion(states: seq<Shared>, file: Option<Content>, i: nat, p: Pid, q: Pid)
    requires Run(states, file) && i < |states| && p in states[i].pcs && q in states[i].pcs
    requires Critical(states[i].pcs[p]) && Critical(states[i].pcs[q])
    ensures p == q
  {
    RunKeeps(states, file, i);
  }

  /**
   The file is the fold of the committed mutations, in commit order, over what was there before; a file that does not
   parse is never replaced.
   */
  lemma {:induction false} FileIsFoldOfCommits(states: seq<Shared>, file: Option<Content>, i: nat)
    requires Run(states, file) && i < |states|
    ensures var s := states[i];
            AtPath(s) == if s.commits == [] then file else Some(Document(Fold(Base(file), s.commits)))
    ensures file == Some(Unreadable) ==> states[i].commits == []
  {
    RunKeeps(states, file, i);
    assert states[i].commits[..|states[i].commits|] == states[i].commits;
  }

  /** No commit is ever taken back. */
  lemma {:induction false} CommitsOnlyGrow(states: seq<Shared>, file: Option<Content>, i: nat, j: nat)
    requires Run(states, file) && i <= j < |states|
    ensures states[i].commits <= states[j].commits
  {
    if i < j {
      CommitsOnlyGrow(states, file, i, j - 1);
      assert Step(states[j - 1], states[j]);
    }
  }

  /** What an unlocked reader gets, however late it reads, is the whole file as it was when the reader opened it. */
  lemma {:induction false} UnlockedReadersSeeCommits(states: seq<Shared>, file: Option<Content>, i: nat, j: nat, r: nat)
    requires Run(states, file) && i + 1 <= j < |states|
    requires Enabled(states[i], OpenUnlocked(r)) && states[i + 1] == Next(states[i], OpenUnlocked(r))
    requires r in states[j].readers && states[j].readers[r] == states[i + 1].readers[r]
    ensures var inode := states[j].readers[r].inode;
            inode in states[j].inodes && Some(states[j].inodes[inode]) == AtPath(states[i])
    ensures AtPath(states[i]) == Version(file, states[i].commits, |states[i].commits|)
  {
    RunKeeps(states, file, i);
    RunKeeps(states, file, j);
    CommitsOnlyGrow(states, file, i, j);
    var k := |states[i].commits|;
    assert states[j].commits[..k] == states[i].commits[..k];
    assert ReaderSettled(states[j], file, states[j].readers[r]);
  }

  /**
   The operations of a process that returned normally are its commits, in order and once each; at most one more commit
   can be there, made but not yet returned from or cut off by a crash. An operation that failed left no commit.
   */
  lemma {:induction false} ReturnedMeansCommittedOnce(states: seq<Shared>, file: Option<Content>, i: nat, p: Pid)
    requires Run(states, file) && i < |states| && p in states[i].pcs
    ensures var s := states[i];
            OpsOf(s.commits, p) == Returned(s.returned, p) + Unreported(s.pcs[p]) && |Unreported(s.pcs[p])| <= 1
    ensures p in states[i].views ==> IsVersion(states[i], file, states[i].views[p])
  {
    RunKeeps(states, file, i);
  }

  /** Every process on its way has a step of its own to make, unless it waits for a lock that is held. */
  lemma {:induction false} EveryoneMoves(s: Shared, p: Pid, temp: Inode) returns (e: Event)
    requires p in s.pcs && (Critical(s.pcs[p]) || (s.pcs[p].Waiting? && s.holder.None?)) && temp !in s.inodes
    ensures !e.OpenUnlocked? && !e.Crash? && e.p == p && Enabled(s, e) && Next(s, e).pcs[p] != s.pcs[p]
    ensures s.pcs[p].Failing? ==>
              Next(s, e).holder.None? && Next(s, e).pcs[p] == Idle && AtPath(Next(s, e)) == AtPath(s) &&
              Next(s, e).returned == s.returned && Next(s, e).views == s.views
  {
    match s.pcs[p]
    case Waiting(_) => e := Acquire(p);
    case Holding(_) => e := Read(p, true);
    case HasRead(_, _) => e := MakeTemp(p, temp, true);
    case Writing(_, _, _) => e := WriteTemp(p, true);
    case Written(_, _, _) => e := Replace(p, true);
    case Replaced(_, _) => e := Release(p);
    case Failing(_) => e := Release(p);
  }

  // ----- one operation on its own -----

  /** The file's tasks, none where there is no file. */
  function Tasks(s: Shared): Option<State> {
    if AtPath(s).None? then Some(map[]) else Parse(AtPath(s).value)
  }

  lemma {:induction false} OneMoreStep(states: seq<Shared>, e: Event)
    requires states != [] && Enabled(states[|states| - 1], e)
    requires forall i :: 0 <= i < |states| - 1 ==> Step(states[i], states[i + 1])
    ensures var more := states + [Next(states[|states| - 1], e)];
            forall i :: 0 <= i < |more| - 1 ==> Step(more[i], more[i + 1])
  {
    var more := states + [Next(states[|states| - 1], e)];
    forall i | 0 <= i < |more| - 1 ensures Step(more[i], more[i + 1]) {
      if i < |states| - 1 {
        assert more[i] == states[i] && more[i + 1] == states[i + 1];
      }
    }
  }

  /** From the lock to the temporary file. */
  lemma {:induction false} LockAndRead(s: Shared, p: Pid, op: Op, temp: Inode) returns (states: seq<Shared>, t: Shared)
    requires p in s.pcs && s.pcs[p] == Idle && s.holder.None? && Tasks(s).Some? && temp !in s.inodes
    ensures |states| == 5 && states[0] == s && states[4] == t && forall i :: 0 <= i < 4 ==> Step(states[i], states[i + 1])
    ensures t == s.(holder := Some(p), inodes := s.inodes[temp := Blank],
                    pcs := s.pcs[p := Writing(op, Apply(op, Tasks(s).value), temp)])
  {
    states := [s];
    OneMoreStep(states, Call(p, op));
    states := states + [Next(s, Call(p, op))];
    OneMoreStep(states, Acquire(p));
    states := states + [Next(states[1], Acquire(p))];
    OneMoreStep(states, Read(p, true));
    states := states + [Next(states[2], Read(p, true))];
    OneMoreStep(states, MakeTemp(p, temp, true));
    t := Next(states[3], MakeTemp(p, temp, true));
    states := states + [t];
    assert t.pcs == s.pcs[p := Writing(op, Apply(op, Tasks(s).value), temp)];
  }

  /** From the temporary file to the return. */
  lemma {:induction false} WriteAndReturn(s: Shared, p: Pid, op: Op, next: State, temp: Inode) returns (states: seq<Shared>, t: Shared)
    requires p in s.pcs && s.pcs[p] == Writing(op, next, temp) && temp in s.inodes
    ensures |states| == 4 && states[0] == s && states[3] == t && forall i :: 0 <= i < 3 ==> Step(states[i], states[i + 1])
    ensures AtPath(t) == Some(Document(next)) && t.pcs == s.pcs[p := Idle] && t.holder.None? && t.views == s.views[p := next]
    ensures t.returned == s.returned[p := Returned(s.returned, p) + [op]] && t.commits == s.commits + [Commit(p, op)]
  {
    states := [s];
    OneMoreStep(states, WriteTemp(p, true));
    states := states + [Next(s, WriteTemp(p, true))];
    OneMoreStep(states, Replace(p, true));
    states := states + [Next(states[1], Replace(p, true))];
    OneMoreStep(states, Release(p));
    t := Next(states[2], Release(p));
    states := states + [t];
  }

  /**
   Whenever nobody holds the lock and the file can be read, a process that saves or deletes a task can run to its return
   undisturbed, and the file then differs in just that task; its own state is the new file.
   */
  lemma {:induction false} OperationCompletes(s: Shared, p: Pid, op: Op, temp: Inode) returns (states: seq<Shared>, t: Shared)
    requires p in s.pcs && s.pcs[p] == Idle && s.holder.None? && Tasks(s).Some? && temp !in s.inodes
    ensures |states| == 8 && states[0] == s && states[7] == t && forall i :: 0 <= i < 7 ==> Step(states[i], states[i + 1])
    ensures p in t.pcs && t.pcs[p] == Idle && t.holder.None? && Returned(t.returned, p) == Returned(s.returned, p) + [op]
    ensures op.SetTask? ==> Tasks(t) == Some(Tasks(s).value[op.id := op.task])
    ensures op.DeleteTask? ==> Tasks(t) == Some(Tasks(s).value - {op.id})
    ensures p in t.views && Tasks(t) == Some(t.views[p])
  {
    var first, mid := LockAndRead(s, p, op, temp);
    var second, last := WriteAndReturn(mid, p, op, Apply(op, Tasks(s).value), temp);
    states, t := first + second[1..], last;
    forall i | 0 <= i < 7 ensures Step(states[i], states[i + 1]) {
      if i < 4 {
        assert Step(first[i], first[i + 1]);
      } else {
        assert Step(second[i - 4], second[i - 3]);
      }
    }
  }

  // ----- the last commit about a task decides -----

  /** What the file holds for a task is what the last commit about it said, and what was there before if there is none. */
  lemma {:induction false} LastCommitDecides(d: State, commits: seq<Commit>, id: string, k: nat)
    requires k < |commits| && commits[k].op.id == id
    requires forall j :: k < j < |commits| ==> commits[j].op.id != id
    ensures commits[k].op.SetTask? ==> id in Fold(d, commits) && Fold(d, commits)[id] == commits[k].op.task
    ensures commits[k].op.DeleteTask? ==> id !in Fold(d, commits)
  {
    if k < |commits| - 1 {
      LastCommitDecides(d, commits[..|commits| - 1], id, k);
    }
  }

  lemma {:induction false} UntouchedTask(d: State, commits: seq<Commit>, id: string)
    requires forall j :: 0 <= j < |commits| ==> commits[j].op.id != id
    ensures id in Fold(d, commits) <==> id in d
    ensures id in d ==> Fold(d, commits)[id] == d[id]
  {
    if commits != [] {
      UntouchedTask(d, commits[..|commits| - 1], id);
    }
  }
}
