/** The event log beside the state file: what its diffs are, and when replaying them rebuilds the state. */
module EventDiffs {
  import opened TaskState

  datatype Change = Change(before: Json, after: Json)
  type Diff = map<string, Change>

  datatype Event =
    | Set(taskId: string, agent: string, diff: Diff)
    | Delete(taskId: string, agent: string, diff: Diff)
    | Transition(taskId: string, fromPhase: string, toPhase: string, reason: string)

  /** `task.get(key)`: a missing key reads as None. */
  function Get(t: Task, key: string): Json {
    if key in t then t[key] else Null
  }

  /** The task without its None-valued keys. */
  function Norm(t: Task): Task {
    map k | k in t && t[k] != Null :: t[k]
  }

  function NormAll(d: State): State {
    map id | id in d :: Norm(d[id])
  }

  /** The keys whose values differ, with both values. */
  function DiffOf(old_: Task, new_: Task): Diff {
    map k | k in old_.Keys + new_.Keys && Get(old_, k) != Get(new_, k) :: Change(Get(old_, k), Get(new_, k))
  }

  function Patch(t: Task, diff: Diff): Task {
    map k | k in t.Keys + diff.Keys && (if k in diff then diff[k].after else Get(t, k)) != Null ::
      if k in diff then diff[k].after else Get(t, k)
  }

  function TaskIn(d: State, id: string): Task {
    if id in d then d[id] else map[]
  }

  function ReplayEvent(d: State, e: Event): State {
    match e
    case Set(id, _, diff) => d[id := Patch(TaskIn(d, id), diff)]
    case Delete(id, _, _) => d - {id}
    case Transition(_, _, _, _) => d
  }

  function Replay(log: seq<Event>): State {
    if log == [] then map[] else ReplayEvent(Replay(log[..|log| - 1]), log[|log| - 1])
  }

  /** The log tells the state `d`, up to None-valued keys. */
  ghost predicate Tells(log: seq<Event>, d: State) {
    Replay(log) == NormAll(d)
  }

  lemma {:induction false} ReplayMore(log: seq<Event>, e: Event)
    ensures Replay(log + [e]) == ReplayEvent(Replay(log), e)
  {
    assert (log + [e])[..|log|] == log;
  }

  /** Wherever the diff's old side agrees with the new task, the stored task has to agree as well. */
  ghost predicate DiffFits(stored: Task, before: Task, after: Task) {
    forall k {:trigger Get(stored, k)} :: Get(before, k) == Get(after, k) ==> Get(stored, k) == Get(after, k)
  }

  lemma {:induction false} PatchGet(t: Task, diff: Diff, k: string)
    ensures Get(Patch(t, diff), k) == if k in diff then diff[k].after else Get(t, k)
  {
  }

  lemma {:induction false} NormGet(t: Task, k: string)
    ensures Get(Norm(t), k) == Get(t, k)
  {
  }

  lemma {:induction false} SameGets(t: Task, u: Task)
    requires forall k :: k in t ==> t[k] != Null
    requires forall k :: k in u ==> u[k] != Null
    requires forall k {:trigger Get(t, k)} :: Get(t, k) == Get(u, k)
    ensures t == u
  {
    forall k | k in t || k in u ensures k in t && k in u && t[k] == u[k] {
      assert Get(t, k) == Get(u, k);
    }
  }

  /** The patched task is the new one exactly when the diff fits. */
  lemma {:induction false} PatchIsRight(stored: Task, before: Task, after: Task)
    ensures Patch(Norm(stored), DiffOf(before, after)) == Norm(after) <==> DiffFits(stored, before, after)
  {
    var diff := DiffOf(before, after);
    var patched := Patch(Norm(stored), diff);
    forall k ensures Get(patched, k) == if Get(before, k) != Get(after, k) then Get(after, k) else Get(stored, k) {
      PatchGet(Norm(stored), diff, k);
      NormGet(stored, k);
    }
    forall k ensures Get(Norm(after), k) == Get(after, k) {
      NormGet(after, k);
    }
    if DiffFits(stored, before, after) {
      forall k ensures Get(patched, k) == Get(Norm(after), k) {
        assert Get(stored, k) == Get(stored, k);
      }
      SameGets(patched, Norm(after));
    }
    if patched == Norm(after) {
      forall k | Get(before, k) == Get(after, k) ensures Get(stored, k) == Get(after, k) {
        assert Get(patched, k) == Get(Norm(after), k);
      }
    }
  }

  lemma {:induction false} NormIn(d: State, id: string)
    ensures TaskIn(NormAll(d), id) == Norm(TaskIn(d, id))
  {
  }

  lemma {:induction false} NormUpdated(d: State, id: string, after: Task)
    ensures NormAll(d[id := after]) == NormAll(d)[id := Norm(after)]
  {
  }

  /** After a SET the log still tells the state exactly when the diff fits what was stored. */
  lemma {:induction false} SetTells(log: seq<Event>, d: State, id: string, agent: string, before: Task, after: Task)
    requires Tells(log, d)
    ensures Tells(log + [Set(id, agent, DiffOf(before, after))], d[id := after]) <==> DiffFits(TaskIn(d, id), before, after)
  {
    var e := Set(id, agent, DiffOf(before, after));
    var patched := Patch(Norm(TaskIn(d, id)), e.diff);
    ReplayMore(log, e);
    NormIn(d, id);
    PatchIsRight(TaskIn(d, id), before, after);
    NormUpdated(d, id, after);
    assert Replay(log + [e]) == NormAll(d)[id := patched];
    assert NormAll(d)[id := patched][id] == patched && NormAll(d)[id := Norm(after)][id] == Norm(after);
  }

  lemma {:induction false} DeleteTells(log: seq<Event>, d: State, id: string, agent: string, diff: Diff)
    requires Tells(log, d)
    ensures Tells(log + [Delete(id, agent, diff)], d - {id})
  {
    ReplayMore(log, Delete(id, agent, diff));
  }

  /** A diff taken against what is stored always fits. */
  lemma {:induction false} TrueDiffFits(stored: Task, after: Task)
    ensures DiffFits(stored, stored, after)
  {
  }

  /** A diff of a task against itself fits only when nothing changed, None-valued keys aside. */
  lemma {:induction false} SelfDiffFits(stored: Task, after: Task)
    ensures DiffFits(stored, after, after) <==> Norm(stored) == Norm(after)
  {
    forall k ensures Get(Norm(stored), k) == Get(stored, k) && Get(Norm(after), k) == Get(after, k) {
      NormGet(stored, k);
      NormGet(after, k);
    }
    if DiffFits(stored, after, after) {
      forall k ensures Get(Norm(stored), k) == Get(Norm(after), k) {
        assert Get(stored, k) == Get(after, k);
      }
      SameGets(Norm(stored), Norm(after));
    }
  }

  // ----- the history of one task -----

  function HistoryOf(log: seq<Event>, id: string): seq<Event> {
    if log == [] then []
    else
      var n := |log| - 1;
      HistoryOf(log[..n], id) + if log[n].taskId == id then [log[n]] else []
  }

  /** Where in the log they are. */
  ghost function HistoryAt(log: seq<Event>, id: string): (at: seq<nat>)
    ensures |at| == |HistoryOf(log, id)| && forall i, j :: 0 <= i < j < |at| ==> at[i] < at[j]
    ensures forall i :: 0 <= i < |at| ==> at[i] < |log| && HistoryOf(log, id)[i] == log[at[i]] && log[at[i]].taskId == id
  {
    if log == [] then []
    else
      var n := |log| - 1;
      var before := HistoryAt(log[..n], id);
      if log[n].taskId == id then before + [n] else before
  }

  /** They are just the events about that task, in the order of the log. */
  lemma {:induction false} HistoryIsFilter(log: seq<Event>, id: string, k: nat)
    requires k < |log| && log[k].taskId == id
    ensures exists i :: 0 <= i < |HistoryOf(log, id)| && HistoryAt(log, id)[i] == k
  {
    var n := |log| - 1;
    if k < n {
      HistoryIsFilter(log[..n], id, k);
      var i :| 0 <= i < |HistoryOf(log[..n], id)| && HistoryAt(log[..n], id)[i] == k;
      assert HistoryAt(log, id)[i] == k;
    } else {
      assert HistoryAt(log, id)[|HistoryOf(log, id)| - 1] == k;
    }
  }

  /** The events of one task are enough to rebuild it. */
  lemma {:induction false} HistoryRebuilds(log: seq<Event>, id: string)
    ensures Replay(HistoryOf(log, id)) == if id in Replay(log) then map[id := Replay(log)[id]] else map[]
  {
    if log != [] {
      var n := |log| - 1;
      HistoryRebuilds(log[..n], id);
      if log[n].taskId == id {
        ReplayMore(HistoryOf(log[..n], id), log[n]);
      } else {
        assert HistoryOf(log, id) == HistoryOf(log[..n], id);
      }
    }
  }
}

/** A state manager on its own: dictionaries that callers share with it, the state file and the log. */
module StateManagers {
  import opened Options
  import opened TaskState
  import opened EventDiffs

  /** A Python dict, which its holders may change. */
  class TaskDict {
    var m: Task

    constructor (t: Task)
      ensures m == t
    {
      m := t;
    }
  }

  class StateManager {
    var file: State
    var data: map<string, TaskDict>
    var log: seq<Event>

    /** The in-memory state, as the dictionaries are now. */
    ghost function View(): State
      reads this, data.Values
    {
      map id | id in data :: data[id].m
    }

    constructor (d: State)
      ensures file == d && View() == d && log == [] && fresh(data.Values)
    {
      file, log, data := d, [], map[];
      new;
      data := Load(d);
    }

    /** Parsing the file makes a new dictionary for every task. */
    static method Load(d: State) returns (dicts: map<string, TaskDict>)
      ensures fresh(dicts.Values) && dicts.Keys == d.Keys && forall id :: id in d ==> dicts[id].m == d[id]
    {
      dicts := map[];
      var left := d.Keys;
      while left != {}
        invariant left <= d.Keys && dicts.Keys == d.Keys - left
        invariant forall id :: id in dicts ==> fresh(dicts[id]) && dicts[id].m == d[id]
      {
        var id :| id in left;
        var t := new TaskDict(d[id]);
        dicts := dicts[id := t];
        left := left - {id};
      }
    }

    /** `_compute_diff`, key by key. */
    static method ComputeDiff(before: Task, after: Task) returns (diff: Diff)
      ensures diff == DiffOf(before, after)
      ensures forall k :: k in diff ==>
                && diff[k].before == (if k in before then before[k] else Null)
                && diff[k].after == (if k in after then after[k] else Null)
                && diff[k].before != diff[k].after
      ensures forall k :: k in before && k !in diff ==> before[k] == if k in after then after[k] else Null
      ensures forall k :: k in after && k !in diff ==> after[k] == if k in before then before[k] else Null
    {
      diff := map[];
      var keys := before.Keys + after.Keys;
      while keys != {}
        invariant keys <= before.Keys + after.Keys
        invariant forall k :: k in diff <==> k in DiffOf(before, after) && k !in keys
        invariant forall k :: k in diff ==> diff[k] == DiffOf(before, after)[k]
      {
        var k :| k in keys;
        if Get(before, k) != Get(after, k) {
          diff := diff[k := Change(Get(before, k), Get(after, k))];
        }
        keys := keys - {k};
      }
    }

    method GetTask(id: string) returns (t: Option<TaskDict>)
      ensures t == if id in data then Some(data[id]) else None
    {
      t := if id in data then Some(data[id]) else None;
    }

    /** Saves a task. The old side of the diff is the dictionary in memory, which may be the very one that is passed. */
    method SetTask(id: string, task: TaskDict, agent: string)
      modifies this
      ensures file == old(file)[id := task.m] && View() == file && id in data && data[id] == task
      ensures log == old(log) + [Set(id, agent, DiffOf(old(TaskIn(View(), id)), task.m))]
    {
      var oldTask := if id in data then data[id].m else map[];
      assert oldTask == TaskIn(View(), id);
      Persist(file[id := task.m]);
      data := data[id := task];
      var diff := ComputeDiff(oldTask, task.m);
      log := log + [Set(id, agent, diff)];
    }

    /** Writes the file, and takes over what was written. */
    method Persist(d: State)
      modifies `file, `data
      ensures file == d && View() == d && fresh(data.Values)
    {
      file := d;
      data := Load(d);
    }

    /** Deleting logs what was in memory, and keeps the log telling the file whatever that was. */
    method DeleteTask(id: string, agent: string)
      modifies this
      ensures file == old(file) - {id} && View() == file
      ensures log == old(log) + [Delete(id, agent, DiffOf(old(TaskIn(View(), id)), map[]))]
      ensures old(Tells(log, file)) ==> Tells(log, file)
    {
      var diff: Diff := map[];
      assert TaskIn(View(), id) == if id in data then data[id].m else map[];
      if id in data && data[id].m != map[] {
        diff := ComputeDiff(data[id].m, map[]);
      }
      if Tells(log, file) {
        DeleteTells(log, file, id, agent, diff);
      }
      Persist(file - {id});
      log := log + [Delete(id, agent, diff)];
    }

    method RecordPhaseTransition(id: string, fromPhase: string, toPhase: string, reason: string)
      modifies `log
      ensures log == old(log) + [Transition(id, fromPhase, toPhase, reason)]
      ensures old(Tells(log, file)) ==> Tells(log, file)
    {
      ReplayMore(log, Transition(id, fromPhase, toPhase, reason));
      log := log + [Transition(id, fromPhase, toPhase, reason)];
    }

    method GetTaskHistory(id: string) returns (events: seq<Event>)
      ensures events == HistoryOf(log, id)
    {
      events := [];
      for i := 0 to |log|
        invariant events == HistoryOf(log[..i], id)
      {
        assert log[..i + 1][..i] == log[..i];
        if log[i].taskId == id {
          events := events + [log[i]];
        }
      }
      assert log[..|log|] == log;
    }
  }

  /** A caller that passes a dictionary of its own, with the memory in step with the file: the log goes on telling the file. */
  method SaveFresh(sm: StateManager, id: string, task: Task, agent: string)
    requires sm.View() == sm.file && Tells(sm.log, sm.file)
    modifies sm
    ensures sm.file == old(sm.file)[id := task] && sm.View() == sm.file && Tells(sm.log, sm.file)
  {
    var dict := new TaskDict(task);
    TrueDiffFits(TaskIn(sm.file, id), task);
    SetTells(sm.log, sm.file, id, agent, TaskIn(sm.file, id), task);
    sm.SetTask(id, dict, agent);
  }

  /**
   A caller that changes the dictionary it was given and saves it, as `save_work_item` does. The log stops telling the
   file exactly when the change touched more than None-valued keys of a task that was there and not empty.
   */
  method SaveInPlace(sm: StateManager, id: string, changes: Task, agent: string)
    requires sm.View() == sm.file && Tells(sm.log, sm.file)
    modifies sm, sm.data.Values
    ensures sm.file == old(sm.file)[id := old(TaskIn(sm.file, id)) + changes] && sm.View() == sm.file
    ensures Tells(sm.log, sm.file) <==>
            old(TaskIn(sm.file, id)) == map[] || Norm(old(TaskIn(sm.file, id)) + changes) == Norm(old(TaskIn(sm.file, id)))
  {
    ghost var stored := TaskIn(sm.file, id);
    assert id in sm.data ==> id in sm.View() && sm.data[id].m == stored;
    var found := sm.GetTask(id);
    var existing: TaskDict;
    if found.Some? && found.value.m != map[] {
      existing := found.value;
    } else {
      existing := new TaskDict(map[]);
    }
    existing.m := existing.m + changes;
    SelfDiffFits(stored, stored + changes);
    TrueDiffFits(stored, stored + changes);
    SetTells(sm.log, sm.file, id, agent, TaskIn(sm.View(), id), stored + changes);
    sm.SetTask(id, existing, agent);
  }
}
