/** The three maps of `SubagentManager` (subagent.rs), updated by spawning calls, finishing tasks and
    cancellations whose critical sections interleave. */
module Subagents {
  import opened Basics

  type Id = string

  /** Which ids each map holds: the join handles, the statuses, and the ids of each session. */
  datatype Table = Table(running: set<Id>, statuses: set<Id>, sessions: map<string, set<Id>>)

  function ListIn(t: Table, key: Option<string>, id: Id): Table {
    if key.None? then t
    else t.(sessions := t.sessions[key.value := (if key.value in t.sessions then t.sessions[key.value] else {}) + {id}])
  }

  /** The cleanup block at the end of a task. */
  function CleanUp(t: Table, key: Option<string>, id: Id): Table {
    var u := t.(running := t.running - {id}, statuses := t.statuses - {id});
    if key.None? || key.value !in t.sessions then u
    else
      var left := t.sessions[key.value] - {id};
      u.(sessions := if left == {} then t.sessions - {key.value} else t.sessions[key.value := left])
  }

  function SessionIds(t: Table, key: string): set<Id> {
    if key in t.sessions then t.sessions[key] else {}
  }

  function Cancelled(t: Table, key: string): Table {
    var ids := SessionIds(t, key);
    Table(t.running - ids, t.statuses - ids, t.sessions - {key})
  }

  class Manager {
    var running: set<Id>
    var statuses: set<Id>
    var sessions: map<string, set<Id>>

    ghost function View(): Table
      reads this
    {
      Table(running, statuses, sessions)
    }

    constructor ()
      ensures View() == Table({}, {}, map[])
    {
      running, statuses, sessions := {}, {}, map[];
    }

    method InsertStatus(id: Id)
      modifies this
      ensures View() == old(View()).(statuses := old(statuses) + {id})
    {
      statuses := statuses + {id};
    }

    method InsertSession(key: Option<string>, id: Id)
      modifies this
      ensures View() == ListIn(old(View()), key, id)
    {
      if key.Some? {
        var ids := if key.value in sessions then sessions[key.value] else {};
        sessions := sessions[key.value := ids + {id}];
      }
    }

    method InsertHandle(id: Id)
      modifies this
      ensures View() == old(View()).(running := old(running) + {id})
    {
      running := running + {id};
    }

    method FinishTask(key: Option<string>, id: Id)
      modifies this
      ensures View() == CleanUp(old(View()), key, id)
    {
      running := running - {id};
      statuses := statuses - {id};
      if key.Some? && key.value in sessions {
        var ids := sessions[key.value] - {id};
        sessions := sessions[key.value := ids];
        if ids == {} {
          sessions := sessions - {key.value};
        }
        assert ids == {} ==> sessions == old(sessions) - {key.value};
      }
    }

    /** Only the tasks whose handle is stored at this moment are aborted. */
    method CancelBySession(key: string) returns (ids: set<Id>, aborted: set<Id>)
      modifies this
      ensures ids == SessionIds(old(View()), key) && View() == Cancelled(old(View()), key)
      ensures aborted == ids * old(running)
    {
      hide Left;
      ids, aborted := if key in sessions then sessions[key] else {}, {};
      var todo := ids;
      LeftAll(running, ids);
      LeftAll(statuses, ids);
      while todo != {}
        invariant todo <= ids && sessions == old(sessions)
        invariant running == Left(old(running), ids, todo) && statuses == Left(old(statuses), ids, todo)
        invariant aborted == ids * old(running) - todo
        decreases |todo|
      {
        var id :| id in todo;
        LeftStep(old(running), ids, todo, id);
        LeftStep(old(statuses), ids, todo, id);
        aborted := if id in running then aborted + {id} else aborted;
        running := running - {id};
        statuses := statuses - {id};
        todo := todo - {id};
      }
      sessions := sessions - {key};
    }

    method RunningCountBySession(key: string) returns (count: nat)
      ensures count == |SessionIds(View(), key) * running|
    {
      var todo := if key in sessions then sessions[key] else {};
      ghost var ids := todo;
      count := 0;
      while todo != {}
        invariant todo <= ids && count == |(ids - todo) * running|
        decreases |todo|
      {
        var id :| id in todo;
        CountOne(ids, todo, running, id);
        if id in running {
          count := count + 1;
        }
        todo := todo - {id};
      }
      assert ids - todo == ids;
    }
  }

  /** `all` without those of `ids` that have been dealt with. */
  function Left(all: set<Id>, ids: set<Id>, todo: set<Id>): set<Id> {
    all - (ids - todo)
  }

  lemma LeftAll(all: set<Id>, ids: set<Id>)
    ensures Left(all, ids, ids) == all && Left(all, ids, {}) == all - ids && ids * all - ids == {}
  {
  }

  lemma LeftStep(all: set<Id>, ids: set<Id>, todo: set<Id>, id: Id)
    requires id in todo && todo <= ids
    ensures Left(all, ids, todo - {id}) == Left(all, ids, todo) - {id}
    ensures id in Left(all, ids, todo) <==> id in all
    ensures ids * all - (todo - {id}) == if id in all then ids * all - todo + {id} else ids * all - todo
  {
  }

  lemma CountOne(ids: set<Id>, todo: set<Id>, running: set<Id>, id: Id)
    requires id in todo && todo <= ids
    ensures |(ids - (todo - {id})) * running| == |(ids - todo) * running| + if id in running then 1 else 0
  {
    var counted := (ids - todo) * running;
    assert (ids - (todo - {id})) * running == if id in running then counted + {id} else counted;
  }

  // ---- Interleavings ----

  /** What has happened to a task so far: whether its id is in its session's list, whether it was started,
      whether its handle was stored, whether its cleanup ran, whether it was cancelled and whether that
      aborted it, and whether the handle came too late. */
  datatype Task = Task(
    key: Option<string>, listed: bool, launched: bool, handled: bool, finished: bool, cancelled: bool,
    aborted: bool, handledAfterCancel: bool, handledAfterFinish: bool)

  datatype State = State(table: Table, tasks: map<Id, Task>)

  /** The critical sections of `spawn` in program order, the cleanup of a started task, and cancellation. */
  datatype Step =
    | Register(id: Id, key: Option<string>) | Enlist(id: Id) | Launch(id: Id) | StoreHandle(id: Id)
    | Finish(id: Id) | Cancel(session: string)

  predicate Enabled(s: State, step: Step) {
    match step
    case Register(id, _) => id !in s.tasks
    case Enlist(id) => id in s.tasks && !s.tasks[id].listed
    case Launch(id) => id in s.tasks && s.tasks[id].listed && !s.tasks[id].launched
    case StoreHandle(id) => id in s.tasks && s.tasks[id].launched && !s.tasks[id].handled
    case Finish(id) => id in s.tasks && s.tasks[id].launched && !s.tasks[id].finished
    case Cancel(_) => true
  }

  function Apply(s: State, step: Step): State
    requires Enabled(s, step)
  {
    var t := s.table;
    match step
    case Register(id, key) =>
      State(t.(statuses := t.statuses + {id}),
            s.tasks[id := Task(key, false, false, false, false, false, false, false, false)])
    case Enlist(id) => State(ListIn(t, s.tasks[id].key, id), s.tasks[id := s.tasks[id].(listed := true)])
    case Launch(id) => s.(tasks := s.tasks[id := s.tasks[id].(launched := true)])
    case StoreHandle(id) =>
      var task := s.tasks[id];
      var late := task.(handled := true, handledAfterCancel := task.cancelled, handledAfterFinish := task.finished);
      State(t.(running := t.running + {id}), s.tasks[id := late])
    case Finish(id) => State(CleanUp(t, s.tasks[id].key, id), s.tasks[id := s.tasks[id].(finished := true)])
    case Cancel(key) =>
      State(Cancelled(t, key),
            map id | id in s.tasks ::
              if id in SessionIds(t, key) then s.tasks[id].(cancelled := true, aborted := id in t.running)
              else s.tasks[id])
  }

  const EMPTY := State(Table({}, {}, map[]), map[])

  ghost predicate Reaches(s: State, steps: seq<Step>, t: State)
    decreases |steps|
  {
    if steps == [] then s == t
    else Enabled(s, steps[0]) && Reaches(Apply(s, steps[0]), steps[1..], t)
  }

  predicate Alive(task: Task) {
    !task.finished && !task.cancelled
  }

  predicate InSession(task: Task, key: string) {
    task.key == Some(key) && task.listed && Alive(task)
  }

  /** Whether a task's handle is in the map: stored, and not removed since. */
  predicate HasHandle(task: Task) {
    task.handled && (task.handledAfterFinish || (!task.finished && (task.handledAfterCancel || !task.cancelled)))
  }

  predicate TaskOk(task: Task) {
    (task.launched ==> task.listed) && (task.handled ==> task.launched) && (task.finished ==> task.launched) &&
    (task.cancelled ==> task.listed && task.key.Some?) && (task.handledAfterFinish ==> task.finished && task.handled) &&
    (task.handledAfterCancel ==> task.cancelled && task.handled) &&
    (task.aborted <==> task.cancelled && task.handled && !task.handledAfterCancel)
  }

  /** The maps hold exactly what the tasks' histories say. */
  ghost predicate Inv(s: State) {
    && (forall id :: id in s.tasks ==> TaskOk(s.tasks[id]))
    && (forall id :: id in s.table.statuses <==> id in s.tasks && Alive(s.tasks[id]))
    && (forall id :: id in s.table.running <==> id in s.tasks && HasHandle(s.tasks[id]))
    && (forall key, id :: id in SessionIds(s.table, key) <==> id in s.tasks && InSession(s.tasks[id], key))
    && (forall key :: key in s.table.sessions ==> s.table.sessions[key] != {})
  }

  lemma KeepsStatuses(s: State, step: Step)
    requires Inv(s) && Enabled(s, step)
    ensures var t := Apply(s, step); forall id :: id in t.table.statuses <==> id in t.tasks && Alive(t.tasks[id])
  {
  }

  lemma KeepsRunning(s: State, step: Step)
    requires Inv(s) && Enabled(s, step)
    ensures var t := Apply(s, step); forall id :: id in t.table.running <==> id in t.tasks && HasHandle(t.tasks[id])
    ensures var t := Apply(s, step); forall id :: id in t.tasks ==> TaskOk(t.tasks[id])
  {
  }

  lemma KeepsSessions(s: State, step: Step)
    requires Inv(s) && Enabled(s, step)
    ensures forall key, id :: id in SessionIds(Apply(s, step).table, key) <==>
                              id in Apply(s, step).tasks && InSession(Apply(s, step).tasks[id], key)
    ensures forall key :: key in Apply(s, step).table.sessions ==> Apply(s, step).table.sessions[key] != {}
  {
    var t := Apply(s, step);
    forall key, id
      ensures id in SessionIds(t.table, key) <==> id in t.tasks && InSession(t.tasks[id], key)
    {
      assert id in SessionIds(s.table, key) <==> id in s.tasks && InSession(s.tasks[id], key);
      if step.Finish? {
        FinishSessions(s, step.id, key, id);
      }
    }
  }

  lemma FinishSessions(s: State, done: Id, key: string, id: Id)
    requires Inv(s) && Enabled(s, Finish(done))
    ensures id in SessionIds(Apply(s, Finish(done)).table, key) <==> id in SessionIds(s.table, key) && id != done
  {
    if done in SessionIds(s.table, key) {
      assert s.tasks[done].key == Some(key);
    }
  }

  lemma StepKeepsInv(s: State, step: Step)
    requires Inv(s) && Enabled(s, step)
    ensures Inv(Apply(s, step))
  {
    KeepsStatuses(s, step);
    KeepsRunning(s, step);
    KeepsSessions(s, step);
    hide Apply, Enabled;
  }

  lemma {:induction false} RunKeepsInv(s: State, steps: seq<Step>, t: State)
    requires Inv(s) && Reaches(s, steps, t)
    ensures Inv(t)
    decreases |steps|
  {
    hide Inv, Apply, Enabled;
    if steps != [] {
      StepKeepsInv(s, steps[0]);
      RunKeepsInv(Apply(s, steps[0]), steps[1..], t);
    }
  }

  lemma EmptyInv()
    ensures Inv(EMPTY)
  {
  }

  /** In every interleaving: no session maps to an empty set, session sets are disjoint, and every id in
      one has a status. */
  lemma MapsAreConsistent(steps: seq<Step>, t: State)
    requires Reaches(EMPTY, steps, t)
    ensures forall key :: key in t.table.sessions ==> t.table.sessions[key] != {}
    ensures forall k1, k2 :: k1 in t.table.sessions && k2 in t.table.sessions && k1 != k2 ==>
              t.table.sessions[k1] !! t.table.sessions[k2]
    ensures forall key :: key in t.table.sessions ==> t.table.sessions[key] <= t.table.statuses
  {
    EmptyInv();
    RunKeepsInv(EMPTY, steps, t);
    hide Reaches;
    forall k1, k2 | k1 in t.table.sessions && k2 in t.table.sessions && k1 != k2
      ensures t.table.sessions[k1] !! t.table.sessions[k2]
    {
      forall id | id in t.table.sessions[k1] ensures id !in t.table.sessions[k2] {
        assert id in SessionIds(t.table, k1) && t.tasks[id].key == Some(k1);
        assert !InSession(t.tasks[id], k2) && SessionIds(t.table, k2) == t.table.sessions[k2];
      }
    }
    forall key | key in t.table.sessions ensures t.table.sessions[key] <= t.table.statuses {
      assert forall id :: id in t.table.sessions[key] ==> id in SessionIds(t.table, key);
    }
  }

  /** A cancelled or finished task never comes back into the status map or a session's set. */
  lemma {:induction false} GoneForGood(s: State, steps: seq<Step>, t: State, id: Id)
    requires Inv(s) && Reaches(s, steps, t) && id in s.tasks && !Alive(s.tasks[id])
    ensures id in t.tasks && !Alive(t.tasks[id]) && id !in t.table.statuses
    ensures forall key :: id !in SessionIds(t.table, key)
    decreases |steps|
  {
    if steps != [] {
      StepKeepsInv(s, steps[0]);
      hide Inv;
      GoneForGood(Apply(s, steps[0]), steps[1..], t, id);
    }
  }

  /** A handle stored after its task has cleaned up is never removed again. */
  lemma {:induction false} LateHandleLeaks(s: State, steps: seq<Step>, t: State, id: Id)
    requires Inv(s) && Reaches(s, steps, t) && id in s.tasks && s.tasks[id].handledAfterFinish
    ensures id in t.table.running
    decreases |steps|
  {
    if steps != [] {
      StepKeepsInv(s, steps[0]);
      assert s.tasks[id].handled && s.tasks[id].finished;
      hide Inv;
      LateHandleLeaks(Apply(s, steps[0]), steps[1..], t, id);
    }
  }

  /** In every interleaving a cancelled task has been aborted exactly when its handle was stored before the
      cancellation; otherwise it runs on, although it is no longer listed anywhere. */
  lemma AbortedIff(steps: seq<Step>, t: State, id: Id)
    requires Reaches(EMPTY, steps, t) && id in t.tasks && t.tasks[id].cancelled
    ensures t.tasks[id].aborted <==> t.tasks[id].handled && !t.tasks[id].handledAfterCancel
    ensures id !in t.table.statuses && forall key :: id !in SessionIds(t.table, key)
  {
    EmptyInv();
    RunKeepsInv(EMPTY, steps, t);
    hide Reaches;
  }

  /** That happens, too: a session is cancelled while a task is being spawned. */
  lemma CancelledTaskRunsOn(id: Id, key: string) returns (steps: seq<Step>, t: State)
    ensures Reaches(EMPTY, steps, t) && id in t.tasks && t.tasks[id].cancelled && !t.tasks[id].aborted
    ensures Enabled(t, Finish(id)) && t.table == Table({id}, {}, map[])
  {
    var s1 := Apply(EMPTY, Register(id, Some(key)));
    var s2 := Apply(s1, Enlist(id));
    var s3 := Apply(s2, Launch(id));
    assert s1.table == Table({}, {id}, map[]);
    assert {} + {id} == {id};
    assert s2.table.sessions == map[key := {id}];
    assert s3.table == s2.table;
    var s4 := Apply(s3, Cancel(key));
    assert s4.table == Table({}, {}, map[]);
    t := Apply(s4, StoreHandle(id));
    var last := [StoreHandle(id)];
    assert Reaches(t, [], t) && last[1..] == [] && Reaches(s4, last, t);
    var r3 := [Cancel(key)] + last;
    assert r3[1..] == last && Reaches(s3, r3, t);
    var r2 := [Launch(id)] + r3;
    assert r2[1..] == r3 && Reaches(s2, r2, t);
    var r1 := [Enlist(id)] + r2;
    assert r1[1..] == r2 && Reaches(s1, r1, t);
    steps := [Register(id, Some(key))] + r1;
    assert steps[1..] == r1;
  }

  /** It does happen: a task that cleans up before the spawning call stores its handle. */
  lemma LateHandleHappens(id: Id) returns (steps: seq<Step>, t: State)
    ensures Reaches(EMPTY, steps, t) && t.table == Table({id}, {}, map[])
    ensures id in t.tasks && t.tasks[id].handledAfterFinish
  {
    steps := [Register(id, None), Enlist(id), Launch(id), Finish(id), StoreHandle(id)];
    var s1 := Apply(EMPTY, Register(id, None));
    var s2 := Apply(s1, Enlist(id));
    var s3 := Apply(s2, Launch(id));
    var s4 := Apply(s3, Finish(id));
    t := Apply(s4, StoreHandle(id));
    assert s1.table.statuses == {id} && s4.table.statuses == {};
    assert steps[1..][0] == Enlist(id) && steps[1..][1..][0] == Launch(id) && steps[1..][1..][1..][0] == Finish(id);
    assert steps[1..][1..][1..][1..] == [StoreHandle(id)] && [StoreHandle(id)][1..] == [];
    assert Reaches(t, [], t) && Reaches(s4, [StoreHandle(id)], t);
    assert Reaches(s3, steps[1..][1..][1..], t) && Reaches(s2, steps[1..][1..], t) && Reaches(s1, steps[1..], t);
  }

  /** The handle came after the task's own cleanup, or after a cancellation that no cleanup followed. */
  predicate TooLate(task: Task) {
    task.handledAfterFinish || (task.handledAfterCancel && !task.finished)
  }

  /** Once every spawned task has been finished or cancelled, and every spawning call has returned, the
      status and session maps are empty, and the handle map is empty exactly when no handle was stored
      too late. */
  lemma QuiescenceIff(steps: seq<Step>, t: State)
    requires Reaches(EMPTY, steps, t)
    requires forall id :: id in t.tasks ==> !Alive(t.tasks[id]) && t.tasks[id].handled
    ensures t.table.statuses == {} && t.table.sessions == map[]
    ensures t.table.running == {} <==> forall id :: id in t.tasks ==> !TooLate(t.tasks[id])
  {
    EmptyInv();
    RunKeepsInv(EMPTY, steps, t);
    hide Reaches;
    forall key ensures SessionIds(t.table, key) == {} {
      forall id ensures id !in SessionIds(t.table, key) {
        assert id in t.tasks ==> !InSession(t.tasks[id], key);
      }
    }
    assert forall key :: key in t.table.sessions ==> t.table.sessions[key] == SessionIds(t.table, key);
  }

  /** The per-session count is right even so: it counts the session's live tasks whose handle is stored. */
  lemma CountBySession(steps: seq<Step>, t: State, key: string)
    requires Reaches(EMPTY, steps, t)
    ensures forall id :: id in SessionIds(t.table, key) * t.table.running <==>
              id in t.tasks && InSession(t.tasks[id], key) && t.tasks[id].handled
  {
    EmptyInv();
    RunKeepsInv(EMPTY, steps, t);
    hide Reaches;
  }
}
