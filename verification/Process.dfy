/** All the runs of one thread in one process (src/skeino/ops/runs.py,
    src/skeino/concurrency.py): admission under the admission lock, execution under the
    execution lock, callers of `wait`, and shutdown, in every interleaving.
 */
module Process {
  import opened Common
  import opened Lifecycle
  import opened RunRegistry

  datatype Strategy = Reject | Interrupt | Rollback | Enqueue

  /** The task, and the completion, that a `cancel` or `wait` call found. */
  datatype Target = Target(task: Task, completion: bool)

  /** Who holds the admission lock, and which active runs are still to be stopped. */
  datatype Admission =
    | Idle
    | Holding(run: RunId, strategy: Strategy, todo: set<RunId>, victim: Option<Target>)

  datatype Waiter = Awaiting(target: Target) | Finalizing(run: RunId) | Returned(run: RunId)

  datatype Shutdown =
    | Up
    | Stopping(active: set<RunId>, targets: set<Target>)
    | Sweeping(active: set<RunId>, todo: set<RunId>)

  datatype System = System(
    thread: ThreadId,
    runs: map<RunId, Run>,
    rows: map<RunId, Row>,
    lock: Option<RunId>,
    reg: Registry,
    admission: Admission,
    waiters: map<nat, Waiter>,
    shutdown: Shutdown)

  function Fresh(thread: ThreadId): System {
    System(thread, map[], map[], None, EMPTY, Idle, map[], Up)
  }

  function RowOf(s: System, id: RunId): Option<Row> {
    if id in s.rows then Some(s.rows[id]) else None
  }

  function Stored(rows: map<RunId, Row>, id: RunId, row: Option<Row>): map<RunId, Row> {
    if row.Some? then rows[id := row.value] else rows - {id}
  }

  // ---------------------------------------------------------------- tasks

  function TaskOf(id: RunId, p: Phase): Task { Task(id, !p.InAdmission? && !p.AdmissionEnded?) }

  /** The task has ended. */
  predicate TaskOver(s: System, t: Task) {
    t.run in s.runs &&
    var p := PhaseOf(s.runs[t.run]);
    if t.main then p.InFinalizer? || p.MainEnded? || p.AllEnded? else !p.Early? && !p.InAdmission?
  }

  /** Its finalizer, if it has one, has ended too. */
  predicate FullyOver(s: System, t: Target) {
    TaskOver(s, t.task) && (t.completion ==> PhaseOf(s.runs[t.task.run]).AllEnded?)
  }

  function DoneTasks(s: System): set<Task> {
    set id | id in s.reg.tasks && TaskOver(s, s.reg.tasks[id]) :: s.reg.tasks[id]
  }

  function Found(reg: Registry, id: RunId): Target
    requires id in reg.tasks
  {
    Target(reg.tasks[id], id in reg.completions)
  }

  // ---------------------------------------------------------------- moves

  datatype Move =
    | Request(id: RunId, kind: Kind)
    | Admit(id: RunId, strategy: Strategy)
    | Aim(id: RunId)
    | Stopped
    | Enroll
    | Abort(id: RunId)
    | Work(id: RunId, c: Choice)
    | CancelRun(id: RunId)
    | Reply(id: RunId)
    | Elsewhere(id: RunId, row: Option<Row>)
    | Prune
    | WaitFor(w: nat, id: RunId)
    | Wake(w: nat)
    | BeginShutdown
    | AllStopped
    | Sweep(id: RunId)

  function With(s: System, id: RunId, run: Run): System { s.(runs := s.runs[id := run]) }

  /** Enter the admission lock and look at the active runs (`_resolve_multitask`). */
  function DoAdmit(s: System, id: RunId, strategy: Strategy): System
    requires id in s.runs
  {
    var done := DoneTasks(s);
    var live := Live(s.reg, s.thread, done);
    var refused := strategy.Reject? && live != {};
    s.(runs := s.runs[id := if refused then GaveUp(s.runs[id]) else s.runs[id].(pc := Resolve)],
       reg := Pruned(s.reg, s.thread, done),
       admission := if refused then Idle
                    else Holding(id, strategy, if strategy.Enqueue? then {} else live, None))
  }

  /** The request fails before its run is registered. */
  function DoAbort(s: System, id: RunId): System
    requires id in s.runs
  {
    With(s, id, GaveUp(s.runs[id])).(admission := if s.runs[id].pc.Resolve? then Idle else s.admission)
  }

  /** `cancel(id, wait=True)` begins; a run without a task is not waited for. */
  function DoAim(s: System, id: RunId): System
    requires s.admission.Holding? && id in s.runs
  {
    if id in s.reg.tasks then
      With(s, id, Doomed(s.runs[id])).(admission := s.admission.(victim := Some(Found(s.reg, id))))
    else
      s.(admission := s.admission.(todo := s.admission.todo - {id}))
  }

  /** ... and ends; a rollback deletes the row. */
  function DoStopped(s: System): System
    requires s.admission.Holding? && s.admission.victim.Some?
  {
    var id := s.admission.victim.value.task.run;
    s.(rows := if s.admission.strategy.Rollback? then s.rows - {id} else s.rows,
       admission := s.admission.(todo := s.admission.todo - {id}, victim := None))
  }

  /** Nothing is left to stop: a streaming run is registered and its admission task
      spawned; a background run inserts its row first, still under the lock. */
  function DoEnroll(s: System): System
    requires s.admission.Holding? && s.admission.run in s.runs
  {
    var id := s.admission.run;
    var run := s.runs[id];
    With(s, id, Registered(run)).(
      reg := if run.kind.Background? then s.reg
             else Spawned(Reserved(s.reg, s.thread, id), s.thread, id, Task(id, false), false),
      admission := if run.kind.Streaming? then Idle else s.admission)
  }

  /** A spawn tracks the successor; the end of a finalizer, or the done callback of a
      task without one, drops the run. */
  function NextReg(reg: Registry, thread: ThreadId, id: RunId, p: Phase, kind: Kind, handoff: Handoff): Registry {
    if handoff.Spawn? then Spawned(reg, thread, id, Task(id, true), kind.Streaming?)
    else if handoff.Stay? then reg
    else if p.InFinalizer? then FinalizerEnded(reg, thread, id)
    else TaskEnded(reg, thread, TaskOf(id, p))
  }

  function DoWork(s: System, id: RunId, out: Out): System
    requires id in s.runs && out.Next?
  {
    var run := s.runs[id];
    s.(runs := s.runs[id := out.run],
       rows := Stored(s.rows, id, out.row),
       lock := if out.lock.Take? then Some(id) else if out.lock.Give? then None else s.lock,
       reg := NextReg(s.reg, s.thread, id, PhaseOf(run), run.kind, out.handoff),
       admission := if run.pc.Inserting? then Idle else s.admission)
  }

  /** `wait` goes on when the task it awaits has ended: to a successor, to the
      completion, or back to its caller. */
  function Woken(s: System, w: Waiter): Waiter {
    match w
    case Awaiting(t) =>
      var id := t.task.run;
      if id in s.reg.tasks && s.reg.tasks[id] != t.task then Awaiting(Found(s.reg, id))
      else if t.completion then Finalizing(id) else Returned(id)
    case Finalizing(id) => Returned(id)
    case Returned(_) => w
  }

  predicate MayWake(s: System, w: Waiter) {
    match w
    case Awaiting(t) => TaskOver(s, t.task)
    case Finalizing(id) => id in s.runs && PhaseOf(s.runs[id]).AllEnded?
    case Returned(_) => false
  }

  function DoShutdown(s: System): System {
    s.(runs := map id | id in s.runs :: if id in s.reg.tasks then Doomed(s.runs[id]) else s.runs[id],
       shutdown := Stopping(Active(s.reg, s.thread), set id | id in s.reg.tasks :: Found(s.reg, id)))
  }

  /** `pending` and `running` rows of the runs that were active become `interrupted`. */
  function DoSweep(s: System, id: RunId): System
    requires s.shutdown.Sweeping?
  {
    s.(rows := Stored(s.rows, id, Written(RowOf(s, id), Interrupted, RunInterrupted)),
       shutdown := s.shutdown.(todo := s.shutdown.todo - {id}))
  }

  predicate Enabled(s: System, m: Move) {
    match m
    case Request(id, kind) => id !in s.runs && id !in s.rows
    case Admit(id, _) => id in s.runs && s.runs[id].pc.Arrive? && s.admission.Idle?
    case Aim(id) => s.admission.Holding? && s.admission.victim.None? && id in s.admission.todo && id in s.runs
    case Stopped => s.admission.Holding? && s.admission.victim.Some? && FullyOver(s, s.admission.victim.value)
    case Enroll =>
      && s.admission.Holding? && s.admission.todo == {} && s.admission.victim.None?
      && s.admission.run in s.runs && s.runs[s.admission.run].pc.Resolve?
    case Abort(id) => id in s.runs && (s.runs[id].pc.Arrive? || s.runs[id].pc.Resolve?)
    case Work(id, c) => id in s.runs && Step(id, s.runs[id], RowOf(s, id), s.lock.None?, c).Next?
    case CancelRun(id) => id in s.runs
    case Reply(id) => id in s.runs && MayAnswer(s.runs[id])
    case Elsewhere(id, row) => id in s.runs && Meddles(RowOf(s, id), row)
    case Prune => true
    case WaitFor(w, id) => w !in s.waiters && id in s.reg.tasks
    case Wake(w) => w in s.waiters && MayWake(s, s.waiters[w])
    case BeginShutdown => s.shutdown.Up?
    case AllStopped => s.shutdown.Stopping? && forall t :: t in s.shutdown.targets ==> FullyOver(s, t)
    case Sweep(id) => s.shutdown.Sweeping? && id in s.shutdown.todo
  }

  function Do(s: System, m: Move): System
    requires Enabled(s, m)
  {
    match m
    case Request(id, kind) => With(s, id, NewRun(kind))
    case Admit(id, strategy) => DoAdmit(s, id, strategy)
    case Aim(id) => DoAim(s, id)
    case Stopped => DoStopped(s)
    case Enroll => DoEnroll(s)
    case Abort(id) => DoAbort(s, id)
    case Work(id, c) => DoWork(s, id, Step(id, s.runs[id], RowOf(s, id), s.lock.None?, c))
    case CancelRun(id) => With(s, id, Doomed(s.runs[id]))
    case Reply(id) => With(s, id, Answered(s.runs[id]))
    case Elsewhere(id, row) => s.(rows := Stored(s.rows, id, row))
    case Prune => s.(reg := Pruned(s.reg, s.thread, DoneTasks(s)))
    case WaitFor(w, id) => s.(waiters := s.waiters[w := Awaiting(Found(s.reg, id))])
    case Wake(w) => s.(waiters := s.waiters[w := Woken(s, s.waiters[w])])
    case BeginShutdown => DoShutdown(s)
    case AllStopped => s.(shutdown := Sweeping(s.shutdown.active, s.shutdown.active))
    case Sweep(id) => DoSweep(s, id)
  }

  /** Every run of the process is a list of moves; `None` if one was not enabled. */
  function After(s: System, moves: seq<Move>): Option<System>
    decreases |moves|
  {
    if moves == [] then Some(s)
    else if Enabled(s, moves[0]) then After(Do(s, moves[0]), moves[1..])
    else None
  }

  // ---------------------------------------------------------------- invariant

  ghost predicate RunsInv(s: System) {
    && (forall id :: id in s.runs ==> RunInv(s.runs[id], RowOf(s, id)))
    && (forall id :: id in s.rows ==> id in s.runs)
  }

  /** The execution lock is held exactly by the run that is in its locked part. */
  ghost predicate LockInv(s: System) {
    && (s.lock.Some? ==> s.lock.value in s.runs)
    && forall id :: id in s.runs ==> (Holds(s.runs[id]) <==> s.lock == Some(id))
  }

  /** What the registry says of a run, by what is unfinished of it. */
  predicate Tracked(reg: Registry, thread: ThreadId, id: RunId, p: Phase, kind: Kind) {
    match p
    case Early => Unlisted(reg, thread, id)
    case InAdmission => kind.Streaming? && Listed(reg, thread, id, Task(id, false), false)
    case AdmissionEnded =>
      kind.Streaming? && (Listed(reg, thread, id, Task(id, false), false) || Unlisted(reg, thread, id))
    case InMain => Listed(reg, thread, id, Task(id, true), kind.Streaming?)
    case InFinalizer => Listed(reg, thread, id, Task(id, true), true)
    case MainEnded => Listed(reg, thread, id, Task(id, true), false) || Unlisted(reg, thread, id)
    case AllEnded => Unlisted(reg, thread, id)
  }

  ghost predicate TrackInv(s: System) {
    && (forall id :: id in s.runs ==> Tracked(s.reg, s.thread, id, PhaseOf(s.runs[id]), s.runs[id].kind))
    && (forall id :: id in Active(s.reg, s.thread) || id in s.reg.tasks || id in s.reg.completions ==> id in s.runs)
    && s.reg.active.Keys <= {s.thread}
    && (s.thread in s.reg.active ==> s.reg.active[s.thread] != {})
  }

  /** What a `wait` or `cancel` call found is a task of its run; its successor, if it
      gets one, is found in the registry. */
  predicate Sound(run: Run, t: Target) {
    var p := PhaseOf(run);
    if !t.task.main then run.kind.Streaming? && !t.completion && !p.Early?
    else (t.completion <==> run.kind.Streaming?) && !p.Early? && !p.InAdmission? && !p.AdmissionEnded?
  }

  /** A cancelled task hands its run to nobody. */
  predicate Halting(run: Run, t: Target) {
    && Sound(run, t)
    && (!t.task.main ==>
          var p := PhaseOf(run);
          p.AdmissionEnded? || p.AllEnded? || (p.InAdmission? && (run.doomed || run.cancelled)))
  }

  predicate Exclusive(strategy: Strategy) { !strategy.Enqueue? }

  /** These stop the active runs first. */
  predicate Stops(strategy: Strategy) { strategy.Interrupt? || strategy.Rollback? }

  predicate Unfinished(run: Run) { !Finished(run) && !PhaseOf(run).Early? }

  ghost predicate AdmissionInv(s: System) {
    && (forall id :: id in s.runs && (s.runs[id].pc.Resolve? || s.runs[id].pc.Inserting?) ==>
          s.admission.Holding? && s.admission.run == id)
    && (s.admission.Holding? ==>
          && s.admission.run in s.runs
          && (s.runs[s.admission.run].pc.Resolve? || s.runs[s.admission.run].pc.Inserting?)
          && (s.runs[s.admission.run].pc.Inserting? ==> s.admission.todo == {} && s.admission.victim.None?)
          && (Exclusive(s.admission.strategy) ==>
                forall id :: id in s.runs && Unfinished(s.runs[id]) ==> id in s.admission.todo)
          && (forall id :: id in s.admission.todo ==> id in s.runs)
          && (!Stops(s.admission.strategy) ==> s.admission.todo == {})
          && (s.admission.victim.Some? ==>
                var t := s.admission.victim.value;
                && t.task.run in s.admission.todo && t.task.run in s.runs
                && Halting(s.runs[t.task.run], t)))
  }

  ghost predicate WaitersInv(s: System) {
    forall w :: w in s.waiters ==> WaiterInv(s, s.waiters[w])
  }

  predicate WaiterInv(s: System, w: Waiter) {
    match w
    case Awaiting(t) => t.task.run in s.runs && Sound(s.runs[t.task.run], t)
    case Finalizing(id) => id in s.runs && (PhaseOf(s.runs[id]).InFinalizer? || PhaseOf(s.runs[id]).AllEnded?)
    case Returned(id) => id in s.runs && Finished(s.runs[id])
  }

  ghost predicate ShutdownInv(s: System) {
    match s.shutdown
    case Up => true
    case Stopping(active, targets) =>
      && (forall t :: t in targets ==> t.task.run in s.runs && Halting(s.runs[t.task.run], t))
      && (forall id :: id in active ==> id in s.runs)
      && (forall id :: id in active && Unfinished(s.runs[id]) ==> exists t :: t in targets && t.task.run == id)
      && (forall id :: id in active ==> !PhaseOf(s.runs[id]).Early?)
    case Sweeping(active, todo) =>
      && todo <= active
      && (forall id :: id in active ==> id in s.runs && Finished(s.runs[id]))
      && (forall id :: id in active - todo ==> Settled(RowOf(s, id)))
  }

  ghost predicate Inv(s: System) {
    RunsInv(s) && LockInv(s) && TrackInv(s) && AdmissionInv(s) && WaitersInv(s) && ShutdownInv(s)
  }

  // ---------------------------------------------------------------- preservation

  /** How a run may change, as far as those who wait for it care. */
  predicate Advances(run: Run, run': Run) {
    var p, q := PhaseOf(run), PhaseOf(run');
    && run'.kind == run.kind
    && PhaseMoves(p, q)
    && (p.InAdmission? && (run.doomed || run.cancelled) ==>
          q.AdmissionEnded? || (q.InAdmission? && (run'.doomed || run'.cancelled)))
  }

  lemma AdvancesKeeps(run: Run, run': Run, t: Target)
    requires Advances(run, run')
    ensures Sound(run, t) ==> Sound(run', t)
    ensures Halting(run, t) ==> Halting(run', t)
  {
  }

  lemma AdvancesEnd(run: Run, run': Run)
    requires Advances(run, run')
    ensures Finished(run) ==> Finished(run')
    ensures Unfinished(run') ==> Unfinished(run) || PhaseOf(run).Early?
    ensures PhaseOf(run').Early? ==> PhaseOf(run).Early?
  {
  }

  ghost predicate Onward(s: System, s': System) {
    forall id :: id in s.runs ==> id in s'.runs && Advances(s.runs[id], s'.runs[id])
  }

  lemma WaitersKeep(s: System, s': System)
    requires WaitersInv(s) && Onward(s, s') && s'.waiters == s.waiters
    ensures WaitersInv(s')
  {
    forall w | w in s'.waiters ensures WaiterInv(s', s'.waiters[w]) {
      match s.waiters[w]
      case Awaiting(t) => AdvancesKeeps(s.runs[t.task.run], s'.runs[t.task.run], t);
      case Finalizing(_) =>
      case Returned(_) =>
    }
  }

  lemma ShutdownKeeps(s: System, s': System)
    requires ShutdownInv(s) && Onward(s, s') && s'.shutdown == s.shutdown
    requires forall id :: id in s.runs && Finished(s.runs[id]) && Settled(RowOf(s, id)) ==> Settled(RowOf(s', id))
    ensures ShutdownInv(s')
  {
    hide Advances, PhaseOf, Finished, Unfinished, Halting, Sound, Settled;
    forall id | id in s.runs
      ensures
        && id in s'.runs
        && (Finished(s.runs[id]) ==> Finished(s'.runs[id]))
        && (Unfinished(s'.runs[id]) ==> Unfinished(s.runs[id]) || PhaseOf(s.runs[id]).Early?)
        && (PhaseOf(s'.runs[id]).Early? ==> PhaseOf(s.runs[id]).Early?)
    {
      AdvancesEnd(s.runs[id], s'.runs[id]);
    }
    match s.shutdown
    case Up =>
    case Stopping(active, targets) =>
      forall t | t in targets ensures t.task.run in s'.runs && Halting(s'.runs[t.task.run], t) {
        AdvancesKeeps(s.runs[t.task.run], s'.runs[t.task.run], t);
      }
    case Sweeping(active, todo) =>
  }

  /** The admission lock's holder, and who is still to be stopped, when no run enters
      or leaves admission. */
  lemma AdmissionLockKeeps(s: System, s': System)
    requires AdmissionInv(s) && Onward(s, s') && s'.admission == s.admission && s'.runs.Keys == s.runs.Keys
    requires forall id :: id in s.runs ==> s.runs[id].pc.Resolve? == s'.runs[id].pc.Resolve?
    requires forall id :: id in s.runs ==> s.runs[id].pc.Inserting? == s'.runs[id].pc.Inserting?
    requires forall id :: id in s.runs && Unfinished(s'.runs[id]) ==> Unfinished(s.runs[id])
    ensures AdmissionInv(s')
  {
    if s.admission.Holding? && s.admission.victim.Some? {
      var t := s.admission.victim.value;
      AdvancesKeeps(s.runs[t.task.run], s'.runs[t.task.run], t);
    }
  }

  lemma LockKeeps(s: System, s': System)
    requires LockInv(s) && s'.lock == s.lock && s'.runs.Keys == s.runs.Keys
    requires forall id :: id in s.runs ==> Holds(s'.runs[id]) == Holds(s.runs[id])
    ensures LockInv(s')
  {
  }

  lemma TrackKeeps(s: System, s': System)
    requires TrackInv(s) && s'.reg == s.reg && s'.thread == s.thread && s'.runs.Keys == s.runs.Keys
    requires forall id :: id in s.runs ==>
                            PhaseOf(s'.runs[id]) == PhaseOf(s.runs[id]) && s'.runs[id].kind == s.runs[id].kind
    ensures TrackInv(s')
  {
  }

  /** One run changes within its phase, and nothing else does. */
  lemma OneRunStays(s: System, id: RunId, run: Run)
    requires RunsInv(s) && id in s.runs && RunInv(run, RowOf(s, id))
    ensures RunsInv(With(s, id, run))
  {
    hide RunInv;
    assert forall j :: j in s.runs ==> RowOf(With(s, id, run), j) == RowOf(s, j);
  }

  lemma OneRunKeeps(s: System, id: RunId, run: Run)
    requires Inv(s) && id in s.runs
    requires RunInv(run, RowOf(s, id)) && Advances(s.runs[id], run) && PhaseOf(run) == PhaseOf(s.runs[id])
    requires Holds(run) == Holds(s.runs[id]) && run.pc == s.runs[id].pc
    ensures Inv(With(s, id, run))
  {
    hide RunInv, RunsInv, LockInv, TrackInv, WaitersInv, ShutdownInv, AdmissionInv;
    var s' := With(s, id, run);
    assert Onward(s, s') by { OneOnward(s, id, run); }
    OneRunStays(s, id, run);
    assert forall j :: j in s.runs ==> RowOf(s', j) == RowOf(s, j);
    hide Advances, PhaseOf, Holds;
    LockKeeps(s, s');
    TrackKeeps(s, s');
    WaitersKeep(s, s');
    ShutdownKeeps(s, s');
    AdmissionLockKeeps(s, s');
  }

  lemma SameAdvances(run: Run)
    ensures Advances(run, run)
  {
  }

  lemma OneOnward(s: System, id: RunId, run: Run)
    requires id in s.runs && Advances(s.runs[id], run)
    ensures Onward(s, With(s, id, run))
  {
    forall j | j in s.runs ensures Advances(s.runs[j], With(s, id, run).runs[j]) { SameAdvances(s.runs[j]); }
  }

  /** One run moves on: nobody who waits for it, or for others, is misled. */
  lemma ChangeOnward(s: System, s': System, id: RunId)
    requires WaitersInv(s) && ShutdownInv(s) && id in s.runs && id in s'.runs && s'.runs == s.runs[id := s'.runs[id]]
    requires Advances(s.runs[id], s'.runs[id]) && s'.waiters == s.waiters && s'.shutdown == s.shutdown
    requires forall j :: j != id ==> RowOf(s', j) == RowOf(s, j)
    requires Finished(s.runs[id]) && Settled(RowOf(s, id)) ==> Settled(RowOf(s', id))
    ensures Onward(s, s') && WaitersInv(s') && ShutdownInv(s')
  {
    hide Advances, WaitersInv, ShutdownInv, Finished, Settled;
    OneOnward(s, id, s'.runs[id]);
    assert Onward(s, s');
    WaitersKeep(s, s');
    ShutdownKeeps(s, s');
  }

  lemma SameOnward(s: System, s': System)
    requires s'.runs == s.runs
    ensures Onward(s, s')
  {
    forall id | id in s.runs ensures Advances(s.runs[id], s'.runs[id]) { SameAdvances(s.runs[id]); }
  }

  lemma CancelAdvances(run: Run)
    ensures Advances(run, Doomed(run)) && PhaseOf(Doomed(run)) == PhaseOf(run)
    ensures Holds(Doomed(run)) == Holds(run) && Doomed(run).pc == run.pc
  {
  }

  lemma ReplyAdvances(run: Run)
    ensures Advances(run, Answered(run)) && PhaseOf(Answered(run)) == PhaseOf(run)
    ensures Holds(Answered(run)) == Holds(run) && Answered(run).pc == run.pc
  {
  }

  lemma CancelRunKeeps(s: System, id: RunId)
    requires Inv(s) && id in s.runs
    ensures Inv(With(s, id, Doomed(s.runs[id])))
  {
    CancelKeeps(s.runs[id], RowOf(s, id));
    CancelAdvances(s.runs[id]);
    OneRunKeeps(s, id, Doomed(s.runs[id]));
  }

  lemma ReplyKeeps(s: System, id: RunId)
    requires Inv(s) && id in s.runs && MayAnswer(s.runs[id])
    ensures Inv(With(s, id, Answered(s.runs[id])))
  {
    AnswerKeeps(s.runs[id], RowOf(s, id));
    ReplyAdvances(s.runs[id]);
    OneRunKeeps(s, id, Answered(s.runs[id]));
  }

  /** Only rows change, and no settled row comes back to life. */
  lemma RowsKeep(s: System, s': System)
    requires Inv(s) && s' == s.(rows := s'.rows) && s'.rows.Keys <= s.runs.Keys
    requires forall id :: id in s.runs ==> Meddles(RowOf(s, id), RowOf(s', id))
    ensures Inv(s')
  {
    hide RunInv, LockInv, TrackInv, AdmissionInv, WaitersInv, ShutdownInv;
    hide Advances, PhaseOf, Finished, Unfinished, Holds;
    forall id | id in s'.runs ensures RunInv(s'.runs[id], RowOf(s', id)) {
      MeddlingKeeps(s.runs[id], RowOf(s, id), RowOf(s', id));
    }
    SameOnward(s, s');
    LockKeeps(s, s');
    TrackKeeps(s, s');
    WaitersKeep(s, s');
    ShutdownKeeps(s, s');
    AdmissionLockKeeps(s, s');
  }

  lemma ElsewhereKeeps(s: System, id: RunId, row: Option<Row>)
    requires Inv(s) && id in s.runs && Meddles(RowOf(s, id), row)
    ensures Inv(s.(rows := Stored(s.rows, id, row)))
  {
    hide RunInv;
    var s' := s.(rows := Stored(s.rows, id, row));
    assert RowOf(s', id) == row;
    RowsKeep(s, s');
  }

  lemma RequestTracks(s: System, id: RunId, run: Run)
    requires TrackInv(s) && LockInv(s) && AdmissionInv(s) && id !in s.runs && run.pc.Arrive?
    ensures var s' := With(s, id, run); TrackInv(s') && LockInv(s') && AdmissionInv(s')
  {
  }

  lemma RequestKeeps(s: System, id: RunId, run: Run)
    requires Inv(s) && id !in s.runs && id !in s.rows && RunInv(run, None) && run.pc.Arrive?
    ensures Inv(With(s, id, run))
  {
    hide RunInv, TrackInv, LockInv, AdmissionInv;
    var s' := With(s, id, run);
    RequestTracks(s, id, run);
    forall j | j in s.runs ensures Advances(s.runs[j], s'.runs[j]) { SameAdvances(s.runs[j]); }
    assert forall j :: RowOf(s', j) == RowOf(s, j);
    hide Advances;
    assert Onward(s, s');
    WaitersKeep(s, s');
    ShutdownKeeps(s, s');
  }

  // ---------------------------------------------------------------- waiting and shutdown

  lemma WaiterKeeps(s: System, w: nat, waiter: Waiter)
    requires Inv(s) && WaiterInv(s, waiter)
    ensures Inv(s.(waiters := s.waiters[w := waiter]))
  {
    hide RunInv, WaiterInv;
    var s' := s.(waiters := s.waiters[w := waiter]);
    assert forall id :: RowOf(s', id) == RowOf(s, id);
    forall v | v in s'.waiters ensures WaiterInv(s', s'.waiters[v]) {
      SameWaiter(s, s', s'.waiters[v]);
    }
    hide WaitersInv;
    SameOnward(s, s');
    LockKeeps(s, s');
    TrackKeeps(s, s');
    ShutdownKeeps(s, s');
    AdmissionLockKeeps(s, s');
  }

  lemma SameWaiter(s: System, s': System, w: Waiter)
    requires s'.runs == s.runs && WaiterInv(s, w)
    ensures WaiterInv(s', w)
  {
  }

  predicate NotHandedOff(run: Run) { PhaseOf(run).InAdmission? || PhaseOf(run).AdmissionEnded? }

  /** What the registry hands out is a task that is really there. */
  lemma FoundIsSound(s: System, id: RunId)
    requires TrackInv(s) && id in s.reg.tasks
    ensures id in s.runs && s.reg.tasks[id].run == id && Sound(s.runs[id], Found(s.reg, id))
    ensures s.reg.tasks[id].main || NotHandedOff(s.runs[id])
  {
  }

  /** A caller of `wait` that goes on finds a successor, a pending finalizer, or that
      nothing of the run is left unfinished. */
  lemma WokenInv(s: System, w: Waiter)
    requires TrackInv(s) && WaiterInv(s, w) && MayWake(s, w)
    ensures WaiterInv(s, Woken(s, w))
  {
    match w
    case Awaiting(t) =>
      if t.task.run in s.reg.tasks { FoundIsSound(s, t.task.run); }
    case Finalizing(id) =>
    case Returned(_) =>
  }

  lemma StaleIsOver(s: System, id: RunId)
    requires TrackInv(s) && id in s.reg.tasks
    ensures Stale(s.reg, id, DoneTasks(s)) <==> TaskOver(s, s.reg.tasks[id]) && id !in s.reg.completions
  {
    if s.reg.tasks[id] in DoneTasks(s) {
      var j :| j in s.reg.tasks && TaskOver(s, s.reg.tasks[j]) && s.reg.tasks[j] == s.reg.tasks[id];
    }
  }

  /** Unbroken tracking: `active_runs` returns exactly the runs with an unfinished task
      or finalizer, across every hand-off. */
  lemma LiveExactly(s: System, id: RunId)
    requires TrackInv(s)
    ensures id in Live(s.reg, s.thread, DoneTasks(s)) <==> id in s.runs && Unfinished(s.runs[id])
  {
    if id in s.reg.tasks { StaleIsOver(s, id); }
    if id in s.runs { assert Tracked(s.reg, s.thread, id, PhaseOf(s.runs[id]), s.runs[id].kind); }
  }

  lemma PruneTracks(s: System)
    requires TrackInv(s)
    ensures TrackInv(s.(reg := Pruned(s.reg, s.thread, DoneTasks(s))))
  {
    var s' := s.(reg := Pruned(s.reg, s.thread, DoneTasks(s)));
    forall id | id in s.runs ensures Tracked(s'.reg, s.thread, id, PhaseOf(s.runs[id]), s.runs[id].kind) {
      LiveExactly(s, id);
      assert Active(s'.reg, s.thread) == Live(s.reg, s.thread, DoneTasks(s));
    }
  }

  lemma PruneKeeps(s: System)
    requires Inv(s)
    ensures Inv(s.(reg := Pruned(s.reg, s.thread, DoneTasks(s))))
  {
    hide RunInv, Pruned, TrackInv, Advances, PhaseOf, Finished, Unfinished, Holds, Settled, Doomed;
    hide LockInv, AdmissionInv, WaitersInv, ShutdownInv;
    var s' := s.(reg := Pruned(s.reg, s.thread, DoneTasks(s)));
    PruneTracks(s);
    SameOnward(s, s');
    assert forall id :: RowOf(s', id) == RowOf(s, id);
    LockKeeps(s, s');
    WaitersKeep(s, s');
    ShutdownKeeps(s, s');
    AdmissionLockKeeps(s, s');
  }

  // ---------------------------------------------------------------- one run's registry entry

  predicate SameEntry(reg: Registry, reg': Registry, thread: ThreadId, id: RunId) {
    (ActiveOn(reg', thread, id) <==> ActiveOn(reg, thread, id)) && SameTask(reg, reg', id)
  }

  /** Only one run's entry changes, and the thread has an entry if it has a run. */
  ghost predicate OneEntry(reg: Registry, reg': Registry, thread: ThreadId, id: RunId) {
    && (forall j :: j != id ==> SameEntry(reg, reg', thread, j))
    && reg'.active.Keys <= {thread}
    && (thread in reg'.active ==> reg'.active[thread] != {})
  }

  lemma SpawnedEntry(reg: Registry, thread: ThreadId, id: RunId, task: Task, finalized: bool)
    requires reg.active.Keys <= {thread} && id !in reg.completions
    ensures OneEntry(reg, Spawned(reg, thread, id, task, finalized), thread, id)
    ensures Listed(Spawned(reg, thread, id, task, finalized), thread, id, task, finalized)
    ensures Spawned(Reserved(reg, thread, id), thread, id, task, finalized) == Spawned(reg, thread, id, task, finalized)
  {
    assert Active(reg, thread) + {id} + {id} == Active(reg, thread) + {id};
  }

  lemma ForgottenEntry(reg: Registry, thread: ThreadId, id: RunId)
    requires reg.active.Keys <= {thread} && (thread in reg.active ==> reg.active[thread] != {})
    requires id !in reg.completions
    ensures OneEntry(reg, Forgotten(reg, thread, id), thread, id)
    ensures Unlisted(Forgotten(reg, thread, id), thread, id)
  {
  }

  lemma SameTracked(reg: Registry, reg': Registry, thread: ThreadId, id: RunId, p: Phase, kind: Kind)
    requires SameEntry(reg, reg', thread, id) && Tracked(reg, thread, id, p, kind)
    ensures Tracked(reg', thread, id, p, kind)
  {
  }

  /** One run takes a step that its registry entry follows. */
  lemma OneEntryTracks(s: System, s': System, id: RunId)
    requires TrackInv(s) && s'.thread == s.thread && id in s'.runs
    requires forall j :: j != id ==> (j in s'.runs <==> j in s.runs)
    requires forall j :: j != id && j in s.runs ==> s'.runs[j] == s.runs[j]
    requires OneEntry(s.reg, s'.reg, s.thread, id)
    requires Tracked(s'.reg, s.thread, id, PhaseOf(s'.runs[id]), s'.runs[id].kind)
    ensures TrackInv(s')
  {
    forall j | j in s'.runs ensures Tracked(s'.reg, s.thread, j, PhaseOf(s'.runs[j]), s'.runs[j].kind) {
      hide Tracked, SameEntry, PhaseOf;
      if j != id {
        SameTracked(s.reg, s'.reg, s.thread, j, PhaseOf(s.runs[j]), s.runs[j].kind);
      }
    }
    forall j | j in Active(s'.reg, s.thread) || j in s'.reg.tasks || j in s'.reg.completions
      ensures j in s'.runs
    {
      assert j != id ==> SameEntry(s.reg, s'.reg, s.thread, j);
    }
  }

  // ---------------------------------------------------------------- a task's step

  /** What a step means to whoever waits for the run. */
  lemma WorkAdvances(id: RunId, run: Run, row: Option<Row>, free: bool, c: Choice)
    requires RunInv(run, row) && Step(id, run, row, free, c).Next?
    ensures Advances(run, Step(id, run, row, free, c).run)
  {
    StepKeeps(id, run, row, free, c);
    if Admitting(run) && (run.doomed || run.cancelled) { CancelledAdmissionEnds(id, run, row, free, c); }
  }

  lemma WaitsForLock(id: RunId, run: Run, row: Option<Row>, free: bool, c: Choice, out: Out)
    requires run.pc == Pc.Admit(AdmitWait) || run.pc.Wait?
    requires out == Resume(id, run, row, free, c) && out.Next? && out.lock.Take?
    ensures free
  {
  }

  lemma TakesFreeLock(id: RunId, run: Run, row: Option<Row>, free: bool, c: Choice)
    requires RunInv(run, row)
    ensures var out := Step(id, run, row, free, c); out.Next? && out.lock.Take? ==> free
  {
    hide RunInv, Resume, Struck, Rank, Holds, InMainTask;
    StepKeeps(id, run, row, free, c);
    var out := Resume(id, run, row, free, c);
    if c.Land? == run.doomed && out.Next? && out.lock.Take? { WaitsForLock(id, run, row, free, c, out); }
  }

  lemma EntryFollows(reg: Registry, thread: ThreadId, id: RunId, p: Phase, q: Phase, kind: Kind, handoff: Handoff)
    requires Tracked(reg, thread, id, p, kind) && PhaseMoves(p, q)
    requires reg.active.Keys <= {thread} && (thread in reg.active ==> reg.active[thread] != {})
    requires !q.Early? && (p.Early? ==> !q.InAdmission?)
    requires (q.MainEnded? ==> kind.Background?) && (q.InFinalizer? ==> kind.Streaming?)
    requires handoff.Spawn? <==> q.InMain? && !p.InMain?
    requires handoff.Forget? <==> q.AllEnded? && !p.Early?
    ensures OneEntry(reg, NextReg(reg, thread, id, p, kind, handoff), thread, id)
    ensures Tracked(NextReg(reg, thread, id, p, kind, handoff), thread, id, q, kind)
  {
    if handoff.Spawn? {
      SpawnedEntry(reg, thread, id, Task(id, true), kind.Streaming?);
    } else if handoff.Forget? && id in reg.tasks {
      ForgottenEntry(reg.(completions := reg.completions - {id}), thread, id);
      assert !p.InFinalizer? ==> reg.completions - {id} == reg.completions;
    }
  }

  lemma WorkTracks(s: System, id: RunId, row: Option<Row>, c: Choice, out: Out)
    requires TrackInv(s) && id in s.runs && KindFits(s.runs[id])
    requires out.Next? && Effects(s.runs[id], row, c, out)
    ensures TrackInv(DoWork(s, id, out))
  {
    hide Tracked, OneEntry, NextReg, Effects, PhaseOf, PhaseMoves, KindFits;
    var run := s.runs[id];
    assert Tracked(s.reg, s.thread, id, PhaseOf(run), run.kind);
    EffectsPhases(run, row, c, out);
    EntryFollows(s.reg, s.thread, id, PhaseOf(run), PhaseOf(out.run), run.kind, out.handoff);
    assert out.run.kind == run.kind by { EffectsStay(run, row, c, out); }
    OneEntryTracks(s, DoWork(s, id, out), id);
  }

  lemma KindIsFit(run: Run, row: Option<Row>)
    requires RunInv(run, row)
    ensures KindFits(run)
  {
  }

  lemma WorkLocks(s: System, id: RunId, row: Option<Row>, c: Choice, out: Out)
    requires LockInv(s) && id in s.runs && out.Next? && Effects(s.runs[id], row, c, out)
    requires out.lock.Take? ==> s.lock.None?
    ensures LockInv(DoWork(s, id, out))
  {
    hide PhaseMoves, PhaseOf, Rank, NextReg;
  }

  lemma WorkAdmits(s: System, id: RunId, row: Option<Row>, c: Choice, out: Out)
    requires AdmissionInv(s) && id in s.runs && out.Next? && Effects(s.runs[id], row, c, out)
    requires Advances(s.runs[id], out.run) && Onward(s, DoWork(s, id, out))
    requires !s.runs[id].pc.Resolve? && !s.runs[id].pc.Arrive?
    ensures AdmissionInv(DoWork(s, id, out))
  {
    hide Holds, Rank, NextReg;
    var run, s' := s.runs[id], DoWork(s, id, out);
    assert BeforeSpawn(run) <==> run.pc.Inserting?;
    assert !BeforeSpawn(out.run);
    if !run.pc.Inserting? { AdmissionLockKeeps(s, s'); }
  }

  lemma WorkStores(s: System, id: RunId, out: Out)
    requires RunsInv(s) && id in s.runs && out.Next? && RunInv(out.run, out.row)
    ensures RunsInv(DoWork(s, id, out))
  {
    hide RunInv, NextReg;
    var s' := DoWork(s, id, out);
    assert RowOf(s', id) == out.row;
    assert forall j :: j != id ==> RowOf(s', j) == RowOf(s, j);
  }

  lemma WorkOnward(s: System, id: RunId, row: Option<Row>, c: Choice, out: Out)
    requires ShutdownInv(s) && WaitersInv(s) && id in s.runs && row == RowOf(s, id)
    requires out.Next? && Effects(s.runs[id], row, c, out) && Advances(s.runs[id], out.run)
    ensures var s' := DoWork(s, id, out); Onward(s, s') && WaitersInv(s') && ShutdownInv(s')
  {
    hide NextReg, Advances, Rank, Holds, PhaseMoves, ShutdownInv, WaitersInv;
    assert RowOf(DoWork(s, id, out), id) == out.row;
    ChangeOnward(s, DoWork(s, id, out), id);
  }

  lemma WorkKeeps(s: System, id: RunId, c: Choice)
    requires Inv(s) && Enabled(s, Work(id, c))
    ensures Inv(Do(s, Work(id, c)))
  {
    hide RunInv, Effects, Advances, LockInv, TrackInv, AdmissionInv, WaitersInv, ShutdownInv, DoWork, Resume;
    var run, row := s.runs[id], RowOf(s, id);
    var out := Step(id, run, row, s.lock.None?, c);
    assert RunInv(run, row);
    StepKeeps(id, run, row, s.lock.None?, c);
    WorkAdvances(id, run, row, s.lock.None?, c);
    TakesFreeLock(id, run, row, s.lock.None?, c);
    WorkStores(s, id, out);
    WorkLocks(s, id, row, c, out);
    assert KindFits(run) by { KindIsFit(run, row); }
    WorkTracks(s, id, row, c, out);
    WorkOnward(s, id, row, c, out);
    assert !run.pc.Resolve? && !run.pc.Arrive? by { StepsFromTask(id, run, row, s.lock.None?, c); }
    WorkAdmits(s, id, row, c, out);
  }

  lemma StepsFromTask(id: RunId, run: Run, row: Option<Row>, free: bool, c: Choice)
    requires Step(id, run, row, free, c).Next?
    ensures !run.pc.Arrive? && !run.pc.Resolve? && !run.pc.Gone?
  {
    hide ResumeAdmission, ResumeMain, ResumeEnd;
  }

  // ---------------------------------------------------------------- admission

  lemma OneRunInv(s: System, id: RunId)
    requires RunsInv(s) && id in s.runs
    ensures RunInv(s.runs[id], RowOf(s, id))
  {
  }

  /** A run that has not begun moves on, or gives up, and the registry does not see it. */
  lemma UnseenKeeps(s: System, id: RunId, run: Run, admission: Admission)
    requires RunsInv(s) && LockInv(s) && TrackInv(s) && WaitersInv(s) && ShutdownInv(s) && id in s.runs
    requires PhaseOf(s.runs[id]).Early? && (PhaseOf(run).Early? || PhaseOf(run).AllEnded?)
    requires RunInv(run, RowOf(s, id)) && run.kind == s.runs[id].kind && !Holds(run) && !Holds(s.runs[id])
    ensures var s' := With(s, id, run).(admission := admission);
            RunsInv(s') && LockInv(s') && TrackInv(s') && WaitersInv(s') && ShutdownInv(s') && Onward(s, s')
  {
    hide RunInv, Holds, WaitersInv, ShutdownInv;
    var s' := With(s, id, run).(admission := admission);
    assert RunsInv(s') by { assert forall j :: RowOf(s', j) == RowOf(s, j); }
    assert TrackInv(s') by {
      assert Tracked(s.reg, s.thread, id, PhaseOf(s.runs[id]), run.kind);
      OneEntryTracks(s, s', id);
    }
    assert Advances(s.runs[id], run);
    hide PhaseOf, Advances;
    ChangeOnward(s, s', id);
  }

  lemma HoldKeeps(s: System, id: RunId, strategy: Strategy, todo: set<RunId>)
    requires Inv(s) && id in s.runs && s.runs[id].pc.Arrive? && s.admission.Idle?
    requires todo <= s.runs.Keys
    requires Exclusive(strategy) ==> forall j :: j in s.runs && Unfinished(s.runs[j]) ==> j in todo
    requires !Stops(strategy) ==> todo == {}
    ensures Inv(With(s, id, s.runs[id].(pc := Resolve)).(admission := Holding(id, strategy, todo, None)))
  {
    hide RunInv, RunsInv, LockInv, TrackInv, WaitersInv, ShutdownInv;
    OneRunInv(s, id);
    var run := s.runs[id].(pc := Resolve);
    EnterKeeps(s.runs[id], RowOf(s, id));
    UnseenKeeps(s, id, run, Holding(id, strategy, todo, None));
  }

  lemma AbortKeeps(s: System, id: RunId)
    requires Inv(s) && id in s.runs && (s.runs[id].pc.Arrive? || s.runs[id].pc.Resolve?)
    ensures Inv(DoAbort(s, id))
  {
    hide RunInv, RunsInv, LockInv, TrackInv, WaitersInv, ShutdownInv;
    var run, s' := s.runs[id], DoAbort(s, id);
    OneRunInv(s, id);
    GiveUpKeeps(run, RowOf(s, id));
    UnseenKeeps(s, id, GaveUp(run), s'.admission);
    if run.pc.Arrive? {
      AdmissionLockKeeps(s, s');
    }
  }

  lemma AdmitKeeps(s: System, id: RunId, strategy: Strategy)
    requires Inv(s) && id in s.runs && s.runs[id].pc.Arrive? && s.admission.Idle?
    ensures Inv(DoAdmit(s, id, strategy))
  {
    var done := DoneTasks(s);
    var live := Live(s.reg, s.thread, done);
    var s1 := s.(reg := Pruned(s.reg, s.thread, done));
    PruneKeeps(s);
    forall j ensures j in live <==> j in s.runs && Unfinished(s.runs[j]) { LiveExactly(s, j); }
    hide RunInv, RunsInv, LockInv, TrackInv, AdmissionInv, WaitersInv, ShutdownInv, Unfinished;
    if strategy.Reject? && live != {} {
      AbortKeeps(s1, id);
      assert DoAbort(s1, id) == DoAdmit(s, id, strategy);
    } else {
      HoldKeeps(s1, id, strategy, if strategy.Enqueue? then {} else live);
    }
  }

  /** A cancelled run does not go on to a successor. */
  lemma DoomedHalts(s: System, id: RunId)
    requires RunsInv(s) && TrackInv(s) && id in s.reg.tasks
    ensures Halting(Doomed(s.runs[id]), Found(s.reg, id)) && Advances(s.runs[id], Doomed(s.runs[id]))
  {
    hide RunInv, Sound, Doomed, Advances, Halting;
    FoundIsSound(s, id);
    CancelHalts(s.runs[id], Found(s.reg, id));
    CancelAdvances(s.runs[id]);
  }

  lemma CancelHalts(run: Run, t: Target)
    requires Sound(run, t) && (t.task.main || NotHandedOff(run))
    ensures Halting(Doomed(run), t)
  {
    hide Sound, Advances;
    CancelAdvances(run);
    AdvancesKeeps(run, Doomed(run), t);
  }

  lemma AdmissionOnly(s: System, admission: Admission)
    requires Inv(s) && AdmissionInv(s.(admission := admission))
    ensures Inv(s.(admission := admission))
  {
    hide RunInv, LockInv, TrackInv, AdmissionInv, WaitersInv, ShutdownInv;
    hide Advances, PhaseOf, Finished, Unfinished, Holds, Settled;
    var s' := s.(admission := admission);
    assert forall id :: RowOf(s', id) == RowOf(s, id);
    SameOnward(s, s');
    WaitersKeep(s, s');
    ShutdownKeeps(s, s');
    LockKeeps(s, s');
    TrackKeeps(s, s');
  }

  lemma VictimKeeps(s: System, t: Target)
    requires Inv(s) && s.admission.Holding? && t.task.run in s.admission.todo
    requires t.task.run in s.runs && Halting(s.runs[t.task.run], t)
    ensures Inv(s.(admission := s.admission.(victim := Some(t))))
  {
    hide RunInv, Halting, Unfinished, RunsInv, LockInv, TrackInv, WaitersInv, ShutdownInv;
    AdmissionOnly(s, s.admission.(victim := Some(t)));
  }

  /** The victim has a task: it is cancelled, and waited for. */
  lemma AimAtTask(s: System, id: RunId)
    requires Inv(s) && s.admission.Holding? && id in s.admission.todo && id in s.reg.tasks && id in s.runs
    ensures Inv(DoAim(s, id))
  {
    DoomedHalts(s, id);
    FoundIsSound(s, id);
    hide RunInv, Halting, Advances, Doomed, RunsInv, LockInv, TrackInv, WaitersInv, ShutdownInv, Unfinished;
    CancelRunKeeps(s, id);
    VictimKeeps(With(s, id, Doomed(s.runs[id])), Found(s.reg, id));
  }

  /** It has none left: nothing of it is unfinished. */
  lemma UntrackedIsFinished(s: System, id: RunId)
    requires TrackInv(s) && id in s.runs && id !in s.reg.tasks
    ensures !Unfinished(s.runs[id])
  {
    assert Tracked(s.reg, s.thread, id, PhaseOf(s.runs[id]), s.runs[id].kind);
    hide TrackInv;
  }

  lemma AimAtNothing(s: System, id: RunId)
    requires Inv(s) && s.admission.Holding? && s.admission.victim.None?
    requires id in s.admission.todo && id !in s.reg.tasks && id in s.runs
    ensures Inv(DoAim(s, id))
  {
    hide RunInv, Unfinished, RunsInv, LockInv, TrackInv, WaitersInv, ShutdownInv, Halting, PhaseOf;
    UntrackedIsFinished(s, id);
    AdmissionOnly(s, s.admission.(todo := s.admission.todo - {id}));
  }

  /** Once the task and the finalizer that were found are over, so is the run. */
  lemma HaltedIsFinished(s: System, t: Target)
    requires t.task.run in s.runs && Halting(s.runs[t.task.run], t) && FullyOver(s, t)
    ensures Finished(s.runs[t.task.run])
  {
  }

  lemma StoppedKeeps(s: System)
    requires Inv(s) && s.admission.Holding? && s.admission.victim.Some? && FullyOver(s, s.admission.victim.value)
    ensures Inv(DoStopped(s))
  {
    var s' := DoStopped(s);
    var s1 := s.(rows := s'.rows);
    HaltedIsFinished(s, s.admission.victim.value);
    assert forall id :: Meddles(RowOf(s, id), RowOf(s1, id));
    RowsKeep(s, s1);
    hide RunInv, RunsInv, LockInv, TrackInv, WaitersInv, ShutdownInv;
    AdmissionOnly(s1, s'.admission);
  }

  lemma EnrolledEntry(s: System, id: RunId, reg: Registry)
    requires TrackInv(s) && id in s.runs && PhaseOf(s.runs[id]).Early?
    requires reg == Spawned(Reserved(s.reg, s.thread, id), s.thread, id, Task(id, false), false)
    ensures OneEntry(s.reg, reg, s.thread, id)
    ensures Listed(reg, s.thread, id, Task(id, false), false)
  {
    assert Tracked(s.reg, s.thread, id, PhaseOf(s.runs[id]), s.runs[id].kind);
    SpawnedEntry(s.reg, s.thread, id, Task(id, false), false);
  }

  lemma RegisteredAdvances(run: Run)
    requires run.pc.Resolve?
    ensures Advances(run, Registered(run)) && !Holds(run) && !Holds(Registered(run))
    ensures run.kind.Streaming? ==> PhaseOf(Registered(run)).InAdmission?
    ensures PhaseOf(run).Early?
  {
  }

  lemma EnrollFreesAdmission(s: System, id: RunId)
    requires AdmissionInv(s) && s.admission.Holding? && s.admission.run == id && id in s.runs
    requires s.runs[id].kind.Streaming?
    ensures AdmissionInv(DoEnroll(s))
  {
    hide Halting, Unfinished, Spawned, Reserved;
  }

  /** A streaming run is registered, and its admission task spawned, in one step. */
  lemma EnrollStreaming(s: System, id: RunId)
    requires Inv(s) && s.admission.Holding? && s.admission.run == id && id in s.runs && s.runs[id].pc.Resolve?
    requires s.runs[id].kind.Streaming?
    ensures Inv(DoEnroll(s))
  {
    hide RunInv, Advances, Holds, PhaseOf, AdmissionInv, WaitersInv, ShutdownInv, Tracked, OneEntry;
    var s' := DoEnroll(s);
    RegisteredAdvances(s.runs[id]);
    ChangeOnward(s, s', id);
    assert RunsInv(s') by {
      RegisterKeeps(s.runs[id], RowOf(s, id));
      assert forall j :: RowOf(s', j) == RowOf(s, j);
    }
    assert LockInv(s');
    assert TrackInv(s') by {
      EnrolledEntry(s, id, s'.reg);
      EnrolledTracked(s', id);
      OneEntryTracks(s, s', id);
    }
    EnrollFreesAdmission(s, id);
  }

  lemma EnrolledTracked(s: System, id: RunId)
    requires id in s.runs && PhaseOf(s.runs[id]).InAdmission? && s.runs[id].kind.Streaming?
    requires Listed(s.reg, s.thread, id, Task(id, false), false)
    ensures Tracked(s.reg, s.thread, id, PhaseOf(s.runs[id]), s.runs[id].kind)
  {
  }

  /** A background run inserts its row first, under the admission lock. */
  lemma EnrollBackground(s: System, id: RunId, run: Run)
    requires Inv(s) && s.admission.Holding? && s.admission.run == id && s.runs[id].pc.Resolve?
    requires s.admission.todo == {} && s.admission.victim.None?
    requires run == Registered(s.runs[id]) && run.kind.Background?
    ensures Inv(DoEnroll(s))
  {
    hide RunInv, RunsInv, LockInv, TrackInv, WaitersInv, ShutdownInv;
    OneRunInv(s, id);
    RegisterKeeps(s.runs[id], RowOf(s, id));
    UnseenKeeps(s, id, run, s.admission);
    assert AdmissionInv(DoEnroll(s));
  }

  // ---------------------------------------------------------------- shutdown

  /** Nothing that the invariant reads of a run, but its `doomed` flag, has changed. */
  predicate AsBefore(run: Run, run': Run) {
    && Advances(run, run')
    && Holds(run') == Holds(run) && run'.pc == run.pc && run'.kind == run.kind
    && PhaseOf(run') == PhaseOf(run) && Unfinished(run') == Unfinished(run)
  }

  lemma DoomedAsBefore(run: Run)
    ensures AsBefore(run, Doomed(run)) && AsBefore(run, run)
  {
  }

  /** Every task that is cancelled halts; a run without a task has nothing unfinished. */
  lemma DoomedAll(s: System, s': System)
    requires Inv(s) && s' == s.(runs := s'.runs) && s'.runs.Keys == s.runs.Keys
    requires forall id :: id in s.runs ==> s'.runs[id] == Doomed(s.runs[id]) || s'.runs[id] == s.runs[id]
    ensures Inv(s') && Onward(s, s')
  {
    hide Doomed, Holds, PhaseOf, Advances, Finished, Unfinished, Settled;
    hide RunInv, LockInv, TrackInv, WaitersInv, ShutdownInv, AdmissionInv;
    forall id | id in s.runs ensures RunInv(s'.runs[id], RowOf(s', id)) { CancelKeeps(s.runs[id], RowOf(s, id)); }
    forall id | id in s.runs ensures AsBefore(s.runs[id], s'.runs[id]) { DoomedAsBefore(s.runs[id]); }
    hide RunsInv;
    assert Onward(s, s');
    LockKeeps(s, s');
    TrackKeeps(s, s');
    WaitersKeep(s, s');
    ShutdownKeeps(s, s');
    AdmissionLockKeeps(s, s');
  }

  lemma ShutdownOnly(s: System, shutdown: Shutdown)
    requires Inv(s) && ShutdownInv(s.(shutdown := shutdown))
    ensures Inv(s.(shutdown := shutdown))
  {
    hide RunInv;
    var s' := s.(shutdown := shutdown);
    assert forall id :: RowOf(s', id) == RowOf(s, id);
    SameOnward(s, s');
    WaitersKeep(s, s');
    AdmissionLockKeeps(s, s');
  }

  lemma BeginShutdownKeeps(s: System)
    requires Inv(s) && s.shutdown.Up?
    ensures Inv(DoShutdown(s))
  {
    hide RunInv, LockInv, AdmissionInv, WaitersInv;
    var s' := DoShutdown(s);
    var s1 := s.(runs := s'.runs);
    DoomedAll(s, s1);
    forall t | t in s'.shutdown.targets ensures t.task.run in s'.runs && Halting(s'.runs[t.task.run], t) {
      var id :| id in s.reg.tasks && t == Found(s.reg, id);
      FoundIsSound(s, id);
      DoomedHalts(s, id);
    }
    forall id | id in s'.shutdown.active
      ensures id in s'.runs && !PhaseOf(s'.runs[id]).Early?
      ensures Unfinished(s'.runs[id]) ==> exists t :: t in s'.shutdown.targets && t.task.run == id
    {
      ActiveHasTask(s, id);
      FoundIsSound(s, id);
      CancelAdvances(s.runs[id]);
      assert Found(s.reg, id) in s'.shutdown.targets;
    }
    hide Halting, Unfinished, PhaseOf;
    ShutdownOnly(s1, s'.shutdown);
  }

  lemma ActiveHasTask(s: System, id: RunId)
    requires TrackInv(s) && id in Active(s.reg, s.thread)
    ensures id in s.runs && id in s.reg.tasks && !PhaseOf(s.runs[id]).Early?
  {
    assert Tracked(s.reg, s.thread, id, PhaseOf(s.runs[id]), s.runs[id].kind);
  }

  lemma AllStoppedKeeps(s: System)
    requires Inv(s) && s.shutdown.Stopping? && forall t :: t in s.shutdown.targets ==> FullyOver(s, t)
    ensures Inv(s.(shutdown := Sweeping(s.shutdown.active, s.shutdown.active)))
  {
    hide RunInv, LockInv, TrackInv, AdmissionInv, WaitersInv;
    var active := s.shutdown.active;
    forall id | id in active ensures Finished(s.runs[id]) {
      if Unfinished(s.runs[id]) {
        var t :| t in s.shutdown.targets && t.task.run == id;
        HaltedIsFinished(s, t);
      }
    }
    hide Finished, Unfinished, Halting, FullyOver;
    ShutdownOnly(s, Sweeping(active, active));
  }

  lemma SweepKeeps(s: System, id: RunId)
    requires Inv(s) && s.shutdown.Sweeping? && id in s.shutdown.todo
    ensures Inv(DoSweep(s, id))
  {
    hide RunInv, LockInv, TrackInv, AdmissionInv, WaitersInv, Finished;
    var s' := DoSweep(s, id);
    var s1 := s.(rows := s'.rows);
    assert forall j :: j != id ==> RowOf(s1, j) == RowOf(s, j);
    assert RowOf(s1, id) == Written(RowOf(s, id), Interrupted, RunInterrupted);
    assert Settled(RowOf(s1, id));
    RowsKeep(s, s1);
    assert forall j :: RowOf(s', j) == RowOf(s1, j);
    ShutdownOnly(s1, s'.shutdown);
  }

  // ---------------------------------------------------------------- every run of the process

  lemma FreshInv(thread: ThreadId)
    ensures Inv(Fresh(thread))
  {
  }

  lemma MoveKeeps(s: System, m: Move)
    requires Inv(s) && Enabled(s, m)
    ensures Inv(Do(s, m))
  {
    hide Inv, RunInv, DoAdmit, DoAim, DoStopped, DoEnroll, DoAbort, DoWork, DoShutdown, DoSweep;
    hide Meddles, MayWake, FullyOver;
    match m
    case Request(id, kind) => NewRunKeeps(kind); RequestKeeps(s, id, NewRun(kind));
    case Admit(id, strategy) => AdmitKeeps(s, id, strategy);
    case Aim(id) => if id in s.reg.tasks { AimAtTask(s, id); } else { AimAtNothing(s, id); }
    case Stopped => StoppedKeeps(s);
    case Enroll =>
      var id := s.admission.run;
      if s.runs[id].kind.Streaming? {
        EnrollStreaming(s, id);
      } else {
        EnrollBackground(s, id, Registered(s.runs[id]));
      }
    case Abort(id) => AbortKeeps(s, id);
    case Work(id, c) => WorkKeeps(s, id, c);
    case CancelRun(id) => CancelRunKeeps(s, id);
    case Reply(id) => ReplyKeeps(s, id);
    case Elsewhere(id, row) => ElsewhereKeeps(s, id, row);
    case Prune => PruneKeeps(s);
    case WaitFor(w, id) => FoundWaits(s, id); WaiterKeeps(s, w, Awaiting(Found(s.reg, id)));
    case Wake(w) => WokenKeeps(s, w);
    case BeginShutdown => BeginShutdownKeeps(s);
    case AllStopped => AllStoppedKeeps(s);
    case Sweep(id) => SweepKeeps(s, id);
  }

  lemma FoundWaits(s: System, id: RunId)
    requires Inv(s) && id in s.reg.tasks
    ensures WaiterInv(s, Awaiting(Found(s.reg, id)))
  {
    hide RunInv;
    FoundIsSound(s, id);
  }

  lemma WokenKeeps(s: System, w: nat)
    requires Inv(s) && w in s.waiters && MayWake(s, s.waiters[w])
    ensures Inv(s.(waiters := s.waiters[w := Woken(s, s.waiters[w])]))
  {
    hide RunInv, WaiterInv, Woken, MayWake;
    WokenInv(s, s.waiters[w]);
    WaiterKeeps(s, w, Woken(s, s.waiters[w]));
  }

  lemma {:induction false} AfterKeeps(s: System, moves: seq<Move>)
    requires Inv(s)
    ensures After(s, moves).Some? ==> Inv(After(s, moves).value)
    decreases |moves|
  {
    hide Inv, Enabled, Do;
    if moves != [] && Enabled(s, moves[0]) {
      MoveKeeps(s, moves[0]);
      AfterKeeps(Do(s, moves[0]), moves[1..]);
    }
  }

  // ---------------------------------------------------------------- theorems

  ghost predicate Reachable(s: System, thread: ThreadId, moves: seq<Move>) {
    After(Fresh(thread), moves) == Some(s)
  }

  lemma ReachableInv(s: System, thread: ThreadId, moves: seq<Move>)
    requires Reachable(s, thread, moves)
    ensures Inv(s)
  {
    hide Inv;
    FreshInv(thread);
    AfterKeeps(Fresh(thread), moves);
  }

  /** At most one run executes the graph, after its own claim and holding the lock; each
      run takes the lock at most once, and gives it back, once, unless it still holds it. */
  lemma MutualExclusion(s: System, thread: ThreadId, moves: seq<Move>, i: RunId, j: RunId)
    requires Reachable(s, thread, moves) && i in s.runs && j in s.runs
    ensures s.runs[i].pc == Exec(Graph) && s.runs[j].pc == Exec(Graph) ==> i == j
    ensures s.runs[i].pc == Exec(Graph) ==> s.runs[i].claimed && s.lock == Some(i)
    ensures !s.runs[i].misused && (s.runs[i].taken && !s.runs[i].given <==> s.lock == Some(i))
  {
    ReachableInv(s, thread, moves);
    OneRunInv(s, i);
  }

  /** Once every task and finalizer is over, the lock is free and the registry empty. */
  lemma QuietAtTheEnd(s: System, thread: ThreadId, moves: seq<Move>)
    requires Reachable(s, thread, moves) && forall id :: id in s.runs ==> PhaseOf(s.runs[id]).AllEnded?
    ensures s.lock.None? && s.admission.Idle? && s.reg == EMPTY
  {
    ReachableInv(s, thread, moves);
    hide RunInv;
    forall id ensures Unlisted(s.reg, s.thread, id) {
      assert id in s.runs ==> Tracked(s.reg, s.thread, id, PhaseOf(s.runs[id]), s.runs[id].kind);
    }
    assert Active(s.reg, s.thread) == {} by {
      assert forall id :: Unlisted(s.reg, s.thread, id) ==> id !in Active(s.reg, s.thread);
    }
    assert s.thread !in s.reg.active;
    assert s.reg.active == map[];
    assert s.reg.tasks.Keys == {} by {
      assert forall id :: Unlisted(s.reg, s.thread, id) ==> id !in s.reg.tasks;
    }
    assert s.reg.tasks == map[];
    assert s.reg.completions == {} by {
      assert forall id :: Unlisted(s.reg, s.thread, id) ==> id !in s.reg.completions;
    }
  }

  /** From its registration until its last task or finalizer ends, hand-off included,
      a run is in `active_runs`; nothing else is. */
  lemma UnbrokenTracking(s: System, thread: ThreadId, moves: seq<Move>, id: RunId)
    requires Reachable(s, thread, moves)
    ensures id in Live(s.reg, s.thread, DoneTasks(s)) <==> id in s.runs && Unfinished(s.runs[id])
  {
    ReachableInv(s, thread, moves);
    hide RunInv;
    LiveExactly(s, id);
  }

  /** `wait` returns only when no task or finalizer of the run is unfinished. */
  lemma WaitSeesTheEnd(s: System, thread: ThreadId, moves: seq<Move>, w: nat)
    requires Reachable(s, thread, moves) && w in s.waiters && s.waiters[w].Returned?
    ensures s.waiters[w].run in s.runs && Finished(s.runs[s.waiters[w].run])
  {
    ReachableInv(s, thread, moves);
    assert WaiterInv(s, s.waiters[w]);
  }

  function Awaited(w: Waiter): RunId { if w.Awaiting? then w.target.task.run else w.run }

  lemma WokenForItsRun(s: System, w: Waiter)
    requires TrackInv(s)
    ensures Awaited(Woken(s, w)) == Awaited(w)
  {
    if w.Awaiting? && w.target.task.run in s.reg.tasks { FoundIsSound(s, w.target.task.run); }
  }

  lemma OnlyWaitsChangeWaiters(s: System, m: Move)
    requires Enabled(s, m) && !m.WaitFor? && !m.Wake?
    ensures Do(s, m).waiters == s.waiters
  {
    hide Step, FullyOver, Meddles, MayAnswer, NextReg, DoneTasks, Doomed, GaveUp, Answered, Registered, Written;
  }

  lemma MoveKeepsWaiter(s: System, m: Move, w: nat)
    requires TrackInv(s) && Enabled(s, m) && w in s.waiters
    ensures w in Do(s, m).waiters && Awaited(Do(s, m).waiters[w]) == Awaited(s.waiters[w])
  {
    hide TrackInv, Awaited, Woken, MayWake;
    match m
    case Wake(v) => WokenForItsRun(s, s.waiters[v]);
    case WaitFor(_, _) =>
    case _ => OnlyWaitsChangeWaiters(s, m);
  }

  lemma {:induction false} WaiterStays(s: System, later: seq<Move>, w: nat)
    requires Inv(s) && w in s.waiters && After(s, later).Some?
    ensures var t := After(s, later).value; w in t.waiters && Awaited(t.waiters[w]) == Awaited(s.waiters[w])
    decreases |later|
  {
    hide RunInv, RunsInv, LockInv, TrackInv, AdmissionInv, WaitersInv, ShutdownInv, Enabled, Do, Awaited;
    if later != [] {
      MoveKeepsWaiter(s, later[0], w);
      MoveKeeps(s, later[0]);
      WaiterStays(Do(s, later[0]), later[1..], w);
    }
  }

  /** A caller of `wait` waits for the run that it named, whatever happens, and returns
      only once that run is finished. */
  lemma WaitIsForItsRun(s: System, thread: ThreadId, moves: seq<Move>, w: nat, id: RunId, later: seq<Move>)
    requires Reachable(s, thread, moves) && Enabled(s, WaitFor(w, id))
    requires After(Do(s, WaitFor(w, id)), later).Some?
    ensures
      var t := After(Do(s, WaitFor(w, id)), later).value;
      && w in t.waiters && Awaited(t.waiters[w]) == id
      && (t.waiters[w].Returned? ==> id in t.runs && Finished(t.runs[id]))
  {
    hide RunInv, RunsInv, LockInv, AdmissionInv, ShutdownInv, Reachable, Finished, After;
    ReachableInv(s, thread, moves);
    MoveKeeps(s, WaitFor(w, id));
    FoundIsSound(s, id);
    hide TrackInv;
    WaiterStays(Do(s, WaitFor(w, id)), later, w);
    AfterKeeps(Do(s, WaitFor(w, id)), later);
  }

  lemma EndedWaiter(s: System, w: Waiter)
    requires TrackInv(s) && WaiterInv(s, w) && !w.Returned?
    requires Awaited(w) in s.runs && PhaseOf(s.runs[Awaited(w)]).AllEnded?
    ensures MayWake(s, w)
    ensures var v := Woken(s, w); v.Returned? || (MayWake(s, v) && Woken(s, v).Returned?)
  {
    var id := Awaited(w);
    assert Tracked(s.reg, s.thread, id, PhaseOf(s.runs[id]), s.runs[id].kind);
    hide PhaseOf, TrackInv;
  }

  /** ... and once all of the run is over it does return, after at most two wake-ups. */
  lemma WaitReturns(s: System, thread: ThreadId, moves: seq<Move>, w: nat)
    requires Reachable(s, thread, moves) && w in s.waiters && !s.waiters[w].Returned?
    requires Awaited(s.waiters[w]) in s.runs && PhaseOf(s.runs[Awaited(s.waiters[w])]).AllEnded?
    ensures MayWake(s, s.waiters[w])
    ensures var v := Woken(s, s.waiters[w]); v.Returned? || (MayWake(s, v) && Woken(s, v).Returned?)
  {
    hide RunInv, RunsInv, LockInv, TrackInv, AdmissionInv, ShutdownInv, Reachable, WaiterInv, Woken, MayWake;
    ReachableInv(s, thread, moves);
    EndedWaiter(s, s.waiters[w]);
  }

  /** `reject` refuses exactly when some run of the thread is unfinished. */
  lemma RejectsExactlyWhenBusy(s: System, thread: ThreadId, moves: seq<Move>, id: RunId)
    requires Reachable(s, thread, moves) && Enabled(s, Move.Admit(id, Reject))
    ensures DoAdmit(s, id, Reject).runs[id].pc.Gone? <==> exists j :: j in s.runs && Unfinished(s.runs[j])
  {
    ReachableInv(s, thread, moves);
    hide RunInv, Unfinished;
    var live := Live(s.reg, s.thread, DoneTasks(s));
    forall j ensures j in live <==> j in s.runs && Unfinished(s.runs[j]) { LiveExactly(s, j); }
    if live != {} {
      var j :| j in live;
    }
  }

  lemma AloneInside(s: System, id: RunId, m: Move)
    requires AdmissionInv(s) && s.admission.Holding? && s.admission.run == id && id in s.runs
    requires Exclusive(s.admission.strategy) && Enabled(s, m)
    requires (m == Enroll && s.runs[id].kind.Streaming?) || (m == Work(id, Go) && s.runs[id].pc.Inserting?)
    ensures forall j :: j in s.runs ==> !Unfinished(s.runs[j])
  {
    hide Unfinished, Halting, Step;
  }

  lemma InsertSpawns(id: RunId, run: Run, row: Option<Row>, free: bool)
    requires run.pc.Inserting? && Step(id, run, row, free, Go).Next?
    ensures Unfinished(Step(id, run, row, free, Go).run)
  {
    hide ResumeMain, ResumeEnd;
  }

  lemma RegisteredIsUnfinished(s: System, m: Move)
    requires s.admission.Holding? && s.admission.run in s.runs && Enabled(s, m)
    requires var run := s.runs[s.admission.run];
             (m == Enroll && run.kind.Streaming?) || (m == Work(s.admission.run, Go) && run.pc.Inserting?)
    ensures var id, s' := s.admission.run, Do(s, m);
            id in s'.runs && s'.runs == s.runs[id := s'.runs[id]] && Unfinished(s'.runs[id])
  {
    hide DoAdmit, DoAim, DoStopped, DoAbort, DoShutdown, DoSweep, NextReg, Meddles, FullyOver, Step, Unfinished;
    var id := s.admission.run;
    if m == Enroll {
      assert Unfinished(Registered(s.runs[id])) by { RegisteredUnfinished(s.runs[id]); }
    } else {
      InsertSpawns(id, s.runs[id], RowOf(s, id), s.lock.None?);
    }
  }

  lemma RegisteredUnfinished(run: Run)
    requires run.kind.Streaming?
    ensures Unfinished(Registered(run))
  {
  }

  /** An admission with `reject`, `interrupt` or `rollback` registers its run as the only
      active one: a streaming run when its admission task is spawned, a background run
      when its row is inserted and its task spawned. */
  lemma ExclusiveAdmission(s: System, thread: ThreadId, moves: seq<Move>, m: Move)
    requires Reachable(s, thread, moves) && s.admission.Holding? && Exclusive(s.admission.strategy)
    requires Enabled(s, m) && s.admission.run in s.runs
    requires var run := s.runs[s.admission.run];
             (m == Enroll && run.kind.Streaming?) || (m == Work(s.admission.run, Go) && run.pc.Inserting?)
    ensures var s' := Do(s, m); Live(s'.reg, s'.thread, DoneTasks(s')) == {s.admission.run}
  {
    hide RunsInv, LockInv, AdmissionInv, TrackInv, WaitersInv, ShutdownInv, Reachable, Unfinished, Do, Enabled;
    var id, s' := s.admission.run, Do(s, m);
    ReachableInv(s, thread, moves);
    AloneInside(s, id, m);
    MoveKeeps(s, m);
    RegisteredIsUnfinished(s, m);
    forall j ensures j in Live(s'.reg, s'.thread, DoneTasks(s')) <==> j == id {
      LiveExactly(s', j);
    }
  }

  // ---------------------------------------------------------------- who stops whom

  lemma LiveIsUnfinished(s: System)
    requires Inv(s)
    ensures forall j :: j in Live(s.reg, s.thread, DoneTasks(s)) <==> j in s.runs && Unfinished(s.runs[j])
  {
    hide RunInv, Unfinished;
    forall j ensures j in Live(s.reg, s.thread, DoneTasks(s)) <==> j in s.runs && Unfinished(s.runs[j]) {
      LiveExactly(s, j);
    }
  }

  /** An admission lists the runs that are unfinished when it looks, if it is to stop
      them, and nothing else; `reject` gives up where there are some. */
  lemma AdmissionLooks(s: System, thread: ThreadId, moves: seq<Move>, id: RunId, strategy: Strategy)
    requires Reachable(s, thread, moves) && Enabled(s, Move.Admit(id, strategy))
    ensures
      var s' := Do(s, Move.Admit(id, strategy));
      if strategy.Reject? && (exists j :: j in s.runs && Unfinished(s.runs[j])) then
        s'.admission.Idle? && s'.runs[id].pc.Gone?
      else
        && s'.admission.Holding? && s'.admission.run == id && s'.admission.strategy == strategy
        && s'.runs[id].pc.Resolve?
        && forall j :: j in s'.admission.todo <==> Stops(strategy) && j in s.runs && Unfinished(s.runs[j])
  {
    hide Reachable, Inv, Unfinished;
    ReachableInv(s, thread, moves);
    LiveIsUnfinished(s);
    var live := Live(s.reg, s.thread, DoneTasks(s));
    hide Live, DoneTasks, Pruned;
    if live != {} {
      var j :| j in live;
      assert j in s.runs && Unfinished(s.runs[j]);
    }
  }

  /** The same admission, or the end of it; none is added to those it stops. */
  predicate Narrows(a: Admission, a': Admission) {
    a.Holding? && a'.Holding? ==>
      && a'.run == a.run && a'.strategy == a.strategy && a'.todo <= a.todo
      && (a'.victim.Some? ==> a'.victim.value.task.run in a.todo)
  }

  lemma DoNarrows(s: System, m: Move)
    requires Enabled(s, m) && s.admission.Holding?
    requires s.admission.victim.Some? ==> s.admission.victim.value.task.run in s.admission.todo
    requires forall id :: id in s.reg.tasks ==> s.reg.tasks[id].run == id
    ensures Narrows(s.admission, Do(s, m).admission)
  {
    hide Step, FullyOver, Meddles, MayWake, MayAnswer, NextReg, DoneTasks;
  }

  /** While it holds the lock an admission adds none to those it stops, and waits for one
      of them at a time. */
  lemma AdmissionStopsNoOther(s: System, thread: ThreadId, moves: seq<Move>, m: Move)
    requires Reachable(s, thread, moves) && Enabled(s, m)
    ensures Narrows(s.admission, Do(s, m).admission)
  {
    hide RunInv, RunsInv, LockInv, WaitersInv, ShutdownInv, Reachable, Enabled, Do, Unfinished, Halting;
    ReachableInv(s, thread, moves);
    if s.admission.Holding? {
      forall id | id in s.reg.tasks ensures s.reg.tasks[id].run == id { FoundIsSound(s, id); }
      hide TrackInv;
      DoNarrows(s, m);
    }
  }

  /** An `enqueue` admission, or a `reject` that goes on, has nobody to stop: no run is
      aimed at, and its own is registered at once. */
  lemma EnqueueStopsNobody(s: System, thread: ThreadId, moves: seq<Move>, id: RunId)
    requires Reachable(s, thread, moves) && s.admission.Holding? && !Stops(s.admission.strategy)
    ensures s.admission.todo == {} && !Enabled(s, Aim(id)) && !Enabled(s, Stopped)
    ensures s.admission.run in s.runs && (s.runs[s.admission.run].pc.Resolve? ==> Enabled(s, Enroll))
  {
    ReachableInv(s, thread, moves);
    hide RunInv, RunsInv, LockInv, TrackInv, WaitersInv, ShutdownInv, Reachable, Unfinished, Halting, FullyOver;
  }

  lemma StepDooms(id: RunId, run: Run, row: Option<Row>, free: bool, c: Choice)
    requires Step(id, run, row, free, c).Next? && !run.doomed
    ensures !Step(id, run, row, free, c).run.doomed
  {
    hide Resume;
  }

  lemma CancellableHasTask(s: System, id: RunId)
    requires TrackInv(s) && id in s.runs && Cancellable(s.runs[id]) && RunInv(s.runs[id], RowOf(s, id))
    ensures id in s.reg.tasks
  {
    KindIsFit(s.runs[id], RowOf(s, id));
    assert Tracked(s.reg, s.thread, id, PhaseOf(s.runs[id]), s.runs[id].kind);
    hide RunInv;
  }

  /** A cancel of its own, an admission that stops it, a shutdown. */
  predicate Cancels(m: Move, id: RunId) { m == CancelRun(id) || m == Aim(id) || m.BeginShutdown? }

  /** What the move does to the run's `doomed` flag. */
  ghost predicate Dooms(s: System, m: Move, id: RunId)
    requires Enabled(s, m) && id in s.runs
  {
    && id in Do(s, m).runs
    && (Do(s, m).runs[id].doomed <==> Cancels(m, id) && Cancellable(s.runs[id]) && !s.runs[id].cancelled)
  }

  lemma WorkDooms(s: System, j: RunId, c: Choice, id: RunId)
    requires Enabled(s, Work(j, c)) && id in s.runs && !s.runs[id].doomed
    ensures Dooms(s, Work(j, c), id)
  {
    hide Step, NextReg;
    if j == id { StepDooms(id, s.runs[id], RowOf(s, id), s.lock.None?, c); }
  }

  lemma ShutdownDooms(s: System, id: RunId)
    requires Enabled(s, BeginShutdown) && id in s.runs && !s.runs[id].doomed
    requires Cancellable(s.runs[id]) ==> id in s.reg.tasks
    ensures Dooms(s, BeginShutdown, id)
  {
    hide Cancellable;
  }

  lemma AimDooms(s: System, j: RunId, id: RunId)
    requires Enabled(s, Aim(j)) && id in s.runs && !s.runs[id].doomed
    requires Cancellable(s.runs[id]) ==> id in s.reg.tasks
    ensures Dooms(s, Aim(j), id)
  {
    hide Cancellable;
  }

  lemma AdmitLeavesAlone(s: System, j: RunId, strategy: Strategy, id: RunId)
    requires j in s.runs && id in s.runs
    ensures var s' := DoAdmit(s, j, strategy); id in s'.runs && s'.runs[id].doomed == s.runs[id].doomed
  {
    hide DoneTasks, Pruned, Live;
  }

  lemma AdmitDooms(s: System, j: RunId, strategy: Strategy, id: RunId)
    requires Enabled(s, Move.Admit(j, strategy)) && id in s.runs && !s.runs[id].doomed
    ensures Dooms(s, Move.Admit(j, strategy), id)
  {
    hide DoAdmit, Cancellable;
    AdmitLeavesAlone(s, j, strategy, id);
  }

  lemma EnrollDooms(s: System, id: RunId)
    requires Enabled(s, Enroll) && id in s.runs && !s.runs[id].doomed
    ensures Dooms(s, Enroll, id)
  {
    hide Spawned, Reserved, Cancellable;
  }

  lemma AbortDooms(s: System, j: RunId, id: RunId)
    requires Enabled(s, Abort(j)) && id in s.runs && !s.runs[id].doomed
    ensures Dooms(s, Abort(j), id)
  {
    hide Cancellable;
  }

  lemma OneRunDooms(s: System, m: Move, id: RunId)
    requires (m.Request? || m.CancelRun? || m.Reply?) && Enabled(s, m) && id in s.runs && !s.runs[id].doomed
    ensures Dooms(s, m, id)
  {
    hide Cancellable, MayAnswer;
  }

  lemma QuietDooms(s: System, m: Move, id: RunId)
    requires m.Stopped? || m.Elsewhere? || m.Prune? || m.WaitFor? || m.Wake? || m.AllStopped? || m.Sweep?
    requires Enabled(s, m) && id in s.runs && !s.runs[id].doomed
    ensures Dooms(s, m, id)
  {
    hide Cancellable, FullyOver, Meddles, MayWake, Woken, Pruned, DoneTasks;
  }

  lemma DoDooms(s: System, m: Move, id: RunId)
    requires Enabled(s, m) && id in s.runs && !s.runs[id].doomed
    requires Cancellable(s.runs[id]) ==> id in s.reg.tasks
    ensures Dooms(s, m, id)
  {
    hide Cancellable, Enabled, Dooms;
    match m
    case Work(j, c) => WorkDooms(s, j, c, id);
    case BeginShutdown => ShutdownDooms(s, id);
    case Aim(j) => AimDooms(s, j, id);
    case Admit(j, strategy) => AdmitDooms(s, j, strategy, id);
    case Enroll => EnrollDooms(s, id);
    case Abort(j) => AbortDooms(s, j, id);
    case Request(_, _) | CancelRun(_) | Reply(_) => OneRunDooms(s, m, id);
    case _ => QuietDooms(s, m, id);
  }

  /** A run is asked to stop by a cancel of its own, by an admission that interrupts or
      rolls back what it found, and by a shutdown: by each of them, as long as it can be
      cancelled, and by nothing else. */
  lemma CancelledExactlyBy(s: System, thread: ThreadId, moves: seq<Move>, m: Move, id: RunId)
    requires Reachable(s, thread, moves) && Enabled(s, m) && id in s.runs && !s.runs[id].doomed
    ensures
      && id in Do(s, m).runs
      && (Do(s, m).runs[id].doomed <==> Cancels(m, id) && Cancellable(s.runs[id]) && !s.runs[id].cancelled)
    ensures m == Aim(id) ==> s.admission.Holding? && Stops(s.admission.strategy) && id in s.admission.todo
  {
    hide RunInv, RunsInv, LockInv, TrackInv, AdmissionInv, WaitersInv, ShutdownInv, Reachable, Do, Cancels;
    hide Step, FullyOver, Meddles, MayWake, MayAnswer;
    ReachableInv(s, thread, moves);
    assert Cancellable(s.runs[id]) ==> id in s.reg.tasks by {
      OneRunInv(s, id);
      if Cancellable(s.runs[id]) { CancellableHasTask(s, id); }
    }
    DoDooms(s, m, id);
    if m == Aim(id) && !Stops(s.admission.strategy) { EnqueueStopsNobody(s, thread, moves, id); }
  }

  /** The row of a run changes by a write of its own, by another worker, by a rollback
      that has waited for it, which deletes it, or by the sweep of a shutdown, which marks
      it interrupted. */
  lemma RowsChangeOnlyBy(s: System, thread: ThreadId, moves: seq<Move>, m: Move, id: RunId)
    requires Reachable(s, thread, moves) && Enabled(s, m)
    ensures
      var row, row' := RowOf(s, id), RowOf(Do(s, m), id);
      match m
      case Work(j, _) => row' == row || (j == id && row' == OwnWrite(s.runs[id]))
      case Elsewhere(j, other) => row' == if j == id then other else row
      case Stopped =>
        row' == if s.admission.strategy.Rollback? && s.admission.victim.value.task.run == id then None else row
      case Sweep(j) => row' == if j == id && Takes(row) then Some(Row(Interrupted, RunInterrupted)) else row
      case _ => row' == row
  {
    hide RunInv, Reachable, Resume, FullyOver, Meddles, MayWake, MayAnswer, NextReg, Step;
    if m.Work? {
      hide Publishes, Blames, StartsClaimed, Tends;
      StepRecords(m.id, s.runs[m.id], RowOf(s, m.id), s.lock.None?, m.c);
    }
  }

  /** How much an admission has still to do before it registers its run. */
  function ToStop(a: Admission): nat
    requires a.Holding?
  {
    2 * |a.todo| + if a.victim.Some? then 0 else 1
  }

  lemma VictimIsUnfinished(s: System, t: Target)
    requires t.task.run in s.runs && Halting(s.runs[t.task.run], t) && !FullyOver(s, t)
    ensures Unfinished(s.runs[t.task.run])
  {
  }

  lemma WorkKeepsRuns(s: System, id: RunId, c: Choice)
    requires Enabled(s, Work(id, c))
    ensures id in Do(s, Work(id, c)).runs
  {
    hide Step, NextReg;
  }

  lemma StopGoesOn(s: System, m: Move)
    requires s.admission.Holding? && Enabled(s, m) && (m.Aim? || m.Stopped?)
    requires s.admission.victim.Some? ==> s.admission.victim.value.task.run in s.admission.todo
    ensures var a := Do(s, m).admission; a.Holding? && ToStop(a) < ToStop(s.admission)
  {
    hide FullyOver;
  }

  /** An admission ends: as long as its run is not registered some move is possible that
      stops one more run, registers its own, or brings a run closer to its end. */
  lemma AdmissionGoesOn(s: System, thread: ThreadId, moves: seq<Move>) returns (m: Move)
    requires Reachable(s, thread, moves) && s.admission.Holding?
    requires s.admission.run in s.runs && s.runs[s.admission.run].pc.Resolve?
    ensures Enabled(s, m)
    ensures
      match m
      case Enroll => true
      case Aim(_) | Stopped =>
        var a := Do(s, m).admission; a.Holding? && ToStop(a) < ToStop(s.admission)
      case Work(id, c) => id in s.runs && !c.Emit? && id in Do(s, m).runs && Rank(Do(s, m).runs[id]) < Rank(s.runs[id])
      case _ => false
  {
    hide RunInv, RunsInv, LockInv, TrackInv, WaitersInv, ShutdownInv, Reachable, Step, Rank, FullyOver, Halting;
    hide Unfinished, Do, ToStop;
    ReachableInv(s, thread, moves);
    if s.admission.victim.Some? {
      var t := s.admission.victim.value;
      if FullyOver(s, t) {
        m := Stopped;
        StopGoesOn(s, m);
      } else {
        VictimIsUnfinished(s, t);
        var id, c := NoDeadlock(s, thread, moves, t.task.run);
        m := Work(id, c);
        WorkKeepsRuns(s, id, c);
      }
    } else if s.admission.todo == {} {
      m := Enroll;
    } else {
      var id :| id in s.admission.todo;
      m := Aim(id);
      StopGoesOn(s, m);
    }
  }

  /** Shutdown leaves nothing in flight: every run that was active when it began ends
      with a final row, or none. */
  lemma ShutdownLeavesNothing(s: System, thread: ThreadId, moves: seq<Move>, id: RunId)
    requires Reachable(s, thread, moves) && s.shutdown.Sweeping? && s.shutdown.todo == {} && id in s.shutdown.active
    ensures id in s.runs && Finished(s.runs[id]) && Settled(RowOf(s, id))
  {
    ReachableInv(s, thread, moves);
    hide RunInv;
  }

  /** A shutdown that has begun goes on, and forgets none of those it stops. */
  lemma ShutdownGoesOn(s: System, m: Move)
    requires Enabled(s, m) && !s.shutdown.Up?
    ensures var s' := Do(s, m); !s'.shutdown.Up? && s'.shutdown.active == s.shutdown.active
  {
    hide Step, FullyOver, Meddles, MayWake, MayAnswer, NextReg, DoneTasks, Active;
  }

  lemma {:induction false} ActiveStays(s: System, later: seq<Move>)
    requires !s.shutdown.Up? && After(s, later).Some?
    ensures var t := After(s, later).value; !t.shutdown.Up? && t.shutdown.active == s.shutdown.active
    decreases |later|
  {
    hide Enabled, Do;
    if later != [] {
      ShutdownGoesOn(s, later[0]);
      ActiveStays(Do(s, later[0]), later[1..]);
    }
  }

  /** Whatever happens after a shutdown has begun: once its sweep is done, each run that
      was unfinished when it began is finished, and its row is final, or gone. */
  lemma ShutdownEndsAll(s: System, thread: ThreadId, moves: seq<Move>, later: seq<Move>, id: RunId)
    requires Reachable(s, thread, moves) && Enabled(s, BeginShutdown) && id in s.runs && Unfinished(s.runs[id])
    requires
      var t := After(Do(s, BeginShutdown), later);
      t.Some? && t.value.shutdown.Sweeping? && t.value.shutdown.todo == {}
    ensures
      var t := After(Do(s, BeginShutdown), later).value;
      id in t.runs && Finished(t.runs[id]) && Settled(RowOf(t, id))
  {
    hide RunInv, RunsInv, LockInv, TrackInv, AdmissionInv, WaitersInv, Reachable, Enabled;
    hide Unfinished, Finished, Halting, Settled, After;
    ReachableInv(s, thread, moves);
    MoveKeeps(s, BeginShutdown);
    assert id in Active(s.reg, s.thread) by { ActiveExactly(s, id); }
    ActiveStays(Do(s, BeginShutdown), later);
    AfterKeeps(Do(s, BeginShutdown), later);
  }

  /** And the sweep gets done: until then some move ends the wait, sweeps one more run,
      or brings a run closer to its end. */
  lemma ShutdownComesToAnEnd(s: System, thread: ThreadId, moves: seq<Move>) returns (m: Move)
    requires Reachable(s, thread, moves) && !s.shutdown.Up?
    requires s.shutdown.Sweeping? ==> s.shutdown.todo != {}
    ensures Enabled(s, m)
    ensures
      match m
      case AllStopped => s.shutdown.Stopping? && Do(s, m).shutdown.Sweeping?
      case Sweep(_) => s.shutdown.Sweeping? && Do(s, m).shutdown.Sweeping? && Do(s, m).shutdown.todo < s.shutdown.todo
      case Work(id, c) => id in s.runs && !c.Emit? && id in Do(s, m).runs && Rank(Do(s, m).runs[id]) < Rank(s.runs[id])
      case _ => false
  {
    hide RunInv, RunsInv, LockInv, TrackInv, AdmissionInv, WaitersInv, Reachable, Step, Rank, FullyOver, Halting;
    hide Unfinished, DoWork;
    ReachableInv(s, thread, moves);
    if s.shutdown.Sweeping? {
      var id :| id in s.shutdown.todo;
      m := Sweep(id);
    } else if t :| t in s.shutdown.targets && !FullyOver(s, t) {
      VictimIsUnfinished(s, t);
      var id, c := NoDeadlock(s, thread, moves, t.task.run);
      m := Work(id, c);
      WorkKeepsRuns(s, id, c);
    } else {
      m := AllStopped;
    }
  }

  lemma ActiveExactly(s: System, id: RunId)
    requires Inv(s) && id in s.runs && Unfinished(s.runs[id])
    ensures id in Active(s.reg, s.thread)
  {
    hide RunInv, RunsInv, LockInv, AdmissionInv, WaitersInv, ShutdownInv;
    assert Tracked(s.reg, s.thread, id, PhaseOf(s.runs[id]), s.runs[id].kind);
    hide TrackInv;
  }

  /** What the invariant of one run says of it once it is over. */
  ghost predicate WellEnded(run: Run, row: Option<Row>) {
    && (run.stream.Closed? ==> Concluded(run.events, row, run.slips.blind))
    && (run.pc.Gone? ==> !run.stream.Open?)
    && !run.twice
    && (run.pc.Gone? && run.answered && run.kind.Streaming? ==> (run.cleaned <==> !run.slips.skipped))
    && (Finished(run) && Takes(row) ==> run.slips.stranded)
    && !run.stray
  }

  lemma EndsWell(run: Run, row: Option<Row>)
    requires RunInv(run, row)
    ensures WellEnded(run, row)
  {
    hide Concluded, Forged, TaskInv;
  }

  /** What a move of the process is for one of its runs. */
  function ActsOf(s: System, m: Move, id: RunId): seq<Act>
    requires Enabled(s, m)
  {
    match m
    case Admit(j, strategy) =>
      if j != id then []
      else if strategy.Reject? && Live(s.reg, s.thread, DoneTasks(s)) != {} then [Act.GiveUp] else [Enter]
    case Aim(j) => if j == id && id in s.reg.tasks then [Cancel] else []
    case Stopped =>
      if s.admission.strategy.Rollback? && s.admission.victim.value.task.run == id then [Others(None)] else []
    case Enroll => if s.admission.run == id then [Act.Register] else []
    case Abort(j) => if j == id then [Act.GiveUp] else []
    case Work(j, c) => if j == id then [Await(c, s.lock.None?)] else []
    case CancelRun(j) => if j == id then [Cancel] else []
    case Reply(j) => if j == id then [Answer] else []
    case Elsewhere(j, row) => if j == id then [Others(row)] else []
    case BeginShutdown => if id in s.reg.tasks then [Cancel] else []
    case Sweep(j) => if j == id then [Others(Written(RowOf(s, id), Interrupted, RunInterrupted))] else []
    case _ => []
  }

  /** The life of one run, told from the moves of the process. */
  function LifeOf(s: System, moves: seq<Move>, id: RunId): seq<Act>
    decreases |moves|
  {
    if moves == [] || !Enabled(s, moves[0]) then []
    else (if id in s.runs then ActsOf(s, moves[0], id) else []) + LifeOf(Do(s, moves[0]), moves[1..], id)
  }

  /** The run after the move is what the acts of that move make of it. */
  ghost predicate Acts(s: System, m: Move, id: RunId)
    requires Enabled(s, m) && id in s.runs
  {
    var s', acts := Do(s, m), ActsOf(s, m, id);
    && id in s'.runs
    && if acts == [] then s'.runs[id] == s.runs[id] && RowOf(s', id) == RowOf(s, id)
       else
         var out := Acted(id, s.runs[id], RowOf(s, id), acts[0]);
         |acts| == 1 && out.Next? && out.run == s'.runs[id] && out.row == RowOf(s', id)
  }

  lemma WorkActs(s: System, j: RunId, c: Choice, id: RunId)
    requires Enabled(s, Work(j, c)) && id in s.runs
    ensures Acts(s, Work(j, c), id)
  {
    hide Step, NextReg;
  }

  lemma AdmitActs(s: System, j: RunId, strategy: Strategy, id: RunId)
    requires Enabled(s, Move.Admit(j, strategy)) && id in s.runs
    ensures Acts(s, Move.Admit(j, strategy), id)
  {
    hide Step, DoneTasks, Pruned, Live, GaveUp;
  }

  lemma EnrollActs(s: System, id: RunId)
    requires Enabled(s, Enroll) && id in s.runs
    ensures Acts(s, Enroll, id)
  {
    hide Step, Spawned, Reserved;
  }

  lemma AbortActs(s: System, j: RunId, id: RunId)
    requires Enabled(s, Abort(j)) && id in s.runs
    ensures Acts(s, Abort(j), id)
  {
    hide Step, GaveUp;
  }

  lemma CancelActs(s: System, m: Move, id: RunId)
    requires (m.Aim? || m.CancelRun? || m.BeginShutdown?) && Enabled(s, m) && id in s.runs
    ensures Acts(s, m, id)
  {
    hide Step, Doomed;
  }

  lemma RowActs(s: System, m: Move, id: RunId)
    requires (m.Stopped? || m.Elsewhere? || m.Sweep?) && Enabled(s, m) && id in s.runs
    ensures Acts(s, m, id)
  {
    hide Step, FullyOver;
  }

  lemma OtherActs(s: System, m: Move, id: RunId)
    requires m.Request? || m.Reply? || m.Prune? || m.WaitFor? || m.Wake? || m.AllStopped?
    requires Enabled(s, m) && id in s.runs
    ensures Acts(s, m, id)
  {
    hide Step, FullyOver, MayWake, MayAnswer, DoneTasks, Pruned, Woken;
  }

  lemma MoveActs(s: System, m: Move, id: RunId)
    requires Enabled(s, m) && id in s.runs
    ensures Acts(s, m, id)
  {
    hide Enabled, Acts;
    match m
    case Work(j, c) => WorkActs(s, j, c, id);
    case Admit(j, strategy) => AdmitActs(s, j, strategy, id);
    case Enroll => EnrollActs(s, id);
    case Abort(j) => AbortActs(s, j, id);
    case Aim(_) | CancelRun(_) | BeginShutdown => CancelActs(s, m, id);
    case Stopped | Elsewhere(_, _) | Sweep(_) => RowActs(s, m, id);
    case _ => OtherActs(s, m, id);
  }

  lemma {:induction false} LivesOn(s: System, moves: seq<Move>, id: RunId)
    requires After(s, moves).Some? && id in s.runs
    ensures
      var t := After(s, moves).value;
      id in t.runs && Lives(id, s.runs[id], RowOf(s, id), LifeOf(s, moves, id)) == Life(t.runs[id], RowOf(t, id))
    decreases |moves|
  {
    hide Enabled, Do, ActsOf, Acted;
    if moves != [] {
      MoveActs(s, moves[0], id);
      var acts, rest := ActsOf(s, moves[0], id), LifeOf(Do(s, moves[0]), moves[1..], id);
      LivesOn(Do(s, moves[0]), moves[1..], id);
      if acts == [] { assert acts + rest == rest; } else { assert (acts + rest)[1..] == rest; }
    }
  }

  lemma NewRunComesBy(s: System, m: Move, id: RunId)
    requires Enabled(s, m) && id !in s.runs && id in Do(s, m).runs
    ensures Do(s, m).runs[id] == NewRun(Do(s, m).runs[id].kind) && RowOf(Do(s, m), id) == None
  {
    hide Step, FullyOver, MayWake, MayAnswer, NextReg, DoneTasks, Pruned, Live, Doomed, GaveUp;
  }

  lemma {:induction false} IsALife(s: System, moves: seq<Move>, id: RunId)
    requires After(s, moves).Some? && id !in s.runs && id in After(s, moves).value.runs
    ensures
      var t := After(s, moves).value;
      exists kind :: Lives(id, NewRun(kind), None, LifeOf(s, moves, id)) == Life(t.runs[id], RowOf(t, id))
    decreases |moves|
  {
    hide Enabled, Do, ActsOf, Acted;
    var s' := Do(s, moves[0]);
    assert LifeOf(s, moves, id) == LifeOf(s', moves[1..], id);
    if id in s'.runs {
      NewRunComesBy(s, moves[0], id);
      LivesOn(s', moves[1..], id);
    } else {
      IsALife(s', moves[1..], id);
    }
  }

  /** Every run of a process lives a life of its own machine, whatever the other runs,
      the admissions and the shutdown do: its acts can be told from the moves, and all
      that is proved of every life holds of it. */
  lemma EveryRunIsALife(s: System, thread: ThreadId, moves: seq<Move>, id: RunId)
    requires Reachable(s, thread, moves) && id in s.runs
    ensures
      Lives(id, NewRun(s.runs[id].kind), None, LifeOf(Fresh(thread), moves, id)) == Life(s.runs[id], RowOf(s, id))
  {
    var acts := LifeOf(Fresh(thread), moves, id);
    IsALife(Fresh(thread), moves, id);
    var kind :| Lives(id, NewRun(kind), None, acts) == Life(s.runs[id], RowOf(s, id));
    hide Lives, RunInv, LifeOf;
    LifeInv(id, kind, acts);
  }

  /** Outcome agreement and cleanup, whatever the other runs of the thread do. */
  lemma EveryRunConcludes(s: System, thread: ThreadId, moves: seq<Move>, id: RunId)
    requires Reachable(s, thread, moves) && id in s.runs
    ensures WellEnded(s.runs[id], RowOf(s, id))
  {
    hide Reachable, RunsInv, RunInv, LockInv, TrackInv, AdmissionInv, WaitersInv, ShutdownInv, WellEnded;
    ReachableInv(s, thread, moves);
    OneRunInv(s, id);
    EndsWell(s.runs[id], RowOf(s, id));
  }

  /** No deadlock: while a run is unfinished, some task can take a step, and every step
      but another graph event brings its run closer to the end. */
  lemma NoDeadlock(s: System, thread: ThreadId, moves: seq<Move>, id: RunId)
    returns (next: RunId, c: Choice)
    requires Reachable(s, thread, moves) && id in s.runs && Unfinished(s.runs[id])
    ensures next in s.runs && !c.Emit? && Enabled(s, Work(next, c))
    ensures Rank(Do(s, Work(next, c)).runs[next]) < Rank(s.runs[next])
  {
    hide RunInv, Reachable, TrackInv, AdmissionInv, WaitersInv, ShutdownInv, DoWork, Step, Rank;
    ReachableInv(s, thread, moves);
    next := if s.lock.Some? then s.lock.value else id;
    var run, row, free := s.runs[next], RowOf(s, next), s.lock.None?;
    c := if run.doomed then Land(false) else Go;
    OneRunInv(s, next);
    NeverStuck(next, run, row, free);
    StepsEnd(next, run, row, free, c);
    assert Do(s, Work(next, c)) == DoWork(s, next, Step(next, run, row, free, c));
    WorkRuns(s, next, Step(next, run, row, free, c));
  }

  lemma WorkRuns(s: System, id: RunId, out: Out)
    requires id in s.runs && out.Next?
    ensures DoWork(s, id, out).runs == s.runs[id := out.run]
  {
  }
}
