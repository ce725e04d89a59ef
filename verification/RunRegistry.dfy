/** `BackgroundRunRegistry` (src/skeino/concurrency.py): which task, and which pending
    finalizer, a run id stands for, and which runs a thread counts as active.
 */
module RunRegistry {
  import opened Common

  /** A task's identity. A run has at most two: its admission and its main task. */
  datatype Task = Task(run: RunId, main: bool)

  datatype Registry = Registry(
    tasks: map<RunId, Task>,
    completions: set<RunId>,
    active: map<ThreadId, set<RunId>>)

  const EMPTY := Registry(map[], {}, map[])

  function Active(reg: Registry, thread: ThreadId): set<RunId> {
    if thread in reg.active then reg.active[thread] else {}
  }

  /** `register_external`. */
  function Reserved(reg: Registry, thread: ThreadId, id: RunId): Registry {
    reg.(active := reg.active[thread := Active(reg, thread) + {id}])
  }

  function Spawned(reg: Registry, thread: ThreadId, id: RunId, task: Task, finalized: bool): Registry {
    Reserved(reg, thread, id).(tasks := reg.tasks[id := task],
                               completions := if finalized then reg.completions + {id} else reg.completions)
  }

  /** `_forget`: a thread with no active run has no entry. */
  function Forgotten(reg: Registry, thread: ThreadId, id: RunId): Registry {
    var rest := Active(reg, thread) - {id};
    reg.(tasks := reg.tasks - {id},
         active := if thread !in reg.active then reg.active
                   else if rest == {} then reg.active - {thread} else reg.active[thread := rest])
  }

  /** The done callback of a task spawned without a finalizer: a task that handed its
      run to a successor forgets nothing. */
  function TaskEnded(reg: Registry, thread: ThreadId, task: Task): Registry {
    if task.run in reg.tasks && reg.tasks[task.run] == task then Forgotten(reg, thread, task.run) else reg
  }

  /** The end of `finish()`. */
  function FinalizerEnded(reg: Registry, thread: ThreadId, id: RunId): Registry {
    Forgotten(reg.(completions := reg.completions - {id}), thread, id)
  }

  /** A finished run that only waits for its done callback. */
  predicate Stale(reg: Registry, id: RunId, done: set<Task>) {
    id in reg.tasks && reg.tasks[id] in done && id !in reg.completions
  }

  /** What `active_runs` returns. */
  function Live(reg: Registry, thread: ThreadId, done: set<Task>): set<RunId> {
    set id | id in Active(reg, thread) && !Stale(reg, id, done)
  }

  /** What it leaves behind. */
  function Pruned(reg: Registry, thread: ThreadId, done: set<Task>): Registry {
    var live := Live(reg, thread, done);
    reg.(tasks := reg.tasks - (Active(reg, thread) - live),
         active := if thread !in reg.active then reg.active
                   else if live == {} then reg.active - {thread} else reg.active[thread := live])
  }

  /** No thread is kept for nothing; what is tracked is active on one thread. */
  ghost predicate WellFormed(reg: Registry) {
    && (forall t :: t in reg.active ==> reg.active[t] != {})
    && (forall t, u, id :: t in reg.active && u in reg.active && id in reg.active[t] && id in reg.active[u] ==> t == u)
  }

  predicate ActiveOn(reg: Registry, thread: ThreadId, id: RunId) { id in Active(reg, thread) }

  predicate Listed(reg: Registry, thread: ThreadId, id: RunId, task: Task, completion: bool) {
    && ActiveOn(reg, thread, id)
    && id in reg.tasks && reg.tasks[id] == task
    && (id in reg.completions <==> completion)
  }

  predicate Unlisted(reg: Registry, thread: ThreadId, id: RunId) {
    !ActiveOn(reg, thread, id) && id !in reg.tasks && id !in reg.completions
  }

  /** The task and the completion of the run are what they were. */
  predicate SameTask(reg: Registry, reg': Registry, id: RunId) {
    && (id in reg'.tasks <==> id in reg.tasks)
    && (id in reg.tasks ==> reg'.tasks[id] == reg.tasks[id])
    && (id in reg'.completions <==> id in reg.completions)
  }

  /** No other run's entry has changed, on any thread. */
  ghost predicate OthersSame(reg: Registry, reg': Registry, thread: ThreadId, id: RunId) {
    && (forall j :: j != id ==> SameTask(reg, reg', j))
    && (forall t, j :: t != thread || j != id ==> (ActiveOn(reg', t, j) <==> ActiveOn(reg, t, j)))
  }

  ghost predicate Unknown(reg: Registry, id: RunId) {
    id !in reg.tasks && id !in reg.completions && forall t :: t in reg.active ==> id !in reg.active[t]
  }

  lemma ReserveThenForget(reg: Registry, thread: ThreadId, id: RunId)
    requires WellFormed(reg) && Unknown(reg, id)
    ensures Forgotten(Reserved(reg, thread, id), thread, id) == reg
  {
    var rest := Active(reg, thread);
    assert rest + {id} - {id} == rest;
    assert reg.tasks - {id} == reg.tasks;
    if thread in reg.active {
      assert reg.active[thread := rest + {id}][thread := rest] == reg.active;
    } else {
      assert reg.active[thread := rest + {id}] - {thread} == reg.active;
    }
  }

  /** Spawning and ending undo each other, also across a hand-off: the end of the first
      task forgets nothing once the successor is there, and the successor's end leaves
      no trace. */
  lemma SpawnsAreForgotten(reg: Registry, thread: ThreadId, id: RunId, first: Task, next: Task)
    requires WellFormed(reg) && Unknown(reg, id)
    requires first.run == id && next.run == id && first != next
    ensures
      var one := Spawned(Reserved(reg, thread, id), thread, id, first, false);
      var two := Spawned(one, thread, id, next, true);
      && TaskEnded(two, thread, first) == two
      && TaskEnded(one, thread, first) == reg
      && FinalizerEnded(two, thread, id) == reg
  {
    var once := Reserved(reg, thread, id);
    var one := Spawned(once, thread, id, first, false);
    var two := Spawned(one, thread, id, next, true);
    assert Active(reg, thread) + {id} + {id} == Active(reg, thread) + {id};
    assert one.active == once.active && two.active == once.active;
    assert two.completions - {id} == reg.completions;
    assert one.tasks - {id} == once.tasks - {id} && two.tasks - {id} == once.tasks - {id};
    ReserveThenForget(reg, thread, id);
  }

  lemma ReservedIsWellFormed(reg: Registry, thread: ThreadId, id: RunId)
    requires WellFormed(reg) && forall t :: t != thread ==> !ActiveOn(reg, t, id)
    ensures WellFormed(Reserved(reg, thread, id))
  {
    var reg' := Reserved(reg, thread, id);
    forall t, u, j | t in reg'.active && u in reg'.active && j in reg'.active[t] && j in reg'.active[u] ensures t == u {
      assert ActiveOn(reg, t, j) || j == id;
      assert ActiveOn(reg, u, j) || j == id;
    }
  }

  class BackgroundRunRegistry {
    var tasks: map<RunId, Task>
    var completion: set<RunId>
    var activeByThread: map<ThreadId, set<RunId>>

    ghost function Value(): Registry
      reads this
    {
      Registry(tasks, completion, activeByThread)
    }

    constructor ()
      ensures Value() == EMPTY
    {
      tasks, completion, activeByThread := map[], {}, map[];
    }

    /** Reserves the slot: the run is active, what task it has does not change. */
    method RegisterExternal(thread: ThreadId, id: RunId)
      modifies this
      ensures Value() == Reserved(old(Value()), thread, id)
      ensures ActiveOn(Value(), thread, id) && SameTask(old(Value()), Value(), id)
      ensures OthersSame(old(Value()), Value(), thread, id)
      ensures WellFormed(old(Value())) && (forall t :: t != thread ==> !ActiveOn(old(Value()), t, id)) ==>
                WellFormed(Value())
    {
      if WellFormed(Value()) && forall t :: t != thread ==> !ActiveOn(Value(), t, id) {
        ReservedIsWellFormed(Value(), thread, id);
      }
      var runs := if thread in activeByThread then activeByThread[thread] else {};
      activeByThread := activeByThread[thread := runs + {id}];
    }

    /** The run is active under the new task from here on, whoever had it before. */
    method Spawn(thread: ThreadId, id: RunId, task: Task, finalize: bool)
      modifies this
      ensures Value() == Spawned(old(Value()), thread, id, task, finalize)
      ensures Listed(Value(), thread, id, task, finalize || id in old(completion))
      ensures OthersSame(old(Value()), Value(), thread, id)
    {
      tasks := tasks[id := task];
      RegisterExternal(thread, id);
      if finalize { completion := completion + {id}; }
    }

    /** The run has no task and is not active on the thread; a thread whose last run it
        was has no entry left. */
    method Forget(thread: ThreadId, id: RunId)
      modifies this
      ensures Value() == Forgotten(old(Value()), thread, id)
      ensures id !in tasks && !ActiveOn(Value(), thread, id) && completion == old(completion)
      ensures OthersSame(old(Value()), Value(), thread, id)
      ensures WellFormed(old(Value())) ==> WellFormed(Value())
    {
      tasks := tasks - {id};
      if thread in activeByThread {
        var rest := activeByThread[thread] - {id};
        activeByThread := activeByThread[thread := rest];
        if rest == {} {
          activeByThread := activeByThread - {thread};
          assert activeByThread == old(activeByThread) - {thread};
        }
      }
    }

    /** A task that was the last one of its run, with no finalizer, takes the run along;
        one that has a successor changes nothing. */
    method OnTaskDone(thread: ThreadId, task: Task)
      modifies this
      ensures Value() == TaskEnded(old(Value()), thread, task)
      ensures task.run in old(tasks) && old(tasks)[task.run] != task ==> Value() == old(Value())
      ensures Listed(old(Value()), thread, task.run, task, false) ==> Unlisted(Value(), thread, task.run)
      ensures OthersSame(old(Value()), Value(), thread, task.run)
    {
      if task.run in tasks && tasks[task.run] == task { Forget(thread, task.run); }
    }

    /** Nothing of the run is left, and nothing else is touched. */
    method OnFinalized(thread: ThreadId, id: RunId)
      modifies this
      ensures Value() == FinalizerEnded(old(Value()), thread, id)
      ensures Unlisted(Value(), thread, id) && OthersSame(old(Value()), Value(), thread, id)
    {
      completion := completion - {id};
      Forget(thread, id);
    }

    /** The loop of `active_runs`, over a snapshot of the thread's runs. */
    method ActiveRuns(thread: ThreadId, done: set<Task>) returns (active: set<RunId>)
      requires WellFormed(Value())
      modifies this
      ensures active == Live(old(Value()), thread, done)
      ensures Value() == Pruned(old(Value()), thread, done)
    {
      active := {};
      ghost var before := Value();
      if thread !in activeByThread {
        assert Live(before, thread, done) == {};
        assert tasks - (Active(before, thread) - {}) == tasks;
        return;
      }
      assert activeByThread[thread := activeByThread[thread]] == activeByThread;
      var todo := activeByThread[thread];
      assert active + todo == Active(before, thread);
      while todo != {}
        invariant todo <= Active(before, thread)
        invariant active == Live(before, thread, done) - todo
        invariant completion == before.completions
        invariant tasks == before.tasks - (Active(before, thread) - todo - active)
        invariant activeByThread == (if active + todo == {} then before.active - {thread}
                                     else before.active[thread := active + todo])
      {
        var id :| id in todo;
        ghost var kept := active + todo;
        todo := todo - {id};
        if id in tasks && tasks[id] in done && id !in completion {
          Forget(thread, id);
          assert kept - {id} == active + todo;
        } else {
          active := active + {id};
          assert kept == active + todo;
        }
      }
      assert active + todo == active == Live(before, thread, done);
    }
  }
}
