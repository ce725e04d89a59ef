/** Building the metadata store's indexes from several processes at once
    (`_create_indexes`, src/skeino/persistence/metadata_store.py).
 */
module IndexBuild {
  import opened Common

  type Pid = nat

  const INDEXES := 4

  /** An index of the catalog. A build publishes it invalid, and a build that ends
      early leaves it so; the catalog does not tell the two apart. */
  datatype Index = Absent | Building(owner: Pid) | Leftover | Valid

  /** Where a process is: about to send the statement named, or waiting for its build. */
  datatype Pc =
    | TryLock
    | Probe(k: nat) | Drop(k: nat) | Create(k: nat) | Build(k: nat)
    | Unlock(ok: bool) | Close(ok: bool)
    | Skipped | Finished | Failed | Crashed

  datatype State = State(indexes: seq<Index>, lock: Option<Pid>, procs: map<Pid, Pc>)

  datatype Move =
    | Start(p: Pid)
    | Send(p: Pid)
    | Raise(p: Pid)
    | Crash(p: Pid)

  function To(s: State, p: Pid, pc: Pc): State { s.(procs := s.procs[p := pc]) }

  function Release(s: State, p: Pid): State { if s.lock == Some(p) then s.(lock := None) else s }

  /** `NOT indisvalid`. */
  predicate LooksInvalid(i: Index) { i.Building? || i.Leftover? }

  /** The server ends the statement a session was running: a build leaves its index. */
  function Aborted(s: State, pc: Pc): State {
    if pc.Build? && pc.k < |s.indexes| then s.(indexes := s.indexes[pc.k := Leftover]) else s
  }

  predicate Open(pc: Pc) { !pc.Skipped? && !pc.Finished? && !pc.Failed? && !pc.Crashed? }

  predicate InLoop(pc: Pc) { pc.Probe? || pc.Drop? || pc.Create? || pc.Build? }

  predicate InRange(s: State, pc: Pc) { InLoop(pc) && !pc.Probe? ==> pc.k < |s.indexes| }

  /** The next statement takes effect. */
  function Sent(s: State, p: Pid): State
    requires p in s.procs && InRange(s, s.procs[p])
  {
    match s.procs[p]
    case TryLock => if s.lock.None? then To(s.(lock := Some(p)), p, Probe(0)) else To(s, p, Skipped)
    case Probe(k) =>
      if k >= |s.indexes| then To(s, p, Unlock(true))
      else if LooksInvalid(s.indexes[k]) then To(s, p, Drop(k))
      else To(s, p, Create(k))
    case Drop(k) => To(s.(indexes := s.indexes[k := Absent]), p, Create(k))
    case Create(k) =>
      if s.indexes[k].Absent? then To(s.(indexes := s.indexes[k := Building(p)]), p, Build(k))
      else To(s, p, Probe(k + 1))
    case Build(k) => To(s.(indexes := s.indexes[k := Valid]), p, Probe(k + 1))
    case Unlock(ok) => To(Release(s, p), p, Close(ok))
    case Close(ok) => To(Release(s, p), p, if ok then Finished else Failed)
    case _ => s
  }

  /** It raises instead: inside the loop the `finally` unlocks, a failed unlock is
      suppressed, and closing the connection releases the lock regardless. */
  function Raised(s: State, p: Pid): State
    requires p in s.procs
  {
    var pc := s.procs[p];
    if pc.TryLock? then To(Release(s, p), p, Failed)
    else if InLoop(pc) then To(Aborted(s, pc), p, Unlock(false))
    else if pc.Unlock? then To(s, p, Close(pc.ok))
    else if pc.Close? then To(Release(s, p), p, Failed)
    else s
  }

  predicate Enabled(s: State, m: Move) {
    match m
    case Start(p) => p !in s.procs
    case Send(p) => p in s.procs && Open(s.procs[p]) && InRange(s, s.procs[p])
    case Raise(p) => p in s.procs && Open(s.procs[p])
    case Crash(p) => p in s.procs && Open(s.procs[p])
  }

  function Do(s: State, m: Move): State
    requires Enabled(s, m)
  {
    match m
    case Start(p) => To(s, p, TryLock)
    case Send(p) => Sent(s, p)
    case Raise(p) => Raised(s, p)
    case Crash(p) => To(Release(Aborted(s, s.procs[p]), p), p, Crashed)
  }

  function After(s: State, moves: seq<Move>): Option<State>
    decreases |moves|
  {
    if moves == [] then Some(s)
    else if Enabled(s, moves[0]) then After(Do(s, moves[0]), moves[1..])
    else None
  }

  /** The catalog may hold anything but a running build. */
  ghost predicate Initial(s: State) {
    && |s.indexes| == INDEXES && s.lock.None? && s.procs == map[]
    && forall k :: 0 <= k < |s.indexes| ==> !s.indexes[k].Building?
  }

  // ---------------------------------------------------------------- invariant

  predicate Holding(pc: Pc) { InLoop(pc) || pc.Unlock? }

  predicate ValidBelow(indexes: seq<Index>, k: nat) {
    k <= |indexes| && forall j :: 0 <= j < k ==> indexes[j].Valid?
  }

  /** What a process may rely on at its point. */
  predicate ProcInv(s: State, p: Pid, pc: Pc) {
    && (Holding(pc) ==> s.lock == Some(p))
    && (s.lock == Some(p) ==> Holding(pc) || pc.Close?)
    && (InLoop(pc) ==> ValidBelow(s.indexes, pc.k))
    && InRange(s, pc)
    && (pc.Drop? ==> s.indexes[pc.k].Leftover?)
    && (pc.Create? ==> s.indexes[pc.k].Absent? || s.indexes[pc.k].Valid?)
    && (pc.Build? ==> s.indexes[pc.k] == Building(p))
    && (((pc.Unlock? || pc.Close?) && pc.ok) || pc.Finished? ==> ValidBelow(s.indexes, |s.indexes|))
  }

  ghost predicate Inv(s: State) {
    && (forall p :: p in s.procs ==> ProcInv(s, p, s.procs[p]))
    && (s.lock.Some? ==> s.lock.value in s.procs)
    && (forall k :: 0 <= k < |s.indexes| && s.indexes[k].Building? ==>
          s.indexes[k].owner in s.procs && s.procs[s.indexes[k].owner] == Build(k))
  }

  /** A valid index is never touched again. */
  predicate KeepsValid(s: State, s': State) {
    |s'.indexes| == |s.indexes| && forall k :: 0 <= k < |s.indexes| && s.indexes[k].Valid? ==> s'.indexes[k].Valid?
  }

  /** One process moves: the others' points are unaffected, as only the lock's holder
      changes an index. */
  lemma OneMoves(s: State, s': State, p: Pid)
    requires Inv(s) && p in s'.procs && s'.procs == s.procs[p := s'.procs[p]]
    requires KeepsValid(s, s') && ProcInv(s', p, s'.procs[p])
    requires s'.lock == s.lock || (s.lock.None? && s'.lock == Some(p)) || (s.lock == Some(p) && s'.lock.None?)
    requires s'.indexes != s.indexes ==> s.lock == Some(p)
    requires forall k :: 0 <= k < |s.indexes| && s'.indexes[k].Building? ==>
      if s'.indexes[k].owner == p then s'.procs[p] == Build(k) else s.indexes[k] == s'.indexes[k]
    ensures Inv(s')
  {
    forall q | q in s'.procs ensures ProcInv(s', q, s'.procs[q]) {
      if q != p { assert ProcInv(s, q, s.procs[q]); }
    }
  }

  /** The statement that a process sends keeps what it may rely on. */
  lemma SendIsSound(s: State, p: Pid)
    requires Enabled(s, Send(p)) && ProcInv(s, p, s.procs[p])
    requires Holding(s.procs[p]) ==>
      forall k :: 0 <= k < |s.indexes| && s.indexes[k].Building? ==> s.procs[p] == Build(k)
    ensures KeepsValid(s, Sent(s, p)) && ProcInv(Sent(s, p), p, Sent(s, p).procs[p])
  {
  }

  lemma SendKeeps(s: State, p: Pid)
    requires Inv(s) && Enabled(s, Send(p))
    ensures Inv(Sent(s, p)) && KeepsValid(s, Sent(s, p))
  {
    var s', pc := Sent(s, p), s.procs[p];
    assert ProcInv(s, p, pc);
    hide Inv, ValidBelow;
    SendIsSound(s, p);
    hide KeepsValid;
    BuildsOf(s, p);
    OneMoves(s, s', p);
  }

  /** A build in the catalog is its owner's. */
  lemma BuildsOf(s: State, p: Pid)
    requires Inv(s)
    ensures forall k :: 0 <= k < |s.indexes| && s.indexes[k] == Building(p) ==> p in s.procs && s.procs[p] == Build(k)
  {
  }

  lemma RaiseKeeps(s: State, p: Pid)
    requires Inv(s) && Enabled(s, Raise(p))
    ensures Inv(Raised(s, p)) && KeepsValid(s, Raised(s, p))
  {
    var s', pc := Raised(s, p), s.procs[p];
    assert ProcInv(s, p, pc);
    hide Inv;
    BuildsOf(s, p);
    OneMoves(s, s', p);
  }

  lemma CrashKeeps(s: State, p: Pid)
    requires Inv(s) && Enabled(s, Crash(p))
    ensures Inv(Do(s, Crash(p))) && KeepsValid(s, Do(s, Crash(p)))
  {
    var s', pc := Do(s, Crash(p)), s.procs[p];
    assert ProcInv(s, p, pc);
    hide Inv;
    BuildsOf(s, p);
    OneMoves(s, s', p);
  }

  lemma StartKeeps(s: State, p: Pid)
    requires Inv(s) && p !in s.procs
    ensures Inv(To(s, p, TryLock)) && KeepsValid(s, To(s, p, TryLock))
  {
    var s' := To(s, p, TryLock);
    BuildsOf(s, p);
    OneMoves(s, s', p);
  }

  lemma MoveKeeps(s: State, m: Move)
    requires Inv(s) && Enabled(s, m)
    ensures Inv(Do(s, m)) && KeepsValid(s, Do(s, m))
  {
    hide Inv, KeepsValid, Sent, Raised;
    match m
    case Start(p) => StartKeeps(s, p);
    case Send(p) => SendKeeps(s, p);
    case Raise(p) => RaiseKeeps(s, p);
    case Crash(p) => CrashKeeps(s, p);
  }

  lemma {:induction false} AfterKeeps(s: State, moves: seq<Move>)
    requires Inv(s)
    ensures var end := After(s, moves); end.Some? ==> Inv(end.value) && KeepsValid(s, end.value)
    decreases |moves|
  {
    if moves != [] && Enabled(s, moves[0]) {
      MoveKeeps(s, moves[0]);
      AfterKeeps(Do(s, moves[0]), moves[1..]);
    }
  }

  ghost predicate Reachable(s: State, init: State, moves: seq<Move>) {
    Initial(init) && After(init, moves) == Some(s)
  }

  /** No process drops an index that a live process is building, nor a valid one: what
      it drops is always the leftover of an interrupted build. */
  lemma NeverDropsALiveBuild(s: State, init: State, moves: seq<Move>, p: Pid)
    requires Reachable(s, init, moves) && p in s.procs && s.procs[p].Drop?
    ensures s.procs[p].k < |s.indexes| && s.indexes[s.procs[p].k].Leftover?
    ensures forall q :: q in s.procs && s.procs[q].Build? ==> s.procs[q].k != s.procs[p].k
  {
    AfterKeeps(init, moves);
    assert ProcInv(s, p, s.procs[p]);
    forall q | q in s.procs && s.procs[q].Build? ensures s.procs[q].k != s.procs[p].k {
      assert ProcInv(s, q, s.procs[q]);
    }
  }

  /** At most one process is in its locked part, whatever crashes. */
  lemma OneBuilder(s: State, init: State, moves: seq<Move>, p: Pid, q: Pid)
    requires Reachable(s, init, moves) && p in s.procs && q in s.procs && Holding(s.procs[p]) && Holding(s.procs[q])
    ensures p == q
  {
    AfterKeeps(init, moves);
    assert ProcInv(s, p, s.procs[p]) && ProcInv(s, q, s.procs[q]);
  }

  /** A process that got the lock and finished its loop leaves every index valid, and
      valid they stay. */
  lemma FinishedMeansValid(s: State, init: State, moves: seq<Move>, p: Pid, later: State, more: seq<Move>)
    requires Reachable(s, init, moves) && p in s.procs && s.procs[p].Finished?
    requires After(s, more) == Some(later)
    ensures |later.indexes| == INDEXES && forall k :: 0 <= k < INDEXES ==> later.indexes[k].Valid?
  {
    AfterKeeps(init, moves);
    assert ProcInv(s, p, s.procs[p]);
    AfterKeeps(s, more);
  }

  /** The lock is only ever held by a process that is still open: a crash frees it. */
  lemma LockIsFreed(s: State, init: State, moves: seq<Move>)
    requires Reachable(s, init, moves) && forall p :: p in s.procs ==> !Open(s.procs[p])
    ensures s.lock.None? && forall k :: 0 <= k < |s.indexes| ==> !s.indexes[k].Building?
  {
    AfterKeeps(init, moves);
    assert s.lock.Some? ==> ProcInv(s, s.lock.value, s.procs[s.lock.value]);
  }

  // ---------------------------------------------------------------- the loop

  /** Statements left, at most, to a process that none interrupts. */
  function Left(pc: Pc, n: nat): nat {
    match pc
    case TryLock => 4 * n + 4
    case Probe(k) => if k <= n then 4 * (n - k) + 3 else 3
    case Drop(k) => if k < n then 4 * (n - k) + 2 else 2
    case Create(k) => if k < n then 4 * (n - k) + 1 else 2
    case Build(k) => if k < n then 4 * (n - k) else 2
    case Unlock(_) => 2
    case Close(_) => 1
    case _ => 0
  }

  lemma SendsEnd(s: State, init: State, moves: seq<Move>, p: Pid)
    requires Reachable(s, init, moves) && p in s.procs && Open(s.procs[p])
    ensures Enabled(s, Send(p))
    ensures Left(Do(s, Send(p)).procs[p], |s.indexes|) < Left(s.procs[p], |s.indexes|)
  {
    AfterKeeps(init, moves);
    assert ProcInv(s, p, s.procs[p]);
  }

  /** Going to fail, or failed. */
  predicate Failing(pc: Pc) { pc.Failed? || ((pc.Unlock? || pc.Close?) && !pc.ok) }

  /** A statement of the process has raised, other than its unlock. */
  predicate Hurt(s: State, moves: seq<Move>, p: Pid)
    decreases |moves|
  {
    && moves != [] && Enabled(s, moves[0])
    && ((moves[0] == Raise(p) && !s.procs[p].Unlock?) || Hurt(Do(s, moves[0]), moves[1..], p))
  }

  lemma HurtOnce(s: State, m: Move, p: Pid)
    requires Enabled(s, m) && p in Do(s, m).procs && !Do(s, m).procs[p].Crashed?
    ensures Failing(Do(s, m).procs[p]) <==>
      (p in s.procs && Failing(s.procs[p])) || (m == Raise(p) && !s.procs[p].Unlock?)
  {
  }

  lemma {:induction false} CrashedStays(s: State, moves: seq<Move>, p: Pid)
    requires p in s.procs && s.procs[p].Crashed? && After(s, moves).Some?
    ensures p in After(s, moves).value.procs && After(s, moves).value.procs[p].Crashed?
    decreases |moves|
  {
    if moves != [] { CrashedStays(Do(s, moves[0]), moves[1..], p); }
  }

  lemma {:induction false} FailsOnceHurt(s: State, moves: seq<Move>, p: Pid)
    requires var end := After(s, moves); end.Some? && p in end.value.procs && !end.value.procs[p].Crashed?
    ensures Failing(After(s, moves).value.procs[p]) <==>
      (p in s.procs && Failing(s.procs[p])) || Hurt(s, moves, p)
    decreases |moves|
  {
    hide Do, Enabled, Failing;
    if moves != [] {
      var s' := Do(s, moves[0]);
      FailsOnceHurt(s', moves[1..], p);
      if p in s'.procs {
        if s'.procs[p].Crashed? { CrashedStays(s', moves[1..], p); }
        HurtOnce(s, moves[0], p);
      } else {
        NeverStarted(s, moves[0], p);
      }
    }
  }

  lemma NeverStarted(s: State, m: Move, p: Pid)
    requires Enabled(s, m) && p !in Do(s, m).procs
    ensures p !in s.procs && m != Raise(p)
  {
  }

  /** A process that does not crash fails if and only if a statement of it did, or its
      connection's end: a failed unlock does not matter. */
  lemma FailsExactlyWhenHurt(s: State, init: State, moves: seq<Move>, p: Pid)
    requires Reachable(s, init, moves) && p in s.procs && !Open(s.procs[p]) && !s.procs[p].Crashed?
    ensures s.procs[p].Failed? <==> Hurt(init, moves, p)
  {
    FailsOnceHurt(init, moves, p);
  }

  datatype Outcome = Done | Skip | Error

  /** The catalog, as one process sees it: while it holds the lock, nobody else
      changes the indexes. */
  class Catalog {
    var indexes: seq<Index>
    var lock: Option<Pid>

    constructor (indexes: seq<Index>, lock: Option<Pid>)
      ensures this.indexes == indexes && this.lock == lock
    {
      this.indexes, this.lock := indexes, lock;
    }

    ghost function Seen(p: Pid, pc: Pc): State
      reads this
    {
      State(indexes, lock, map[p := pc])
    }

    /** The moves so far lead to the present state, with the process at `pc`. */
    ghost predicate At(init: State, moves: seq<Move>, p: Pid, pc: Pc)
      reads this
    {
      After(init, moves) == Some(Seen(p, pc))
    }

    /** Probe for a leftover, and drop it. */
    method DropLeftover(p: Pid, k: nat, j: nat, raises: nat -> bool, ghost init: State, ghost moves: seq<Move>)
      returns (ok: bool, j': nat, ghost moves': seq<Move>)
      requires k < |indexes| && At(init, moves, p, Probe(k)) && !indexes[k].Building?
      modifies this`indexes
      ensures |indexes| == |old(indexes)| && forall i :: 0 <= i < |indexes| && i != k ==> indexes[i] == old(indexes)[i]
      ensures At(init, moves', p, if ok then Create(k) else Unlock(false))
      ensures !indexes[k].Building? && (ok ==> !indexes[k].Leftover?)
    {
      hide After;
      Then(init, moves, Seen(p, Probe(k)), p, Raise(p));
      if raises(j) { return false, j + 1, moves + [Raise(p)]; }
      Then(init, moves, Seen(p, Probe(k)), p, Send(p));
      ok, j', moves' := true, j + 1, moves + [Send(p)];
      if indexes[k].Leftover? {
        Then(init, moves', Seen(p, Drop(k)), p, Raise(p));
        Then(init, moves', Seen(p, Drop(k)), p, Send(p));
        j' := j' + 1;
        if raises(j' - 1) { return false, j', moves' + [Raise(p)]; }
        indexes := indexes[k := Absent];
        moves' := moves' + [Send(p)];
      }
    }

    /** `CREATE INDEX CONCURRENTLY IF NOT EXISTS`. */
    method CreateOne(p: Pid, k: nat, j: nat, raises: nat -> bool, ghost init: State, ghost moves: seq<Move>)
      returns (ok: bool, j': nat, ghost moves': seq<Move>)
      requires k < |indexes| && At(init, moves, p, Create(k)) && (indexes[k].Absent? || indexes[k].Valid?)
      modifies this`indexes
      ensures |indexes| == |old(indexes)| && forall i :: 0 <= i < |indexes| && i != k ==> indexes[i] == old(indexes)[i]
      ensures At(init, moves', p, if ok then Probe(k + 1) else Unlock(false))
      ensures !indexes[k].Building? && (ok ==> indexes[k].Valid?)
    {
      hide After;
      Then(init, moves, Seen(p, Create(k)), p, Raise(p));
      if raises(j) { return false, j + 1, moves + [Raise(p)]; }
      Then(init, moves, Seen(p, Create(k)), p, Send(p));
      ok, j', moves' := true, j + 1, moves + [Send(p)];
      if indexes[k].Absent? {
        indexes := indexes[k := Building(p)];
        Then(init, moves', Seen(p, Build(k)), p, Raise(p));
        Then(init, moves', Seen(p, Build(k)), p, Send(p));
        ok, j' := !raises(j'), j' + 1;
        moves' := moves' + [if ok then Send(p) else Raise(p)];
        indexes := indexes[k := if ok then Valid else Leftover];
      }
    }

    /** The unlock of the `finally`, and the end of the connection. */
    method Finish(p: Pid, ok: bool, ghost init: State, ghost moves: seq<Move>) returns (ghost moves': seq<Move>)
      requires lock == Some(p) && At(init, moves, p, Unlock(ok))
      modifies this`lock
      ensures lock.None? && At(init, moves', p, if ok then Finished else Failed)
    {
      Then(init, moves, Seen(p, Unlock(ok)), p, Send(p));
      moves' := moves + [Send(p)];
      lock := None;
      Then(init, moves', Seen(p, Close(ok)), p, Send(p));
      moves' := moves' + [Send(p)];
    }

    /** `_create_indexes`; `raises(j)` says whether the j-th statement in the loop fails.
        What it does is a run of the machine above. */
    method CreateIndexes(p: Pid, raises: nat -> bool) returns (r: Outcome, ghost moves: seq<Move>)
      requires lock != Some(p) && (lock.None? ==> forall k :: 0 <= k < |indexes| ==> !indexes[k].Building?)
      modifies this
      ensures After(old(Seen(p, TryLock)), moves) ==
              Some(Seen(p, if r.Done? then Finished else if r.Skip? then Skipped else Failed))
      ensures r.Skip? <==> old(lock).Some?
      ensures r.Skip? ==> indexes == old(indexes) && lock == old(lock)
      ensures !r.Skip? ==> lock.None?
      ensures r.Done? ==> forall k :: 0 <= k < |indexes| ==> indexes[k].Valid?
    {
      ghost var init := Seen(p, TryLock);
      moves := [];
      assert After(init, moves) == Some(init);
      hide After;
      Then(init, moves, init, p, Send(p));
      moves := moves + [Send(p)];
      if lock.Some? { return Skip, moves; }
      lock := Some(p);
      var k, j, ok := 0, 0, true;
      while k < |indexes| && ok
        invariant 0 <= k <= |indexes| && lock == Some(p)
        invariant At(init, moves, p, if ok then Probe(k) else Unlock(false))
        invariant ok ==> ValidBelow(indexes, k)
        invariant forall i :: 0 <= i < |indexes| ==> !indexes[i].Building?
        decreases |indexes| - k, ok
      {
        ok, j, moves := DropLeftover(p, k, j, raises, init, moves);
        if ok { ok, j, moves := CreateOne(p, k, j, raises, init, moves); }
        if ok { k := k + 1; }
      }
      if ok {
        Then(init, moves, Seen(p, Probe(k)), p, Send(p));
        moves := moves + [Send(p)];
      }
      moves := Finish(p, ok, init, moves);
      r := if ok then Done else Error;
    }
  }

  lemma {:induction false} AfterThen(init: State, moves: seq<Move>, s: State, m: Move)
    requires After(init, moves) == Some(s) && Enabled(s, m)
    ensures After(init, moves + [m]) == Some(Do(s, m))
    decreases |moves|
  {
    if moves != [] {
      assert (moves + [m])[1..] == moves[1..] + [m];
      AfterThen(Do(init, moves[0]), moves[1..], s, m);
    }
  }

  /** ... of a process that is alone. */
  lemma Then(init: State, moves: seq<Move>, s: State, p: Pid, m: Move)
    requires After(init, moves) == Some(s) && Enabled(s, m) && (m == Send(p) || m == Raise(p))
    requires s.procs.Keys == {p}
    ensures var t := Do(s, m);
            p in t.procs && After(init, moves + [m]) == Some(State(t.indexes, t.lock, map[p := t.procs[p]]))
  {
    AfterThen(init, moves, s, m);
    var t := Do(s, m);
    assert t.procs.Keys == {p};
    assert t.procs == map[p := t.procs[p]];
  }
}
