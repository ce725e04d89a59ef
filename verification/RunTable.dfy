/** The run rows of the metadata stores (src/skeino/persistence) under any
    mix of workers: status updates, heartbeats, deletes and orphan sweeps.
 */
module RunTable {
  import opened Common
  import opened Lifecycle

  /** `updatedAt` is a timestamp, in microseconds. */
  datatype Entry = Entry(thread: ThreadId, row: Row, updatedAt: int)

  type Table = map<RunId, Entry>

  /** The arguments of one `fail_stale_runs` call; `cutoff` is `now` minus the window. */
  datatype Sweeper = Sweeper(cutoff: int, excluded: set<RunId>, error: Text, now: int)

  /** The writes a store applies atomically. A sweep is restricted to the runs in
      `only`; the single `UPDATE` of Postgres is a sweep of all of them. */
  datatype Write =
    | Insert(id: RunId, thread: ThreadId, now: int)
    | Update(id: RunId, status: Status, error: Text, now: int)
    | Touch(ids: set<RunId>, now: int)
    | Delete(id: RunId)
    | DropThread(thread: ThreadId)
    | Sweep(only: set<RunId>, how: Sweeper)

  predicate InFlightAt(t: Table, id: RunId) { id in t && InFlight(t[id].row.status) }

  /** In flight, not heartbeated since the cutoff, and not the sweeper's own. */
  predicate Stale(t: Table, id: RunId, how: Sweeper) {
    InFlightAt(t, id) && t[id].updatedAt < how.cutoff && id !in how.excluded
  }

  function Failed(e: Entry, how: Sweeper): Entry { e.(row := Row(Error, how.error), updatedAt := how.now) }

  function Touched(t: Table, ids: set<RunId>, now: int): Table {
    map id | id in t :: if id in ids && InFlight(t[id].row.status) then t[id].(updatedAt := now) else t[id]
  }

  function Swept(t: Table, only: set<RunId>, how: Sweeper): Table {
    map id | id in t :: if id in only && Stale(t, id, how) then Failed(t[id], how) else t[id]
  }

  function Updated(t: Table, id: RunId, status: Status, error: Text, now: int): Table {
    if InFlightAt(t, id) then t[id := t[id].(row := Row(status, error), updatedAt := now)] else t
  }

  function WithoutThread(t: Table, thread: ThreadId): Table {
    map id | id in t && t[id].thread != thread :: t[id]
  }

  function Apply(t: Table, w: Write): Table {
    match w
    case Insert(id, thread, now) => t[id := Entry(thread, Row(Pending, Blank), now)]
    case Update(id, status, error, now) => Updated(t, id, status, error, now)
    case Touch(ids, now) => Touched(t, ids, now)
    case Delete(id) => t - {id}
    case DropThread(thread) => WithoutThread(t, thread)
    case Sweep(only, how) => Swept(t, only, how)
  }

  function Applied(t: Table, ws: seq<Write>): Table
    decreases |ws|
  {
    if ws == [] then t else Applied(Apply(t, ws[0]), ws[1..])
  }

  /** The runs a sweep fails, and reports. */
  function Claims(t: Table, w: Write): set<RunId> {
    if w.Sweep? then set id | id in t && id in w.only && Stale(t, id, w.how) else {}
  }

  lemma {:induction false} AppliedConcat(t: Table, a: seq<Write>, b: seq<Write>)
    ensures Applied(t, a + b) == Applied(Applied(t, a), b)
    decreases |a|
  {
    if a == [] {
      assert a + b == b;
    } else {
      assert (a + b)[1..] == a[1..] + b;
      AppliedConcat(Apply(t, a[0]), a[1..], b);
    }
  }

  // ---------------------------------------------------------------- single winner

  /** This write moves the row to a final status. */
  predicate Finalizes(t: Table, w: Write, id: RunId) {
    InFlightAt(t, id) && id in Apply(t, w) && !InFlightAt(Apply(t, w), id)
  }

  function Finals(t: Table, ws: seq<Write>, id: RunId): nat
    decreases |ws|
  {
    if ws == [] then 0 else (if Finalizes(t, ws[0], id) then 1 else 0) + Finals(Apply(t, ws[0]), ws[1..], id)
  }

  /** How many sweeps report the run. */
  function Reports(t: Table, ws: seq<Write>, id: RunId): nat
    decreases |ws|
  {
    if ws == [] then 0 else (if id in Claims(t, ws[0]) then 1 else 0) + Reports(Apply(t, ws[0]), ws[1..], id)
  }

  predicate Inserts(ws: seq<Write>, id: RunId) {
    exists k :: 0 <= k < |ws| && ws[k].Insert? && ws[k].id == id
  }

  /** Run ids are fresh: no id is inserted twice, or over a row that is there. */
  predicate FreshInserts(t: Table, ws: seq<Write>, id: RunId) {
    && (id in t ==> !Inserts(ws, id))
    && forall j, k :: 0 <= j < k < |ws| && ws[j].Insert? && ws[k].Insert? && ws[j].id == id ==> ws[k].id != id
  }

  /** A final row keeps its status and error text until it is deleted, and a deleted
      row stays deleted. */
  lemma FinalRowStays(t: Table, w: Write, id: RunId)
    requires !InFlightAt(t, id) && !(w.Insert? && w.id == id)
    ensures id in Apply(t, w) ==> id in t && Apply(t, w)[id] == t[id]
  {
  }

  lemma {:induction false} FinalRowsStay(t: Table, ws: seq<Write>, id: RunId)
    requires !InFlightAt(t, id) && !Inserts(ws, id)
    ensures id in Applied(t, ws) ==> id in t && Applied(t, ws)[id] == t[id]
    ensures Finals(t, ws, id) == 0 && Reports(t, ws, id) == 0
    decreases |ws|
  {
    if ws != [] {
      FinalRowStays(t, ws[0], id);
      TailInserts(ws, id);
      FinalRowsStay(Apply(t, ws[0]), ws[1..], id);
    }
  }

  lemma TailInserts(ws: seq<Write>, id: RunId)
    requires ws != []
    ensures Inserts(ws[1..], id) ==> Inserts(ws, id)
    ensures Inserts(ws, id) ==> Inserts(ws[1..], id) || (ws[0].Insert? && ws[0].id == id)
  {
    if Inserts(ws[1..], id) {
      var k :| 0 <= k < |ws[1..]| && ws[1..][k].Insert? && ws[1..][k].id == id;
      assert ws[k + 1].Insert?;
    }
    if Inserts(ws, id) {
      var k :| 0 <= k < |ws| && ws[k].Insert? && ws[k].id == id;
      if k > 0 { assert ws[1..][k - 1].Insert?; }
    }
  }

  /** A claim is a terminal write of a run that was in flight, stale and not excluded
      when it was claimed. */
  lemma ClaimsAreFinal(t: Table, w: Write, id: RunId)
    requires id in Claims(t, w)
    ensures Finalizes(t, w, id) && Stale(t, id, w.how)
    ensures Apply(t, w)[id].row == Row(Error, w.how.error)
  {
  }

  /** Over all workers, each run row takes at most one terminal write, and at most one
      sweep reports it. */
  lemma {:induction false} SingleWinner(t: Table, ws: seq<Write>, id: RunId)
    requires FreshInserts(t, ws, id)
    ensures Reports(t, ws, id) <= Finals(t, ws, id) <= 1
    decreases |ws|
  {
    if ws != [] {
      var t' := Apply(t, ws[0]);
      if id in Claims(t, ws[0]) { ClaimsAreFinal(t, ws[0], id); }
      TailInserts(ws, id);
      assert forall k :: 0 <= k < |ws[1..]| ==> ws[1..][k] == ws[k + 1];
      if Finalizes(t, ws[0], id) {
        FinalRowsStay(t', ws[1..], id);
      } else {
        SingleWinner(t', ws[1..], id);
      }
    }
  }

  // ---------------------------------------------------------------- one run's view

  function RowIn(t: Table, id: RunId): Option<Row> { if id in t then Some(t[id].row) else None }

  /** The insert is the one that a run's own machine makes ... */
  lemma InsertIsTheRuns(t: Table, run: Run, id: RunId, thread: ThreadId, now: int)
    requires run.pc.Inserting? || run.pc == Admit(AdmitInsert)
    ensures var t' := Apply(t, Insert(id, thread, now));
            RowIn(t', id) == OwnWrite(run) && t'[id].thread == thread
  {
  }

  /** ... and a status update its guarded write ... */
  lemma UpdateIsWritten(t: Table, id: RunId, status: Status, error: Text, now: int)
    ensures RowIn(Apply(t, Update(id, status, error, now)), id) == Written(RowIn(t, id), status, error)
  {
  }

  /** ... and whatever other workers write, sweeps and deletes included, is what that
      machine allows them: a `running` or a `success` is only written by the owner. */
  lemma OthersMeddle(t: Table, w: Write, id: RunId)
    requires !(w.Insert? && w.id == id)
    requires w.Update? && w.id == id ==> w.status.Error? || w.status.Interrupted?
    ensures Meddles(RowIn(t, id), RowIn(Apply(t, w), id))
  {
  }

  // ---------------------------------------------------------------- heartbeats

  /** The time a write puts on the rows that it changes. */
  function Stamp(w: Write): Option<int> {
    match w
    case Insert(_, _, now) => Some(now)
    case Update(_, _, _, now) => Some(now)
    case Touch(_, now) => Some(now)
    case Delete(_) => None
    case DropThread(_) => None
    case Sweep(_, how) => Some(how.now)
  }

  /** The last write that changed a row, if any did. */
  function LastChange(t: Table, ws: seq<Write>, id: RunId): Option<Write>
    decreases |ws|
  {
    if ws == [] then None
    else
      var last := LastChange(Apply(t, ws[0]), ws[1..], id);
      if last.Some? then last
      else if id in Apply(t, ws[0]) && (id !in t || Apply(t, ws[0])[id] != t[id]) then Some(ws[0]) else None
  }

  /** The timestamp of a row is that of the last write that changed it. */
  lemma {:induction false} StampedByItsLastChange(t: Table, ws: seq<Write>, id: RunId)
    requires id in Applied(t, ws)
    ensures var last := LastChange(t, ws, id);
            if last.Some? then Stamp(last.value) == Some(Applied(t, ws)[id].updatedAt)
            else id in t && Applied(t, ws)[id] == t[id]
    decreases |ws|
  {
    if ws != [] { StampedByItsLastChange(Apply(t, ws[0]), ws[1..], id); }
  }

  /** Every timestamp the write puts on the row is at least `cutoff`. */
  predicate StampsFrom(w: Write, cutoff: int) {
    match w
    case Insert(_, _, now) => now >= cutoff
    case Update(_, _, _, now) => now >= cutoff
    case Touch(_, now) => now >= cutoff
    case Delete(_) => true
    case DropThread(_) => true
    case Sweep(_, how) => how.now >= cutoff
  }

  lemma {:induction false} FreshStays(t: Table, ws: seq<Write>, id: RunId, cutoff: int)
    requires id in t && InFlight(t[id].row.status) ==> t[id].updatedAt >= cutoff
    requires forall k :: 0 <= k < |ws| ==> StampsFrom(ws[k], cutoff)
    ensures InFlightAt(Applied(t, ws), id) ==> Applied(t, ws)[id].updatedAt >= cutoff
    decreases |ws|
  {
    if ws != [] {
      assert InFlightAt(Apply(t, ws[0]), id) ==> Apply(t, ws[0])[id].updatedAt >= cutoff;
      FreshStays(Apply(t, ws[0]), ws[1..], id, cutoff);
    }
  }

  /** A heartbeat that lands before a claim wins, whatever lands in between. */
  lemma HeartbeatWins(t: Table, beat: Write, between: seq<Write>, sweep: Write, id: RunId)
    requires beat.Touch? && id in beat.ids && sweep.Sweep? && beat.now >= sweep.how.cutoff
    requires forall k :: 0 <= k < |between| ==> StampsFrom(between[k], sweep.how.cutoff)
    ensures id !in Claims(Applied(t, [beat] + between), sweep)
  {
    assert ([beat] + between)[1..] == between;
    FreshStays(Apply(t, beat), between, id, sweep.how.cutoff);
  }

  /** The write is about this run, whose row is in this thread. */
  predicate Names(w: Write, id: RunId, thread: ThreadId) {
    match w
    case Insert(j, _, _) => j == id
    case Update(j, _, _, _) => j == id
    case Touch(ids, _) => id in ids
    case Delete(j) => j == id
    case DropThread(other) => other == thread
    case Sweep(only, _) => id in only
  }

  lemma {:induction false} UnnamedStays(t: Table, ws: seq<Write>, id: RunId)
    requires id in t && forall k :: 0 <= k < |ws| ==> !Names(ws[k], id, t[id].thread)
    ensures id in Applied(t, ws) && Applied(t, ws)[id] == t[id]
    decreases |ws|
  {
    if ws != [] {
      assert !Names(ws[0], id, t[id].thread);
      assert forall k :: 0 <= k < |ws[1..]| ==> ws[1..][k] == ws[k + 1];
      UnnamedStays(Apply(t, ws[0]), ws[1..], id);
    }
  }

  /** The other half: no write keeps a run alive that it does not name, heartbeats
      included, so the run of a worker that died is claimed by the first sweep whose
      cutoff has passed its last stamp, unless the sweeper owns it. */
  lemma DeadRunIsClaimed(t: Table, ws: seq<Write>, sweep: Write, id: RunId)
    requires InFlightAt(t, id) && forall k :: 0 <= k < |ws| ==> !Names(ws[k], id, t[id].thread)
    requires sweep.Sweep? && id in sweep.only && id !in sweep.how.excluded
    ensures id in Claims(Applied(t, ws), sweep) <==> t[id].updatedAt < sweep.how.cutoff
  {
    UnnamedStays(t, ws, id);
  }

  /** A heartbeat stamps the runs that it names, as long as they are in flight, and changes
      nothing else of them. */
  lemma HeartbeatStamps(t: Table, ids: set<RunId>, now: int, id: RunId)
    requires id in t
    ensures
      var t' := Apply(t, Touch(ids, now));
      && id in t' && t'[id].row == t[id].row && t'[id].thread == t[id].thread
      && (t'[id].updatedAt != t[id].updatedAt ==> id in ids && InFlightAt(t, id))
      && (id in ids && InFlightAt(t, id) ==> t'[id].updatedAt == now)
  {
  }

  /** No write moves a run to another thread. */
  lemma ThreadStays(t: Table, w: Write, id: RunId)
    requires id in t && !(w.Insert? && w.id == id)
    ensures id in Apply(t, w) ==> Apply(t, w)[id].thread == t[id].thread
  {
  }

  // ---------------------------------------------------------------- claims one by one

  function One(id: RunId, how: Sweeper): Write { Sweep({id}, how) }

  /** Other workers' writes, each list followed by a claim of one run. */
  function Merged(others: seq<seq<Write>>, found: seq<RunId>, how: Sweeper): seq<Write>
    requires |others| == |found|
    decreases |found|
  {
    if found == [] then []
    else Merged(others[..|found| - 1], found[..|found| - 1], how) + others[|found| - 1] + [One(found[|found| - 1], how)]
  }

  /** The runs claimed along the way, in order. */
  function Claimed(t: Table, others: seq<seq<Write>>, found: seq<RunId>, how: Sweeper): seq<RunId>
    requires |others| == |found|
    decreases |found|
  {
    if found == [] then []
    else
      var n := |found| - 1;
      var before := Applied(t, Merged(others[..n], found[..n], how) + others[n]);
      Claimed(t, others[..n], found[..n], how) + if Stale(before, found[n], how) then [found[n]] else []
  }

  lemma {:induction false} ReportsConcat(t: Table, a: seq<Write>, b: seq<Write>, id: RunId)
    ensures Reports(t, a + b, id) == Reports(t, a, id) + Reports(Applied(t, a), b, id)
    decreases |a|
  {
    if a == [] {
      assert a + b == b;
    } else {
      assert (a + b)[1..] == a[1..] + b;
      ReportsConcat(Apply(t, a[0]), a[1..], b, id);
    }
  }

  lemma OneReports(t: Table, one: RunId, how: Sweeper, id: RunId)
    ensures Reports(t, [One(one, how)], id) == if id == one && Stale(t, id, how) then 1 else 0
  {
  }

  /** What a claim-by-claim sweep returns are reports of atomic claims in the merged
      history, so `SingleWinner` covers them. */
  lemma {:induction false} ClaimedIsReported(t: Table, others: seq<seq<Write>>, found: seq<RunId>, how: Sweeper,
                                             id: RunId)
    requires |others| == |found|
    ensures multiset(Claimed(t, others, found, how))[id] <= Reports(t, Merged(others, found, how), id)
    decreases |found|
  {
    if found != [] {
      hide Stale, Applied;
      var n := |found| - 1;
      var ws := Merged(others[..n], found[..n], how);
      var before := Applied(t, ws + others[n]);
      ClaimedIsReported(t, others[..n], found[..n], how, id);
      ReportsConcat(t, ws, others[n], id);
      ReportsConcat(t, ws + others[n], [One(found[n], how)], id);
      OneReports(before, found[n], how, id);
    }
  }

  function Ids(found: seq<RunId>): set<RunId> { set id | id in found }

  lemma IdsGrow(found: seq<RunId>)
    requires found != []
    ensures Ids(found) == Ids(found[..|found| - 1]) + {found[|found| - 1]}
  {
    var n := |found| - 1;
    assert found == found[..n] + [found[n]];
  }

  lemma SweptTwice(t: Table, a: set<RunId>, b: set<RunId>, how: Sweeper)
    ensures Swept(Swept(t, a, how), b, how) == Swept(t, a + b, how)
  {
  }

  lemma {:induction false} ClaimsOneByOne(t: Table, others: seq<seq<Write>>, found: seq<RunId>, how: Sweeper)
    requires |others| == |found|
    requires forall k :: 0 <= k < |others| ==> others[k] == []
    ensures Applied(t, Merged(others, found, how)) == Swept(t, Ids(found), how)
    decreases |found|
  {
    hide Swept, Ids;
    if found == [] {
      assert Swept(t, Ids(found), how) == t by { SweptNone(t, how); }
    } else {
      var n := |found| - 1;
      var ws := Merged(others[..n], found[..n], how);
      ClaimsOneByOne(t, others[..n], found[..n], how);
      assert ws + others[n] == ws;
      AppliedConcat(t, ws, [One(found[n], how)]);
      IdsGrow(found);
      SweptTwice(t, Ids(found[..n]), {found[n]}, how);
      var some := Applied(t, ws);
      assert Applied(some, [One(found[n], how)]) == Apply(some, One(found[n], how));
    }
  }

  lemma SweptNone(t: Table, how: Sweeper)
    ensures Swept(t, Ids([]), how) == t
  {
  }

  lemma SweptSame(t: Table, a: set<RunId>, b: set<RunId>, how: Sweeper)
    requires forall id :: Stale(t, id, how) ==> (id in a <==> id in b)
    ensures Swept(t, a, how) == Swept(t, b, how)
  {
  }

  lemma SweepIsSwept(t: Table, only: set<RunId>, how: Sweeper)
    ensures Apply(t, Sweep(only, how)) == Swept(t, only, how)
  {
  }

  /** Left alone, a sweep that claims what it found one by one is the atomic sweep. */
  lemma OneByOneIsAtOnce(t: Table, others: seq<seq<Write>>, found: seq<RunId>, how: Sweeper)
    requires |others| == |found|
    requires forall k :: 0 <= k < |others| ==> others[k] == []
    requires forall id :: Stale(t, id, how) ==> id in found
    ensures Applied(t, Merged(others, found, how)) == Apply(t, Sweep(t.Keys, how))
  {
    hide Merged, Applied, Swept, Claimed;
    ClaimsOneByOne(t, others, found, how);
    forall id ensures Stale(t, id, how) ==> (id in Ids(found) <==> id in t.Keys) {
    }
    hide *;
    SweptSame(t, Ids(found), t.Keys, how);
    SweepIsSwept(t, t.Keys, how);
  }

  // ---------------------------------------------------------------- scan, then claim

  /** The stale rows of a scan whose timestamp is still the one that was read. */
  function Untouched(scan: Table, t: Table, how: Sweeper): set<RunId> {
    set id | id in scan && Stale(scan, id, how) && id in t && t[id].updatedAt == scan[id].updatedAt
  }

  /** A scan-then-claim sweep is the atomic sweep of what did not change in between:
      it claims nothing the atomic one would not, and misses only changed rows. */
  lemma ScanThenClaimRefines(scan: Table, t: Table, how: Sweeper)
    ensures Claims(t, Sweep(Untouched(scan, t, how), how)) <= Claims(t, Sweep(t.Keys, how))
    ensures forall id :: id in Claims(t, Sweep(t.Keys, how)) && id in scan && scan[id] == t[id]
              ==> id in Claims(t, Sweep(Untouched(scan, t, how), how))
    ensures Apply(scan, Sweep(Untouched(scan, scan, how), how)) == Apply(scan, Sweep(scan.Keys, how))
  {
    assert forall id :: id in scan ==> (id in Untouched(scan, scan, how) <==> Stale(scan, id, how));
  }

  // ---------------------------------------------------------------- the stores

  /** `InMemoryMetadataStore`: dictionaries changed in place. */
  class InMemoryStore {
    var runs: Table

    constructor ()
      ensures runs == map[]
    {
      runs := map[];
    }

    method CreateRun(id: RunId, thread: ThreadId, now: int)
      modifies this
      ensures runs == Apply(old(runs), Insert(id, thread, now))
    {
      runs := runs[id := Entry(thread, Row(Pending, Blank), now)];
    }

    method UpdateRunStatus(id: RunId, status: Status, error: Text, now: int) returns (updated: bool)
      modifies this
      ensures runs == Apply(old(runs), Update(id, status, error, now))
      ensures updated <==> InFlightAt(old(runs), id)
    {
      if id !in runs || !InFlight(runs[id].row.status) { return false; }
      runs := runs[id := runs[id].(row := Row(status, error))];
      runs := runs[id := runs[id].(updatedAt := now)];
      return true;
    }

    method DeleteRun(thread: ThreadId, id: RunId)
      modifies this
      ensures runs == if id in old(runs) && old(runs)[id].thread == thread then Apply(old(runs), Delete(id))
                      else old(runs)
    {
      if id in runs && runs[id].thread == thread { runs := runs - {id}; }
    }

    /** No row of the thread is left, and no other row is touched. */
    method DeleteThread(thread: ThreadId)
      modifies this
      ensures forall id :: id in runs ==> runs[id].thread != thread && id in old(runs) && runs[id] == old(runs)[id]
      ensures forall id :: id in old(runs) && old(runs)[id].thread != thread ==> id in runs
      ensures runs == Apply(old(runs), DropThread(thread))
    {
      runs := map id | id in runs && runs[id].thread != thread :: runs[id];
    }

    method TouchRuns(ids: seq<RunId>, now: int)
      modifies this
      ensures runs == Apply(old(runs), Touch(set k | 0 <= k < |ids| :: ids[k], now))
    {
      var n := 0;
      while n < |ids|
        invariant 0 <= n <= |ids|
        invariant runs.Keys == old(runs).Keys
        invariant forall id :: id in runs ==>
          (runs[id] == if id in ids[..n] && InFlight(old(runs)[id].row.status)
                       then old(runs)[id].(updatedAt := now) else old(runs)[id])
      {
        if ids[n] in runs && InFlight(runs[ids[n]].row.status) {
          runs := runs[ids[n] := runs[ids[n]].(updatedAt := now)];
        }
        n := n + 1;
      }
      assert forall id :: id in ids[..n] <==> id in (set k | 0 <= k < |ids| :: ids[k]);
    }

    /** The loop over the rows is the atomic sweep; each failed run is reported once. */
    method FailStaleRuns(how: Sweeper) returns (failed: seq<RunId>)
      modifies this
      ensures runs == Apply(old(runs), Sweep(old(runs).Keys, how))
      ensures multiset(failed) == multiset(Claims(old(runs), Sweep(old(runs).Keys, how)))
    {
      failed := [];
      var todo := runs.Keys;
      while todo != {}
        invariant todo <= old(runs).Keys
        invariant runs == Swept(old(runs), old(runs).Keys - todo, how)
        invariant multiset(failed) == multiset(Claims(old(runs), Sweep(old(runs).Keys - todo, how)))
      {
        var id :| id in todo;
        ghost var done := old(runs).Keys - todo;
        todo := todo - {id};
        ClaimsGrow(old(runs), done, id, how);
        assert done + {id} == old(runs).Keys - todo;
        assert runs[id] == old(runs)[id];
        if InFlight(runs[id].row.status) && runs[id].updatedAt < how.cutoff && id !in how.excluded {
          runs := runs[id := Failed(runs[id], how)];
          failed := failed + [id];
        }
      }
      assert old(runs).Keys - todo == old(runs).Keys;
    }
  }

  lemma ClaimsGrow(t: Table, done: set<RunId>, id: RunId, how: Sweeper)
    requires id in t && id !in done
    ensures var c, c' := Claims(t, Sweep(done, how)), Claims(t, Sweep(done + {id}, how));
            c' == (if Stale(t, id, how) then c + {id} else c) && id !in c
    ensures var rows := Swept(t, done, how);
            Swept(t, done + {id}, how) == if Stale(t, id, how) then rows[id := Failed(t[id], how)] else rows
  {
  }

  /** `SQLiteMetadataStore`: the scan sees one state, other processes write until the
      first claim takes the file's write lock, and a failure rolls every claim back. */
  class SqliteStore {
    var runs: Table

    constructor (t: Table)
      ensures runs == t
    {
      runs := t;
    }

    /** One conditional `UPDATE`: the row must be in flight, with the timestamp read. */
    method Claim(id: RunId, stamp: int, how: Sweeper) returns (claimed: bool)
      modifies this
      ensures claimed <==> InFlightAt(old(runs), id) && old(runs)[id].updatedAt == stamp
      ensures runs == if claimed then old(runs)[id := Failed(old(runs)[id], how)] else old(runs)
    {
      claimed := id in runs && InFlight(runs[id].row.status) && runs[id].updatedAt == stamp;
      if claimed { runs := runs[id := Failed(runs[id], how)]; }
    }

    /** The loop over the scanned rows, inside one transaction. */
    method ClaimAll(scan: Table, how: Sweeper, fails: Option<nat>) returns (r: Result<seq<RunId>, ()>)
      modifies this
      ensures r.Err? ==> fails.Some?
      ensures var all := Untouched(scan, old(runs), how);
              r.Ok? ==>
                && runs == Swept(old(runs), all, how)
                && multiset(r.value) == multiset(Claims(old(runs), Sweep(all, how)))
    {
      hide Claims, Swept, Untouched, Apply, Stale, Failed;
      ghost var before := runs;
      var failed, claims := [], 0;
      var todo := set id | id in scan && InFlight(scan[id].row.status);
      ghost var done, all := {}, Untouched(scan, before, how);
      NothingSwept(before, how);
      forall id ensures id in all <==> Claimable(scan, before, id, how) { InUntouched(scan, before, id, how); }
      while todo != {}
        invariant forall id :: id in todo ==> InFlightAt(scan, id)
        invariant done <= all <= done + todo && done !! todo
        invariant runs == Swept(before, done, how)
        invariant multiset(failed) == multiset(Claims(before, Sweep(done, how)))
      {
        var id :| id in todo;
        todo := todo - {id};
        if id in how.excluded || scan[id].updatedAt >= how.cutoff { continue; }
        if fails == Some(claims) { return Err(()); }
        claims := claims + 1;
        ghost var was := failed;
        var claimed := Claim(id, scan[id].updatedAt, how);
        if claimed { failed := failed + [id]; }
        if id in all {
          ClaimStep(scan, before, done, id, how, claimed, was, failed);
          done := done + {id};
        } else {
          SweptElsewhere(before, done, id, how);
        }
      }
      assert done == all;
      return Ok(failed);
    }

    /** `others` is what other processes write between the scan and the first claim;
        `fails` says after how many claims, if ever, a statement fails. */
    method FailStaleRuns(how: Sweeper, others: seq<Write>, fails: Option<nat>) returns (r: Result<seq<RunId>, ()>)
      modifies this
      ensures r.Err? ==> runs == Applied(old(runs), others) && fails.Some?
      ensures var t := Applied(old(runs), others);
              var sweep := Sweep(Untouched(old(runs), t, how), how);
              r.Ok? ==> runs == Apply(t, sweep) && multiset(r.value) == multiset(Claims(t, sweep))
    {
      hide Applied, Untouched, Swept, Claims;
      var scan := runs;
      runs := Applied(runs, others);
      var before := runs;
      r := ClaimAll(scan, how, fails);
      if r.Err? { runs := before; }
    }
  }

  predicate Claimable(scan: Table, t: Table, id: RunId, how: Sweeper) {
    && InFlightAt(scan, id) && scan[id].updatedAt < how.cutoff && id !in how.excluded
    && id in t && t[id].updatedAt == scan[id].updatedAt
  }

  lemma InUntouched(scan: Table, t: Table, id: RunId, how: Sweeper)
    ensures id in Untouched(scan, t, how) <==> Claimable(scan, t, id, how)
  {
  }

  lemma StaleWhen(t: Table, id: RunId, how: Sweeper)
    ensures Stale(t, id, how) <==> InFlightAt(t, id) && t[id].updatedAt < how.cutoff && id !in how.excluded
  {
  }

  lemma NothingSwept(t: Table, how: Sweeper)
    ensures Swept(t, {}, how) == t && Claims(t, Sweep({}, how)) == {}
  {
  }

  lemma SweptElsewhere(t: Table, done: set<RunId>, id: RunId, how: Sweeper)
    requires id !in done
    ensures id in Swept(t, done, how) <==> id in t
    ensures id in t ==> Swept(t, done, how)[id] == t[id]
  {
  }

  /** One more row of the scan, claimed or found changed, brings the sweep one row further. */
  lemma ClaimStep(scan: Table, t: Table, done: set<RunId>, id: RunId, how: Sweeper, claimed: bool,
                  failed: seq<RunId>, failed': seq<RunId>)
    requires Claimable(scan, t, id, how) && id !in done
    requires var rows := Swept(t, done, how);
             claimed <==> InFlightAt(rows, id) && rows[id].updatedAt == scan[id].updatedAt
    requires multiset(failed) == multiset(Claims(t, Sweep(done, how)))
    requires failed' == if claimed then failed + [id] else failed
    ensures multiset(failed') == multiset(Claims(t, Sweep(done + {id}, how)))
    ensures var rows := Swept(t, done, how);
            Swept(t, done + {id}, how) == if claimed then rows[id := Failed(rows[id], how)] else rows
  {
    hide Claims, Swept, Stale;
    SweptElsewhere(t, done, id, how);
    ClaimsGrow(t, done, id, how);
    StaleWhen(t, id, how);
  }

  datatype Failure = Never | At(claim: nat, landed: bool)

  lemma NothingMerged(t: Table, how: Sweeper)
    ensures Claimed(t, [], [], how) == [] && Applied(t, Merged([], [], how)) == t
  {
  }

  /** One more claim, with what other workers write before it. */
  lemma MergedGrows(t: Table, others: seq<seq<Write>>, found: seq<RunId>, k: nat, how: Sweeper)
    requires |others| == |found| && k < |found|
    ensures var before := Applied(Applied(t, Merged(others[..k], found[..k], how)), others[k]);
            && Applied(t, Merged(others[..k + 1], found[..k + 1], how)) == Swept(before, {found[k]}, how)
            && Claimed(t, others[..k + 1], found[..k + 1], how) ==
               Claimed(t, others[..k], found[..k], how) + if Stale(before, found[k], how) then [found[k]] else []
  {
    hide Swept, Stale;
    assert others[..k + 1][..k] == others[..k] && found[..k + 1][..k] == found[..k];
    var ws := Merged(others[..k], found[..k], how);
    AppliedConcat(t, ws, others[k]);
    AppliedConcat(t, ws + others[k], [One(found[k], how)]);
    var before := Applied(t, ws + others[k]);
    assert Applied(before, [One(found[k], how)]) == Apply(before, One(found[k], how));
  }

  /** `MongoMetadataStore`: claims commit one by one, between other workers' writes. */
  class MongoStore {
    var runs: Table

    constructor (t: Table)
      ensures runs == t
    {
      runs := t;
    }

    /** `found` is what the cursor yields, `others[k]` what other workers write before
        the k-th claim, and `fails` the claim, if any, that fails (it may have landed). */
    method FailStaleRuns(how: Sweeper, found: seq<RunId>, others: seq<seq<Write>>, fails: Failure)
      returns (r: Result<seq<RunId>, ()>, ghost n: nat)
      requires |others| == |found|
      modifies this
      ensures n <= |found| && (n < |found| ==> fails.At? && n == fails.claim)
      ensures var reported := Claimed(old(runs), others[..n], found[..n], how);
              r == if n < |found| && reported == [] then Err(()) else Ok(reported)
      ensures var t := Applied(old(runs), Merged(others[..n], found[..n], how));
              runs == if n == |found| then t
                      else if fails.landed then Apply(Applied(t, others[n]), One(found[n], how))
                      else Applied(t, others[n])
    {
      hide Merged, Claimed, Applied;
      var failed, k := [], 0;
      n := 0;
      NothingMerged(runs, how);
      while k < |found|
        invariant 0 <= n == k <= |found|
        invariant failed == Claimed(old(runs), others[..k], found[..k], how)
        invariant runs == Applied(old(runs), Merged(others[..k], found[..k], how))
      {
        var id := found[k];
        runs := Applied(runs, others[k]);
        if fails.At? && fails.claim == k {
          if fails.landed { runs := Swept(runs, {id}, how); }
          return if failed == [] then Err(()) else Ok(failed), n;
        }
        MergedGrows(old(runs), others, found, k, how);
        ghost var before := runs;
        if id in runs && InFlight(runs[id].row.status) && runs[id].updatedAt < how.cutoff && id !in how.excluded {
          runs := runs[id := Failed(runs[id], how)];
          failed := failed + [id];
        }
        assert runs == Swept(before, {id}, how);
        k, n := k + 1, n + 1;
      }
      assert others[..k] == others && found[..k] == found;
      return Ok(failed), n;
    }
  }
}
