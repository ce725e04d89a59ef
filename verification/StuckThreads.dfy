/** Releasing threads that nothing runs on any more: `fail_orphaned_runs` and
    `_release_stuck_threads` (src/skeino/ops/runs.py).
 */
module StuckThreads {
  import opened Common
  import opened Lifecycle
  import opened RunTable

  datatype ThreadStatus = ThreadIdle | ThreadBusy | ThreadInterrupted | ThreadError

  datatype ThreadRow = ThreadRow(status: ThreadStatus, updatedAt: int)

  type Threads = map<ThreadId, ThreadRow>

  predicate IsBusy(ts: Threads, id: ThreadId) { id in ts && ts[id].status.ThreadBusy? }

  /** Busy for longer than the orphan timeout. */
  predicate Stuck(ts: Threads, id: ThreadId, cutoff: int) { IsBusy(ts, id) && ts[id].updatedAt < cutoff }

  // ---------------------------------------------------------------- the paged scan

  const PAGE_SIZE := 100

  predicate NotYounger(ts: Threads, a: ThreadId, b: ThreadId) {
    a in ts && b in ts && ts[a].updatedAt <= ts[b].updatedAt
  }

  /** The answer to one query: the busy threads, oldest first, each once. Ties are in
      no particular order. */
  ghost predicate OldestFirst(ts: Threads, order: seq<ThreadId>) {
    && (forall id :: id in order <==> IsBusy(ts, id))
    && (forall i, j :: 0 <= i < j < |order| ==> order[i] != order[j])
    && (forall i, j :: 0 <= i < j < |order| ==> NotYounger(ts, order[i], order[j]))
  }

  /** `LIMIT 100 OFFSET offset`. */
  function Page(order: seq<ThreadId>, offset: nat): seq<ThreadId> {
    var from := if offset <= |order| then offset else |order|;
    var to := if offset + PAGE_SIZE <= |order| then offset + PAGE_SIZE else |order|;
    order[from..to]
  }

  function StuckOf(ts: Threads, page: seq<ThreadId>, cutoff: int): seq<ThreadId> {
    if page == [] then []
    else (if Stuck(ts, page[0], cutoff) then [page[0]] else []) + StuckOf(ts, page[1..], cutoff)
  }

  lemma {:induction false} StuckOfConcat(ts: Threads, a: seq<ThreadId>, b: seq<ThreadId>, cutoff: int)
    ensures StuckOf(ts, a + b, cutoff) == StuckOf(ts, a, cutoff) + StuckOf(ts, b, cutoff)
  {
    if a == [] {
      assert a + b == b;
    } else {
      assert (a + b)[1..] == a[1..] + b;
      StuckOfConcat(ts, a[1..], b, cutoff);
    }
  }

  lemma {:induction false} StuckOfExactly(ts: Threads, page: seq<ThreadId>, cutoff: int, id: ThreadId)
    ensures id in StuckOf(ts, page, cutoff) <==> id in page && Stuck(ts, id, cutoff)
    ensures |StuckOf(ts, page, cutoff)| <= |page|
  {
    if page != [] { StuckOfExactly(ts, page[1..], cutoff, id); }
  }

  /** Once one thread is not stuck, no later one is. */
  lemma {:induction false} NoneBeyond(ts: Threads, order: seq<ThreadId>, young: nat, from: nat, cutoff: int)
    requires OldestFirst(ts, order) && young < |order| && young <= from <= |order|
    requires !Stuck(ts, order[young], cutoff)
    ensures StuckOf(ts, order[from..], cutoff) == []
    decreases |order| - from
  {
    if from < |order| {
      assert order[from..][1..] == order[from + 1..];
      assert order[young] in order && order[from] in order;
      assert young < from ==> NotYounger(ts, order[young], order[from]);
      NoneBeyond(ts, order, young, from + 1, cutoff);
    }
  }

  lemma {:induction false} SomeYoung(ts: Threads, page: seq<ThreadId>, cutoff: int) returns (i: nat)
    requires |StuckOf(ts, page, cutoff)| < |page|
    ensures i < |page| && !Stuck(ts, page[i], cutoff)
  {
    if !Stuck(ts, page[0], cutoff) { return 0; }
    i := SomeYoung(ts, page[1..], cutoff);
    i := i + 1;
  }

  function Members(a: seq<ThreadId>): set<ThreadId> { set id | id in a }

  lemma {:induction false} DistinctCount(a: seq<ThreadId>)
    requires forall i, j :: 0 <= i < j < |a| ==> a[i] != a[j]
    ensures |Members(a)| == |a|
  {
    if a != [] {
      var n := |a| - 1;
      assert a == a[..n] + [a[n]];
      assert Members(a) == Members(a[..n]) + {a[n]};
      DistinctCount(a[..n]);
    }
  }

  lemma SameLength(ts: Threads, a: seq<ThreadId>, b: seq<ThreadId>)
    requires OldestFirst(ts, a) && OldestFirst(ts, b)
    ensures |a| == |b|
  {
    DistinctCount(a);
    DistinctCount(b);
    assert Members(a) == Members(b);
  }

  /** If from `m` on all of one answer is younger than the i-th of another, the i + 1
      oldest of the other are among its first `m`. */
  lemma AtLeast(ts: Threads, a: seq<ThreadId>, b: seq<ThreadId>, i: nat, m: nat)
    requires OldestFirst(ts, a) && OldestFirst(ts, b) && i < |b| && m <= |a|
    requires forall j :: m <= j < |a| ==> !NotYounger(ts, a[j], b[i])
    ensures i + 1 <= m
  {
    var oldest, first := b[..i + 1], a[..m];
    forall id | id in oldest ensures id in first {
      var j :| 0 <= j < |oldest| && oldest[j] == id;
      assert b[j] == id && id in b && id in a;
      assert b[i] in b;
      assert j < i ==> NotYounger(ts, b[j], b[i]);
      var k :| 0 <= k < |a| && a[k] == id;
      assert k < m && first[k] == id;
    }
    DistinctCount(oldest);
    DistinctCount(first);
    SubsetSize(Members(oldest), Members(first));
  }

  /** The i-th of one answer is no younger than the i-th of another. */
  lemma NoYounger(ts: Threads, a: seq<ThreadId>, b: seq<ThreadId>, i: nat)
    requires OldestFirst(ts, a) && OldestFirst(ts, b) && i < |a| && i < |b|
    ensures NotYounger(ts, a[i], b[i])
  {
    assert a[i] in a && b[i] in b;
    if ts[b[i]].updatedAt < ts[a[i]].updatedAt {
      forall j | i <= j < |a| ensures !NotYounger(ts, a[j], b[i]) {
        assert i < j ==> NotYounger(ts, a[i], a[j]);
      }
      AtLeast(ts, a, b, i, i);
    }
  }

  /** Answers differ in the order of equally old threads only. */
  lemma SameStamps(ts: Threads, a: seq<ThreadId>, b: seq<ThreadId>, i: nat)
    requires OldestFirst(ts, a) && OldestFirst(ts, b) && i < |a| && i < |b|
    ensures a[i] in ts && b[i] in ts && ts[a[i]].updatedAt == ts[b[i]].updatedAt
  {
    NoYounger(ts, a, b, i);
    NoYounger(ts, b, a, i);
  }

  /** Query k asks for page k; the scan stops at the first page with a thread busy for
      less than the timeout. */
  ghost function Scan(ts: Threads, answers: nat -> seq<ThreadId>, n: nat, k: nat, cutoff: int): seq<ThreadId>
    requires forall q: nat :: |answers(q)| == n
    decreases n + PAGE_SIZE - k * PAGE_SIZE
  {
    var stale := StuckOf(ts, Page(answers(k), k * PAGE_SIZE), cutoff);
    StuckOfExactly(ts, Page(answers(k), k * PAGE_SIZE), cutoff, 0);
    stale + if |stale| < PAGE_SIZE then [] else Scan(ts, answers, n, k + 1, cutoff)
  }

  lemma ScanOnce(ts: Threads, answers: nat -> seq<ThreadId>, n: nat, k: nat, cutoff: int)
    requires forall q: nat :: |answers(q)| == n
    ensures var stale := StuckOf(ts, Page(answers(k), k * PAGE_SIZE), cutoff);
      && Scan(ts, answers, n, k, cutoff) ==
         stale + (if |stale| < PAGE_SIZE then [] else Scan(ts, answers, n, k + 1, cutoff))
      && (|stale| >= PAGE_SIZE ==> k * PAGE_SIZE + PAGE_SIZE <= n)
  {
    StuckOfExactly(ts, Page(answers(k), k * PAGE_SIZE), cutoff, 0);
  }

  lemma PageSplits(order: seq<ThreadId>, from: nat)
    requires from <= |order|
    ensures from + |Page(order, from)| <= |order|
    ensures order[from..] == Page(order, from) + order[from + |Page(order, from)|..]
    ensures |Page(order, from)| == PAGE_SIZE || from + |Page(order, from)| == |order|
  {
  }

  /** When every query sees one order, the scan collects every stuck thread once, oldest
      first, though it stops early. */
  lemma {:induction false} ScanFromPage(ts: Threads, answers: nat -> seq<ThreadId>, order: seq<ThreadId>, k: nat,
                                        cutoff: int)
    requires OldestFirst(ts, order) && (forall q: nat :: answers(q) == order) && k * PAGE_SIZE <= |order|
    ensures Scan(ts, answers, |order|, k, cutoff) == StuckOf(ts, order[k * PAGE_SIZE..], cutoff)
    decreases |order| - k * PAGE_SIZE
  {
    hide Scan;
    ScanOnce(ts, answers, |order|, k, cutoff);
    var from := k * PAGE_SIZE;
    var page := Page(order, from);
    PageSplits(order, from);
    var rest := order[from + |page|..];
    assert answers(k) == order;
    StuckOfConcat(ts, page, rest, cutoff);
    StuckOfExactly(ts, page, cutoff, 0);
    var stale := StuckOf(ts, page, cutoff);
    if |stale| == PAGE_SIZE {
      assert (k + 1) * PAGE_SIZE == from + |page|;
      ScanFromPage(ts, answers, order, k + 1, cutoff);
    } else if |stale| < |page| {
      var i := SomeYoung(ts, page, cutoff);
      NoneBeyond(ts, order, from + i, from + |page|, cutoff);
    } else {
      assert rest == [];
    }
  }

  // ---------------------------------------------------------------- ties

  /** What the queries of a scan of an unchanging store may answer. */
  ghost predicate Answers(ts: Threads, answers: nat -> seq<ThreadId>, n: nat) {
    forall q: nat :: OldestFirst(ts, answers(q)) && |answers(q)| == n
  }

  /** Page k begins with a stuck thread exactly as old as the last one of page k - 1. */
  predicate StraddlesAt(ts: Threads, order: seq<ThreadId>, k: nat, cutoff: int) {
    && 1 <= k && k * PAGE_SIZE < |order|
    && Stuck(ts, order[k * PAGE_SIZE], cutoff)
    && NotYounger(ts, order[k * PAGE_SIZE], order[k * PAGE_SIZE - 1])
  }

  /** Some group of equally old stuck threads lies across a page boundary. */
  ghost predicate Straddles(ts: Threads, order: seq<ThreadId>, cutoff: int) {
    exists k: nat :: StraddlesAt(ts, order, k, cutoff)
  }

  lemma {:induction false} AllStuck(ts: Threads, page: seq<ThreadId>, cutoff: int)
    requires forall i :: 0 <= i < |page| ==> Stuck(ts, page[i], cutoff)
    ensures StuckOf(ts, page, cutoff) == page
  {
    if page != [] { AllStuck(ts, page[1..], cutoff); }
  }

  /** A page that ends before a stuck thread's place is full, and stuck throughout. */
  lemma PageBefore(ts: Threads, a: seq<ThreadId>, order: seq<ThreadId>, q: nat, place: nat, cutoff: int)
    requires OldestFirst(ts, a) && OldestFirst(ts, order) && |a| == |order|
    requires place < |order| && Stuck(ts, order[place], cutoff) && (q + 1) * PAGE_SIZE <= place
    ensures |StuckOf(ts, Page(a, q * PAGE_SIZE), cutoff)| == PAGE_SIZE
  {
    var page := Page(a, q * PAGE_SIZE);
    assert (q + 1) * PAGE_SIZE == q * PAGE_SIZE + PAGE_SIZE;
    forall i | 0 <= i < |page| ensures Stuck(ts, page[i], cutoff) {
      var at := q * PAGE_SIZE + i;
      assert page[i] == a[at] && a[at] in a;
      SameStamps(ts, a, order, at);
      assert NotYounger(ts, order[at], order[place]);
    }
    AllStuck(ts, page, cutoff);
  }

  /** A stuck thread is in the same page of every answer, unless its group straddles. */
  lemma SamePage(ts: Threads, a: seq<ThreadId>, order: seq<ThreadId>, place: nat, at: nat, k: nat, cutoff: int)
    requires OldestFirst(ts, a) && OldestFirst(ts, order) && |a| == |order|
    requires place < |order| && at < |a| && a[at] == order[place] && Stuck(ts, order[place], cutoff)
    requires !Straddles(ts, order, cutoff) && k * PAGE_SIZE <= place < (k + 1) * PAGE_SIZE
    ensures k * PAGE_SIZE <= at < (k + 1) * PAGE_SIZE
  {
    assert (k + 1) * PAGE_SIZE == k * PAGE_SIZE + PAGE_SIZE;
    SameStamps(ts, a, order, at);
    if at < k * PAGE_SIZE {
      var first := k * PAGE_SIZE;
      assert order[first] in order && order[first - 1] in order && order[at] in order && order[place] in order;
      assert first < place ==> NotYounger(ts, order[first], order[place]);
      assert at < first - 1 ==> NotYounger(ts, order[at], order[first - 1]);
      assert StraddlesAt(ts, order, k, cutoff);
    }
    if at >= (k + 1) * PAGE_SIZE {
      var first := (k + 1) * PAGE_SIZE;
      assert order[first] in order && order[first - 1] in order && order[at] in order && order[place] in order;
      assert first < at ==> NotYounger(ts, order[first], order[at]);
      assert place < first - 1 ==> NotYounger(ts, order[place], order[first - 1]);
      assert StraddlesAt(ts, order, k + 1, cutoff);
    }
  }

  lemma {:induction false} ReachesPage(ts: Threads, answers: nat -> seq<ThreadId>, n: nat, j: nat, k: nat, cutoff: int,
                                       id: ThreadId)
    requires (forall q: nat :: |answers(q)| == n) && j <= k
    requires forall q: nat :: j <= q < k ==> |StuckOf(ts, Page(answers(q), q * PAGE_SIZE), cutoff)| == PAGE_SIZE
    requires id in StuckOf(ts, Page(answers(k), k * PAGE_SIZE), cutoff)
    ensures id in Scan(ts, answers, n, j, cutoff)
    decreases k - j
  {
    hide Scan, StuckOf, Page;
    ScanOnce(ts, answers, n, j, cutoff);
    if j < k { ReachesPage(ts, answers, n, j + 1, k, cutoff, id); }
  }

  /** Without a straddling group the scan finds every stuck thread. */
  lemma FindsAll(ts: Threads, answers: nat -> seq<ThreadId>, n: nat, order: seq<ThreadId>, cutoff: int, id: ThreadId)
    requires Answers(ts, answers, n) && OldestFirst(ts, order) && !Straddles(ts, order, cutoff) && Stuck(ts, id, cutoff)
    ensures id in Scan(ts, answers, n, 0, cutoff)
  {
    hide Scan, Straddles, StuckOf;
    SameLength(ts, answers(0), order);
    assert id in order;
    var place :| 0 <= place < |order| && order[place] == id;
    var k := place / PAGE_SIZE;
    assert OldestFirst(ts, answers(k)) && id in answers(k);
    var at :| 0 <= at < n && answers(k)[at] == id;
    SamePage(ts, answers(k), order, place, at, k, cutoff);
    var page := Page(answers(k), k * PAGE_SIZE);
    assert page[at - k * PAGE_SIZE] == id;
    StuckOfExactly(ts, page, cutoff, id);
    forall q: nat | 0 <= q < k ensures |StuckOf(ts, Page(answers(q), q * PAGE_SIZE), cutoff)| == PAGE_SIZE {
      assert OldestFirst(ts, answers(q));
      assert (q + 1) * PAGE_SIZE <= k * PAGE_SIZE <= place;
      PageBefore(ts, answers(q), order, q, place, cutoff);
    }
    ReachesPage(ts, answers, n, 0, k, cutoff, id);
  }

  /** It finds only threads that are stuck, and on the page it asked for. */
  lemma {:induction false} FindsOnly(ts: Threads, answers: nat -> seq<ThreadId>, n: nat, k: nat, cutoff: int,
                                     id: ThreadId)
    requires (forall q: nat :: |answers(q)| == n) && id in Scan(ts, answers, n, k, cutoff)
    ensures Stuck(ts, id, cutoff) && exists q: nat :: id in Page(answers(q), q * PAGE_SIZE)
    decreases n + PAGE_SIZE - k * PAGE_SIZE
  {
    hide Scan;
    ScanOnce(ts, answers, n, k, cutoff);
    var page := Page(answers(k), k * PAGE_SIZE);
    StuckOfExactly(ts, page, cutoff, id);
    if id !in StuckOf(ts, page, cutoff) {
      FindsOnly(ts, answers, n, k + 1, cutoff, id);
    }
  }

  function Swapped(order: seq<ThreadId>, i: nat): seq<ThreadId>
    requires 0 < i < |order|
  {
    order[i := order[i - 1]][i - 1 := order[i]]
  }

  lemma SwappedIsOldestFirst(ts: Threads, order: seq<ThreadId>, i: nat)
    requires OldestFirst(ts, order) && 0 < i < |order| && NotYounger(ts, order[i], order[i - 1])
    ensures OldestFirst(ts, Swapped(order, i))
  {
    var other := Swapped(order, i);
    forall id ensures id in other <==> IsBusy(ts, id) {
      assert other[i] == order[i - 1] && other[i - 1] == order[i];
      if id in order {
        var j :| 0 <= j < |order| && order[j] == id;
        assert other[if j == i then i - 1 else if j == i - 1 then i else j] == id;
      }
    }
    forall j, k | 0 <= j < k < |other| ensures other[j] != other[k] && NotYounger(ts, other[j], other[k]) {
      assert order[i - 1] in order && order[i] in order;
      assert NotYounger(ts, order[i - 1], order[i]);
      assert j < i - 1 ==> NotYounger(ts, order[j], order[i - 1]) && NotYounger(ts, order[j], order[i]);
      assert i < k ==> NotYounger(ts, order[i - 1], order[k]) && NotYounger(ts, order[i], order[k]);
      assert NotYounger(ts, order[j], order[k]);
    }
  }

  /** With a straddling group a stuck thread can be missed: up to page k - 1 it comes
      first on page k, and from then on last on page k - 1. */
  lemma TiesCanHide(ts: Threads, order: seq<ThreadId>, k: nat, cutoff: int)
    returns (answers: nat -> seq<ThreadId>, missed: ThreadId)
    requires OldestFirst(ts, order) && StraddlesAt(ts, order, k, cutoff)
    ensures Answers(ts, answers, |order|)
    ensures Stuck(ts, missed, cutoff) && missed !in Scan(ts, answers, |order|, 0, cutoff)
  {
    hide Scan, StuckOf;
    var i := k * PAGE_SIZE;
    var other := Swapped(order, i);
    SwappedIsOldestFirst(ts, order, i);
    answers := (q: nat) => if q < k then order else other;
    missed := order[i];
    forall q: nat ensures missed !in Page(answers(q), q * PAGE_SIZE) {
      assert q < k ==> (q + 1) * PAGE_SIZE <= i;
      assert q >= k ==> q * PAGE_SIZE >= i;
      assert other[i - 1] == missed;
    }
    if missed in Scan(ts, answers, |order|, 0, cutoff) {
      FindsOnly(ts, answers, |order|, 0, cutoff, missed);
    }
  }

  /** Such a group: 101 threads busy since the same moment. */
  lemma ATieAcrossPages(since: int, cutoff: int) returns (ts: Threads, order: seq<ThreadId>)
    requires since < cutoff
    ensures OldestFirst(ts, order) && StraddlesAt(ts, order, 1, cutoff)
  {
    order := seq(101, (i: nat) => i);
    ts := map id | id in order :: ThreadRow(ThreadBusy, since);
    assert order[100] in order && order[99] in order;
  }

  /** However the store breaks ties, the scan collects exactly the stuck threads. */
  ghost predicate AlwaysComplete(ts: Threads, n: nat, cutoff: int) {
    forall answers: nat -> seq<ThreadId> | Answers(ts, answers, n) ::
      forall id :: id in Scan(ts, answers, n, 0, cutoff) <==> Stuck(ts, id, cutoff)
  }

  /** The scan is complete whatever the ties exactly when no group of equally old stuck
      threads lies across a page boundary. */
  lemma CompleteExactlyWithoutStraddling(ts: Threads, order: seq<ThreadId>, cutoff: int)
    requires OldestFirst(ts, order)
    ensures AlwaysComplete(ts, |order|, cutoff) <==> !Straddles(ts, order, cutoff)
  {
    hide Scan;
    if Straddles(ts, order, cutoff) {
      var k: nat :| StraddlesAt(ts, order, k, cutoff);
      var answers, missed := TiesCanHide(ts, order, k, cutoff);
      assert Answers(ts, answers, |order|) && Stuck(ts, missed, cutoff);
    } else {
      forall answers: nat -> seq<ThreadId> | Answers(ts, answers, |order|)
        ensures forall id :: id in Scan(ts, answers, |order|, 0, cutoff) <==> Stuck(ts, id, cutoff)
      {
        forall id ensures id in Scan(ts, answers, |order|, 0, cutoff) <==> Stuck(ts, id, cutoff) {
          ScanIsComplete(ts, answers, |order|, order, cutoff, id);
        }
      }
    }
  }

  lemma ScanIsComplete(ts: Threads, answers: nat -> seq<ThreadId>, n: nat, order: seq<ThreadId>, cutoff: int,
                       id: ThreadId)
    requires Answers(ts, answers, n) && OldestFirst(ts, order) && !Straddles(ts, order, cutoff)
    ensures id in Scan(ts, answers, n, 0, cutoff) <==> Stuck(ts, id, cutoff)
  {
    hide Scan, Straddles;
    if id in Scan(ts, answers, n, 0, cutoff) { FindsOnly(ts, answers, n, 0, cutoff, id); }
    if Stuck(ts, id, cutoff) { FindsAll(ts, answers, n, order, cutoff, id); }
  }

  /** Distinct timestamps never straddle. */
  lemma DistinctNeverStraddle(ts: Threads, order: seq<ThreadId>, cutoff: int)
    requires OldestFirst(ts, order)
    requires forall x, y :: IsBusy(ts, x) && IsBusy(ts, y) && ts[x].updatedAt == ts[y].updatedAt ==> x == y
    ensures !Straddles(ts, order, cutoff)
  {
    forall k: nat ensures !StraddlesAt(ts, order, k, cutoff) {
      if 1 <= k && k * PAGE_SIZE < |order| {
        var x, y := order[k * PAGE_SIZE - 1], order[k * PAGE_SIZE];
        assert x in order && y in order && NotYounger(ts, x, y) && x != y;
      }
    }
  }

  /** The scan's loop. */
  method CollectStuck(rows: Threads, answers: nat -> seq<ThreadId>, ghost n: nat, cutoff: int)
    returns (busy: seq<ThreadId>)
    requires forall q: nat :: |answers(q)| == n
    ensures busy == Scan(rows, answers, n, 0, cutoff)
  {
    hide Scan;
    busy := [];
    var k, offset := 0, 0;
    while true
      invariant 0 <= k && offset == k * PAGE_SIZE
      invariant busy + Scan(rows, answers, n, k, cutoff) == Scan(rows, answers, n, 0, cutoff)
      decreases n + PAGE_SIZE - offset
    {
      var page := Page(answers(k), offset);
      var stale := StuckOf(rows, page, cutoff);
      ScanOnce(rows, answers, n, k, cutoff);
      busy := busy + stale;
      if |stale| < PAGE_SIZE { break; }
      k, offset := k + 1, offset + PAGE_SIZE;
    }
  }

  // ---------------------------------------------------------------- the release

  /** `_has_in_flight_runs`: an active run of this process, or a row in flight. */
  predicate InUse(runs: Table, active: set<ThreadId>, id: ThreadId) {
    id in active || exists r :: r in runs && runs[r].thread == id && InFlight(runs[r].row.status)
  }

  /** How the thread's latest run would have left it; `parked` holds the threads whose
      graph waits on an interrupt. */
  function SettledAs(latest: map<ThreadId, Status>, parked: set<ThreadId>, id: ThreadId): ThreadStatus {
    if id !in latest then ThreadError
    else if latest[id].Success? then (if id in parked then ThreadInterrupted else ThreadIdle)
    else if latest[id].Interrupted? then ThreadIdle
    else ThreadError
  }

  /** `update_thread`. */
  function SetStatus(ts: Threads, id: ThreadId, status: ThreadStatus, now: int): Threads {
    if id in ts then ts[id := ThreadRow(status, now)] else ts
  }

  function ThreadsOf(t: Table, ids: set<RunId>): set<ThreadId> {
    set id | id in t && id in ids :: t[id].thread
  }

  // ---------------------------------------------------------------- one pass

  /** What a pass finds outside: the sweep's arguments; the threads active in this
      process; the answers to the scan's queries, each with `busy` rows; how each
      thread's latest run ended, and the threads parked on an interrupt; and the
      threads whose release as an orphan's, and whose release as stuck, fails. */
  datatype Pass = Pass(
    how: Sweeper, active: set<ThreadId>,
    answers: nat -> seq<ThreadId>, busy: nat,
    latest: map<ThreadId, Status>, parked: set<ThreadId>,
    unreleasable: set<ThreadId>, unsettleable: set<ThreadId>)
  {
    ghost predicate Asked() { forall q: nat :: |answers(q)| == busy }
  }

  datatype Books = Books(runs: Table, threads: Threads, unreleased: set<ThreadId>)

  function Orphans(b: Books, p: Pass): set<RunId> { Claims(b.runs, Sweep(b.runs.Keys, p.how)) }

  function SweptRuns(b: Books, p: Pass): Table { Apply(b.runs, Sweep(b.runs.Keys, p.how)) }

  /** The threads of the runs just failed join those not released yet. */
  function ToRelease(b: Books, p: Pass): set<ThreadId> { b.unreleased + ThreadsOf(b.runs, Orphans(b, p)) }

  /** The threads when the scan for stuck ones begins. */
  ghost function Released(b: Books, p: Pass): Threads {
    map id | id in b.threads ::
      if id in ToRelease(b, p) - p.unreleasable && IsBusy(b.threads, id) && !InUse(SweptRuns(b, p), p.active, id)
      then ThreadRow(ThreadError, p.how.now) else b.threads[id]
  }

  ghost function Found(b: Books, p: Pass): seq<ThreadId>
    requires p.Asked()
  {
    Scan(Released(b, p), p.answers, p.busy, 0, p.how.cutoff)
  }

  ghost function AfterPass(b: Books, p: Pass): Books
    requires p.Asked()
  {
    var rows := Released(b, p);
    Books(SweptRuns(b, p),
          map id | id in rows ::
            if id in Found(b, p) && id !in p.unsettleable && !InUse(SweptRuns(b, p), p.active, id)
            then ThreadRow(SettledAs(p.latest, p.parked, id), p.how.now) else rows[id],
          ToRelease(b, p) * p.unreleasable)
  }

  predicate StaysUnsettled(ts: Threads, runs: Table, active: set<ThreadId>, unreadable: set<ThreadId>,
                           unwritable: set<ThreadId>, id: ThreadId) {
    id in unreadable || (IsBusy(ts, id) && (InUse(runs, active, id) || id in unwritable))
  }

  class Maintenance {
    var runs: Table
    var threads: Threads
    /** Threads of runs that a sweep failed, and that are not released yet. */
    var unreleased: set<ThreadId>
    /** Threads whose run succeeded, but could not be settled. */
    var unsettled: set<ThreadId>

    constructor (runs: Table, threads: Threads)
      ensures this.runs == runs && this.threads == threads && unreleased == {} && unsettled == {}
    {
      this.runs, this.threads, unreleased, unsettled := runs, threads, {}, {};
    }

    /** `_retry_unsettled_threads`: a thread that is gone or no longer busy is dropped,
        one with a run in flight is kept for now; reading the threads in `unreadable`,
        and settling those in `unwritable`, fails. */
    method RetryUnsettled(parked: set<ThreadId>, active: set<ThreadId>, unreadable: set<ThreadId>,
                          unwritable: set<ThreadId>, now: int)
      modifies this`threads, this`unsettled
      ensures unsettled ==
              set id | id in old(unsettled) && StaysUnsettled(old(threads), runs, active, unreadable, unwritable, id)
      ensures threads.Keys == old(threads).Keys
      ensures forall id :: id in threads ==> (threads[id] ==
        if id in old(unsettled) - unsettled && old(threads)[id].status.ThreadBusy?
        then ThreadRow(if id in parked then ThreadInterrupted else ThreadIdle, now) else old(threads)[id])
    {
      var todo := unsettled;
      while todo != {}
        invariant todo <= unsettled <= old(unsettled)
        invariant forall id :: id in old(unsettled) - todo ==>
          (id in unsettled <==> StaysUnsettled(old(threads), runs, active, unreadable, unwritable, id))
        invariant threads.Keys == old(threads).Keys
        invariant forall id :: id in threads ==> (threads[id] ==
          if id in old(unsettled) - unsettled && old(threads)[id].status.ThreadBusy?
          then ThreadRow(if id in parked then ThreadInterrupted else ThreadIdle, now) else old(threads)[id])
      {
        var id :| id in todo;
        todo := todo - {id};
        if id in unreadable { continue; }
        if id !in threads || !threads[id].status.ThreadBusy? {
          unsettled := unsettled - {id};
          continue;
        }
        if InUse(runs, active, id) || id in unwritable { continue; }
        threads := SetStatus(threads, id, if id in parked then ThreadInterrupted else ThreadIdle, now);
        unsettled := unsettled - {id};
      }
    }

    /** The loop of `fail_orphaned_runs`: a failed release is kept for the next pass. */
    method ReleaseOrphans(active: set<ThreadId>, failing: set<ThreadId>, now: int)
      modifies this`threads, this`unreleased
      ensures unreleased == old(unreleased) * failing
      ensures threads.Keys == old(threads).Keys
      ensures forall id :: id in threads ==> (threads[id] ==
        if id in old(unreleased) - failing && old(threads)[id].status.ThreadBusy? && !InUse(runs, active, id)
        then ThreadRow(ThreadError, now) else old(threads)[id])
    {
      var todo := unreleased;
      while todo != {}
        invariant todo <= old(unreleased)
        invariant unreleased == old(unreleased) * failing + todo
        invariant threads.Keys == old(threads).Keys
        invariant forall id :: id in threads ==> (threads[id] ==
          if id in old(unreleased) - failing - todo && old(threads)[id].status.ThreadBusy? && !InUse(runs, active, id)
          then ThreadRow(ThreadError, now) else old(threads)[id])
      {
        var id :| id in todo;
        todo := todo - {id};
        if id in failing { continue; }
        if id in threads && threads[id].status.ThreadBusy? && !InUse(runs, active, id) {
          threads := SetStatus(threads, id, ThreadError, now);
        }
        unreleased := unreleased - {id};
      }
    }

    /** `_release_stuck_threads`: collect first, then release each on its own. */
    method ReleaseStuck(answers: nat -> seq<ThreadId>, ghost n: nat, cutoff: int, latest: map<ThreadId, Status>,
                        parked: set<ThreadId>, active: set<ThreadId>, failing: set<ThreadId>, now: int)
      requires forall q: nat :: |answers(q)| == n
      modifies this`threads
      ensures threads.Keys == old(threads).Keys
      ensures forall id :: id in threads ==> (threads[id] ==
        if id in Scan(old(threads), answers, n, 0, cutoff) && id !in failing && !InUse(runs, active, id)
        then ThreadRow(SettledAs(latest, parked, id), now) else old(threads)[id])
    {
      var busy := CollectStuck(threads, answers, n, cutoff);
      var k := 0;
      while k < |busy|
        invariant 0 <= k <= |busy|
        invariant threads.Keys == old(threads).Keys
        invariant forall id :: id in threads ==> (threads[id] ==
          if id in busy[..k] && id !in failing && !InUse(runs, active, id)
          then ThreadRow(SettledAs(latest, parked, id), now) else old(threads)[id])
      {
        var id := busy[k];
        if id !in failing && !InUse(runs, active, id) {
          threads := SetStatus(threads, id, SettledAs(latest, parked, id), now);
        }
        k := k + 1;
      }
      assert busy[..k] == busy;
    }

    ghost function View(): Books
      reads this
    {
      Books(runs, threads, unreleased)
    }

    /** `fail_orphaned_runs`: the sweep, the release of its orphans' threads and of those
        an earlier pass could not release, then the stuck ones. */
    method FailOrphanedRuns(p: Pass) returns (failed: set<RunId>)
      requires p.Asked()
      modifies this`runs, this`threads, this`unreleased
      ensures failed == Orphans(old(View()), p)
      ensures View() == AfterPass(old(View()), p)
    {
      ghost var b := View();
      failed := Claims(runs, Sweep(runs.Keys, p.how));
      unreleased := unreleased + ThreadsOf(runs, failed);
      runs := Apply(runs, Sweep(runs.Keys, p.how));
      ReleaseOrphans(p.active, p.unreleasable, p.how.now);
      assert threads == Released(b, p);
      ReleaseStuck(p.answers, p.busy, p.how.cutoff, p.latest, p.parked, p.active, p.unsettleable, p.how.now);
    }
  }

  /** The thread of a run that a pass failed is released by it, unless a run is in
      flight there, or it is in the retry set. */
  lemma OrphansAreReleasedOrRetried(b: Books, p: Pass, id: RunId)
    requires p.Asked() && id in Orphans(b, p)
    ensures var after, t := AfterPass(b, p), b.runs[id].thread;
      IsBusy(after.threads, t) ==> t in after.unreleased || InUse(after.runs, p.active, t)
  {
    var t := b.runs[id].thread;
    assert t in ThreadsOf(b.runs, Orphans(b, p));
    hide Scan;
  }

  /** After a pass in which no stuck thread's release fails, over a store that does not
      change during the scan and in which no group of equally old stuck threads
      straddles a page boundary, no stuck thread without a run in flight is busy. */
  lemma PassReleasesStuck(b: Books, p: Pass, order: seq<ThreadId>, id: ThreadId)
    requires p.Asked() && Answers(Released(b, p), p.answers, p.busy) && p.unsettleable == {}
    requires OldestFirst(Released(b, p), order) && !Straddles(Released(b, p), order, p.how.cutoff)
    ensures var after := AfterPass(b, p);
      Stuck(b.threads, id, p.how.cutoff) && !InUse(after.runs, p.active, id) ==> !IsBusy(after.threads, id)
  {
    hide Scan, Answers, OldestFirst, Straddles, InUse;
    ScanIsComplete(Released(b, p), p.answers, p.busy, order, p.how.cutoff, id);
  }

  /** A pass leaves alone every thread with a run in flight, and every other one that is
      neither stuck nor to be released. */
  lemma PassLeavesOthers(b: Books, p: Pass, id: ThreadId)
    requires p.Asked() && id in b.threads
    requires InUse(SweptRuns(b, p), p.active, id) || (!Stuck(b.threads, id, p.how.cutoff) && id !in ToRelease(b, p))
    ensures id in AfterPass(b, p).threads && AfterPass(b, p).threads[id] == b.threads[id]
  {
    hide Scan, InUse;
    assert Released(b, p)[id] == b.threads[id];
    if id in Found(b, p) {
      FindsOnly(Released(b, p), p.answers, p.busy, 0, p.how.cutoff, id);
    }
  }

  /** Nothing runs on the thread: no task of this process, and no row in flight. */
  ghost predicate Unused(runs: Table, active: set<ThreadId>, id: ThreadId) {
    id !in active && forall r :: r in runs && runs[r].thread == id ==> !InFlight(runs[r].row.status)
  }

  /** A pass changes the status of a thread only if nothing runs on it, in this process or
      in another, once the orphans have been failed. */
  lemma PassSparesUsedThreads(b: Books, p: Pass, id: ThreadId)
    requires p.Asked() && id in b.threads && AfterPass(b, p).threads[id] != b.threads[id]
    ensures Unused(SweptRuns(b, p), p.active, id)
  {
    hide Scan;
  }

  /** ... and then the thread of an orphan that it has failed ends with an error, as soon
      as its release does not fail. */
  lemma OrphansThreadFails(b: Books, p: Pass, id: RunId)
    requires p.Asked() && id in b.runs && Stale(b.runs, id, p.how)
    requires b.runs[id].thread !in p.unreleasable && Unused(SweptRuns(b, p), p.active, b.runs[id].thread)
    ensures IsBusy(b.threads, b.runs[id].thread) ==>
      Released(b, p)[b.runs[id].thread] == ThreadRow(ThreadError, p.how.now)
  {
    assert b.runs[id].thread in ThreadsOf(b.runs, Orphans(b, p));
  }

  /** The retry set is made of the threads whose release fails: those that were in it, and
      those on which this pass has failed a stale run. */
  lemma RetriesExactly(b: Books, p: Pass, id: ThreadId)
    requires p.Asked()
    ensures id in AfterPass(b, p).unreleased <==>
      && id in p.unreleasable
      && (id in b.unreleased || exists r :: r in b.runs && b.runs[r].thread == id && Stale(b.runs, r, p.how))
  {
    hide Stale;
    assert Orphans(b, p) == set r | r in b.runs && Stale(b.runs, r, p.how);
  }

  /** A stuck thread ends as its latest run would have left it: idle after a success or a
      cancel, interrupted if its graph waits on one after a success, and otherwise, or if
      it has no run, with an error. */
  lemma StuckEndsAsItsRun(b: Books, p: Pass, order: seq<ThreadId>, id: ThreadId)
    requires p.Asked() && Answers(Released(b, p), p.answers, p.busy) && id !in p.unsettleable
    requires OldestFirst(Released(b, p), order) && !Straddles(Released(b, p), order, p.how.cutoff)
    requires Stuck(Released(b, p), id, p.how.cutoff) && Unused(SweptRuns(b, p), p.active, id)
    ensures
      var status := AfterPass(b, p).threads[id].status;
      && (status.ThreadIdle? <==>
            id in p.latest && (p.latest[id].Interrupted? || (p.latest[id].Success? && id !in p.parked)))
      && (status.ThreadInterrupted? <==> id in p.latest && p.latest[id].Success? && id in p.parked)
      && (status.ThreadError? <==> id in p.latest ==> !p.latest[id].Success? && !p.latest[id].Interrupted?)
  {
    hide Scan, Answers, OldestFirst, Straddles;
    ScanIsComplete(Released(b, p), p.answers, p.busy, order, p.how.cutoff, id);
  }

  // ---------------------------------------------------------------- the retry set

  /** A pass, and the rows it finds: other workers change them between passes. */
  datatype Turn = Turn(runs: Table, threads: Threads, pass: Pass)

  ghost predicate AllAsked(turns: seq<Turn>) { forall k :: 0 <= k < |turns| ==> turns[k].pass.Asked() }

  /** The retry set after these passes. */
  ghost function Kept(unreleased: set<ThreadId>, turns: seq<Turn>): set<ThreadId>
    requires AllAsked(turns)
    decreases |turns|
  {
    if turns == [] then unreleased
    else
      var n := |turns| - 1;
      AfterPass(Books(turns[n].runs, turns[n].threads, Kept(unreleased, turns[..n])), turns[n].pass).unreleased
  }

  /** The pass fails a run of this thread. */
  predicate Reports(turn: Turn, id: ThreadId) {
    id in ThreadsOf(turn.runs, Claims(turn.runs, Sweep(turn.runs.Keys, turn.pass.how)))
  }

  /** From pass k on, every release of the thread fails. */
  predicate FailsFrom(turns: seq<Turn>, k: nat, id: ThreadId) {
    forall j :: k <= j < |turns| ==> id in turns[j].pass.unreleasable
  }

  /** Over any passes: a thread is in the retry set exactly when it was there at first,
      or an orphan of it was reported, and every release of it since then failed. */
  lemma {:induction false} RetriedUntilReleased(unreleased: set<ThreadId>, turns: seq<Turn>, id: ThreadId)
    requires AllAsked(turns)
    ensures id in Kept(unreleased, turns) <==>
      || (id in unreleased && FailsFrom(turns, 0, id))
      || (exists k :: 0 <= k < |turns| && Reports(turns[k], id) && FailsFrom(turns, k, id))
    decreases |turns|
  {
    hide Reports, Scan, Released;
    if turns != [] {
      var n := |turns| - 1;
      var some, last := turns[..n], turns[n];
      RetriedUntilReleased(unreleased, some, id);
      assert id in Kept(unreleased, turns) <==>
        (id in Kept(unreleased, some) || Reports(last, id)) && id in last.pass.unreleasable by {
          KeptOnce(unreleased, turns, id);
        }
      if id in Kept(unreleased, turns) {
        if Reports(last, id) {
          assert Reports(turns[n], id) && FailsFrom(turns, n, id);
        } else if !(id in unreleased && FailsFrom(some, 0, id)) {
          var k :| 0 <= k < |some| && Reports(some[k], id) && FailsFrom(some, k, id);
          assert Reports(turns[k], id) && FailsFrom(turns, k, id);
        }
      }
      if k :| 0 <= k < |turns| && Reports(turns[k], id) && FailsFrom(turns, k, id) {
        if k < n { assert Reports(some[k], id) && FailsFrom(some, k, id); }
      } else if id in unreleased && FailsFrom(turns, 0, id) {
        assert FailsFrom(some, 0, id);
      }
    }
  }

  lemma KeptOnce(unreleased: set<ThreadId>, turns: seq<Turn>, id: ThreadId)
    requires AllAsked(turns) && turns != []
    ensures var n := |turns| - 1;
      id in Kept(unreleased, turns) <==>
        (id in Kept(unreleased, turns[..n]) || Reports(turns[n], id)) && id in turns[n].pass.unreleasable
  {
  }
}
