/** One run's life inside the process that owns it (src/skeino/ops/runs.py): the
    admission task, the producer (or background) task and the finalizer, as one
    machine that steps from await to await. Its row in the store may be finalized or
    deleted by other workers between any two steps.
 */
module Lifecycle {
  import opened Common

  // ---------------------------------------------------------------- rows and events

  datatype Status = Pending | Running | Success | Error | Interrupted | Timeout

  predicate InFlight(s: Status) { s.Pending? || s.Running? }

  /** Error texts: none (or an empty one), the fixed ones of runs.py, and whatever an
      exception says. */
  datatype Text = Blank | RunFailed | RunInterrupted | NeverStarted | WasDeleted(id: RunId) | Says(what: nat)

  datatype Row = Row(status: Status, error: Text)

  /** `update_run_status`: only an in-flight row is written. */
  function Written(row: Option<Row>, status: Status, error: Text): Option<Row> {
    if row.Some? && InFlight(row.value.status) then Some(Row(status, error)) else row
  }

  predicate Takes(row: Option<Row>) { row.Some? && InFlight(row.value.status) }

  /** A row nobody will write again: finalized, or gone. */
  predicate Settled(row: Option<Row>) { !Takes(row) }

  /** Event names, as far as a client can take them for the run's own. */
  datatype Name = MetadataName | ErrorName | EndName | OtherName(what: nat)

  /** What the run publishes itself, and what its graph yields under a name of its own. */
  datatype Event = Metadata | Output(name: Name) | ErrorEvent(detail: Text) | EndEvent(status: Status)

  /** What the run's stream has published, the latest last. */
  datatype Published = Nothing | Then(before: Published, last: Event)

  function NameOf(e: Event): Name {
    match e
    case Metadata => MetadataName
    case Output(name) => name
    case ErrorEvent(_) => ErrorName
    case EndEvent(_) => EndName
  }

  predicate Terminal(e: Event) { e.ErrorEvent? || e.EndEvent? }

  predicate TerminalName(n: Name) { n.ErrorName? || n.EndName? }

  /** The persisted row, or `_deleted_outcome`. */
  function Outcome(id: RunId, row: Option<Row>): Row {
    if row.Some? then row.value else Row(Error, WasDeleted(id))
  }

  /** `_terminal_event_for_row`. */
  function TerminalEvent(row: Row): Event {
    if row.status.Error? then ErrorEvent(if row.error.Blank? then RunFailed else row.error)
    else EndEvent(row.status)
  }

  /** The terminal event of a run whose write lost, read back from the store. */
  function Verdict(id: RunId, row: Option<Row>): Event { TerminalEvent(Outcome(id, row)) }

  /** A terminal event tells what the row says. */
  predicate Agrees(e: Event, row: Row) {
    if row.status.Error? then
      e.ErrorEvent? && (e.detail == row.error || (row.error.Blank? && e.detail == RunFailed))
    else e == EndEvent(row.status)
  }

  // ---------------------------------------------------------------- the machine

  datatype Kind = Streaming | Background

  /** `Orphaned`: opened by a hand-off that then failed; nobody will close it. */
  datatype Stream = Unopened | Open | Closed | Orphaned

  /** Each point is an await (or a task's first or last step). The admission task
      runs `AdmitNew`..`AdmitCleanup`; the main task (producer or background run)
      `New`..`FailThread`, and for a background run also `Mark`..`Resettle`; the
      finalizer of a streaming run runs `Mark`..`Cleanup`. */
  datatype Pc =
    | Arrive | Resolve | Inserting
    | Admit(a: AdmitPoint) | AdmitOver
    | New | Wait | Undo | Exec(x: ExecPoint) | Over
    | Marked(m: MarkPoint) | Cleanup | Gone

  datatype AdmitPoint = AdmitNew | AdmitWait | AdmitInsert | AdmitUndo | AdmitCleanup

  datatype ExecPoint =
    | Claim | ClaimLost | Busy | Graph | Save | SaveLost | Settle | Tally | Fail | FailLost | FailThread

  datatype MarkPoint = Mark | MarkLost | MarkThread | Resettle

  /** What can go wrong along the way, once and for all:
      `skipped`, a cancel lands before the call of `after_run`; `stranded`, nobody of
      this run will finalize its row; `orphaned`, its stream is opened, but has no
      producer; `forged`, its graph emits an event named `error` or `end`; `blind`, the
      store fails while the run's own failure or cancellation is recorded, before it is;
      `deleted`, it reports what it lost to, and its row is gone. */
  datatype Slips = Slips(
    skipped: bool, stranded: bool, orphaned: bool, forged: bool, blind: bool, deleted: bool)

  const NONE := Slips(false, false, false, false, false, false)

  function Joined(a: Slips, b: Slips): Slips {
    Slips(a.skipped || b.skipped, a.stranded || b.stranded, a.orphaned || b.orphaned,
          a.forged || b.forged, a.blind || b.blind, a.deleted || b.deleted)
  }

  /** `doomed`: a cancel was requested and lands at the task's next step;
      `cancelled`: it has landed; `problem` is the text of the exception that failed
      the run. The remaining fields record what happened: `cleaned`, `after_run` was
      called, and `twice`, more than once; `taken` and `given`, the execution lock was
      taken, and given back, and `misused`, more than once, or without being held;
      `stray`, a thread write by a run whose final write had lost. */
  datatype Run = Run(
    kind: Kind, pc: Pc, problem: Text, doomed: bool, cancelled: bool,
    stream: Stream, events: Published,
    started: bool, answered: bool,
    cleaned: bool, twice: bool, taken: bool, given: bool, misused: bool,
    claimed: bool, saved: bool, lost: bool, stray: bool, slips: Slips)

  function NewRun(kind: Kind): Run {
    Run(kind, Arrive, Blank, false, false, Unopened, Nothing, false, false,
        false, false, false, false, false, false, false, false, false, NONE)
  }

  /** How an await ends: normally, with an exception (whose store write, if it was
      one, may have landed, and whose hand-off may have opened the stream), with
      another graph event, or with the requested cancel. */
  datatype Choice = Go | Raise(msg: Text, landed: bool, opens: bool) | Emit(name: Name) | Land(landed: bool)

  datatype LockUse = Keep | Take | Give

  datatype Handoff = Stay | Spawn | Forget

  datatype Out = Blocked | Next(run: Run, row: Option<Row>, lock: LockUse, handoff: Handoff)

  predicate BeforeSpawn(run: Run) { run.pc.Arrive? || run.pc.Resolve? || run.pc.Inserting? }

  /** Its admission ended with no successor, or everything has. */
  predicate Ended(run: Run) { run.pc.AdmitOver? || run.pc.Gone? }

  /** Inside a task that a cancel can reach. */
  predicate Cancellable(run: Run) {
    || Admitting(run) || Executing(run) || run.pc.New? || run.pc.Wait? || run.pc.Undo?
    || (Marking(run) && run.kind.Background?)
  }

  /** Between the claim and the report of the outcome. */
  predicate Executing(run: Run) { run.pc.Exec? }

  /** Inside `_mark_run_interrupted` and the settle after it. */
  predicate Marking(run: Run) { run.pc.Marked? }

  /** Holding the thread's execution lock. */
  predicate Holds(run: Run) {
    || run.pc == Admit(AdmitInsert) || Executing(run) || Marking(run) || run.pc.Cleanup?
    || ((run.pc.New? || run.pc.Over?) && run.kind.Streaming?)
  }

  /** The store write of this await took effect. */
  predicate Lands(c: Choice) { c.Go? || ((c.Raise? || c.Land?) && c.landed) }

  function Problem(run: Run, c: Choice): Text { if c.Raise? then c.msg else run.problem }

  /** Where a cancel takes the main task: a streaming run ends, to be finalized; a
      background run enters its own handler. */
  function Unwound(run: Run): Pc { if run.kind.Streaming? then Over else Marked(Mark) }

  /** The row may stay in flight for good: a background insert that failed after it
      landed, an undo that did not land, a background run cancelled before its first
      step or in its failure write, a failure or cancellation that was not recorded. */
  predicate Strands(run: Run, c: Choice) {
    || (run.pc.Inserting? && c.Raise? && c.landed)
    || ((run.pc == Admit(AdmitUndo) || run.pc.Undo?) && !Lands(c))
    || (run.pc.New? && c.Land? && run.kind.Background?)
    || (run.pc == Exec(Fail) && c.Land? && !c.landed && run.kind.Background?)
    || ((run.pc == Exec(Fail) || run.pc == Marked(Mark)) && c.Raise? && !c.landed)
  }

  /** The hand-off fails after it opened the stream. */
  predicate LeavesOpen(run: Run, c: Choice) { run.pc == Admit(AdmitInsert) && c.Raise? && c.landed && c.opens }

  /** The store has told it that its write lost. */
  predicate ToldLost(run: Run) {
    || run.pc == Exec(ClaimLost) || run.pc == Exec(SaveLost) || run.pc == Exec(FailLost) || run.pc == Marked(MarkLost)
  }

  /** Recording its failure or its cancellation. */
  predicate Recording(run: Run) {
    run.pc == Exec(Fail) || run.pc == Exec(FailLost) || run.pc == Marked(Mark) || run.pc == Marked(MarkLost)
  }

  function SlipsAt(run: Run, row: Option<Row>, c: Choice): Slips {
    Slips(run.pc == Admit(AdmitUndo) && c.Land?,
          Strands(run, c),
          LeavesOpen(run, c),
          run.pc == Exec(Graph) && c.Emit? && TerminalName(c.name),
          Recording(run) && c.Raise? && row.Some? && !(c.landed && Takes(row)),
          run.kind.Streaming? && ToldLost(run) && c.Go? && row.None?)
  }

  /** A thread write by a run whose final write had lost is `stray`, unless it
      settles the thread after the run's own saved success. */
  predicate Stray(run: Run, writes: bool) { run.stray || (writes && run.lost && !run.saved) }

  /** The main task reports its outcome and ends, a background run by releasing the
      lock, or it goes on to `pc`. */
  function Reporting(run: Run, ends: bool, e: Event, pc: Pc, problem: Text): Run {
    run.(pc := if ends then Over else pc,
         problem := problem,
         events := if ends && run.kind.Streaming? then Then(run.events, e) else run.events)
  }

  function Dropping(run: Run, ends: bool): LockUse {
    if ends && run.kind.Background? then Give else Keep
  }

  /** So does the cancel handler. For a streaming run it is the finalizer, which goes on
      to `after_run`. */
  function ReportingCancel(run: Run, ends: bool, e: Event, pc: Pc, stray: bool, lost: bool): Run {
    run.(pc := if !ends then pc else if run.kind.Streaming? then Cleanup else Over,
         stray := stray, lost := lost,
         events := if ends && run.kind.Streaming? then Then(run.events, e) else run.events)
  }

  // One function for each await of each task: `admit` and the background insert ...

  function FromInserting(run: Run, row: Option<Row>, c: Choice): Out
    requires run.pc.Inserting?
  {
    if c.Emit? || c.Land? then Blocked
    else Next(run.(pc := if c.Go? then New else Gone, started := c.Go?),
              if Lands(c) then Some(Row(Pending, Blank)) else row, Keep, if c.Go? then Spawn else Stay)
  }

  function FromAdmitNew(run: Run, row: Option<Row>, c: Choice): Out
    requires run.pc == Admit(AdmitNew)
  {
    if c.Emit? || c.Raise? then Blocked
    else Next(run.(pc := if c.Go? then Admit(AdmitWait) else AdmitOver, started := c.Go?), row, Keep, Stay)
  }

  function FromAdmitWait(run: Run, row: Option<Row>, free: bool, c: Choice): Out
    requires run.pc == Admit(AdmitWait)
  {
    if !(c.Land? || (c.Go? && free)) then Blocked
    else Next(run.(pc := if c.Go? then Admit(AdmitInsert) else Admit(AdmitCleanup)),
              row, if c.Go? then Take else Keep, Stay)
  }

  function FromAdmitInsert(run: Run, row: Option<Row>, c: Choice): Out
    requires run.pc == Admit(AdmitInsert)
  {
    if c.Emit? then Blocked
    else Next(run.(pc := if c.Go? then New else Admit(AdmitUndo),
                   stream := if c.Go? then Open else if LeavesOpen(run, c) then Orphaned else run.stream),
              if Lands(c) then Some(Row(Pending, Blank)) else row,
              if c.Go? then Keep else Give, if c.Go? then Spawn else Stay)
  }

  function FromAdmitUndo(run: Run, row: Option<Row>, c: Choice): Out
    requires run.pc == Admit(AdmitUndo)
  {
    if c.Emit? then Blocked
    else Next(run.(pc := if c.Land? then AdmitOver else Admit(AdmitCleanup)),
              if Lands(c) then Written(row, Interrupted, NeverStarted) else row, Keep, Stay)
  }

  function FromAdmitCleanup(run: Run, row: Option<Row>, c: Choice): Out
    requires run.pc == Admit(AdmitCleanup)
  {
    if c.Emit? then Blocked else Next(run.(pc := AdmitOver), row, Keep, Stay)
  }

  function FromAdmitOver(run: Run, row: Option<Row>, c: Choice): Out
    requires run.pc.AdmitOver?
  {
    if !c.Go? then Blocked else Next(run.(pc := Gone), row, Keep, Forget)
  }

  // ... `_publish_run` and `_run_to_completion` ...

  function FromNew(run: Run, row: Option<Row>, c: Choice): Out
    requires run.pc.New?
  {
    if c.Emit? || c.Raise? then Blocked
    else Next(run.(pc := if c.Land? then Over else if run.kind.Streaming? then Exec(Claim) else Wait), row, Keep, Stay)
  }

  function FromWait(run: Run, row: Option<Row>, free: bool, c: Choice): Out
    requires run.pc.Wait?
  {
    if !(c.Land? || (c.Go? && free)) then Blocked
    else Next(run.(pc := if c.Go? then Exec(Claim) else Undo),
              row, if c.Go? then Take else Keep, Stay)
  }

  function FromUndo(run: Run, row: Option<Row>, c: Choice): Out
    requires run.pc.Undo?
  {
    if c.Emit? || c.Land? then Blocked
    else Next(run.(pc := Over),
              if Lands(c) then Written(row, Interrupted, NeverStarted) else row, Keep, Stay)
  }

  function FromClaim(run: Run, row: Option<Row>, c: Choice): Out
    requires run.pc == Exec(Claim)
  {
    if c.Emit? then Blocked
    else Next(run.(pc := if c.Raise? then Exec(Fail) else if c.Land? then Unwound(run)
                         else if Takes(row) then Exec(Busy) else Exec(ClaimLost),
                   problem := Problem(run, c),
                   claimed := run.claimed || (c.Go? && Takes(row))),
              if Lands(c) then Written(row, Running, Blank) else row, Keep, Stay)
  }

  function FromBusy(run: Run, row: Option<Row>, c: Choice): Out
    requires run.pc == Exec(Busy)
  {
    if c.Emit? then Blocked
    else Next(run.(pc := if c.Raise? then Exec(Fail) else if c.Land? then Unwound(run) else Exec(Graph),
                   problem := Problem(run, c),
                   stray := Stray(run, Lands(c)),
                   events := if c.Go? && run.kind.Streaming? then Then(run.events, Metadata) else run.events),
              row, Keep, Stay)
  }

  function FromGraph(run: Run, row: Option<Row>, c: Choice): Out
    requires run.pc == Exec(Graph)
  {
    if c.Emit? && run.kind.Background? then Blocked
    else Next(run.(pc := if c.Raise? then Exec(Fail) else if c.Land? then Unwound(run)
                         else if c.Emit? then Exec(Graph) else Exec(Save),
                   problem := Problem(run, c),
                   events := if c.Emit? then Then(run.events, Output(c.name)) else run.events), row, Keep, Stay)
  }

  function FromSave(run: Run, row: Option<Row>, c: Choice): Out
    requires run.pc == Exec(Save)
  {
    if c.Emit? then Blocked
    else Next(run.(pc := if c.Raise? then Exec(Fail) else if c.Land? then Unwound(run)
                         else if Takes(row) then Exec(Settle) else Exec(SaveLost),
                   problem := Problem(run, c),
                   saved := run.saved || (Lands(c) && Takes(row)),
                   lost := run.lost || (Lands(c) && !Takes(row))),
              if Lands(c) then Written(row, Success, Blank) else row, Keep, Stay)
  }

  /** Report `verdict`, the outcome that the claim, or the success, lost to. */
  function FromLost(run: Run, row: Option<Row>, verdict: Event, c: Choice): Out
    requires run.pc == Exec(ClaimLost) || run.pc == Exec(SaveLost)
  {
    if c.Emit? then Blocked
    else Next(Reporting(run, c.Go?, verdict, if c.Raise? then Exec(Fail) else Unwound(run), Problem(run, c)),
              row, Dropping(run, c.Go?), Stay)
  }

  function FromSettle(run: Run, row: Option<Row>, c: Choice): Out
    requires run.pc == Exec(Settle)
  {
    if c.Emit? then Blocked
    else Next(run.(pc := if c.Land? then Unwound(run) else Exec(Tally), stray := Stray(run, Lands(c))), row, Keep, Stay)
  }

  function FromTally(run: Run, row: Option<Row>, c: Choice): Out
    requires run.pc == Exec(Tally)
  {
    if c.Emit? then Blocked
    else Next(Reporting(run, c.Go?, EndEvent(Success), if c.Raise? then Exec(Fail) else Unwound(run), Problem(run, c)),
              row, Dropping(run, c.Go?), Stay)
  }

  /** `_mark_run_failed`. When the store fails, the failure is reported all the same; a
      cancel landing in it ends the main task at once. */
  function FromFail(run: Run, row: Option<Row>, c: Choice): Out
    requires run.pc == Exec(Fail)
  {
    if c.Emit? then Blocked
    else Next(run.(pc := if !c.Go? then Over else if Takes(row) then Exec(FailThread) else Exec(FailLost),
                   lost := run.lost || (Lands(c) && !Takes(row)),
                   events := if c.Raise? && run.kind.Streaming? then Then(run.events, ErrorEvent(run.problem))
                             else run.events),
              if Lands(c) then Written(row, Error, run.problem) else row, Dropping(run, !c.Go?), Stay)
  }

  function FromFailLost(run: Run, row: Option<Row>, verdict: Event, c: Choice): Out
    requires run.pc == Exec(FailLost)
  {
    if c.Emit? then Blocked
    else
      var e := if c.Raise? then ErrorEvent(run.problem) else verdict;
      Next(run.(pc := Over,
                events := if !c.Land? && run.kind.Streaming? then Then(run.events, e) else run.events),
           row, Dropping(run, true), Stay)
  }

  function FromFailThread(run: Run, row: Option<Row>, c: Choice): Out
    requires run.pc == Exec(FailThread)
  {
    if c.Emit? then Blocked
    else Next(run.(pc := Over,
                   stray := Stray(run, Lands(c)),
                   events := if !c.Land? && run.kind.Streaming? then Then(run.events, ErrorEvent(run.problem))
                             else run.events),
              row, Dropping(run, true), Stay)
  }

  // ... the end of the main task, `_mark_run_interrupted`, and `finalize_run`.

  function FromOver(run: Run, row: Option<Row>, c: Choice): Out
    requires run.pc.Over?
  {
    if !c.Go? then Blocked
    else Next(run.(pc := if run.kind.Background? then Gone else if run.cancelled then Marked(Mark) else Cleanup),
              row, Keep, if run.kind.Background? then Forget else Stay)
  }

  /** When the store fails, the cancellation is reported all the same. */
  function FromMark(run: Run, row: Option<Row>, c: Choice): Out
    requires run.pc == Marked(Mark)
  {
    if c.Emit? || c.Land? then Blocked
    else Next(ReportingCancel(run, c.Raise?, EndEvent(Interrupted),
                              if Takes(row) then Marked(MarkThread) else Marked(MarkLost),
                              run.stray, run.lost || (Lands(c) && !Takes(row))),
              if Lands(c) then Written(row, Interrupted, RunInterrupted) else row, Dropping(run, c.Raise?), Stay)
  }

  /** A cancel that lost to the run's own saved success settles the thread again. */
  function FromMarkLost(run: Run, row: Option<Row>, verdict: Event, c: Choice): Out
    requires run.pc == Marked(MarkLost)
  {
    if c.Emit? || c.Land? then Blocked
    else
      var ends := c.Raise? || !verdict.EndEvent? || !verdict.status.Success?;
      Next(ReportingCancel(run, ends, if c.Raise? then EndEvent(Interrupted) else verdict, Marked(Resettle),
                           run.stray, run.lost),
           row, Dropping(run, ends), Stay)
  }

  function FromMarkThread(run: Run, row: Option<Row>, c: Choice): Out
    requires run.pc == Marked(MarkThread)
  {
    if c.Emit? || c.Land? then Blocked
    else Next(ReportingCancel(run, true, EndEvent(Interrupted), Marked(Resettle), Stray(run, Lands(c)), run.lost),
              row, Dropping(run, true), Stay)
  }

  function FromResettle(run: Run, row: Option<Row>, c: Choice): Out
    requires run.pc == Marked(Resettle)
  {
    if c.Emit? || c.Land? then Blocked
    else Next(ReportingCancel(run, true, EndEvent(Success), Marked(Resettle), Stray(run, Lands(c)), run.lost),
              row, Dropping(run, true), Stay)
  }

  function FromCleanup(run: Run, row: Option<Row>, c: Choice): Out
    requires run.pc.Cleanup?
  {
    if c.Emit? || c.Land? then Blocked
    else Next(run.(pc := Gone, stream := Closed), row, Give, Forget)
  }

  predicate Admitting(run: Run) { run.pc.Admit? }

  function ResumeAdmission(run: Run, row: Option<Row>, free: bool, c: Choice): Out
    requires run.pc.Inserting? || Admitting(run) || run.pc.AdmitOver?
  {
    match run.pc
    case Inserting => FromInserting(run, row, c)
    case Admit(AdmitNew) => FromAdmitNew(run, row, c)
    case Admit(AdmitWait) => FromAdmitWait(run, row, free, c)
    case Admit(AdmitInsert) => FromAdmitInsert(run, row, c)
    case Admit(AdmitUndo) => FromAdmitUndo(run, row, c)
    case Admit(AdmitCleanup) => FromAdmitCleanup(run, row, c)
    case AdmitOver => FromAdmitOver(run, row, c)
  }

  function ResumeMain(run: Run, row: Option<Row>, verdict: Event, free: bool, c: Choice): Out
    requires run.pc.New? || run.pc.Wait? || run.pc.Undo? || Executing(run)
  {
    match run.pc
    case New => FromNew(run, row, c)
    case Wait => FromWait(run, row, free, c)
    case Undo => FromUndo(run, row, c)
    case Exec(Claim) => FromClaim(run, row, c)
    case Exec(ClaimLost) | Exec(SaveLost) => FromLost(run, row, verdict, c)
    case Exec(Busy) => FromBusy(run, row, c)
    case Exec(Graph) => FromGraph(run, row, c)
    case Exec(Save) => FromSave(run, row, c)
    case Exec(Settle) => FromSettle(run, row, c)
    case Exec(Tally) => FromTally(run, row, c)
    case Exec(Fail) => FromFail(run, row, c)
    case Exec(FailLost) => FromFailLost(run, row, verdict, c)
    case Exec(FailThread) => FromFailThread(run, row, c)
  }

  function ResumeEnd(run: Run, row: Option<Row>, verdict: Event, c: Choice): Out
    requires run.pc.Over? || Marking(run) || run.pc.Cleanup?
  {
    match run.pc
    case Over => FromOver(run, row, c)
    case Marked(Mark) => FromMark(run, row, c)
    case Marked(MarkLost) => FromMarkLost(run, row, verdict, c)
    case Marked(MarkThread) => FromMarkThread(run, row, c)
    case Marked(Resettle) => FromResettle(run, row, c)
    case Cleanup => FromCleanup(run, row, c)
  }

  /** A run that has not entered admission, or is gone, has no task to resume. */
  function Resume(id: RunId, run: Run, row: Option<Row>, free: bool, c: Choice): Out {
    if run.pc.Arrive? || run.pc.Resolve? || run.pc.Gone? then Blocked
    else if run.pc.Inserting? || Admitting(run) || run.pc.AdmitOver? then ResumeAdmission(run, row, free, c)
    else if run.pc.Over? || Marking(run) || run.pc.Cleanup? then ResumeEnd(run, row, Verdict(id, row), c)
    else ResumeMain(run, row, Verdict(id, row), free, c)
  }

  /** At the await of `after_run`. */
  predicate Calling(run: Run) { run.pc == Admit(AdmitCleanup) || run.pc.Cleanup? }

  /** `after_run` is called, or not. */
  function Called(run: Run, calls: bool): Run {
    run.(cleaned := run.cleaned || calls, twice := run.twice || (calls && run.cleaned))
  }

  /** A step's books: a cancel has landed, a slip, a call of `after_run` and the use of
      the execution lock are on record. */
  function Struck(run: Run, row: Option<Row>, c: Choice, out: Out): Run
    requires out.Next?
  {
    var calls := Calling(out.run);
    out.run.(doomed := run.doomed && !c.Land?, cancelled := run.cancelled || c.Land?,
             slips := Joined(run.slips, SlipsAt(run, row, c)),
             cleaned := run.cleaned || calls, twice := run.twice || (calls && run.cleaned),
             taken := run.taken || out.lock.Take?, given := run.given || out.lock.Give?,
             misused := run.misused || (out.lock.Take? && run.taken) || (out.lock.Give? && (run.given || !run.taken)))
  }

  /** One step of a run. A requested cancel is the next thing a task sees. */
  function Step(id: RunId, run: Run, row: Option<Row>, free: bool, c: Choice): Out {
    if c.Land? != run.doomed then Blocked
    else
      var out := Resume(id, run, row, free, c);
      if out.Blocked? then Blocked else out.(run := Struck(run, row, c, out))
  }

  /** `task.cancel()`, once per task. */
  function Doomed(run: Run): Run {
    if Cancellable(run) && !run.cancelled then run.(doomed := true) else run
  }

  /** The requester goes on: the admission task has at least begun, or ended. One that
      never took its first step left the cleanup to its requester. */
  predicate MayAnswer(run: Run) {
    run.kind.Streaming? && !run.answered && !BeforeSpawn(run) && run.pc != Admit(AdmitNew)
  }

  function Answered(run: Run): Run { Called(run.(answered := true), Ended(run) && !run.started) }

  function Registered(run: Run): Run { run.(pc := if run.kind.Streaming? then Admit(AdmitNew) else Inserting) }

  /** The request fails, or its client leaves, before admission owns the cleanup. */
  function GaveUp(run: Run): Run { Called(run.(pc := Gone, answered := true), run.kind.Streaming?) }

  /** What other workers (and this process's other requests) may do to a row. */
  predicate Meddles(row: Option<Row>, row': Option<Row>) {
    || row' == row
    || row' == None
    || (Takes(row) && row'.Some?
        && (row'.value.status.Error? || row'.value.status.Interrupted? || row'.value.status.Timeout?))
  }

  /** Whatever can happen to one run. */
  datatype Act =
    | Enter | Register | GiveUp | Answer | Cancel
    | Await(c: Choice, free: bool)
    | Others(row: Option<Row>)

  function Acted(id: RunId, run: Run, row: Option<Row>, a: Act): Out {
    match a
    case Enter => if run.pc.Arrive? then Next(run.(pc := Resolve), row, Keep, Stay) else Blocked
    case Register =>
      if run.pc.Resolve? then Next(Registered(run), row, Keep, if run.kind.Streaming? then Spawn else Stay) else Blocked
    case GiveUp => if run.pc.Arrive? || run.pc.Resolve? then Next(GaveUp(run), row, Keep, Stay) else Blocked
    case Answer => if MayAnswer(run) then Next(Answered(run), row, Keep, Stay) else Blocked
    case Cancel => Next(Doomed(run), row, Keep, Stay)
    case Await(c, free) => Step(id, run, row, free, c)
    case Others(row') => if Meddles(row, row') then Next(run, row', Keep, Stay) else Blocked
  }

  datatype Life = Stuck | Life(run: Run, row: Option<Row>)

  /** Every run of the machine is a list of acts; `Stuck` if one was not possible. */
  function Lives(id: RunId, run: Run, row: Option<Row>, acts: seq<Act>): Life
    decreases |acts|
  {
    if acts == [] then Life(run, row)
    else
      var out := Acted(id, run, row, acts[0]);
      if out.Blocked? then Stuck else Lives(id, out.run, out.row, acts[1..])
  }

  // ---------------------------------------------------------------- invariant

  /** Metadata first, then what the graph emitted. */
  predicate Quiet(p: Published) {
    p.Then? ==> (if p.before.Nothing? then p.last.Metadata? else p.last.Output?) && Quiet(p.before)
  }

  /** Metadata and output, if the graph ran, then the run's one terminal event; and the
      row, if it is still there, is final and says the same, unless `blind`. */
  predicate Concluded(p: Published, row: Option<Row>, blind: bool) {
    && p.Then? && Quiet(p.before) && Terminal(p.last)
    && (!blind ==> Settled(row) && (row.Some? ==> Agrees(p.last, row.value)))
  }

  /** The graph has emitted an event that a client takes for the end of the run. */
  predicate Forged(p: Published) {
    p.Then? && ((p.last.Output? && TerminalName(p.last.name)) || Forged(p.before))
  }

  /** Its outcome is published, as far as it will be. */
  predicate Reported(run: Run) { run.pc.Cleanup? || (run.pc.Over? && !run.cancelled) }

  /** Nothing of the run will write its row again. */
  predicate Handed(run: Run) {
    run.pc == Admit(AdmitCleanup) || Ended(run) || Reported(run) || (run.pc.Over? && run.kind.Background?)
  }

  /** A streaming run whose admission handed over, and whose finalizer is not done. */
  predicate Serving(run: Run) {
    && run.kind.Streaming?
    && (run.pc.New? || run.pc.Wait? || run.pc.Undo? || run.pc.Exec?
        || run.pc.Over? || run.pc.Marked? || run.pc.Cleanup?)
  }

  /** Open from the hand-off to the end of the finalizer, and closed after it. */
  predicate Served(run: Run) {
    && (run.stream.Open? <==> Serving(run))
    && (run.stream.Closed? ==> run.pc.Gone?)
    && (run.stream.Orphaned? ==> run.pc == Admit(AdmitUndo) || run.pc == Admit(AdmitCleanup) || Ended(run))
    && (run.stream.Orphaned? <==> run.slips.orphaned)
  }

  /** What has been published. */
  predicate Said(run: Run, row: Option<Row>) {
    && (run.stream.Open? ==>
          if Reported(run) then Concluded(run.events, row, run.slips.blind) else Quiet(run.events))
    && (run.stream.Closed? ==> Concluded(run.events, row, run.slips.blind))
    && (run.stream.Unopened? || run.stream.Orphaned? ==> run.events.Nothing?)
    && (run.pc.New? || run.pc == Exec(Claim) || run.pc == Exec(ClaimLost) || run.pc == Exec(Busy) ==>
          run.events.Nothing?)
    && (run.pc == Exec(Graph) && run.kind.Streaming? ==> run.events.Then?)
    && (run.slips.forged <==> Forged(run.events))
    && (run.slips.deleted ==> Reported(run) || run.pc.Gone?)
  }

  ghost predicate StreamInv(run: Run, row: Option<Row>) { Served(run) && Said(run, row) }

  predicate BeforeSave(run: Run) {
    || BeforeSpawn(run) || Admitting(run) || run.pc.New? || run.pc.Wait? || run.pc == Exec(Claim)
    || run.pc == Exec(Busy) || run.pc == Exec(Graph) || run.pc == Exec(Save)
  }

  /** What the run may rely on about its row. */
  predicate Known(run: Run, row: Option<Row>) {
    && (BeforeSpawn(run) || run.pc == Admit(AdmitNew) || run.pc == Admit(AdmitWait) || run.pc == Admit(AdmitInsert) ==>
          row.None?)
    && (ToldLost(run) ==> Settled(row))
    && (run.pc == Exec(Settle) || run.pc == Exec(Tally) || run.pc == Marked(Resettle) ==>
          run.saved && (row.Some? ==> row.value.status.Success?))
    && (run.pc == Exec(FailThread) ==> !run.lost && (row.Some? ==> row.value == Row(Error, run.problem)))
    && (run.pc == Marked(MarkThread) ==> !run.lost && (row.Some? ==> row.value == Row(Interrupted, RunInterrupted)))
    && (run.pc == Exec(Busy) || run.pc == Exec(Graph) ==> run.claimed)
  }

  /** Who wrote the row last. */
  predicate Won(run: Run, row: Option<Row>) {
    && (BeforeSave(run) ==> !run.lost && !run.saved)
    && (run.lost || run.saved ==> Settled(row))
    && (row.Some? && row.value.status.Success? ==> run.saved)
    && (Handed(run) && Takes(row) ==> run.slips.stranded)
    && !run.stray
  }

  ghost predicate RowInv(run: Run, row: Option<Row>) { Known(run, row) && Won(run, row) }

  /** `after_run` is called once, by whoever owns it. */
  ghost predicate CleanupInv(run: Run) {
    && (BeforeSpawn(run) || run.pc == Admit(AdmitNew) ==> !run.answered && !run.started)
    && (!BeforeSpawn(run) && run.pc != Admit(AdmitNew) && !Ended(run) ==> run.started)
    && (run.slips.skipped ==> Ended(run) && run.started)
    && !run.twice
    && (run.cleaned <==>
          && run.kind.Streaming?
          && (Calling(run) || (Ended(run) && !run.slips.skipped && (run.started || run.answered))))
  }

  predicate NotYetHeld(run: Run) {
    || BeforeSpawn(run) || run.pc == Admit(AdmitNew) || run.pc == Admit(AdmitWait) || run.pc.Wait?
    || (run.pc.New? && run.kind.Background?)
  }

  /** Where a landed cancel can be found. */
  predicate Late(run: Run) {
    || run.pc == Admit(AdmitUndo) || run.pc == Admit(AdmitCleanup) || Ended(run)
    || run.pc.Undo? || run.pc.Over? || run.pc.Marked? || run.pc.Cleanup?
  }

  predicate KindFits(run: Run) {
    && (Admitting(run) || run.pc.AdmitOver? || run.pc.Cleanup? ==> run.kind.Streaming?)
    && (run.pc.Wait? || run.pc.Undo? || run.pc.Inserting? ==> run.kind.Background?)
  }

  ghost predicate TaskInv(run: Run) {
    && !run.misused
    && (run.taken && !run.given <==> Holds(run))
    && (run.given ==> run.taken)
    && (NotYetHeld(run) ==> !run.taken)
    && (run.doomed ==> Cancellable(run) && !run.cancelled)
    && (run.pc.Undo? || Marking(run) ==> run.cancelled)
    && (run.cancelled ==> Late(run))
    && KindFits(run)
  }

  ghost predicate RunInv(run: Run, row: Option<Row>) {
    StreamInv(run, row) && RowInv(run, row) && CleanupInv(run) && TaskInv(run)
  }

  // ---------------------------------------------------------------- what one step changes

  /** What the registry can tell about a run: which of its tasks is unfinished. */
  datatype Phase = Early | InAdmission | AdmissionEnded | InMain | InFinalizer | MainEnded | AllEnded

  /** The main task of the run is unfinished. */
  predicate InMainTask(run: Run) {
    run.pc.New? || run.pc.Wait? || run.pc.Undo? || run.pc.Exec? || (run.pc.Marked? && run.kind.Background?)
  }

  /** Its finalizer has started, or is about to. */
  predicate Finalizing(run: Run) { run.kind.Streaming? && (run.pc.Over? || run.pc.Marked? || run.pc.Cleanup?) }

  function PhaseOf(run: Run): Phase {
    if BeforeSpawn(run) then Early
    else if Admitting(run) then InAdmission
    else if run.pc.AdmitOver? then AdmissionEnded
    else if run.pc.Gone? then AllEnded
    else if Finalizing(run) then InFinalizer
    else if InMainTask(run) then InMain
    else MainEnded
  }

  /** No task or finalizer of the run is unfinished. */
  predicate Finished(run: Run) {
    var p := PhaseOf(run); p.AdmissionEnded? || p.MainEnded? || p.AllEnded?
  }

  predicate PhaseMoves(p: Phase, q: Phase) {
    match p
    case Early => q.Early? || q.InAdmission? || q.InMain? || q.AllEnded?
    case InAdmission => q.InAdmission? || q.AdmissionEnded? || q.InMain?
    case AdmissionEnded => q.AdmissionEnded? || q.AllEnded?
    case InMain => q.InMain? || q.InFinalizer? || q.MainEnded?
    case InFinalizer => q.InFinalizer? || q.AllEnded?
    case MainEnded => q.MainEnded? || q.AllEnded?
    case AllEnded => q.AllEnded?
  }

  /** How much of its program a run has left. */
  function Rank(run: Run): nat {
    match run.pc
    case Arrive => 33 case Resolve => 32 case Inserting => 31
    case Admit(AdmitNew) => 30 case Admit(AdmitWait) => 29 case Admit(AdmitInsert) => 28
    case Admit(AdmitUndo) => 3 case Admit(AdmitCleanup) => 2 case AdmitOver => 1
    case New => 27 case Wait => 26 case Undo => 25
    case Exec(Claim) => 24 case Exec(ClaimLost) => 23 case Exec(Busy) => 22 case Exec(Graph) => 21
    case Exec(Save) => 20 case Exec(SaveLost) => 19 case Exec(Settle) => 18 case Exec(Tally) => 17
    case Exec(Fail) => 16 case Exec(FailLost) => 15 case Exec(FailThread) => 14
    case Over => if run.kind.Streaming? then 13 else 1
    case Marked(Mark) => 12 case Marked(MarkLost) => 11 case Marked(MarkThread) => 10 case Marked(Resettle) => 9
    case Cleanup => 2
    case Gone => 0
  }

  /** What one step does, seen from the registry, the execution lock and the store. */
  predicate Effects(run: Run, row: Option<Row>, c: Choice, out: Out)
    requires out.Next?
  {
    var r := out.run;
    && r.kind == run.kind
    && !BeforeSpawn(r) && (BeforeSpawn(run) ==> InMainTask(r) || r.pc.Gone?)
    && (Admitting(run) ==> Admitting(r) || r.pc.AdmitOver? || InMainTask(r))
    && (InMainTask(run) ==> InMainTask(r) || r.pc.Over?)
    && (Finalizing(run) ==> Finalizing(r) || r.pc.Gone?)
    && (Ended(run) || (run.pc.Over? && run.kind.Background?) ==> r.pc.Gone?)
    && (out.handoff.Spawn? <==> InMainTask(r) && !InMainTask(run))
    && (out.handoff.Forget? <==> r.pc.Gone? && !BeforeSpawn(run))
    && (out.lock.Take? <==> Holds(r) && !Holds(run))
    && (out.lock.Take? ==> run.pc == Admit(AdmitWait) || run.pc.Wait?)
    && (out.lock.Give? <==> Holds(run) && !Holds(r))
    && (c.Emit? || Rank(r) < Rank(run))
    && (Settled(row) ==> out.row == row || run.pc.Inserting? || run.pc == Admit(AdmitInsert))
  }

  /** ... and seen from its tasks: where a cancel is found, who cleans up. */
  predicate Follows(run: Run, c: Choice, r: Run) {
    && r.answered == run.answered
    && r.pc != Admit(AdmitNew)
    && (NotYetHeld(r) ==> NotYetHeld(run))
    && (r.pc.Undo? ==> c.Land?)
    && (Marking(r) ==> Marking(run) || run.cancelled || c.Land?)
    && (Late(run) || c.Land? ==> Late(r))
    && (KindFits(run) ==> KindFits(r))
    && (if BeforeSpawn(run) || run.pc == Admit(AdmitNew) then Ended(r) || r.started else r.started == run.started)
    && (Ended(run) ==> Ended(r))
    && (Calling(r) ==> !Calling(run) && !Ended(run))
    && (Calling(run) ==> Ended(r))
    && (run.pc == Admit(AdmitUndo) && c.Land? ==> Ended(r))
    && (run.kind.Streaming? && Ended(r) ==>
          || Calling(run) || Ended(run) || (run.pc == Admit(AdmitUndo) && c.Land?)
          || (run.pc == Admit(AdmitNew) && !r.started))
  }

  // ---------------------------------------------------------------- preservation

  /** Says what the row says; only a saved success reads as one. */
  predicate IsVerdict(e: Event, row: Option<Row>) {
    && Terminal(e)
    && (row.Some? ==> Agrees(e, row.value))
    && (e.EndEvent? && e.status.Success? ==> row.Some? && row.value.status.Success?)
  }

  lemma VerdictIsOne(id: RunId, row: Option<Row>)
    ensures IsVerdict(Verdict(id, row), row)
  {
  }

  ghost predicate Ready(run: Run, row: Option<Row>, c: Choice) {
    RunInv(run, row) && c.Land? == run.doomed
  }

  /** Most stages cannot slip ... */
  lemma NoSlip(run: Run, row: Option<Row>, c: Choice)
    requires !run.pc.Inserting? && !run.pc.New? && !run.pc.Undo?
    requires run.pc.Admit? ==> !run.pc.a.AdmitInsert? && !run.pc.a.AdmitUndo?
    requires run.pc.Marked? ==> !run.pc.m.Mark? && !run.pc.m.MarkLost?
    requires run.pc.Exec? ==> !run.pc.x.Graph? && !run.pc.x.Fail? && !run.pc.x.FailLost?
    requires run.pc.Exec? ==> !run.pc.x.ClaimLost? && !run.pc.x.SaveLost?
    ensures Joined(run.slips, SlipsAt(run, row, c)) == run.slips
  {
  }

  /** ... and those that record a failure only in these two ways. */
  lemma FailSlips(run: Run, row: Option<Row>, c: Choice)
    requires Recording(run)
    ensures Joined(run.slips, SlipsAt(run, row, c)) ==
      run.slips.(stranded := run.slips.stranded || Strands(run, c),
                 blind := run.slips.blind || (c.Raise? && row.Some? && !(c.landed && Takes(row))),
                 deleted := run.slips.deleted || (run.kind.Streaming? && ToldLost(run) && c.Go? && row.None?))
  {
  }

  lemma LostSlips(run: Run, row: Option<Row>, c: Choice)
    requires run.pc == Exec(ClaimLost) || run.pc == Exec(SaveLost)
    ensures Joined(run.slips, SlipsAt(run, row, c)) ==
      run.slips.(deleted := run.slips.deleted || (run.kind.Streaming? && c.Go? && row.None?))
  {
  }

  // What each stage keeps of its row and its stream ...

  lemma InsertingKeeps(run: Run, row: Option<Row>, c: Choice, out: Out, r: Run)
    requires Ready(run, row, c) && run.pc.Inserting?
    requires out == FromInserting(run, row, c) && out.Next? && r == Struck(run, row, c, out)
    ensures RowInv(r, out.row) && StreamInv(r, out.row)
  {
  }

  lemma AdmitNewKeeps(run: Run, row: Option<Row>, c: Choice, out: Out, r: Run)
    requires Ready(run, row, c) && run.pc == Admit(AdmitNew)
    requires out == FromAdmitNew(run, row, c) && out.Next? && r == Struck(run, row, c, out)
    ensures RowInv(r, out.row) && StreamInv(r, out.row)
  {
    hide SlipsAt, Joined;
    NoSlip(run, row, c);
  }

  lemma AdmitWaitKeeps(run: Run, row: Option<Row>, free: bool, c: Choice, out: Out, r: Run)
    requires Ready(run, row, c) && run.pc == Admit(AdmitWait)
    requires out == FromAdmitWait(run, row, free, c) && out.Next? && r == Struck(run, row, c, out)
    ensures RowInv(r, out.row) && StreamInv(r, out.row)
  {
    hide SlipsAt, Joined;
    NoSlip(run, row, c);
  }

  lemma AdmitInsertKeeps(run: Run, row: Option<Row>, c: Choice, out: Out, r: Run)
    requires Ready(run, row, c) && run.pc == Admit(AdmitInsert)
    requires out == FromAdmitInsert(run, row, c) && out.Next? && r == Struck(run, row, c, out)
    ensures RowInv(r, out.row) && StreamInv(r, out.row)
  {
  }

  lemma AdmitUndoKeeps(run: Run, row: Option<Row>, c: Choice, out: Out, r: Run)
    requires Ready(run, row, c) && run.pc == Admit(AdmitUndo)
    requires out == FromAdmitUndo(run, row, c) && out.Next? && r == Struck(run, row, c, out)
    ensures RowInv(r, out.row) && StreamInv(r, out.row)
  {
  }

  lemma AdmitCleanupKeeps(run: Run, row: Option<Row>, c: Choice, out: Out, r: Run)
    requires Ready(run, row, c) && run.pc == Admit(AdmitCleanup)
    requires out == FromAdmitCleanup(run, row, c) && out.Next? && r == Struck(run, row, c, out)
    ensures RowInv(r, out.row) && StreamInv(r, out.row)
  {
    hide SlipsAt, Joined;
    NoSlip(run, row, c);
  }

  lemma AdmitOverKeeps(run: Run, row: Option<Row>, c: Choice, out: Out, r: Run)
    requires Ready(run, row, c) && run.pc.AdmitOver?
    requires out == FromAdmitOver(run, row, c) && out.Next? && r == Struck(run, row, c, out)
    ensures RowInv(r, out.row) && StreamInv(r, out.row)
  {
    hide SlipsAt, Joined;
    NoSlip(run, row, c);
  }

  lemma NewKeeps(run: Run, row: Option<Row>, c: Choice, out: Out, r: Run)
    requires Ready(run, row, c) && run.pc.New?
    requires out == FromNew(run, row, c) && out.Next? && r == Struck(run, row, c, out)
    ensures RowInv(r, out.row) && StreamInv(r, out.row)
  {
  }

  lemma WaitKeeps(run: Run, row: Option<Row>, free: bool, c: Choice, out: Out, r: Run)
    requires Ready(run, row, c) && run.pc.Wait?
    requires out == FromWait(run, row, free, c) && out.Next? && r == Struck(run, row, c, out)
    ensures RowInv(r, out.row) && StreamInv(r, out.row)
  {
    hide SlipsAt, Joined;
    NoSlip(run, row, c);
  }

  lemma UndoKeeps(run: Run, row: Option<Row>, c: Choice, out: Out, r: Run)
    requires Ready(run, row, c) && run.pc.Undo?
    requires out == FromUndo(run, row, c) && out.Next? && r == Struck(run, row, c, out)
    ensures RowInv(r, out.row) && StreamInv(r, out.row)
  {
  }

  lemma ClaimKeeps(run: Run, row: Option<Row>, c: Choice, out: Out, r: Run)
    requires Ready(run, row, c) && run.pc == Exec(Claim)
    requires out == FromClaim(run, row, c) && out.Next? && r == Struck(run, row, c, out)
    ensures RowInv(r, out.row) && StreamInv(r, out.row)
  {
    hide SlipsAt, Joined;
    NoSlip(run, row, c);
  }

  lemma ClaimLostRow(run: Run, row: Option<Row>, verdict: Event, c: Choice, out: Out, r: Run)
    requires Ready(run, row, c) && run.pc == Exec(ClaimLost)
    requires IsVerdict(verdict, row)
    requires out == FromLost(run, row, verdict, c) && out.Next? && r == Struck(run, row, c, out)
    ensures RowInv(r, out.row)
  {
    hide SlipsAt, Joined;
    LostSlips(run, row, c);
  }

  lemma ClaimLostStream(run: Run, row: Option<Row>, verdict: Event, c: Choice, out: Out, r: Run)
    requires Ready(run, row, c) && run.pc == Exec(ClaimLost)
    requires IsVerdict(verdict, row)
    requires out == FromLost(run, row, verdict, c) && out.Next? && r == Struck(run, row, c, out)
    ensures StreamInv(r, out.row)
  {
    hide SlipsAt, Joined;
    LostSlips(run, row, c);
  }

  lemma ClaimLostKeeps(run: Run, row: Option<Row>, verdict: Event, c: Choice, out: Out, r: Run)
    requires Ready(run, row, c) && run.pc == Exec(ClaimLost)
    requires IsVerdict(verdict, row)
    requires out == FromLost(run, row, verdict, c) && out.Next? && r == Struck(run, row, c, out)
    ensures RowInv(r, out.row) && StreamInv(r, out.row)
  {
    hide Ready, RowInv, StreamInv, IsVerdict, FromLost, Struck;
    ClaimLostRow(run, row, verdict, c, out, r);
    ClaimLostStream(run, row, verdict, c, out, r);
  }

  lemma BusyKeeps(run: Run, row: Option<Row>, c: Choice, out: Out, r: Run)
    requires Ready(run, row, c) && run.pc == Exec(Busy)
    requires out == FromBusy(run, row, c) && out.Next? && r == Struck(run, row, c, out)
    ensures RowInv(r, out.row) && StreamInv(r, out.row)
  {
    hide SlipsAt, Joined;
    NoSlip(run, row, c);
  }

  lemma GraphKeeps(run: Run, row: Option<Row>, c: Choice, out: Out, r: Run)
    requires Ready(run, row, c) && run.pc == Exec(Graph)
    requires out == FromGraph(run, row, c) && out.Next? && r == Struck(run, row, c, out)
    ensures RowInv(r, out.row) && StreamInv(r, out.row)
    ensures Outputs(r.events) == Outputs(run.events) + if c.Emit? then [c.name] else []
  {
  }

  lemma SaveKeeps(run: Run, row: Option<Row>, c: Choice, out: Out, r: Run)
    requires Ready(run, row, c) && run.pc == Exec(Save)
    requires out == FromSave(run, row, c) && out.Next? && r == Struck(run, row, c, out)
    ensures RowInv(r, out.row) && StreamInv(r, out.row)
  {
    hide SlipsAt, Joined;
    NoSlip(run, row, c);
  }

  lemma SaveLostRow(run: Run, row: Option<Row>, verdict: Event, c: Choice, out: Out, r: Run)
    requires Ready(run, row, c) && run.pc == Exec(SaveLost)
    requires IsVerdict(verdict, row)
    requires out == FromLost(run, row, verdict, c) && out.Next? && r == Struck(run, row, c, out)
    ensures RowInv(r, out.row)
  {
    hide SlipsAt, Joined;
    LostSlips(run, row, c);
  }

  lemma SaveLostStream(run: Run, row: Option<Row>, verdict: Event, c: Choice, out: Out, r: Run)
    requires Ready(run, row, c) && run.pc == Exec(SaveLost)
    requires IsVerdict(verdict, row)
    requires out == FromLost(run, row, verdict, c) && out.Next? && r == Struck(run, row, c, out)
    ensures StreamInv(r, out.row)
  {
    hide SlipsAt, Joined;
    LostSlips(run, row, c);
  }

  lemma SaveLostKeeps(run: Run, row: Option<Row>, verdict: Event, c: Choice, out: Out, r: Run)
    requires Ready(run, row, c) && run.pc == Exec(SaveLost)
    requires IsVerdict(verdict, row)
    requires out == FromLost(run, row, verdict, c) && out.Next? && r == Struck(run, row, c, out)
    ensures RowInv(r, out.row) && StreamInv(r, out.row)
  {
    hide Ready, RowInv, StreamInv, IsVerdict, FromLost, Struck;
    SaveLostRow(run, row, verdict, c, out, r);
    SaveLostStream(run, row, verdict, c, out, r);
  }

  lemma SettleKeeps(run: Run, row: Option<Row>, c: Choice, out: Out, r: Run)
    requires Ready(run, row, c) && run.pc == Exec(Settle)
    requires out == FromSettle(run, row, c) && out.Next? && r == Struck(run, row, c, out)
    ensures RowInv(r, out.row) && StreamInv(r, out.row)
  {
    hide SlipsAt, Joined;
    NoSlip(run, row, c);
  }

  lemma TallyKeeps(run: Run, row: Option<Row>, c: Choice, out: Out, r: Run)
    requires Ready(run, row, c) && run.pc == Exec(Tally)
    requires out == FromTally(run, row, c) && out.Next? && r == Struck(run, row, c, out)
    ensures RowInv(r, out.row) && StreamInv(r, out.row)
  {
    hide SlipsAt, Joined;
    NoSlip(run, row, c);
  }

  lemma FailRow(run: Run, row: Option<Row>, c: Choice, out: Out, r: Run)
    requires Ready(run, row, c) && run.pc == Exec(Fail)
    requires out == FromFail(run, row, c) && out.Next? && r == Struck(run, row, c, out)
    ensures RowInv(r, out.row)
  {
    hide SlipsAt, Joined;
    FailSlips(run, row, c);
    assert out.row.Some? ==> row.Some?;
    assert Takes(out.row) ==> Takes(row) && !Lands(c);
  }

  lemma FailStream(run: Run, row: Option<Row>, c: Choice, out: Out, r: Run)
    requires Ready(run, row, c) && run.pc == Exec(Fail)
    requires out == FromFail(run, row, c) && out.Next? && r == Struck(run, row, c, out)
    ensures StreamInv(r, out.row)
  {
    hide SlipsAt, Joined;
    FailSlips(run, row, c);
  }

  lemma FailKeeps(run: Run, row: Option<Row>, c: Choice, out: Out, r: Run)
    requires Ready(run, row, c) && run.pc == Exec(Fail)
    requires out == FromFail(run, row, c) && out.Next? && r == Struck(run, row, c, out)
    ensures RowInv(r, out.row) && StreamInv(r, out.row)
  {
    hide Ready, RowInv, StreamInv, FromFail, Struck;
    FailRow(run, row, c, out, r);
    FailStream(run, row, c, out, r);
  }

  lemma FailLostRow(run: Run, row: Option<Row>, verdict: Event, c: Choice, out: Out, r: Run)
    requires Ready(run, row, c) && run.pc == Exec(FailLost)
    requires IsVerdict(verdict, row)
    requires out == FromFailLost(run, row, verdict, c) && out.Next? && r == Struck(run, row, c, out)
    ensures RowInv(r, out.row)
  {
    hide SlipsAt, Joined;
    FailSlips(run, row, c);
  }

  lemma FailLostStream(run: Run, row: Option<Row>, verdict: Event, c: Choice, out: Out, r: Run)
    requires Ready(run, row, c) && run.pc == Exec(FailLost)
    requires IsVerdict(verdict, row)
    requires out == FromFailLost(run, row, verdict, c) && out.Next? && r == Struck(run, row, c, out)
    ensures StreamInv(r, out.row)
  {
    hide SlipsAt, Joined;
    FailSlips(run, row, c);
  }

  lemma FailLostKeeps(run: Run, row: Option<Row>, verdict: Event, c: Choice, out: Out, r: Run)
    requires Ready(run, row, c) && run.pc == Exec(FailLost)
    requires IsVerdict(verdict, row)
    requires out == FromFailLost(run, row, verdict, c) && out.Next? && r == Struck(run, row, c, out)
    ensures RowInv(r, out.row) && StreamInv(r, out.row)
  {
    hide Ready, RowInv, StreamInv, IsVerdict, FromFailLost, Struck;
    FailLostRow(run, row, verdict, c, out, r);
    FailLostStream(run, row, verdict, c, out, r);
  }

  lemma FailThreadKeeps(run: Run, row: Option<Row>, c: Choice, out: Out, r: Run)
    requires Ready(run, row, c) && run.pc == Exec(FailThread)
    requires out == FromFailThread(run, row, c) && out.Next? && r == Struck(run, row, c, out)
    ensures RowInv(r, out.row) && StreamInv(r, out.row)
  {
    hide SlipsAt, Joined;
    NoSlip(run, row, c);
  }

  lemma OverKeeps(run: Run, row: Option<Row>, c: Choice, out: Out, r: Run)
    requires Ready(run, row, c) && run.pc.Over?
    requires out == FromOver(run, row, c) && out.Next? && r == Struck(run, row, c, out)
    ensures RowInv(r, out.row) && StreamInv(r, out.row)
  {
    hide SlipsAt, Joined;
    NoSlip(run, row, c);
  }

  lemma MarkRow(run: Run, row: Option<Row>, c: Choice, out: Out, r: Run)
    requires Ready(run, row, c) && run.pc == Marked(Mark)
    requires out == FromMark(run, row, c) && out.Next? && r == Struck(run, row, c, out)
    ensures RowInv(r, out.row)
  {
    hide SlipsAt, Joined;
    FailSlips(run, row, c);
  }

  lemma MarkStream(run: Run, row: Option<Row>, c: Choice, out: Out, r: Run)
    requires Ready(run, row, c) && run.pc == Marked(Mark)
    requires out == FromMark(run, row, c) && out.Next? && r == Struck(run, row, c, out)
    ensures StreamInv(r, out.row)
  {
    hide SlipsAt, Joined;
    FailSlips(run, row, c);
  }

  lemma MarkKeeps(run: Run, row: Option<Row>, c: Choice, out: Out, r: Run)
    requires Ready(run, row, c) && run.pc == Marked(Mark)
    requires out == FromMark(run, row, c) && out.Next? && r == Struck(run, row, c, out)
    ensures RowInv(r, out.row) && StreamInv(r, out.row)
  {
    hide Ready, RowInv, StreamInv, FromMark, Struck;
    MarkRow(run, row, c, out, r);
    MarkStream(run, row, c, out, r);
  }

  lemma MarkLostKeeps(run: Run, row: Option<Row>, verdict: Event, c: Choice, out: Out, r: Run)
    requires Ready(run, row, c) && run.pc == Marked(MarkLost)
    requires IsVerdict(verdict, row)
    requires out == FromMarkLost(run, row, verdict, c) && out.Next? && r == Struck(run, row, c, out)
    ensures RowInv(r, out.row) && StreamInv(r, out.row)
  {
    hide SlipsAt, Joined;
    FailSlips(run, row, c);
  }

  lemma MarkThreadKeeps(run: Run, row: Option<Row>, c: Choice, out: Out, r: Run)
    requires Ready(run, row, c) && run.pc == Marked(MarkThread)
    requires out == FromMarkThread(run, row, c) && out.Next? && r == Struck(run, row, c, out)
    ensures RowInv(r, out.row) && StreamInv(r, out.row)
  {
    hide SlipsAt, Joined;
    NoSlip(run, row, c);
  }

  lemma ResettleKeeps(run: Run, row: Option<Row>, c: Choice, out: Out, r: Run)
    requires Ready(run, row, c) && run.pc == Marked(Resettle)
    requires out == FromResettle(run, row, c) && out.Next? && r == Struck(run, row, c, out)
    ensures RowInv(r, out.row) && StreamInv(r, out.row)
  {
    hide SlipsAt, Joined;
    NoSlip(run, row, c);
  }

  lemma CleanupKeeps(run: Run, row: Option<Row>, c: Choice, out: Out, r: Run)
    requires Ready(run, row, c) && run.pc.Cleanup?
    requires out == FromCleanup(run, row, c) && out.Next? && r == Struck(run, row, c, out)
    ensures RowInv(r, out.row) && StreamInv(r, out.row)
  {
    hide SlipsAt, Joined;
    NoSlip(run, row, c);
  }

  lemma AdmissionKeeps(run: Run, row: Option<Row>, free: bool, c: Choice, out: Out, r: Run)
    requires Ready(run, row, c) && (run.pc.Inserting? || Admitting(run) || run.pc.AdmitOver?)
    requires out == ResumeAdmission(run, row, free, c) && out.Next? && r == Struck(run, row, c, out)
    ensures RowInv(r, out.row) && StreamInv(r, out.row)
  {
    hide Ready, RowInv, StreamInv, Struck, IsVerdict, FromInserting, FromAdmitNew, FromAdmitWait, FromAdmitInsert,
      FromAdmitUndo, FromAdmitCleanup, FromAdmitOver;
    match run.pc
    case Inserting => InsertingKeeps(run, row, c, out, r);
    case Admit(AdmitNew) => AdmitNewKeeps(run, row, c, out, r);
    case Admit(AdmitWait) => AdmitWaitKeeps(run, row, free, c, out, r);
    case Admit(AdmitInsert) => AdmitInsertKeeps(run, row, c, out, r);
    case Admit(AdmitUndo) => AdmitUndoKeeps(run, row, c, out, r);
    case Admit(AdmitCleanup) => AdmitCleanupKeeps(run, row, c, out, r);
    case AdmitOver => AdmitOverKeeps(run, row, c, out, r);
  }

  lemma MainKeeps(run: Run, row: Option<Row>, verdict: Event, free: bool, c: Choice, out: Out, r: Run)
    requires Ready(run, row, c) && (run.pc.New? || run.pc.Wait? || run.pc.Undo? || Executing(run))
    requires IsVerdict(verdict, row)
    requires out == ResumeMain(run, row, verdict, free, c) && out.Next? && r == Struck(run, row, c, out)
    ensures RowInv(r, out.row) && StreamInv(r, out.row)
  {
    hide Ready, RowInv, StreamInv, Struck, IsVerdict, FromNew, FromWait, FromUndo, FromClaim, FromLost, FromBusy,
      FromGraph, FromSave, FromSettle, FromTally, FromFail, FromFailLost, FromFailThread;
    match run.pc
    case New => NewKeeps(run, row, c, out, r);
    case Wait => WaitKeeps(run, row, free, c, out, r);
    case Undo => UndoKeeps(run, row, c, out, r);
    case Exec(Claim) => ClaimKeeps(run, row, c, out, r);
    case Exec(ClaimLost) => ClaimLostKeeps(run, row, verdict, c, out, r);
    case Exec(Busy) => BusyKeeps(run, row, c, out, r);
    case Exec(Graph) => GraphKeeps(run, row, c, out, r);
    case Exec(Save) => SaveKeeps(run, row, c, out, r);
    case Exec(SaveLost) => SaveLostKeeps(run, row, verdict, c, out, r);
    case Exec(Settle) => SettleKeeps(run, row, c, out, r);
    case Exec(Tally) => TallyKeeps(run, row, c, out, r);
    case Exec(Fail) => FailKeeps(run, row, c, out, r);
    case Exec(FailLost) => FailLostKeeps(run, row, verdict, c, out, r);
    case Exec(FailThread) => FailThreadKeeps(run, row, c, out, r);
  }

  lemma EndKeeps(run: Run, row: Option<Row>, verdict: Event, c: Choice, out: Out, r: Run)
    requires Ready(run, row, c) && (run.pc.Over? || Marking(run) || run.pc.Cleanup?)
    requires IsVerdict(verdict, row)
    requires out == ResumeEnd(run, row, verdict, c) && out.Next? && r == Struck(run, row, c, out)
    ensures RowInv(r, out.row) && StreamInv(r, out.row)
  {
    hide Ready, RowInv, StreamInv, Struck, IsVerdict, FromOver, FromMark, FromMarkLost, FromMarkThread, FromResettle,
      FromCleanup;
    match run.pc
    case Over => OverKeeps(run, row, c, out, r);
    case Marked(Mark) => MarkKeeps(run, row, c, out, r);
    case Marked(MarkLost) => MarkLostKeeps(run, row, verdict, c, out, r);
    case Marked(MarkThread) => MarkThreadKeeps(run, row, c, out, r);
    case Marked(Resettle) => ResettleKeeps(run, row, c, out, r);
    case Cleanup => CleanupKeeps(run, row, c, out, r);
  }

  // ... and what it does to its tasks, a few stages at a time.

  lemma QueueEffects(run: Run, row: Option<Row>, free: bool, c: Choice, out: Out)
    requires KindFits(run) && (run.pc == Admit(AdmitNew) || run.pc == Admit(AdmitWait))
    requires out == ResumeAdmission(run, row, free, c) && out.Next?
    ensures Effects(run, row, c, out)
  {
  }

  lemma QueueFollows(run: Run, row: Option<Row>, free: bool, c: Choice, out: Out)
    requires KindFits(run) && (run.pc == Admit(AdmitNew) || run.pc == Admit(AdmitWait))
    requires out == ResumeAdmission(run, row, free, c) && out.Next?
    ensures Follows(run, c, out.run)
  {
  }

  lemma InsertEffects(run: Run, row: Option<Row>, free: bool, c: Choice, out: Out)
    requires KindFits(run) && (run.pc.Inserting? || run.pc == Admit(AdmitInsert))
    requires out == ResumeAdmission(run, row, free, c) && out.Next?
    ensures Effects(run, row, c, out)
  {
  }

  lemma InsertFollows(run: Run, row: Option<Row>, free: bool, c: Choice, out: Out)
    requires KindFits(run) && (run.pc.Inserting? || run.pc == Admit(AdmitInsert))
    requires out == ResumeAdmission(run, row, free, c) && out.Next?
    ensures Follows(run, c, out.run)
  {
  }

  lemma ExitEffects(run: Run, row: Option<Row>, free: bool, c: Choice, out: Out)
    requires KindFits(run) && (run.pc == Admit(AdmitUndo) || run.pc == Admit(AdmitCleanup) || run.pc.AdmitOver?)
    requires out == ResumeAdmission(run, row, free, c) && out.Next?
    ensures Effects(run, row, c, out)
  {
  }

  lemma ExitFollows(run: Run, row: Option<Row>, free: bool, c: Choice, out: Out)
    requires KindFits(run) && (run.pc == Admit(AdmitUndo) || run.pc == Admit(AdmitCleanup) || run.pc.AdmitOver?)
    requires out == ResumeAdmission(run, row, free, c) && out.Next?
    ensures Follows(run, c, out.run)
  {
  }

  lemma StartEffects(run: Run, row: Option<Row>, verdict: Event, free: bool, c: Choice, out: Out)
    requires KindFits(run) && (run.pc.New? || run.pc.Wait? || run.pc.Undo?)
    requires out == ResumeMain(run, row, verdict, free, c) && out.Next?
    ensures Effects(run, row, c, out)
  {
  }

  lemma StartFollows(run: Run, row: Option<Row>, verdict: Event, free: bool, c: Choice, out: Out)
    requires KindFits(run) && (run.pc.New? || run.pc.Wait? || run.pc.Undo?)
    requires out == ResumeMain(run, row, verdict, free, c) && out.Next?
    ensures Follows(run, c, out.run)
  {
  }

  lemma ClaimEffects(run: Run, row: Option<Row>, verdict: Event, free: bool, c: Choice, out: Out)
    requires KindFits(run) && (run.pc == Exec(Claim) || run.pc == Exec(ClaimLost) || run.pc == Exec(Busy))
    requires out == ResumeMain(run, row, verdict, free, c) && out.Next?
    ensures Effects(run, row, c, out)
  {
  }

  lemma ClaimFollows(run: Run, row: Option<Row>, verdict: Event, free: bool, c: Choice, out: Out)
    requires KindFits(run) && (run.pc == Exec(Claim) || run.pc == Exec(ClaimLost) || run.pc == Exec(Busy))
    requires out == ResumeMain(run, row, verdict, free, c) && out.Next?
    ensures Follows(run, c, out.run)
  {
  }

  lemma GraphEffects(run: Run, row: Option<Row>, verdict: Event, free: bool, c: Choice, out: Out)
    requires KindFits(run) && run.pc == Exec(Graph)
    requires out == ResumeMain(run, row, verdict, free, c) && out.Next?
    ensures Effects(run, row, c, out)
  {
  }

  lemma GraphFollows(run: Run, row: Option<Row>, verdict: Event, free: bool, c: Choice, out: Out)
    requires KindFits(run) && run.pc == Exec(Graph)
    requires out == ResumeMain(run, row, verdict, free, c) && out.Next?
    ensures Follows(run, c, out.run)
  {
  }

  lemma SaveEffects(run: Run, row: Option<Row>, verdict: Event, free: bool, c: Choice, out: Out)
    requires KindFits(run) && (run.pc == Exec(Save) || run.pc == Exec(SaveLost))
    requires out == ResumeMain(run, row, verdict, free, c) && out.Next?
    ensures Effects(run, row, c, out)
  {
  }

  lemma SaveFollows(run: Run, row: Option<Row>, verdict: Event, free: bool, c: Choice, out: Out)
    requires KindFits(run) && (run.pc == Exec(Save) || run.pc == Exec(SaveLost))
    requires out == ResumeMain(run, row, verdict, free, c) && out.Next?
    ensures Follows(run, c, out.run)
  {
  }

  lemma SettleEffects(run: Run, row: Option<Row>, verdict: Event, free: bool, c: Choice, out: Out)
    requires KindFits(run) && (run.pc == Exec(Settle) || run.pc == Exec(Tally))
    requires out == ResumeMain(run, row, verdict, free, c) && out.Next?
    ensures Effects(run, row, c, out)
  {
  }

  lemma SettleFollows(run: Run, row: Option<Row>, verdict: Event, free: bool, c: Choice, out: Out)
    requires KindFits(run) && (run.pc == Exec(Settle) || run.pc == Exec(Tally))
    requires out == ResumeMain(run, row, verdict, free, c) && out.Next?
    ensures Follows(run, c, out.run)
  {
  }

  lemma FailEffects(run: Run, row: Option<Row>, verdict: Event, free: bool, c: Choice, out: Out)
    requires KindFits(run) && (run.pc == Exec(Fail) || run.pc == Exec(FailLost) || run.pc == Exec(FailThread))
    requires out == ResumeMain(run, row, verdict, free, c) && out.Next?
    ensures Effects(run, row, c, out)
  {
  }

  lemma FailFollows(run: Run, row: Option<Row>, verdict: Event, free: bool, c: Choice, out: Out)
    requires KindFits(run) && (run.pc == Exec(Fail) || run.pc == Exec(FailLost) || run.pc == Exec(FailThread))
    requires out == ResumeMain(run, row, verdict, free, c) && out.Next?
    ensures Follows(run, c, out.run)
  {
  }

  lemma MarkEffects(run: Run, row: Option<Row>, verdict: Event, c: Choice, out: Out)
    requires KindFits(run)
    requires
      || run.pc == Marked(Mark)
      || run.pc == Marked(MarkLost)
      || run.pc == Marked(MarkThread)
      || run.pc == Marked(Resettle)
    requires out == ResumeEnd(run, row, verdict, c) && out.Next?
    ensures Effects(run, row, c, out)
  {
  }

  lemma MarkFollows(run: Run, row: Option<Row>, verdict: Event, c: Choice, out: Out)
    requires KindFits(run)
    requires
      || run.pc == Marked(Mark)
      || run.pc == Marked(MarkLost)
      || run.pc == Marked(MarkThread)
      || run.pc == Marked(Resettle)
    requires out == ResumeEnd(run, row, verdict, c) && out.Next?
    ensures Follows(run, c, out.run)
  {
  }

  lemma OverEffects(run: Run, row: Option<Row>, verdict: Event, c: Choice, out: Out)
    requires KindFits(run) && (run.pc.Over? || run.pc.Cleanup?)
    requires out == ResumeEnd(run, row, verdict, c) && out.Next?
    ensures Effects(run, row, c, out)
  {
  }

  lemma OverFollows(run: Run, row: Option<Row>, verdict: Event, c: Choice, out: Out)
    requires KindFits(run) && (run.pc.Over? || run.pc.Cleanup?)
    requires out == ResumeEnd(run, row, verdict, c) && out.Next?
    ensures Follows(run, c, out.run)
  {
  }

  lemma ResumeMoves(id: RunId, run: Run, row: Option<Row>, free: bool, c: Choice, out: Out)
    requires KindFits(run) && out == Resume(id, run, row, free, c) && out.Next?
    ensures Effects(run, row, c, out) && Follows(run, c, out.run)
  {
    hide KindFits, Effects, Follows, ResumeAdmission, ResumeMain, ResumeEnd, Verdict;
    var e := Verdict(id, row);
    match run.pc
    case Admit(AdmitNew) | Admit(AdmitWait) =>
      QueueEffects(run, row, free, c, out);
      QueueFollows(run, row, free, c, out);
    case Inserting | Admit(AdmitInsert) =>
      InsertEffects(run, row, free, c, out);
      InsertFollows(run, row, free, c, out);
    case Admit(AdmitUndo) | Admit(AdmitCleanup) | AdmitOver =>
      ExitEffects(run, row, free, c, out);
      ExitFollows(run, row, free, c, out);
    case New | Wait | Undo =>
      StartEffects(run, row, e, free, c, out);
      StartFollows(run, row, e, free, c, out);
    case Exec(Claim) | Exec(ClaimLost) | Exec(Busy) =>
      ClaimEffects(run, row, e, free, c, out);
      ClaimFollows(run, row, e, free, c, out);
    case Exec(Graph) =>
      GraphEffects(run, row, e, free, c, out);
      GraphFollows(run, row, e, free, c, out);
    case Exec(Save) | Exec(SaveLost) =>
      SaveEffects(run, row, e, free, c, out);
      SaveFollows(run, row, e, free, c, out);
    case Exec(Settle) | Exec(Tally) =>
      SettleEffects(run, row, e, free, c, out);
      SettleFollows(run, row, e, free, c, out);
    case Exec(Fail) | Exec(FailLost) | Exec(FailThread) =>
      FailEffects(run, row, e, free, c, out);
      FailFollows(run, row, e, free, c, out);
    case Over | Cleanup =>
      OverEffects(run, row, e, c, out);
      OverFollows(run, row, e, c, out);
    case Marked(Mark) | Marked(MarkLost) | Marked(MarkThread) | Marked(Resettle) =>
      MarkEffects(run, row, e, c, out);
      MarkFollows(run, row, e, c, out);
  }

  lemma ResumeKeeps(id: RunId, run: Run, row: Option<Row>, free: bool, c: Choice, out: Out, r: Run)
    requires Ready(run, row, c) && out == Resume(id, run, row, free, c) && out.Next? && r == Struck(run, row, c, out)
    ensures RowInv(r, out.row) && StreamInv(r, out.row)
  {
    hide Ready, RowInv, StreamInv, Struck, ResumeAdmission, ResumeMain, ResumeEnd, Verdict, IsVerdict;
    VerdictIsOne(id, row);
    if run.pc.Inserting? || Admitting(run) || run.pc.AdmitOver? {
      AdmissionKeeps(run, row, free, c, out, r);
    } else if run.pc.Over? || Marking(run) || run.pc.Cleanup? {
      EndKeeps(run, row, Verdict(id, row), c, out, r);
    } else {
      MainKeeps(run, row, Verdict(id, row), free, c, out, r);
    }
  }

  /** What becomes of the execution lock and of a cancel follows from the effects of a
      step, whatever the stage ... */
  lemma TaskKeeps(run: Run, row: Option<Row>, c: Choice, out: Out)
    requires TaskInv(run) && c.Land? == run.doomed && out.Next?
    requires Effects(run, row, c, out) && Follows(run, c, out.run)
    ensures TaskInv(Struck(run, row, c, out))
  {
    hide SlipsAt, Joined, Rank, Settled, InMainTask, Finalizing;
  }

  /** ... and so does who has called `after_run`. */
  lemma OwnerKeeps(run: Run, row: Option<Row>, c: Choice, out: Out)
    requires CleanupInv(run) && KindFits(run) && out.Next?
    requires !BeforeSpawn(out.run) && out.run.kind == run.kind && Follows(run, c, out.run)
    ensures CleanupInv(Struck(run, row, c, out))
  {
    hide Strands, LeavesOpen, TerminalName;
  }

  lemma StruckMoves(run: Run, row: Option<Row>, c: Choice, out: Out)
    requires out.Next? && Effects(run, row, c, out)
    ensures Effects(run, row, c, out.(run := Struck(run, row, c, out)))
  {
    hide SlipsAt, Joined, Settled;
    var r := Struck(run, row, c, out);
    assert r.pc == out.run.pc && r.kind == out.run.kind;
  }

  lemma StepKeeps(id: RunId, run: Run, row: Option<Row>, free: bool, c: Choice)
    requires RunInv(run, row)
    ensures
      var out := Step(id, run, row, free, c);
      out.Next? ==> RunInv(out.run, out.row) && Effects(run, row, c, out)
  {
    hide RowInv, StreamInv, CleanupInv, Follows, Effects, Resume, Struck;
    var out := Resume(id, run, row, free, c);
    if c.Land? == run.doomed && out.Next? {
      ResumeKeeps(id, run, row, free, c, out, Struck(run, row, c, out));
      ResumeMoves(id, run, row, free, c, out);
      assert !BeforeSpawn(out.run) && out.run.kind == run.kind by { EffectsStay(run, row, c, out); }
      TaskKeeps(run, row, c, out);
      OwnerKeeps(run, row, c, out);
      StruckMoves(run, row, c, out);
    }
  }

  lemma EffectsStay(run: Run, row: Option<Row>, c: Choice, out: Out)
    requires out.Next? && Effects(run, row, c, out)
    ensures !BeforeSpawn(out.run) && out.run.kind == run.kind
  {
  }

  /** The same, told by phases. */
  lemma EffectsPhases(run: Run, row: Option<Row>, c: Choice, out: Out)
    requires out.Next? && Effects(run, row, c, out) && KindFits(run)
    ensures
      var p, q := PhaseOf(run), PhaseOf(out.run);
      && PhaseMoves(p, q) && !q.Early? && (p.Early? ==> !q.InAdmission?)
      && (q.MainEnded? ==> run.kind.Background?) && (q.InFinalizer? ==> run.kind.Streaming?)
      && (out.handoff.Spawn? <==> q.InMain? && !p.InMain?)
      && (out.handoff.Forget? <==> q.AllEnded? && !p.Early?)
  {
    hide Rank, Settled, Holds;
  }

  lemma MeddlingKeeps(run: Run, row: Option<Row>, row': Option<Row>)
    requires RunInv(run, row) && Meddles(row, row')
    ensures RunInv(run, row')
  {
    hide CleanupInv, TaskInv, Served, Forged;
  }

  predicate Unslipped(run: Run, r: Run) { r.kind == run.kind && Joined(run.slips, NONE) == r.slips }

  lemma SlipsStay(run: Run)
    ensures Unslipped(run, run)
  {
  }

  lemma CancelKeeps(run: Run, row: Option<Row>)
    requires RunInv(run, row)
    ensures RunInv(Doomed(run), row) && Unslipped(run, Doomed(run))
  {
  }

  lemma AnswerKeeps(run: Run, row: Option<Row>)
    requires RunInv(run, row) && MayAnswer(run)
    ensures RunInv(Answered(run), row) && Unslipped(run, Answered(run))
  {
  }

  lemma RegisterKeeps(run: Run, row: Option<Row>)
    requires RunInv(run, row) && run.pc.Resolve?
    ensures RunInv(Registered(run), row) && Unslipped(run, Registered(run))
  {
  }

  lemma EnterKeeps(run: Run, row: Option<Row>)
    requires RunInv(run, row) && run.pc.Arrive?
    ensures RunInv(run.(pc := Resolve), row) && Unslipped(run, run.(pc := Resolve))
  {
  }

  lemma GiveUpKeeps(run: Run, row: Option<Row>)
    requires RunInv(run, row) && (run.pc.Arrive? || run.pc.Resolve?)
    ensures RunInv(GaveUp(run), row) && Unslipped(run, GaveUp(run))
  {
  }

  function SlipsIn(run: Run, row: Option<Row>, a: Act): Slips { if a.Await? then SlipsAt(run, row, a.c) else NONE }

  /** What every act keeps: the invariant, the kind of the run and the record of its slips. */
  ghost predicate Kept(run: Run, row: Option<Row>, a: Act, out: Out)
    requires out.Next?
  {
    && RunInv(out.run, out.row)
    && out.run.kind == run.kind
    && out.run.slips == Joined(run.slips, SlipsIn(run, row, a))
  }

  lemma ActKeeps(id: RunId, run: Run, row: Option<Row>, a: Act)
    requires RunInv(run, row)
    ensures var out := Acted(id, run, row, a); out.Next? ==> Kept(run, row, a, out)
  {
    hide RunInv, Step, SlipsAt, Joined, Meddles, MayAnswer, Effects, Doomed, Answered, Registered, GaveUp;
    match a
    case Enter => if run.pc.Arrive? { EnterKeeps(run, row); }
    case Register => if run.pc.Resolve? { RegisterKeeps(run, row); }
    case GiveUp => if run.pc.Arrive? || run.pc.Resolve? { GiveUpKeeps(run, row); }
    case Answer => if MayAnswer(run) { AnswerKeeps(run, row); }
    case Cancel => CancelKeeps(run, row);
    case Others(row') =>
      SlipsStay(run);
      if Meddles(row, row') { MeddlingKeeps(run, row, row'); }
    case Await(c, free) =>
      StepKeeps(id, run, row, free, c);
      if Step(id, run, row, free, c).Next? { StepStays(id, run, row, free, c); }
  }

  lemma StepStays(id: RunId, run: Run, row: Option<Row>, free: bool, c: Choice)
    requires Step(id, run, row, free, c).Next? && Effects(run, row, c, Step(id, run, row, free, c))
    ensures
      var r := Step(id, run, row, free, c).run;
      r.kind == run.kind && r.slips == Joined(run.slips, SlipsAt(run, row, c))
  {
    hide Resume, SlipsAt, Joined;
    EffectsStay(run, row, c, Step(id, run, row, free, c));
  }

  /** What went wrong in a life, told from its acts. */
  function SlipsOf(id: RunId, run: Run, row: Option<Row>, acts: seq<Act>): Slips
    decreases |acts|
  {
    if acts == [] then NONE
    else
      var out := Acted(id, run, row, acts[0]);
      if out.Blocked? then NONE
      else Joined(SlipsIn(run, row, acts[0]), SlipsOf(id, out.run, out.row, acts[1..]))
  }

  lemma {:induction false} LivesKeep(id: RunId, run: Run, row: Option<Row>, acts: seq<Act>)
    requires RunInv(run, row)
    ensures
      var end := Lives(id, run, row, acts);
      end.Life? ==>
        && RunInv(end.run, end.row)
        && end.run.kind == run.kind
        && end.run.slips == Joined(run.slips, SlipsOf(id, run, row, acts))
    decreases |acts|
  {
    hide RunInv, Acted, SlipsIn;
    if acts != [] {
      var out := Acted(id, run, row, acts[0]);
      ActKeeps(id, run, row, acts[0]);
      if out.Next? { LivesKeep(id, out.run, out.row, acts[1..]); }
    }
  }

  lemma NewRunKeeps(kind: Kind)
    ensures RunInv(NewRun(kind), None)
  {
  }

  /** What a run's end is like, and what went wrong on the way. */
  lemma LifeInv(id: RunId, kind: Kind, acts: seq<Act>)
    ensures
      var end := Lives(id, NewRun(kind), None, acts);
      end.Life? ==>
        && RunInv(end.run, end.row)
        && end.run.kind == kind
        && end.run.slips == SlipsOf(id, NewRun(kind), None, acts)
  {
    hide RunInv;
    NewRunKeeps(kind);
    LivesKeep(id, NewRun(kind), None, acts);
  }

  /** A run that lost to a deletion says so, last. */
  predicate Told(id: RunId, run: Run) {
    run.slips.deleted ==> run.events.Then? && run.events.last == ErrorEvent(WasDeleted(id))
  }

  lemma OverIsSilent(run: Run, row: Option<Row>, c: Choice, out: Out)
    requires run.pc.Over? && out == FromOver(run, row, c) && out.Next?
    ensures out.run.events == run.events
  {
  }

  lemma CleanupIsSilent(run: Run, row: Option<Row>, c: Choice, out: Out)
    requires run.pc.Cleanup? && out == FromCleanup(run, row, c) && out.Next?
    ensures out.run.events == run.events
  {
  }

  lemma SilentAfterReport(id: RunId, run: Run, row: Option<Row>, free: bool, c: Choice, out: Out)
    requires run.pc.Over? || run.pc.Cleanup?
    requires out == Resume(id, run, row, free, c) && out.Next?
    ensures out.run.events == run.events
  {
    hide FromOver, FromCleanup, ResumeAdmission, ResumeMain, Verdict;
    if run.pc.Over? { OverIsSilent(run, row, c, out); } else { CleanupIsSilent(run, row, c, out); }
  }

  lemma LostSays(run: Run, row: Option<Row>, verdict: Event, out: Out)
    requires (run.pc == Exec(ClaimLost) || run.pc == Exec(SaveLost)) && run.kind.Streaming?
    requires out == FromLost(run, row, verdict, Go)
    ensures out.run.events == Then(run.events, verdict)
  {
  }

  lemma FailLostSays(run: Run, row: Option<Row>, verdict: Event, out: Out)
    requires run.pc == Exec(FailLost) && run.kind.Streaming? && out == FromFailLost(run, row, verdict, Go)
    ensures out.run.events == Then(run.events, verdict)
  {
  }

  lemma MarkLostSays(run: Run, row: Option<Row>, verdict: Event, out: Out)
    requires run.pc == Marked(MarkLost) && run.kind.Streaming? && out == FromMarkLost(run, row, verdict, Go)
    requires verdict.ErrorEvent?
    ensures out.run.events == Then(run.events, verdict)
  {
  }

  lemma DeletionIsReported(id: RunId, run: Run, row: Option<Row>, free: bool, out: Out)
    requires ToldLost(run) && run.kind.Streaming? && row.None?
    requires out == Resume(id, run, row, free, Go) && out.Next?
    ensures out.run.events == Then(run.events, ErrorEvent(WasDeleted(id)))
  {
    var verdict := Verdict(id, row);
    assert verdict == ErrorEvent(WasDeleted(id));
    hide FromLost, FromFailLost, FromMarkLost, ResumeAdmission, Verdict;
    match run.pc
    case Exec(FailLost) =>
      FailLostSays(run, row, verdict, out);
    case Marked(MarkLost) =>
      MarkLostSays(run, row, verdict, out);
    case _ =>
      LostSays(run, row, verdict, out);
  }

  lemma StepTells(id: RunId, run: Run, row: Option<Row>, free: bool, c: Choice)
    requires RunInv(run, row) && Told(id, run)
    ensures var out := Step(id, run, row, free, c); out.Next? ==> Told(id, out.run)
  {
    hide Resume, RowInv, CleanupInv, TaskInv, Served, Strands, LeavesOpen, Recording, ToldLost;
    var out := Resume(id, run, row, free, c);
    if c.Land? == run.doomed && out.Next? {
      GoneIsOver(id, run, row, free, c);
      if run.slips.deleted {
        SilentAfterReport(id, run, row, free, c, out);
      } else if run.kind.Streaming? && ToldLost(run) && c.Go? && row.None? {
        DeletionIsReported(id, run, row, free, out);
      }
    }
  }

  lemma GoneIsOver(id: RunId, run: Run, row: Option<Row>, free: bool, c: Choice)
    requires Resume(id, run, row, free, c).Next?
    ensures !run.pc.Gone?
  {
  }

  lemma ActTells(id: RunId, run: Run, row: Option<Row>, a: Act)
    requires RunInv(run, row) && Told(id, run)
    ensures var out := Acted(id, run, row, a); out.Next? ==> Told(id, out.run)
  {
    hide RunInv, Step, Meddles, MayAnswer;
    if a.Await? { StepTells(id, run, row, a.free, a.c); }
  }

  lemma {:induction false} LivesTell(id: RunId, run: Run, row: Option<Row>, acts: seq<Act>)
    requires RunInv(run, row) && Told(id, run)
    ensures var end := Lives(id, run, row, acts); end.Life? ==> Told(id, end.run)
    decreases |acts|
  {
    hide RunInv, Acted, Told, SlipsIn;
    if acts != [] {
      var out := Acted(id, run, row, acts[0]);
      ActKeeps(id, run, row, acts[0]);
      ActTells(id, run, row, acts[0]);
      if out.Next? { LivesTell(id, out.run, out.row, acts[1..]); }
    }
  }

  // ---------------------------------------------------------------- what one step says

  /** The failure handler has the exception that it is for. */
  predicate Failing(run: Run) {
    run.pc == Exec(Fail) || run.pc == Exec(FailLost) || run.pc == Exec(FailThread)
  }

  /** The row that an await writes, where it may write one. */
  function OwnWrite(run: Run): Option<Row> {
    match run.pc
    case Inserting | Admit(AdmitInsert) => Some(Row(Pending, Blank))
    case Admit(AdmitUndo) | Undo => Some(Row(Interrupted, NeverStarted))
    case Exec(Claim) => Some(Row(Running, Blank))
    case Exec(Save) => Some(Row(Success, Blank))
    case Exec(Fail) => Some(Row(Error, run.problem))
    case Marked(Mark) => Some(Row(Interrupted, RunInterrupted))
    case _ => None
  }

  /** A run reports what its write lost to, its exception, its saved success or its
      cancel; a cancel that lost to a success reports it from `Resettle` only. */
  predicate Earned(run: Run, c: Choice, verdict: Event, e: Event) {
    if ToldLost(run) && c.Go? then e == verdict && (Marking(run) ==> e != EndEvent(Success))
    else if Failing(run) then e == ErrorEvent(run.problem)
    else if run.pc == Exec(Tally) || run.pc == Marked(Resettle) then e == EndEvent(Success)
    else Marking(run) && e == EndEvent(Interrupted)
  }

  /** An await publishes at most one event: what the graph emits, the metadata before it,
      or the outcome. */
  predicate Publishes(run: Run, c: Choice, verdict: Event, r: Run) {
    if c.Emit? then run.pc == Exec(Graph) && r.events == Then(run.events, Output(c.name))
    else
      || r.events == run.events
      || (r.events.Then? && r.events.before == run.events
          && (Earned(run, c, verdict, r.events.last) || (run.pc == Exec(Busy) && r.events.last.Metadata?)))
  }

  /** The row changes by the write of the await only, and that takes an insert, or a row
      in flight. */
  predicate Writes(run: Run, row: Option<Row>, c: Choice, row': Option<Row>) {
    row' ==
      if Lands(c) && OwnWrite(run).Some? && (Takes(row) || run.pc.Inserting? || run.pc == Admit(AdmitInsert))
      then OwnWrite(run) else row
  }

  /** Where an exception makes the run fail: up to the report of its outcome, but for
      settling its thread, and for the failure handler itself. */
  predicate MayFail(run: Run) { Executing(run) && !Failing(run) && run.pc != Exec(Settle) }

  /** A run fails if, and only if, an await raises, and of that exception. */
  predicate Blames(run: Run, c: Choice, r: Run) {
    && (MayFail(run) && c.Raise? ==> r.pc == Exec(Fail))
    && (Failing(r) ==>
          if r.pc == Exec(Fail) then MayFail(run) && c.Raise? && r.problem == c.msg
          else run.pc == Exec(Fail) && !c.Raise? && r.problem == run.problem)
  }

  /** Inserted, and not claimed ... */
  predicate Queued(run: Run) {
    run.pc == Admit(AdmitUndo) || run.pc.New? || run.pc.Wait? || run.pc.Undo? || run.pc == Exec(Claim)
  }

  /** ... and claimed, without a final write. */
  predicate Working(run: Run) { run.pc == Exec(Busy) || run.pc == Exec(Graph) || run.pc == Exec(Save) }

  /** The insert and the claim lead there, and only a graph that has ended normally to
      the success. */
  predicate StartsClaimed(run: Run, row: Option<Row>, c: Choice, r: Run) {
    && (Queued(r) ==> run.pc.Inserting? || run.pc == Admit(AdmitInsert) || run.pc.New? || run.pc.Wait?)
    && (Working(r) ==> Working(run) || (run.pc == Exec(Claim) && c.Go? && Takes(row)))
    && (r.pc == Exec(Save) ==> run.pc == Exec(Graph) && c.Go?)
  }

  /** About to write its thread, after its final write. */
  predicate AtThread(run: Run) {
    || run.pc == Exec(Settle) || run.pc == Exec(FailThread)
    || run.pc == Marked(MarkThread) || run.pc == Marked(Resettle)
  }

  /** A final write that took effect is followed by a write of the thread, before anything
      is reported. */
  predicate Tends(run: Run, row: Option<Row>, c: Choice, r: Run) {
    && ((run.pc == Exec(Save) || run.pc == Exec(Fail) || run.pc == Marked(Mark)) && c.Go? && Takes(row) ==>
          AtThread(r) && r.events == run.events)
    && (r.pc == Exec(Tally) ==> run.pc == Exec(Settle))
  }

  predicate Records(run: Run, row: Option<Row>, c: Choice, verdict: Event, out: Out)
    requires out.Next?
  {
    && Publishes(run, c, verdict, out.run)
    && Writes(run, row, c, out.row)
    && Blames(run, c, out.run)
    && StartsClaimed(run, row, c, out.run)
    && Tends(run, row, c, out.run)
  }

  lemma InsertingRecords(run: Run, row: Option<Row>, verdict: Event, c: Choice, out: Out)
    requires run.pc.Inserting? && out == FromInserting(run, row, c) && out.Next?
    ensures Records(run, row, c, verdict, out)
  {
  }

  lemma AdmitNewRecords(run: Run, row: Option<Row>, verdict: Event, c: Choice, out: Out)
    requires run.pc == Admit(AdmitNew) && out == FromAdmitNew(run, row, c) && out.Next?
    ensures Records(run, row, c, verdict, out)
  {
  }

  lemma AdmitWaitRecords(run: Run, row: Option<Row>, verdict: Event, free: bool, c: Choice, out: Out)
    requires run.pc == Admit(AdmitWait) && out == FromAdmitWait(run, row, free, c) && out.Next?
    ensures Records(run, row, c, verdict, out)
  {
  }

  lemma AdmitInsertRecords(run: Run, row: Option<Row>, verdict: Event, c: Choice, out: Out)
    requires run.pc == Admit(AdmitInsert) && out == FromAdmitInsert(run, row, c) && out.Next?
    ensures Records(run, row, c, verdict, out)
  {
  }

  lemma AdmitUndoRecords(run: Run, row: Option<Row>, verdict: Event, c: Choice, out: Out)
    requires run.pc == Admit(AdmitUndo) && out == FromAdmitUndo(run, row, c) && out.Next?
    ensures Records(run, row, c, verdict, out)
  {
  }

  lemma AdmitCleanupRecords(run: Run, row: Option<Row>, verdict: Event, c: Choice, out: Out)
    requires run.pc == Admit(AdmitCleanup) && out == FromAdmitCleanup(run, row, c) && out.Next?
    ensures Records(run, row, c, verdict, out)
  {
  }

  lemma AdmitOverRecords(run: Run, row: Option<Row>, verdict: Event, c: Choice, out: Out)
    requires run.pc.AdmitOver? && out == FromAdmitOver(run, row, c) && out.Next?
    ensures Records(run, row, c, verdict, out)
  {
  }

  lemma NewRecords(run: Run, row: Option<Row>, verdict: Event, c: Choice, out: Out)
    requires run.pc.New? && out == FromNew(run, row, c) && out.Next?
    ensures Records(run, row, c, verdict, out)
  {
  }

  lemma WaitRecords(run: Run, row: Option<Row>, verdict: Event, free: bool, c: Choice, out: Out)
    requires run.pc.Wait? && out == FromWait(run, row, free, c) && out.Next?
    ensures Records(run, row, c, verdict, out)
  {
  }

  lemma UndoRecords(run: Run, row: Option<Row>, verdict: Event, c: Choice, out: Out)
    requires run.pc.Undo? && out == FromUndo(run, row, c) && out.Next?
    ensures Records(run, row, c, verdict, out)
  {
  }

  lemma ClaimRecords(run: Run, row: Option<Row>, verdict: Event, c: Choice, out: Out)
    requires run.pc == Exec(Claim) && out == FromClaim(run, row, c) && out.Next?
    ensures Records(run, row, c, verdict, out)
  {
  }

  lemma LostRecords(run: Run, row: Option<Row>, verdict: Event, c: Choice, out: Out)
    requires (run.pc == Exec(ClaimLost) || run.pc == Exec(SaveLost))
    requires out == FromLost(run, row, verdict, c) && out.Next?
    ensures Records(run, row, c, verdict, out)
  {
  }

  lemma BusyRecords(run: Run, row: Option<Row>, verdict: Event, c: Choice, out: Out)
    requires run.pc == Exec(Busy) && out == FromBusy(run, row, c) && out.Next?
    ensures Records(run, row, c, verdict, out)
  {
  }

  lemma GraphRecords(run: Run, row: Option<Row>, verdict: Event, c: Choice, out: Out)
    requires run.pc == Exec(Graph) && out == FromGraph(run, row, c) && out.Next?
    ensures Records(run, row, c, verdict, out)
  {
  }

  lemma SaveRecords(run: Run, row: Option<Row>, verdict: Event, c: Choice, out: Out)
    requires run.pc == Exec(Save) && out == FromSave(run, row, c) && out.Next?
    ensures Records(run, row, c, verdict, out)
  {
  }

  lemma SettleRecords(run: Run, row: Option<Row>, verdict: Event, c: Choice, out: Out)
    requires run.pc == Exec(Settle) && out == FromSettle(run, row, c) && out.Next?
    ensures Records(run, row, c, verdict, out)
  {
  }

  lemma TallyRecords(run: Run, row: Option<Row>, verdict: Event, c: Choice, out: Out)
    requires run.pc == Exec(Tally) && out == FromTally(run, row, c) && out.Next?
    ensures Records(run, row, c, verdict, out)
  {
  }

  lemma FailRecords(run: Run, row: Option<Row>, verdict: Event, c: Choice, out: Out)
    requires run.pc == Exec(Fail) && out == FromFail(run, row, c) && out.Next?
    ensures Records(run, row, c, verdict, out)
  {
  }

  lemma FailLostRecords(run: Run, row: Option<Row>, verdict: Event, c: Choice, out: Out)
    requires run.pc == Exec(FailLost) && out == FromFailLost(run, row, verdict, c) && out.Next?
    ensures Records(run, row, c, verdict, out)
  {
  }

  lemma FailThreadRecords(run: Run, row: Option<Row>, verdict: Event, c: Choice, out: Out)
    requires run.pc == Exec(FailThread) && out == FromFailThread(run, row, c) && out.Next?
    ensures Records(run, row, c, verdict, out)
  {
  }

  lemma OverRecords(run: Run, row: Option<Row>, verdict: Event, c: Choice, out: Out)
    requires run.pc.Over? && out == FromOver(run, row, c) && out.Next?
    ensures Records(run, row, c, verdict, out)
  {
  }

  lemma MarkRecords(run: Run, row: Option<Row>, verdict: Event, c: Choice, out: Out)
    requires run.pc == Marked(Mark) && out == FromMark(run, row, c) && out.Next?
    ensures Records(run, row, c, verdict, out)
  {
  }

  lemma MarkLostRecords(run: Run, row: Option<Row>, verdict: Event, c: Choice, out: Out)
    requires run.pc == Marked(MarkLost) && out == FromMarkLost(run, row, verdict, c) && out.Next?
    ensures Records(run, row, c, verdict, out)
  {
  }

  lemma MarkThreadRecords(run: Run, row: Option<Row>, verdict: Event, c: Choice, out: Out)
    requires run.pc == Marked(MarkThread) && out == FromMarkThread(run, row, c) && out.Next?
    ensures Records(run, row, c, verdict, out)
  {
  }

  lemma ResettleRecords(run: Run, row: Option<Row>, verdict: Event, c: Choice, out: Out)
    requires run.pc == Marked(Resettle) && out == FromResettle(run, row, c) && out.Next?
    ensures Records(run, row, c, verdict, out)
  {
  }

  lemma CleanupRecords(run: Run, row: Option<Row>, verdict: Event, c: Choice, out: Out)
    requires run.pc.Cleanup? && out == FromCleanup(run, row, c) && out.Next?
    ensures Records(run, row, c, verdict, out)
  {
  }

  lemma ResumeRecords(id: RunId, run: Run, row: Option<Row>, free: bool, c: Choice, out: Out)
    requires out == Resume(id, run, row, free, c) && out.Next?
    ensures Records(run, row, c, Verdict(id, row), out)
  {
    hide Records, Verdict;
    hide FromInserting, FromAdmitNew, FromAdmitWait, FromAdmitInsert, FromAdmitUndo, FromAdmitCleanup, FromAdmitOver;
    hide FromNew, FromWait, FromUndo, FromClaim, FromLost, FromBusy, FromGraph, FromSave, FromSettle, FromTally;
    hide FromFail, FromFailLost, FromFailThread;
    hide FromOver, FromMark, FromMarkLost, FromMarkThread, FromResettle, FromCleanup;
    var e := Verdict(id, row);
    match run.pc
    case Inserting => InsertingRecords(run, row, e, c, out);
    case Admit(AdmitNew) => AdmitNewRecords(run, row, e, c, out);
    case Admit(AdmitWait) => AdmitWaitRecords(run, row, e, free, c, out);
    case Admit(AdmitInsert) => AdmitInsertRecords(run, row, e, c, out);
    case Admit(AdmitUndo) => AdmitUndoRecords(run, row, e, c, out);
    case Admit(AdmitCleanup) => AdmitCleanupRecords(run, row, e, c, out);
    case AdmitOver => AdmitOverRecords(run, row, e, c, out);
    case New => NewRecords(run, row, e, c, out);
    case Wait => WaitRecords(run, row, e, free, c, out);
    case Undo => UndoRecords(run, row, e, c, out);
    case Exec(Claim) => ClaimRecords(run, row, e, c, out);
    case Exec(ClaimLost) | Exec(SaveLost) => LostRecords(run, row, e, c, out);
    case Exec(Busy) => BusyRecords(run, row, e, c, out);
    case Exec(Graph) => GraphRecords(run, row, e, c, out);
    case Exec(Save) => SaveRecords(run, row, e, c, out);
    case Exec(Settle) => SettleRecords(run, row, e, c, out);
    case Exec(Tally) => TallyRecords(run, row, e, c, out);
    case Exec(Fail) => FailRecords(run, row, e, c, out);
    case Exec(FailLost) => FailLostRecords(run, row, e, c, out);
    case Exec(FailThread) => FailThreadRecords(run, row, e, c, out);
    case Over => OverRecords(run, row, e, c, out);
    case Marked(Mark) => MarkRecords(run, row, e, c, out);
    case Marked(MarkLost) => MarkLostRecords(run, row, e, c, out);
    case Marked(MarkThread) => MarkThreadRecords(run, row, e, c, out);
    case Marked(Resettle) => ResettleRecords(run, row, e, c, out);
    case Cleanup => CleanupRecords(run, row, e, c, out);
  }

  lemma StruckRecords(run: Run, row: Option<Row>, c: Choice, verdict: Event, out: Out)
    requires out.Next? && Records(run, row, c, verdict, out)
    ensures Records(run, row, c, verdict, out.(run := Struck(run, row, c, out)))
  {
    hide Writes, SlipsAt, Joined, Earned;
    var r := Struck(run, row, c, out);
    assert r.pc == out.run.pc && r.events == out.run.events && r.problem == out.run.problem;
  }

  /** What one step publishes, writes and blames. */
  lemma StepRecords(id: RunId, run: Run, row: Option<Row>, free: bool, c: Choice)
    ensures
      var out := Step(id, run, row, free, c);
      out.Next? ==> Records(run, row, c, Verdict(id, row), out)
  {
    hide Records, Resume, Struck, Verdict;
    var out := Resume(id, run, row, free, c);
    if c.Land? == run.doomed && out.Next? {
      ResumeRecords(id, run, row, free, c, out);
      StruckRecords(run, row, c, Verdict(id, row), out);
    }
  }

  // ---------------------------------------------------------------- theorems

  /** Some event would be taken for the end of the run. */
  predicate Ends(p: Published) { p.Then? && (TerminalName(NameOf(p.last)) || Ends(p.before)) }

  lemma {:induction false} QuietEnds(p: Published)
    requires Quiet(p)
    ensures Ends(p) <==> Forged(p)
  {
    if p.Then? { QuietEnds(p.before); }
  }

  /** Outcome agreement: when a run is over its stream, if it was served, is closed; a
      closed stream ends with a terminal event of the run, and the row is final and says
      the same, or was deleted, unless the store failed before the failure or the
      cancellation was recorded; a run that lost to a deletion says that it was deleted;
      and no earlier event bears a terminal name if and only if the graph emitted none. A
      stream is left open, without a producer, if and only if a hand-off failed after
      opening it. */
  lemma OutcomeAgreement(id: RunId, kind: Kind, acts: seq<Act>)
    ensures
      var end := Lives(id, NewRun(kind), None, acts);
      var slips := SlipsOf(id, NewRun(kind), None, acts);
      end.Life? ==>
        && (end.run.pc.Gone? ==> !end.run.stream.Open?)
        && (end.run.stream.Closed? ==> Concluded(end.run.events, end.row, slips.blind))
        && (end.run.stream.Closed? && slips.deleted ==> end.run.events.last == ErrorEvent(WasDeleted(id)))
        && (end.run.stream.Closed? ==> (Ends(end.run.events.before) <==> slips.forged))
        && (end.run.stream.Open? && end.run.pc == Exec(Graph) ==> Quiet(end.run.events))
        && (end.run.stream.Orphaned? <==> slips.orphaned)
  {
    hide RowInv, CleanupInv, TaskInv;
    LifeInv(id, kind, acts);
    NewRunKeeps(kind);
    LivesTell(id, NewRun(kind), None, acts);
    var end := Lives(id, NewRun(kind), None, acts);
    if end.Life? && end.run.stream.Closed? { QuietEnds(end.run.events.before); }
  }

  /** The graph runs only between the claim and the final write; a writer told that it
      lost finds a final row or none; a run whose final write lost does not touch its
      thread, except to settle it after its own saved success; the execution lock is taken
      at most once and given back once, by the run that holds it. */
  lemma ClaimedAndSingleWinner(id: RunId, kind: Kind, acts: seq<Act>)
    ensures
      var end := Lives(id, NewRun(kind), None, acts);
      end.Life? ==>
        && (end.run.pc == Exec(Graph) ==> end.run.claimed && !end.run.lost && !end.run.saved)
        && (ToldLost(end.run) ==> Settled(end.row))
        && !end.run.stray
        && !end.run.misused
        && (end.run.taken && !end.run.given <==> Holds(end.run))
  {
    LifeInv(id, kind, acts);
  }

  /** A run that is over has left its row final, or gone, unless one of the steps of
      `Strands` was among its own: only such a row is left to a shutdown or a sweep. */
  lemma NothingLeftInFlight(id: RunId, kind: Kind, acts: seq<Act>)
    ensures
      var end := Lives(id, NewRun(kind), None, acts);
      end.Life? && Finished(end.run) && Takes(end.row) ==> SlipsOf(id, NewRun(kind), None, acts).stranded
  {
    hide StreamInv, CleanupInv, TaskInv;
    LifeInv(id, kind, acts);
  }

  /** Only the insert puts a row where there is none in flight: a final status stays,
      and a deleted row does not come back. */
  lemma FinalStays(id: RunId, run: Run, row: Option<Row>, a: Act)
    requires RunInv(run, row) && Settled(row) && !run.pc.Inserting? && run.pc != Admit(AdmitInsert)
    ensures var out := Acted(id, run, row, a); out.Next? ==> out.row == row || out.row == None
  {
    hide RunInv, Step;
    if a.Await? { StepKeeps(id, run, row, a.free, a.c); }
  }

  /** `after_run` is never called twice; once everything is over it has been called
      exactly once, unless a cancel landed while a failed insert was undone. */
  lemma CleanupExactlyOnce(id: RunId, acts: seq<Act>)
    ensures
      var end := Lives(id, NewRun(Streaming), None, acts);
      end.Life? ==>
        && !end.run.twice
        && (end.run.pc.Gone? && end.run.answered ==>
              (end.run.cleaned <==> !SlipsOf(id, NewRun(Streaming), None, acts).skipped))
  {
    hide StreamInv, RowInv, TaskInv;
    LifeInv(id, Streaming, acts);
  }

  /** The request can be answered, once, as soon as its admission task has begun, or is
      over without having begun; not before. */
  lemma AnsweredOnceBegun(id: RunId, acts: seq<Act>)
    ensures
      var end := Lives(id, NewRun(Streaming), None, acts);
      end.Life? ==> (MayAnswer(end.run) <==> !end.run.answered && (end.run.started || Ended(end.run)))
  {
    hide StreamInv, RowInv, TaskInv;
    LifeInv(id, Streaming, acts);
  }

  lemma {:induction false} LivesThen(id: RunId, run: Run, row: Option<Row>, acts: seq<Act>, a: Act)
    ensures
      var mid := Lives(id, run, row, acts);
      Lives(id, run, row, acts + [a]) ==
        if mid.Stuck? then Stuck
        else var out := Acted(id, mid.run, mid.row, a); if out.Blocked? then Stuck else Life(out.run, out.row)
    decreases |acts|
  {
    hide Acted;
    if acts == [] {
      assert (acts + [a])[1..] == [];
    } else {
      assert (acts + [a])[1..] == acts[1..] + [a];
      var out := Acted(id, run, row, acts[0]);
      if out.Next? { LivesThen(id, out.run, out.row, acts[1..], a); }
    }
  }

  /** The names of the events that the graph yields in a life, from the acts alone. */
  function Emitted(acts: seq<Act>): seq<Name> {
    if acts == [] then []
    else
      var last := acts[|acts| - 1];
      Emitted(acts[..|acts| - 1]) + if last.Await? && last.c.Emit? then [last.c.name] else []
  }

  /** The text of the last exception that an await of a life ended with. */
  function LastRaised(acts: seq<Act>): Option<Text> {
    if acts == [] then None
    else
      var last := acts[|acts| - 1];
      if last.Await? && last.c.Raise? then Some(last.c.msg) else LastRaised(acts[..|acts| - 1])
  }

  /** The names of the graph's events that a stream has published. */
  function Outputs(p: Published): seq<Name> {
    if p.Nothing? then [] else Outputs(p.before) + if p.last.Output? then [p.last.name] else []
  }

  /** The metadata, and then events of these names. */
  function Streamed(names: seq<Name>): Published {
    if names == [] then Then(Nothing, Metadata)
    else Then(Streamed(names[..|names| - 1]), Output(names[|names| - 1]))
  }

  lemma {:induction false} QuietStreamed(p: Published)
    requires Quiet(p)
    ensures if p.Nothing? then Outputs(p) == [] else p == Streamed(Outputs(p))
  {
    if p.Then? && p.before.Then? {
      QuietStreamed(p.before);
      assert Outputs(p)[..|Outputs(p)| - 1] == Outputs(p.before);
    }
  }

  /** What a life has published, failed of and stored. */
  predicate Accounted(run: Run, row: Option<Row>, acts: seq<Act>) {
    && Outputs(run.events) == Emitted(acts)
    && (Failing(run) ==> LastRaised(acts) == Some(run.problem))
    && (Queued(run) && Takes(row) ==> row == Some(Row(Pending, Blank)))
    && (Working(run) && Takes(row) ==> row == Some(Row(Running, Blank)))
  }

  lemma StepAccounts(run: Run, row: Option<Row>, verdict: Event, acts: seq<Act>, a: Act, out: Out)
    requires RunInv(run, row) && Accounted(run, row, acts) && Terminal(verdict)
    requires a.Await? && out.Next? && Records(run, row, a.c, verdict, out)
    ensures Accounted(out.run, out.row, acts + [a])
  {
    hide StreamInv, CleanupInv, TaskInv, Won;
    assert (acts + [a])[..|acts|] == acts;
  }

  lemma ActAccounts(id: RunId, run: Run, row: Option<Row>, acts: seq<Act>, a: Act)
    requires RunInv(run, row) && Accounted(run, row, acts)
    ensures var out := Acted(id, run, row, a); out.Next? ==> Accounted(out.run, out.row, acts + [a])
  {
    hide RunInv, Step, Records, MayAnswer;
    var out := Acted(id, run, row, a);
    if a.Await? {
      StepRecords(id, run, row, a.free, a.c);
      if out.Next? { StepAccounts(run, row, Verdict(id, row), acts, a, out); }
    } else {
      assert (acts + [a])[..|acts|] == acts;
    }
  }

  lemma NewRunAccounts(kind: Kind)
    ensures Accounted(NewRun(kind), None, [])
  {
  }

  lemma {:induction false} LivesAccount(id: RunId, kind: Kind, acts: seq<Act>)
    ensures
      var end := Lives(id, NewRun(kind), None, acts);
      end.Life? ==> Accounted(end.run, end.row, acts)
  {
    hide RunInv, Acted, Accounted, SlipsOf;
    if acts == [] {
      NewRunAccounts(kind);
    } else {
      var before, a := acts[..|acts| - 1], acts[|acts| - 1];
      assert acts == before + [a];
      LivesThen(id, NewRun(kind), None, before, a);
      LivesAccount(id, kind, before);
      LifeInv(id, kind, before);
      var mid := Lives(id, NewRun(kind), None, before);
      if mid.Life? { ActAccounts(id, mid.run, mid.row, before, a); }
    }
  }

  /** All that the graph yields is published, in order and each event once, and nothing
      else under its names; once the graph runs it is all that lies between the metadata
      and, on a closed stream, the terminal event. */
  lemma OutputIsPublished(id: RunId, kind: Kind, acts: seq<Act>)
    ensures
      var end := Lives(id, NewRun(kind), None, acts);
      end.Life? ==>
        && Outputs(end.run.events) == Emitted(acts)
        && (end.run.pc == Exec(Graph) && kind.Streaming? ==> end.run.events == Streamed(Emitted(acts)))
        && (end.run.stream.Closed? ==>
              && end.run.events.Then? && !end.run.events.last.Output?
              && (end.run.events.before == Streamed(Emitted(acts))
                  || (end.run.events.before.Nothing? && Emitted(acts) == [])))
  {
    hide RowInv, CleanupInv, TaskInv;
    LifeInv(id, kind, acts);
    LivesAccount(id, kind, acts);
    var end := Lives(id, NewRun(kind), None, acts);
    if end.Life? && end.run.stream.Closed? {
      QuietStreamed(end.run.events.before);
      assert Outputs(end.run.events) == Outputs(end.run.events.before);
    }
    if end.Life? && end.run.pc == Exec(Graph) && kind.Streaming? { QuietStreamed(end.run.events); }
  }

  /** Whatever a run has lived through, its next await publishes and writes only what it
      earned: a failure tells, on the stream and in the row, the last exception raised, and
      the thread is written before an outcome that the run has stored is reported. */
  lemma EveryReportIsEarned(id: RunId, kind: Kind, acts: seq<Act>, free: bool, c: Choice)
    ensures
      var end := Lives(id, NewRun(kind), None, acts);
      end.Life? ==>
        var out := Step(id, end.run, end.row, free, c);
        && (Failing(end.run) ==> LastRaised(acts) == Some(end.run.problem))
        && (out.Next? ==>
              && Publishes(end.run, c, Verdict(id, end.row), out.run)
              && Writes(end.run, end.row, c, out.row)
              && Tends(end.run, end.row, c, out.run))
  {
    hide Step, Publishes, Writes, Blames, StartsClaimed, Tends;
    LivesAccount(id, kind, acts);
    var end := Lives(id, NewRun(kind), None, acts);
    if end.Life? { StepRecords(id, end.run, end.row, free, c); }
  }

  /** Until somebody else ends it, the row of a run that waits for its claim reads
      pending, and that of a run in its graph reads running, neither with an error. */
  lemma RowTellsTheStage(id: RunId, kind: Kind, acts: seq<Act>)
    ensures
      var end := Lives(id, NewRun(kind), None, acts);
      end.Life? && Takes(end.row) ==>
        && (Queued(end.run) ==> end.row == Some(Row(Pending, Blank)))
        && (Working(end.run) ==> end.row == Some(Row(Running, Blank)))
  {
    LivesAccount(id, kind, acts);
  }

  // Lives that go wrong, each from the request on.

  predicate LeadTo(id: RunId, acts: seq<Act>, run: Run, row: Option<Row>) {
    Lives(id, NewRun(Streaming), None, acts) == Life(run, row)
  }

  lemma Lived(id: RunId, acts: seq<Act>, run: Run, row: Option<Row>, a: Act, run': Run, row': Option<Row>)
    requires LeadTo(id, acts, run, row)
    requires var out := Acted(id, run, row, a); out.Next? && out.run == run' && out.row == row'
    ensures LeadTo(id, acts + [a], run', row')
  {
    hide Acted;
    LivesThen(id, NewRun(Streaming), None, acts, a);
  }

  const GOES := Await(Go, true)

  const PENDING := Some(Row(Pending, Blank))
  const RUNNING := Some(Row(Running, Blank))
  const SUCCEEDED := Some(Row(Success, Blank))
  const WITHDRAWN := Some(Row(Interrupted, NeverStarted))

  /** Holding the execution lock, about to insert its row. */
  const INSERTING := NewRun(Streaming).(pc := Admit(AdmitInsert), started := true, taken := true)

  lemma ToInsert(id: RunId) returns (acts: seq<Act>)
    ensures LeadTo(id, acts, INSERTING, None)
  {
    var run, row := NewRun(Streaming), None;
    acts := [];
    var next := run.(pc := Resolve);
    assert LeadTo(id, acts + [Enter], next, row) by { Lived(id, acts, run, row, Enter, next, row); }
    acts, run := acts + [Enter], next;
    next := run.(pc := Admit(AdmitNew));
    assert LeadTo(id, acts + [Register], next, row) by { Lived(id, acts, run, row, Register, next, row); }
    acts, run := acts + [Register], next;
    next := run.(pc := Admit(AdmitWait), started := true);
    assert LeadTo(id, acts + [GOES], next, row) by { Lived(id, acts, run, row, GOES, next, row); }
    acts, run := acts + [GOES], next;
    assert LeadTo(id, acts + [GOES], INSERTING, row) by { Lived(id, acts, run, row, GOES, INSERTING, row); }
    acts, run := acts + [GOES], INSERTING;
  }

  /** Its insert failed, and it is to be cancelled. */
  const UNDOING := INSERTING.(pc := Admit(AdmitUndo), given := true, doomed := true)

  lemma ToUndo(id: RunId) returns (acts: seq<Act>)
    ensures LeadTo(id, acts, UNDOING, None)
  {
    acts := ToInsert(id);
    var fails, next := Await(Raise(RunFailed, false, false), true), UNDOING.(doomed := false);
    assert LeadTo(id, acts + [fails], next, None) by { Lived(id, acts, INSERTING, None, fails, next, None); }
    acts := acts + [fails];
    assert LeadTo(id, acts + [Cancel], UNDOING, None) by { Lived(id, acts, next, None, Cancel, UNDOING, None); }
    acts := acts + [Cancel];
  }

  /** `after_run` can be skipped: the insert fails, a cancel lands in the undo. */
  lemma CleanupCanBeSkipped(id: RunId) returns (acts: seq<Act>)
    ensures exists end :: LeadTo(id, acts, end, None) && end.pc.Gone? && end.answered && !end.cleaned
  {
    acts := ToUndo(id);
    var run, lands := UNDOING, Await(Land(true), true);
    var next := run.(pc := AdmitOver, doomed := false, cancelled := true, slips := NONE.(skipped := true));
    assert LeadTo(id, acts + [lands], next, None) by { Lived(id, acts, run, None, lands, next, None); }
    acts, run := acts + [lands], next;
    next := run.(pc := Gone);
    assert LeadTo(id, acts + [GOES], next, None) by { Lived(id, acts, run, None, GOES, next, None); }
    acts, run := acts + [GOES], next;
    next := run.(answered := true);
    assert LeadTo(id, acts + [Answer], next, None) by { Lived(id, acts, run, None, Answer, next, None); }
    acts := acts + [Answer];
  }

  /** A stream can be left open for good: its hand-off fails after opening it. */
  lemma StreamCanBeOrphaned(id: RunId) returns (acts: seq<Act>)
    ensures exists end, row :: LeadTo(id, acts, end, row) && end.pc.Gone? && end.cleaned && end.stream.Orphaned?
  {
    acts := ToInsert(id);
    var run, row := INSERTING, None;
    var fails := Await(Raise(RunFailed, true, true), true);
    var next := run.(pc := Admit(AdmitUndo), stream := Orphaned, given := true, slips := NONE.(orphaned := true));
    assert LeadTo(id, acts + [fails], next, PENDING) by { Lived(id, acts, run, row, fails, next, PENDING); }
    acts, run, row := acts + [fails], next, PENDING;
    next := run.(pc := Admit(AdmitCleanup), cleaned := true);
    assert LeadTo(id, acts + [GOES], next, WITHDRAWN) by { Lived(id, acts, run, row, GOES, next, WITHDRAWN); }
    acts, run, row := acts + [GOES], next, WITHDRAWN;
    next := run.(pc := AdmitOver);
    assert LeadTo(id, acts + [GOES], next, row) by { Lived(id, acts, run, row, GOES, next, row); }
    acts, run := acts + [GOES], next;
    next := run.(pc := Gone);
    assert LeadTo(id, acts + [GOES], next, row) by { Lived(id, acts, run, row, GOES, next, row); }
    acts, run := acts + [GOES], next;
  }

  /** Handed over, about to claim its row. */
  const CLAIMING := INSERTING.(pc := Exec(Claim), stream := Open)

  lemma ToClaim(id: RunId) returns (acts: seq<Act>)
    ensures LeadTo(id, acts, CLAIMING, PENDING)
  {
    acts := ToInsert(id);
    var next := INSERTING.(pc := New, stream := Open);
    assert LeadTo(id, acts + [GOES], next, PENDING) by { Lived(id, acts, INSERTING, None, GOES, next, PENDING); }
    acts := acts + [GOES];
    assert LeadTo(id, acts + [GOES], CLAIMING, PENDING) by { Lived(id, acts, next, PENDING, GOES, CLAIMING, PENDING); }
    acts := acts + [GOES];
  }

  /** Claimed, and in the graph. */
  const IN_GRAPH := CLAIMING.(pc := Exec(Graph), events := Then(Nothing, Metadata), claimed := true)

  lemma ToGraph(id: RunId) returns (acts: seq<Act>)
    ensures LeadTo(id, acts, IN_GRAPH, RUNNING)
  {
    acts := ToClaim(id);
    var next := CLAIMING.(pc := Exec(Busy), claimed := true);
    assert LeadTo(id, acts + [GOES], next, RUNNING) by { Lived(id, acts, CLAIMING, PENDING, GOES, next, RUNNING); }
    acts := acts + [GOES];
    assert LeadTo(id, acts + [GOES], IN_GRAPH, RUNNING) by { Lived(id, acts, next, RUNNING, GOES, IN_GRAPH, RUNNING); }
    acts := acts + [GOES];
  }

  lemma OverGoes(over: Run, row: Option<Row>, out: Out)
    requires over.pc.Over? && over.kind.Streaming? && !over.cancelled && out == FromOver(over, row, Go)
    ensures out.Next? && out.row == row && out.run == over.(pc := Cleanup)
  {
  }

  lemma CleanupGoes(run: Run, row: Option<Row>, out: Out)
    requires run.pc.Cleanup? && out == FromCleanup(run, row, Go)
    ensures out.Next? && out.row == row && out.run == run.(pc := Gone, stream := Closed)
  {
  }

  lemma ToCleanup(id: RunId, before: seq<Act>, over: Run, row: Option<Row>) returns (run: Run)
    requires LeadTo(id, before, over, row)
    requires over.pc.Over? && over.kind.Streaming? && !over.cancelled && !over.doomed
    ensures LeadTo(id, before + [GOES], run, row)
    ensures run.pc.Cleanup? && !run.doomed && run.events == over.events
  {
    hide Lives, FromOver, FromCleanup, ResumeAdmission, ResumeMain, Verdict, SlipsAt, Joined;
    OverGoes(over, row, FromOver(over, row, Go));
    var out := Acted(id, over, row, GOES);
    run := out.run;
    Lived(id, before, over, row, GOES, run, row);
  }

  /** From the end of the main task to the end of the finalizer. */
  lemma ToTheEnd(id: RunId, before: seq<Act>, over: Run, row: Option<Row>) returns (acts: seq<Act>)
    requires LeadTo(id, before, over, row)
    requires over.pc.Over? && over.kind.Streaming? && !over.cancelled && !over.doomed
    ensures exists end :: LeadTo(id, acts, end, row) && end.pc.Gone? && end.stream.Closed? && end.events == over.events
  {
    hide Lives, FromOver, FromCleanup, ResumeAdmission, ResumeMain, Verdict, SlipsAt, Joined;
    var run := ToCleanup(id, before, over, row);
    CleanupGoes(run, row, FromCleanup(run, row, Go));
    var out := Acted(id, run, row, GOES);
    Lived(id, before + [GOES], run, row, GOES, out.run, row);
    acts := before + [GOES] + [GOES];
  }

  /** The graph has emitted an event named `end`, and returned. */
  const FORGED :=
    IN_GRAPH.(pc := Exec(Save), events := Then(IN_GRAPH.events, Output(EndName)), slips := NONE.(forged := true))

  lemma ToForged(id: RunId) returns (acts: seq<Act>)
    ensures LeadTo(id, acts, FORGED, RUNNING)
  {
    acts := ToGraph(id);
    var emits, next := Await(Emit(EndName), true), FORGED.(pc := Exec(Graph));
    assert LeadTo(id, acts + [emits], next, RUNNING) by { Lived(id, acts, IN_GRAPH, RUNNING, emits, next, RUNNING); }
    acts := acts + [emits];
    assert LeadTo(id, acts + [GOES], FORGED, RUNNING) by { Lived(id, acts, next, RUNNING, GOES, FORGED, RUNNING); }
    acts := acts + [GOES];
  }

  /** ... and has settled its thread. */
  const SETTLED := FORGED.(pc := Exec(Tally), saved := true)

  lemma ToTally(id: RunId) returns (acts: seq<Act>)
    ensures LeadTo(id, acts, SETTLED, SUCCEEDED)
  {
    acts := ToForged(id);
    var next := SETTLED.(pc := Exec(Settle));
    assert LeadTo(id, acts + [GOES], next, SUCCEEDED) by { Lived(id, acts, FORGED, RUNNING, GOES, next, SUCCEEDED); }
    acts := acts + [GOES];
    assert LeadTo(id, acts + [GOES], SETTLED, SUCCEEDED) by {
      Lived(id, acts, next, SUCCEEDED, GOES, SETTLED, SUCCEEDED);
    }
    acts := acts + [GOES];
  }

  /** The graph emits an event named `end`: a client is told of the end, and the run goes on. */
  lemma GraphCanForgeTheEnd(id: RunId) returns (acts: seq<Act>)
    ensures exists end, row ::
      LeadTo(id, acts, end, row) && end.stream.Closed? && end.events.Then? && Ends(end.events.before)
  {
    acts := ToTally(id);
    var over := SETTLED.(pc := Over, events := Then(SETTLED.events, EndEvent(Success)));
    assert LeadTo(id, acts + [GOES], over, SUCCEEDED) by { Lived(id, acts, SETTLED, SUCCEEDED, GOES, over, SUCCEEDED); }
    acts := ToTheEnd(id, acts + [GOES], over, SUCCEEDED);
  }

  /** Its graph has failed. */
  const FAILING := IN_GRAPH.(pc := Exec(Fail), problem := RunFailed)

  lemma ToFailure(id: RunId) returns (acts: seq<Act>)
    ensures LeadTo(id, acts, FAILING, RUNNING)
  {
    acts := ToGraph(id);
    var fails := Await(Raise(RunFailed, false, false), true);
    assert LeadTo(id, acts + [fails], FAILING, RUNNING) by {
      Lived(id, acts, IN_GRAPH, RUNNING, fails, FAILING, RUNNING);
    }
    acts := acts + [fails];
  }

  /** The store fails while a failure is recorded: a client is told of it, and the row stays in flight. */
  lemma BlindFailureDisagrees(id: RunId) returns (acts: seq<Act>)
    ensures exists end, row ::
      && LeadTo(id, acts, end, row) && end.stream.Closed?
      && end.events.Then? && Terminal(end.events.last) && Takes(row)
  {
    acts := ToFailure(id);
    var fails := Await(Raise(RunFailed, false, false), true);
    var over := FAILING.(pc := Over, events := Then(FAILING.events, ErrorEvent(RunFailed)),
                         slips := NONE.(stranded := true, blind := true));
    assert LeadTo(id, acts + [fails], over, RUNNING) by { Lived(id, acts, FAILING, RUNNING, fails, over, RUNNING); }
    acts := ToTheEnd(id, acts + [fails], over, RUNNING);
  }

  /** A task's step that is not another graph event brings the run closer to its end. */
  lemma StepsEnd(id: RunId, run: Run, row: Option<Row>, free: bool, c: Choice)
    requires RunInv(run, row)
    ensures var out := Step(id, run, row, free, c); out.Next? && !c.Emit? ==> Rank(out.run) < Rank(run)
  {
    hide RunInv, Step;
    StepKeeps(id, run, row, free, c);
  }

  /** A task can always go on, unless it waits for the execution lock. */
  lemma NeverStuck(id: RunId, run: Run, row: Option<Row>, free: bool)
    requires RunInv(run, row) && !run.pc.Arrive? && !run.pc.Resolve? && !run.pc.Gone?
    requires (run.pc == Admit(AdmitWait) || run.pc.Wait?) && !run.doomed ==> free
    ensures Step(id, run, row, free, if run.doomed then Land(false) else Go).Next?
  {
    hide Struck, StreamInv, RowInv, CleanupInv;
  }

  /** A cancelled admission hands its run to nobody. */
  lemma CancelledAdmissionEnds(id: RunId, run: Run, row: Option<Row>, free: bool, c: Choice)
    requires RunInv(run, row) && Admitting(run) && (run.doomed || run.cancelled)
    ensures
      var out := Step(id, run, row, free, c);
      out.Next? ==> out.run.pc.AdmitOver? || (Admitting(out.run) && out.run.cancelled)
  {
    hide StreamInv, RowInv, CleanupInv, Resume, Rank, Holds;
    StepKeeps(id, run, row, free, c);
  }
}
