/** `owned_transfer`, its anchor and its worker as interleaved steps of three processes: five pipes,
    a deadline, a process group and the directory's start marker. */
module OwnerModel {
  import opened Outcomes

  const REAP_SECONDS := 2
  const PHASES := 25
  const PRIVATE_WORKDIR_REFUSED := 6
  const ALREADY_STARTED := 5
  const TRANSFER_REFUSED := 1

  /** One invocation: who it is, the pids the kernel hands out, the deadline and the limits. */
  datatype Config = Config(me: nat, anchorPid: nat, workerPid: nat, end: nat, rows: nat, objects: nat, final: bool) {
    predicate Valid() {
      anchorPid > 0 && workerPid > 0 && end > REAP_SECONDS
    }

    function WorkEnd(): int {
      end - REAP_SECONDS
    }
  }

  /** How the transfer itself ends inside the worker. */
  datatype Outcome = Transferred(tallies: seq<nat>, sequences: nat, cut: bool) | Denied(phase: nat)

  datatype Report = Report(outcome: nat, phase: nat, tables: nat, rows: nat, sequences: nat, cut: bool, started: bool)

  datatype Anchor =
    | NoAnchor | Fresh | Leader | Forked | Supervising(finished: bool) | DeadAnchor | ReapedAnchor

  datatype Worker =
    | NoWorker | Waiting | Admitted | Marked | Started | Transferring | Reporting(report: Report) | Reported
    | DeadWorker(code: Option<nat>) | ReapedWorker(code: Option<nat>)

  /** The parent's program point: the loop head, the reads, the two tests of the loop body, a report
      accepted but the loop not yet left, then the three stages of cleanup and the final test. */
  datatype Parent = Launch | Head | Reads | Admit | Accept | Accepted | Kill | Reap | Probe | Finish | Returned | Gone

  datatype Pipes = Pipes(
    ready: Option<(nat, nat)>, admission: bool, result: Option<Report>, completion: Option<nat>)

  datatype Status = Refused | Verified | ReconcileRequired | Cancelled
  datatype Phase =
    | LaunchRefused | Unavailable | DeadlinePassed | Interrupted | CleanupUnconfirmed | FromWorker(index: nat)
  datatype Cleanup = NotLaunched | GroupAbsent | GroupUnconfirmed | ReapUnconfirmed | CleanupDeadline
  datatype Summary = Summary(tables: nat, rows: nat, sequences: nat, cut: bool)

  const ZERO := Summary(0, 0, 0, false)

  /** The parent's variables; `acceptedAt` only records when a report was accepted. */
  datatype Locals = Locals(
    ready: Option<(nat, nat)>, result: Option<Report>, completion: Option<nat>,
    admitted: bool, started: Option<bool>, status: Status, phase: Phase, summary: Summary,
    signalled: bool, cleanup: Cleanup, acceptedAt: Option<nat>)

  datatype Answer = Answer(
    status: Status, phase: Phase, summary: Summary, started: Option<bool>, cleanup: Cleanup, at: nat)

  /** `begun` and `outcome` record what the worker did; `marker` names the invocation that created
      the directory's start marker. */
  datatype State = State(
    now: nat, parent: Parent, anchor: Anchor, worker: Worker, commands: nat, pipes: Pipes, my: Locals,
    marker: Option<nat>, begun: nat, outcome: Option<Outcome>, answer: Option<Answer>)

  function Initial(marker: Option<nat>): State {
    State(0, Launch, NoAnchor, NoWorker, 0, Pipes(None, false, None, None),
          Locals(None, None, None, false, Some(false), Status.Refused, LaunchRefused, ZERO, false, NotLaunched, None),
          marker, 0, None, None)
  }

  datatype Event =
    | Tick(seconds: nat)
    | ForkAnchor | ParentHead | ReadReady | ReadResult | ReadCompletion | ReadsDone | TestReady | TestReport | LeaveLoop
    | ParentFails | Interrupt
    | KillGroup(group: bool, single: bool) | ReapAnchor | LoseAnchor | ProbeGroup | ProbeFails | Return
    | ParentDies
    | SetSession | ForkWorker | WriteReady | WaitWorker | WatchLifeline | AnchorFails | AnchorKilled
    | ReadAdmission | CheckDirectory(private: bool) | MarkerFails | CreateMarker | SyncMarker(ok: bool) | BeginTransfer
    | StartCommand | EndCommand | EndTransfer(result: Outcome) | WriteReport(ok: bool) | ExitWorker | WorkerKilled
    | InitReaps

  // --- Processes ---

  predicate ParentHolds(s: State) {
    s.parent != Returned && s.parent != Gone
  }

  predicate AnchorRuns(s: State) {
    s.anchor.Fresh? || s.anchor.Leader? || s.anchor.Forked? || s.anchor.Supervising?
  }

  predicate WorkerRuns(s: State) {
    !s.worker.NoWorker? && !s.worker.DeadWorker? && !s.worker.ReapedWorker?
  }

  /** The anchor leads the group from its `setsid` until it is reaped. */
  predicate InGroup(anchor: Anchor) {
    !anchor.NoAnchor? && !anchor.Fresh? && !anchor.ReapedAnchor?
  }

  predicate GroupExists(s: State) {
    InGroup(s.anchor) || (!s.worker.NoWorker? && !s.worker.ReapedWorker?) || s.commands > 0
  }

  function Dead(w: Worker): Worker {
    if w.NoWorker? || w.ReapedWorker? || w.DeadWorker? then w else DeadWorker(None)
  }

  function KilledGroup(s: State): State {
    s.(anchor := if InGroup(s.anchor) then DeadAnchor else s.anchor, worker := Dead(s.worker))
  }

  // --- The worker ---

  function Sum(tallies: seq<nat>): nat {
    if tallies == [] then 0 else tallies[0] + Sum(tallies[1..])
  }

  function Refusal(phase: nat, started: bool): Report {
    Report(1, if 0 < phase < PHASES then phase else TRANSFER_REFUSED, 0, 0, 0, false, started)
  }

  /** What the worker makes of the transfer's end. */
  function ReportOf(c: Config, r: Outcome): Report {
    match r
    case Denied(phase) => Refusal(phase, true)
    case Transferred(tallies, sequences, cut) =>
      if |tallies| > c.objects || (exists i | 0 <= i < |tallies| :: tallies[i] > c.rows) || Sum(tallies) > c.rows
         || sequences > c.objects || (c.final && !cut)
      then Refusal(TRANSFER_REFUSED, true)
      else Report(0, 0, |tallies|, Sum(tallies), sequences, cut, true)
  }

  function WorkerStep(c: Config, s: State, e: Event): State {
    match e
    case ReadAdmission =>
      if s.worker != Waiting then s
      else if s.pipes.admission then s.(worker := Admitted)
      else if !ParentHolds(s) then s.(worker := DeadWorker(Some(1)))
      else s
    case CheckDirectory(private) =>
      if s.worker != Admitted || private then s
      else s.(worker := Reporting(Refusal(PRIVATE_WORKDIR_REFUSED, false)))
    case MarkerFails =>
      // The directory cannot be examined, or the marker cannot be created for another reason than being there.
      if s.worker != Admitted then s else s.(worker := Reporting(Refusal(TRANSFER_REFUSED, false)))
    case CreateMarker =>
      if s.worker != Admitted then s
      else if s.marker.Some? then s.(worker := Reporting(Refusal(ALREADY_STARTED, false)))
      else s.(worker := Marked, marker := Some(c.me))
    case SyncMarker(ok) =>
      if s.worker != Marked then s
      else s.(worker := if ok then Started else Reporting(Refusal(TRANSFER_REFUSED, false)))
    case BeginTransfer =>
      if s.worker != Started then s else s.(worker := Transferring, begun := s.begun + 1)
    case StartCommand =>
      if s.worker != Transferring then s else s.(commands := s.commands + 1)
    case EndCommand =>
      if s.commands == 0 then s else s.(commands := s.commands - 1)
    case EndTransfer(r) =>
      if s.worker != Transferring || s.commands > 0 then s
      else s.(worker := Reporting(ReportOf(c, r)), outcome := Some(r))
    case WriteReport(ok) =>
      if !s.worker.Reporting? then s
      else if ok then s.(worker := Reported, pipes := s.pipes.(result := Some(s.worker.report)))
      else s.(worker := DeadWorker(Some(1)))
    case ExitWorker =>
      if s.worker != Reported then s else s.(worker := DeadWorker(Some(0)))
    case WorkerKilled => s.(worker := Dead(s.worker))
    case _ => s
  }

  // --- The anchor ---

  function AnchorStep(c: Config, s: State, e: Event): State {
    match e
    case SetSession => if s.anchor == Fresh then s.(anchor := Leader) else s
    case ForkWorker => if s.anchor == Leader then s.(anchor := Forked, worker := Waiting) else s
    case WriteReady =>
      if s.anchor != Forked then s
      else s.(anchor := Supervising(false), pipes := s.pipes.(ready := Some((c.anchorPid, c.workerPid))))
    case WaitWorker =>
      if s.anchor != Supervising(false) || !s.worker.DeadWorker? then s
      else s.(anchor := Supervising(true), worker := ReapedWorker(s.worker.code),
              pipes := s.pipes.(completion := Some(if s.worker.code == Some(0) then 0 else 1)))
    case WatchLifeline => if s.anchor.Supervising? && !ParentHolds(s) then KilledGroup(s) else s
    case AnchorFails =>
      if s.anchor == Fresh then s.(anchor := DeadAnchor)
      else if AnchorRuns(s) then KilledGroup(s)
      else s
    case AnchorKilled => if AnchorRuns(s) then s.(anchor := DeadAnchor) else s
    case InitReaps =>
      if s.worker.DeadWorker? && !AnchorRuns(s) then s.(worker := ReapedWorker(s.worker.code)) else s
    case _ => s
  }

  // --- The parent ---

  predicate InTry(p: Parent) {
    p.Launch? || p.Head? || p.Reads? || p.Admit? || p.Accept? || p.Accepted?
  }

  /** Leaving the `try`: cleanup follows only when there is an anchor. */
  function Leave(s: State, status: Status, phase: Phase): State {
    s.(parent := if s.anchor.NoAnchor? then Finish else Kill, my := s.my.(status := status, phase := phase))
  }

  function Failed(s: State): State {
    Leave(s, if s.my.admitted then ReconcileRequired else Status.Refused, Unavailable)
  }

  /** The anchor and the worker are where the ready message says, and neither is gone. */
  predicate GroupChecks(c: Config, s: State) {
    && s.my.ready.Some? && s.my.ready.value.0 == c.anchorPid && s.my.ready.value.1 > 0
    && InGroup(s.anchor) && !s.anchor.DeadAnchor?
    && s.my.ready.value.1 == c.workerPid && !s.worker.NoWorker? && !s.worker.ReapedWorker?
  }

  /** The parent's own reading of a report. */
  predicate ReportRefused(c: Config, r: Report, completion: nat, now: nat) {
    || completion != 0 || r.outcome !in {0, 1} || r.phase >= PHASES
    || (r.outcome == 0 && (r.phase != 0 || r.tables > c.objects || r.rows > c.rows || r.sequences > c.objects
                           || !r.started || (c.final && !r.cut)))
    || (r.outcome == 1 && (r.phase == 0 || r.tables != 0 || r.rows != 0 || r.sequences != 0 || r.cut))
    || now >= c.WorkEnd()
  }

  function Test(c: Config, s: State): State {
    if !s.my.admitted || s.my.result == None || s.my.completion == None then s.(parent := Head)
    else
      var r := s.my.result.value;
      var heard := s.(my := s.my.(started := Some(r.started)));
      if ReportRefused(c, r, s.my.completion.value, s.now) then Failed(heard)
      else
        heard.(parent := Accepted,
               my := heard.my.(summary := Summary(r.tables, r.rows, r.sequences, r.cut), acceptedAt := Some(s.now),
                               status := if r.outcome == 0 then Verified else Status.Refused,
                               phase := FromWorker(r.phase)))
  }

  /** A read finds data, the end of a pipe whose writer is gone, or nothing yet. */
  function Read<T>(s: State, got: Option<T>, sent: Option<T>, writerGone: bool, taken: State): State {
    if got.Some? then s
    else if sent.Some? then taken
    else if writerGone then Failed(s)
    else s
  }

  function Cleaned(s: State, cleanup: Cleanup): State {
    s.(parent := Finish, my := s.my.(cleanup := cleanup))
  }

  function TheAnswer(c: Config, s: State): Answer {
    if (s.my.cleanup != GroupAbsent || s.now >= c.end) && !s.anchor.NoAnchor?
    then Answer(ReconcileRequired, CleanupUnconfirmed, ZERO, s.my.started, s.my.cleanup, s.now)
    else Answer(s.my.status, s.my.phase, s.my.summary, s.my.started, s.my.cleanup, s.now)
  }

  /** Launch, the loop and its handlers. */
  function LoopStep(c: Config, s: State, e: Event): State {
    match e
    case ForkAnchor => if s.parent == Launch then s.(parent := Head, anchor := Fresh) else s
    case ParentHead =>
      if s.parent != Head then s
      else if s.now < c.WorkEnd() then s.(parent := Reads)
      else Leave(s, if s.my.admitted then ReconcileRequired else Status.Refused, DeadlinePassed)
    case ReadReady =>
      if s.parent != Reads then s
      else Read(s, s.my.ready, s.pipes.ready, !AnchorRuns(s), s.(my := s.my.(ready := s.pipes.ready)))
    case ReadResult =>
      if s.parent != Reads then s
      else Read(s, s.my.result, s.pipes.result, !WorkerRuns(s) && !s.anchor.Fresh? && !s.anchor.Leader?,
                s.(my := s.my.(result := s.pipes.result)))
    case ReadCompletion =>
      if s.parent != Reads then s
      else Read(s, s.my.completion, s.pipes.completion, !AnchorRuns(s),
                s.(my := s.my.(completion := s.pipes.completion)))
    case ReadsDone => if s.parent == Reads then s.(parent := Admit) else s
    case TestReady =>
      if s.parent != Admit then s
      else if s.my.admitted || s.my.ready == None then s.(parent := Accept)
      else if !GroupChecks(c, s) then Failed(s)
      else s.(parent := Accept, pipes := s.pipes.(admission := true), my := s.my.(admitted := true, started := None))
    case TestReport => if s.parent == Accept then Test(c, s) else s
    case LeaveLoop => if s.parent == Accepted then s.(parent := Kill) else s
    case ParentFails => if InTry(s.parent) && s.parent != Accepted then Failed(s) else s
    case Interrupt => if InTry(s.parent) then Leave(s, Cancelled, Interrupted) else s
    case _ => s
  }

  /** Cleanup, the final test, and the parent's own death. */
  function CleanupStep(c: Config, s: State, e: Event): State {
    match e
    case KillGroup(group, single) =>
      if s.parent != Kill then s
      else if group && GroupExists(s) then KilledGroup(s).(parent := Reap, my := s.my.(signalled := true))
      else s.(parent := Reap, anchor := if AnchorRuns(s) && single then DeadAnchor else s.anchor)
    case ReapAnchor =>
      if s.parent != Reap then s
      else if s.now >= c.end then Cleaned(s, CleanupDeadline)
      else if !s.anchor.DeadAnchor? then s
      else if s.my.signalled then s.(parent := Probe, anchor := ReapedAnchor)
      else Cleaned(s.(anchor := ReapedAnchor), GroupUnconfirmed)
    case LoseAnchor => if s.parent == Reap then Cleaned(s, ReapUnconfirmed) else s
    case ProbeGroup =>
      if s.parent != Probe then s
      else if s.now >= c.end then Cleaned(s, CleanupDeadline)
      else if GroupExists(s) then s
      else Cleaned(s, GroupAbsent)
    case ProbeFails => if s.parent == Probe then Cleaned(s, GroupUnconfirmed) else s
    case Return => if s.parent == Finish then s.(parent := Returned, answer := Some(TheAnswer(c, s))) else s
    case ParentDies => if ParentHolds(s) then s.(parent := Gone) else s
    case _ => s
  }

  function ParentStep(c: Config, s: State, e: Event): State {
    match e
    case KillGroup(_, _) | ReapAnchor | LoseAnchor | ProbeGroup | ProbeFails | Return | ParentDies =>
      CleanupStep(c, s, e)
    case _ => LoopStep(c, s, e)
  }

  function Step(c: Config, s: State, e: Event): State {
    match e
    case Tick(seconds) => s.(now := s.now + seconds)
    case ReadAdmission | CheckDirectory(_) | MarkerFails | CreateMarker | SyncMarker(_)
       | BeginTransfer | StartCommand | EndCommand
       | EndTransfer(_) | WriteReport(_) | ExitWorker | WorkerKilled => WorkerStep(c, s, e)
    case SetSession | ForkWorker | WriteReady | WaitWorker | WatchLifeline | AnchorFails | AnchorKilled | InitReaps =>
      AnchorStep(c, s, e)
    case _ => ParentStep(c, s, e)
  }

  function Run(c: Config, s: State, events: seq<Event>): State {
    if events == [] then s else Step(c, Run(c, s, events[..|events| - 1]), events[|events| - 1])
  }
}
