/** The owner protocol's promises, over every interleaving of parent, anchor and worker, every kill,
    every failed call and every clock. */
module OwnerTheorems {
  import opened Outcomes
  import opened OwnerModel
  import opened OwnerSafety

  /** A verified answer: one admitted worker created the marker, ran one transfer that succeeded
      within the limits, exited 0, was heard before the work deadline, and its whole group was gone
      before the final one; the answer's figures are the transfer's. */
  lemma {:induction false} VerifiedReturn(c: Config, marker: Option<nat>, events: seq<Event>)
    ensures var s := Run(c, Initial(marker), events);
            s.answer.Some? && s.answer.value.status == Verified ==>
              && s.pipes.admission && s.marker == Some(c.me) && s.begun == 1
              && s.outcome.Some? && Bounded(c, s.outcome.value)
              && s.answer.value.summary
                 == Summary(|s.outcome.value.tallies|, Sum(s.outcome.value.tallies), s.outcome.value.sequences,
                            s.outcome.value.cut)
              && s.answer.value.phase == FromWorker(0) && s.answer.value.started == Some(true)
              && s.worker == ReapedWorker(Some(0)) && Quiet(s) && s.answer.value.cleanup == GroupAbsent
              && s.my.acceptedAt.Some? && s.my.acceptedAt.value < c.WorkEnd() && s.answer.value.at < c.end
  {
    Reachable(c, marker, events);
  }

  /** An interrupt that took effect after a report was accepted and before the loop was left. */
  ghost predicate InterruptedLate(c: Config, marker: Option<nat>, events: seq<Event>) {
    exists n | 0 <= n < |events| :: events[n] == Interrupt && Run(c, Initial(marker), events[..n]).parent == Accepted
  }

  lemma LateOnceMore(c: Config, marker: Option<nat>, events: seq<Event>)
    requires events != []
    ensures var n := |events| - 1;
            InterruptedLate(c, marker, events) <==>
              || InterruptedLate(c, marker, events[..n])
              || (events[n] == Interrupt && Run(c, Initial(marker), events[..n]).parent == Accepted)
  {
    var n := |events| - 1;
    forall k | 0 <= k <= n
      ensures events[..n][..k] == events[..k]
    {
    }
    if InterruptedLate(c, marker, events[..n]) {
      var k :| 0 <= k < n && events[..n][k] == Interrupt
        && Run(c, Initial(marker), events[..n][..k]).parent == Accepted;
      assert events[k] == Interrupt;
    }
    if InterruptedLate(c, marker, events) {
      var k :| 0 <= k <= n && events[k] == Interrupt && Run(c, Initial(marker), events[..k]).parent == Accepted;
      if k < n {
        assert events[..n][k] == Interrupt;
      }
    }
  }

  predicate Late(s: State) {
    s.my.status == Cancelled && s.my.acceptedAt.Some?
  }

  lemma LateLoopStep(c: Config, s: State, e: Event)
    requires StatusOk(c, s)
    ensures Late(LoopStep(c, s, e)) <==> Late(s) || (e == Interrupt && s.parent == Accepted)
  {
    hide GroupChecks, ReportRefused;
  }

  lemma LateParentStep(c: Config, s: State, e: Event)
    requires StatusOk(c, s)
    ensures Late(ParentStep(c, s, e)) <==> Late(s) || (e == Interrupt && s.parent == Accepted)
  {
    hide StatusOk, LoopStep, CleanupStep;
    LateLoopStep(c, s, e);
    CleanupFrame(c, s, e);
  }

  /** Outside the `try` nothing changes the status or what was accepted. */
  lemma LateStep(c: Config, s: State, e: Event, late: bool)
    requires Inv(c, s)
    requires late <==> Late(s)
    ensures Late(Step(c, s, e)) <==> late || (e == Interrupt && s.parent == Accepted)
  {
    hide StatusOk, ParentStep, WorkerStep, AnchorStep;
    WorkerLeavesParent(c, s, e);
    AnchorLeavesParent(c, s, e);
    LateParentStep(c, s, e);
  }

  lemma {:induction false} LateIs(c: Config, marker: Option<nat>, events: seq<Event>)
    ensures InterruptedLate(c, marker, events) <==> Late(Run(c, Initial(marker), events))
    decreases |events|
  {
    hide Inv, Step, InterruptedLate;
    if events == [] {
      NotLateYet(c, marker);
    } else {
      var before := events[..|events| - 1];
      LateIs(c, marker, before);
      LateOnceMore(c, marker, events);
      Reachable(c, marker, before);
      LateStep(c, Run(c, Initial(marker), before), events[|events| - 1], InterruptedLate(c, marker, before));
    }
  }

  lemma NotLateYet(c: Config, marker: Option<nat>)
    ensures !InterruptedLate(c, marker, [])
  {
  }

  /** An answer that is not verified carries zero counts, unless it is a cancelled one whose interrupt
      came after a success was accepted and before the loop was left; that one carries the accepted
      figures. No answer but a verified one is labelled complete. */
  lemma {:induction false} OthersReportNothing(c: Config, marker: Option<nat>, events: seq<Event>)
    ensures var s := Run(c, Initial(marker), events);
            s.answer.Some? && s.answer.value.status != Verified ==>
              && s.answer.value.phase != FromWorker(0)
              && (s.answer.value.status == Cancelled && InterruptedLate(c, marker, events) ==>
                    && s.my.result.Some?
                    && var r := s.my.result.value;
                       s.answer.value.summary == Summary(r.tables, r.rows, r.sequences, r.cut)
                       && (r.outcome != 0 ==> s.answer.value.summary == ZERO))
              && (s.answer.value.status != Cancelled || !InterruptedLate(c, marker, events) ==>
                    s.answer.value.summary == ZERO)
  {
    hide InterruptedLate, Truthful, WorkerOk, AnchorOk, ParentOk;
    Reachable(c, marker, events);
    LateIs(c, marker, events);
  }

  lemma BeginsAdmitted(c: Config, s: State)
    requires Inv(c, s)
    ensures s.begun > 0 ==> s.begun == 1 && s.pipes.admission && s.marker == Some(c.me)
    ensures s.worker.Started? ==> s.pipes.admission && s.begun == 0
    ensures !s.pipes.admission ==> s.begun == 0
    ensures Step(c, s, BeginTransfer).begun > s.begun ==> s.pipes.admission && s.begun == 0
  {
  }

  lemma LoopAdmits(c: Config, s: State, e: Event)
    ensures LoopStep(c, s, e).begun == s.begun
    ensures LoopStep(c, s, e).pipes.admission && !s.pipes.admission ==> ParentHolds(s) && GroupChecks(c, s)
  {
    hide GroupChecks, ReportRefused;
  }

  lemma WorkerBegins(c: Config, s: State, e: Event)
    ensures WorkerStep(c, s, e).begun > s.begun ==> e.BeginTransfer? && s.worker.Started?
  {
    hide ReportOf, Refusal;
  }

  lemma ParentAdmits(c: Config, s: State, e: Event)
    ensures ParentStep(c, s, e).begun == s.begun
    ensures ParentStep(c, s, e).pipes.admission && !s.pipes.admission ==> ParentHolds(s) && GroupChecks(c, s)
  {
    hide GroupChecks, LoopStep, CleanupStep, ParentHolds;
    LoopAdmits(c, s, e);
    CleanupFrame(c, s, e);
  }

  lemma AdmissionIsChecked(c: Config, s: State, e: Event)
    ensures Step(c, s, e).begun > s.begun ==> e.BeginTransfer? && s.worker.Started?
    ensures Step(c, s, e).pipes.admission && !s.pipes.admission ==> ParentHolds(s) && GroupChecks(c, s)
  {
    hide GroupChecks, ParentStep, AnchorStep, WorkerStep, TheAnswer, ParentHolds, Quiet, WorkerRuns;
    ParentAdmits(c, s, e);
    WorkerBegins(c, s, e);
    WorkerLeavesParent(c, s, e);
    AnchorLeavesParent(c, s, e);
  }

  /** No transfer begins without the admission byte, and the byte is written once, by a parent that
      has just seen its own live anchor leading a session and the worker in it. */
  lemma {:induction false} NoTransferWithoutAdmission(c: Config, marker: Option<nat>, events: seq<Event>, e: Event)
    ensures var s := Run(c, Initial(marker), events);
            && (s.begun > 0 ==> s.begun == 1 && s.pipes.admission && s.marker == Some(c.me))
            && (Step(c, s, e).begun > s.begun ==> s.pipes.admission && s.begun == 0)
            && (Step(c, s, e).pipes.admission && !s.pipes.admission ==>
                  ParentHolds(s) && GroupChecks(c, s) && s.begun == 0)
  {
    hide Inv, Step, GroupChecks;
    Reachable(c, marker, events);
    BeginsAdmitted(c, Run(c, Initial(marker), events));
    AdmissionIsChecked(c, Run(c, Initial(marker), events), e);
  }

  // --- What can no longer happen ---

  /** The worker has not been admitted, and nobody is left who would. */
  predicate NeverAdmitted(s: State) {
    !s.pipes.admission && !InTry(s.parent)
  }

  predicate Stopped(s: State) {
    s.worker.DeadWorker? || s.worker.ReapedWorker? || s.worker.Reported?
  }

  predicate Over(s: State) {
    Quiet(s) || NeverAdmitted(s) || Stopped(s)
  }

  /** What a parent that has left its loop can still change: the anchor and the worker, by ending them. */
  lemma {:induction false} ParentOver(c: Config, s: State, e: Event)
    requires s.anchor.ReapedAnchor? ==> !InTry(s.parent)
    ensures var s' := ParentStep(c, s, e);
            && (!InTry(s.parent) ==> !InTry(s'.parent) && s'.pipes.admission == s.pipes.admission)
            && (s.anchor.ReapedAnchor? || (s.anchor.NoAnchor? && s.parent != Launch) ==>
                  s'.anchor == s.anchor && (s.anchor.NoAnchor? ==> s'.parent != Launch))
  {
    hide LoopStep, CleanupStep;
    LoopFrame(c, s, e);
    CleanupFrame(c, s, e);
  }

  /** `s'` is no less over than `s`, and nothing began in between. */
  predicate StaysOver(s: State, s': State) {
    && Over(s') && s'.begun == s.begun
    && (Quiet(s) ==> Quiet(s') && s'.marker == s.marker && s'.worker == s.worker && s'.anchor == s.anchor)
  }

  lemma WorkerOver(c: Config, s: State, e: Event)
    requires Inv(c, s) && Over(s)
    ensures StaysOver(s, WorkerStep(c, s, e))
  {
    hide Truthful, StatusOk, AnswerOk, ParentOk, CleanupOk, ReportOf, Refusal;
  }

  lemma AnchorOver(c: Config, s: State, e: Event)
    requires Inv(c, s) && Over(s)
    ensures StaysOver(s, AnchorStep(c, s, e))
  {
    hide Truthful, StatusOk, AnswerOk, ParentOk;
  }

  lemma ParentStaysOver(c: Config, s: State, e: Event)
    requires Inv(c, s) && Over(s)
    ensures StaysOver(s, ParentStep(c, s, e))
  {
    hide ParentStep, Truthful, WorkerOk, AnchorOk, StatusOk, AnswerOk, ParentOk;
    ParentOver(c, s, e);
    SameWorker(c, s, e);
  }

  lemma OverStays(c: Config, s: State, e: Event)
    requires Inv(c, s) && Over(s)
    ensures StaysOver(s, Step(c, s, e))
  {
    hide Inv, Over, Quiet, WorkerStep, AnchorStep, ParentStep;
    WorkerOver(c, s, e);
    AnchorOver(c, s, e);
    ParentStaysOver(c, s, e);
    if e.Tick? {
      assert StaysOver(s, s.(now := s.now + e.seconds)) by { TickOver(s, e.seconds); }
    }
  }

  lemma TickOver(s: State, seconds: nat)
    requires Over(s)
    ensures StaysOver(s, s.(now := s.now + seconds))
  {
  }

  lemma {:induction false} OverForever(c: Config, s: State, events: seq<Event>)
    requires Inv(c, s) && Over(s)
    ensures var t := Run(c, s, events);
            Inv(c, t) && Over(t) && t.begun == s.begun
            && (Quiet(s) ==> Quiet(t) && t.marker == s.marker && t.worker == s.worker && t.anchor == s.anchor)
    decreases |events|
  {
    hide Inv, Over, Quiet, Step;
    if events != [] {
      var before := events[..|events| - 1];
      OverForever(c, s, before);
      StepKeeps(c, Run(c, s, before), events[|events| - 1]);
      OverStays(c, Run(c, s, before), events[|events| - 1]);
    }
  }

  /** Every answer but `reconcile_required` is final: no process of the group is left, and whatever
      happens afterwards neither the marker nor the transfer is touched again. */
  lemma {:induction false} FinalAnswers(c: Config, marker: Option<nat>, events: seq<Event>, later: seq<Event>)
    ensures var s := Run(c, Initial(marker), events);
            var t := Run(c, s, later);
            s.answer.Some? && s.answer.value.status != ReconcileRequired ==>
              Quiet(s) && Quiet(t) && t.begun == s.begun && t.marker == s.marker && t.worker == s.worker
  {
    Reachable(c, marker, events);
    var s := Run(c, Initial(marker), events);
    if s.answer.Some? && s.answer.value.status != ReconcileRequired {
      OverForever(c, s, later);
    }
  }

  /** `attempt_started` is exact about the transfer: false means none has begun or ever will, true
      that one did, and this invocation owns the marker. */
  lemma {:induction false} StartedIsExact(c: Config, marker: Option<nat>, events: seq<Event>, later: seq<Event>)
    ensures var s := Run(c, Initial(marker), events);
            var t := Run(c, s, later);
            s.answer.Some? ==>
              && (s.answer.value.started == Some(false) ==> t.begun == 0)
              && (s.answer.value.started == Some(true) ==> s.begun == 1 && s.marker == Some(c.me))
              && (s.answer.value.started == None ==> s.pipes.admission)
  {
    Reachable(c, marker, events);
    var s := Run(c, Initial(marker), events);
    if s.answer.Some? && s.answer.value.started == Some(false) {
      FalseIsOver(c, s);
      OverForever(c, s, later);
    }
  }

  lemma FalseIsOver(c: Config, s: State)
    requires Inv(c, s) && s.answer.Some? && s.answer.value.started == Some(false)
    ensures Over(s) && s.begun == 0
  {
  }

  lemma Then(c: Config, s: State, events: seq<Event>, at: State, e: Event) returns (events': seq<Event>, at': State)
    requires Run(c, s, events) == at
    ensures events' == events + [e] && at' == Step(c, at, e) && Run(c, s, events') == at'
  {
    events', at' := events + [e], Step(c, at, e);
    assert events'[..|events|] == events;
  }

  /** Cleanup without obstacles: the group is there, the signals arrive, and its end is seen in time. */
  lemma CleansUp(c: Config, s: State, events: seq<Event>, at: State) returns (events': seq<Event>, at': State)
    requires Run(c, s, events) == at && at.parent.Kill? && InGroup(at.anchor) && at.now < c.end
    requires (at.worker.NoWorker? || at.worker.ReapedWorker?) && at.commands == 0
    ensures Run(c, s, events') == at' && at'.marker == at.marker
    ensures at'.answer == Some(Answer(at.my.status, at.my.phase, at.my.summary, at.my.started, GroupAbsent, at.now))
  {
    hide Run, LoopStep, AnchorStep, WorkerStep;
    events', at' := Then(c, s, events, at, KillGroup(true, true));
    events', at' := Then(c, s, events', at', ReapAnchor);
    events', at' := Then(c, s, events', at', ProbeGroup);
    events', at' := Then(c, s, events', at', Return);
  }

  function AllForked(c: Config): State {
    Initial(None).(parent := Head, anchor := Supervising(false), worker := Waiting,
                   pipes := Pipes(Some((c.anchorPid, c.workerPid)), false, None, None))
  }

  function LetIn(c: Config): State {
    var s := AllForked(c);
    s.(pipes := s.pipes.(admission := true), my := s.my.(ready := s.pipes.ready, admitted := true, started := None))
  }

  function Unsynced(c: Config): State {
    LetIn(c).(worker := Reporting(Refusal(TRANSFER_REFUSED, false)), marker := Some(c.me))
  }

  function SyncFailed(c: Config): State {
    var s := LetIn(c);
    s.(anchor := Supervising(true), worker := ReapedWorker(Some(0)), marker := Some(c.me),
       pipes := s.pipes.(result := Some(Refusal(TRANSFER_REFUSED, false)), completion := Some(0)))
  }

  function Heard(c: Config): State {
    var s := SyncFailed(c);
    s.(parent := Kill, my := s.my.(result := s.pipes.result, completion := s.pipes.completion, started := Some(false),
                                   phase := FromWorker(TRANSFER_REFUSED), acceptedAt := Some(0)))
  }

  lemma ForkAll(c: Config) returns (es: seq<Event>)
    requires c.Valid()
    ensures Run(c, Initial(None), es) == AllForked(c)
  {
    hide Run;
    var s0 := Initial(None);
    var s := s0;
    es := [];
    RunNothing(c, s0);
    es, s := Then(c, s0, es, s, ForkAnchor);
    es, s := Then(c, s0, es, s, SetSession);
    es, s := Then(c, s0, es, s, ForkWorker);
    es, s := Then(c, s0, es, s, WriteReady);
  }

  lemma Admission(c: Config) returns (es: seq<Event>)
    requires c.Valid()
    ensures Run(c, Initial(None), es) == LetIn(c)
  {
    hide Run;
    var s0 := Initial(None);
    es := ForkAll(c);
    var s := AllForked(c);
    es, s := Then(c, s0, es, s, ParentHead);
    es, s := Then(c, s0, es, s, ReadReady);
    es, s := Then(c, s0, es, s, ReadsDone);
    es, s := Then(c, s0, es, s, TestReady);
    es, s := Then(c, s0, es, s, TestReport);
  }

  lemma FailingSync(c: Config) returns (es: seq<Event>)
    requires c.Valid()
    ensures Run(c, Initial(None), es) == Unsynced(c)
  {
    hide Run;
    var s0 := Initial(None);
    es := Admission(c);
    var s := LetIn(c);
    es, s := Then(c, s0, es, s, ReadAdmission);
    es, s := Then(c, s0, es, s, CreateMarker);
    es, s := Then(c, s0, es, s, SyncMarker(false));
  }

  lemma FailedWorkerExits(c: Config) returns (es: seq<Event>)
    requires c.Valid()
    ensures Run(c, Initial(None), es) == SyncFailed(c)
  {
    hide Run;
    var s0 := Initial(None);
    es := FailingSync(c);
    var s := Unsynced(c);
    es, s := Then(c, s0, es, s, WriteReport(true));
    es, s := Then(c, s0, es, s, ExitWorker);
    es, s := Then(c, s0, es, s, WaitWorker);
  }

  lemma Hearing(c: Config) returns (es: seq<Event>)
    requires c.Valid()
    ensures Run(c, Initial(None), es) == Heard(c)
  {
    hide Run;
    var s0 := Initial(None);
    es := FailedWorkerExits(c);
    var s := SyncFailed(c);
    es, s := Then(c, s0, es, s, ParentHead);
    es, s := Then(c, s0, es, s, ReadResult);
    es, s := Then(c, s0, es, s, ReadCompletion);
    es, s := Then(c, s0, es, s, ReadsDone);
    es, s := Then(c, s0, es, s, TestReady);
    es, s := Then(c, s0, es, s, TestReport);
    es, s := Then(c, s0, es, s, LeaveLoop);
  }

  /** It is not exact about the marker: when the directory cannot be synced the worker reports that
      nothing started, although the marker exists and will refuse the next attempt. */
  lemma {:induction false} MarkerLeftBehind(c: Config)
    requires c.Valid()
    ensures exists events: seq<Event> ::
              var s := Run(c, Initial(None), events);
              && s.answer.Some? && s.answer.value.status == Status.Refused && s.answer.value.started == Some(false)
              && s.marker == Some(c.me)
  {
    hide Run;
    var es := Hearing(c);
    var es', s := CleansUp(c, Initial(None), es, Heard(c));
  }

  /** The run in which a directory sync failed once the marker was made. */
  ghost predicate SyncFailedIn(c: Config, marker: Option<nat>, events: seq<Event>) {
    exists n | 0 <= n < |events| ::
      events[n] == SyncMarker(false) && Run(c, Initial(marker), events[..n]).worker == Marked
  }

  lemma SyncOnceMore(c: Config, marker: Option<nat>, events: seq<Event>)
    requires events != []
    ensures var n := |events| - 1;
            SyncFailedIn(c, marker, events) <==>
              || SyncFailedIn(c, marker, events[..n])
              || (events[n] == SyncMarker(false) && Run(c, Initial(marker), events[..n]).worker == Marked)
  {
    var n := |events| - 1;
    forall k | 0 <= k <= n
      ensures events[..n][..k] == events[..k]
    {
    }
    if SyncFailedIn(c, marker, events[..n]) {
      var k :| 0 <= k < n && events[..n][k] == SyncMarker(false)
               && Run(c, Initial(marker), events[..n][..k]).worker == Marked;
      assert events[k] == SyncMarker(false);
    }
    if SyncFailedIn(c, marker, events) {
      var k :| 0 <= k <= n && events[k] == SyncMarker(false) && Run(c, Initial(marker), events[..k]).worker == Marked;
      if k < n {
        assert events[..n][k] == SyncMarker(false);
      }
    }
  }

  /** What the worker and its report say of the marker; `failed` is whether a sync has failed. */
  predicate MarkerOk(c: Config, s: State, failed: bool) {
    && (failed || s.worker.Marked? || s.worker.Started? || s.worker.Transferring? ==> s.marker == Some(c.me))
    && (s.marker == Some(c.me) ==>
          s.pipes.admission && !s.worker.NoWorker? && !s.worker.Waiting? && !s.worker.Admitted?)
    && (s.worker.Marked? || s.worker.Started? || s.worker.Transferring? ==> !failed)
    && (s.worker.Reporting? ==> ReportMarker(c, s, failed, s.worker.report))
    && (s.pipes.result.Some? ==> ReportMarker(c, s, failed, s.pipes.result.value))
  }

  predicate ReportMarker(c: Config, s: State, failed: bool, r: Report) {
    if r.started then !failed else (s.marker == Some(c.me) <==> failed)
  }

  lemma WorkerMarks(c: Config, s: State, e: Event, failed: bool)
    requires WorkerOk(c, s) && MarkerOk(c, s, failed)
    ensures MarkerOk(c, WorkerStep(c, s, e), failed || (e == SyncMarker(false) && s.worker == Marked))
  {
    hide Truthful, ReportOf;
    if e.EndTransfer? {
      ReportSaysStarted(c, e.result);
    }
  }

  lemma ParentMarks(c: Config, s: State, e: Event, failed: bool)
    requires MarkerOk(c, s, failed)
    ensures MarkerOk(c, ParentStep(c, s, e), failed)
  {
    hide ParentStep, ReportMarker;
    SameWorker(c, s, e);
    SameReportMarker(c, s, ParentStep(c, s, e), failed);
  }

  lemma AnchorMarks(c: Config, s: State, e: Event, failed: bool)
    requires AnchorOk(c, s) && MarkerOk(c, s, failed)
    ensures MarkerOk(c, AnchorStep(c, s, e), failed)
  {
    hide AnchorStep, ReportMarker;
    AnchorLeavesParent(c, s, e);
    SameReportMarker(c, s, AnchorStep(c, s, e), failed);
  }

  lemma SameReportMarker(c: Config, s: State, s': State, failed: bool)
    requires s'.marker == s.marker
    ensures forall r | ReportMarker(c, s, failed, r) :: ReportMarker(c, s', failed, r)
  {
  }

  lemma MarkerAtEachStep(c: Config, s: State, e: Event, failed: bool)
    requires Inv(c, s) && MarkerOk(c, s, failed)
    ensures MarkerOk(c, WorkerStep(c, s, e), failed || (e == SyncMarker(false) && s.worker == Marked))
    ensures MarkerOk(c, AnchorStep(c, s, e), failed) && MarkerOk(c, ParentStep(c, s, e), failed)
    ensures e.Tick? ==> MarkerOk(c, s.(now := s.now + e.seconds), failed)
  {
    hide WorkerOk, AnchorOk, ParentStep, AnchorStep, WorkerStep;
    WorkerMarks(c, s, e, failed);
    AnchorMarks(c, s, e, failed);
    ParentMarks(c, s, e, failed);
  }

  lemma MarkerStep(c: Config, s: State, e: Event, failed: bool)
    requires Inv(c, s) && MarkerOk(c, s, failed)
    ensures MarkerOk(c, Step(c, s, e), failed || (e == SyncMarker(false) && s.worker == Marked))
  {
    hide Inv, MarkerOk, ParentStep, AnchorStep, WorkerStep;
    MarkerAtEachStep(c, s, e, failed);
  }

  lemma ReportSaysStarted(c: Config, r: Outcome)
    ensures ReportOf(c, r).started
  {
  }

  lemma {:induction false} MarkerHistory(c: Config, marker: Option<nat>, events: seq<Event>)
    requires marker != Some(c.me)
    ensures MarkerOk(c, Run(c, Initial(marker), events), SyncFailedIn(c, marker, events))
    decreases |events|
  {
    hide Inv, Step, MarkerOk, SyncFailedIn;
    if events == [] {
      NoMarkerYet(c, marker);
    } else {
      var before := events[..|events| - 1];
      MarkerHistory(c, marker, before);
      SyncOnceMore(c, marker, events);
      Reachable(c, marker, before);
      MarkerStep(c, Run(c, Initial(marker), before), events[|events| - 1], SyncFailedIn(c, marker, before));
    }
  }

  lemma NoMarkerYet(c: Config, marker: Option<nat>)
    requires marker != Some(c.me)
    ensures !SyncFailedIn(c, marker, []) && MarkerOk(c, Initial(marker), false)
  {
  }

  /** Exactly when a false `attempt_started` leaves this invocation's marker behind: when a sync
      failed after the marker was made. No other failure before the transfer does. */
  lemma {:induction false} FalseLeavesMarker(c: Config, marker: Option<nat>, events: seq<Event>)
    requires marker != Some(c.me)
    ensures var s := Run(c, Initial(marker), events);
            s.answer.Some? && s.answer.value.started == Some(false) ==>
              (s.marker == Some(c.me) <==> SyncFailedIn(c, marker, events))
  {
    hide SyncFailedIn, Truthful, WorkerOk, AnchorOk, CleanupOk;
    Reachable(c, marker, events);
    MarkerHistory(c, marker, events);
  }

  lemma RunNothing(c: Config, s: State)
    ensures Run(c, s, []) == s
  {
  }

  // A success is accepted, and an interrupt comes before the loop is left.

  function Succeeded(c: Config): State {
    var s := LetIn(c);
    s.(anchor := Supervising(true), worker := ReapedWorker(Some(0)), marker := Some(c.me), begun := 1,
       outcome := Some(Transferred([1], 0, true)),
       pipes := s.pipes.(result := Some(Report(0, 0, 1, 1, 0, true, true)), completion := Some(0)))
  }

  function Moving(c: Config): State {
    LetIn(c).(worker := Transferring, marker := Some(c.me), begun := 1)
  }

  function Agreed(c: Config): State {
    var s := Succeeded(c);
    s.(parent := Accepted,
       my := s.my.(result := s.pipes.result, completion := s.pipes.completion, started := Some(true),
                   status := Verified, phase := FromWorker(0), summary := Summary(1, 1, 0, true),
                   acceptedAt := Some(0)))
  }

  lemma Beginning(c: Config) returns (es: seq<Event>)
    requires c.Valid()
    ensures Run(c, Initial(None), es) == Moving(c)
  {
    hide Run, AnchorStep, ParentStep, ReportOf, Refusal;
    var s0 := Initial(None);
    es := Admission(c);
    var s := LetIn(c);
    es, s := Then(c, s0, es, s, ReadAdmission);
    es, s := Then(c, s0, es, s, CreateMarker);
    es, s := Then(c, s0, es, s, SyncMarker(true));
    es, s := Then(c, s0, es, s, BeginTransfer);
  }

  lemma OneTally()
    ensures Sum([1]) == 1
  {
    assert Sum([1]) == 1 + Sum([1][1..]);
  }

  lemma Succeeding(c: Config) returns (es: seq<Event>)
    requires c.Valid() && c.rows >= 1 && c.objects >= 1
    ensures Run(c, Initial(None), es) == Succeeded(c)
  {
    hide Run, ParentStep;
    OneTally();
    var s0 := Initial(None);
    es := Beginning(c);
    var s := Moving(c);
    es, s := Then(c, s0, es, s, EndTransfer(Transferred([1], 0, true)));
    es, s := Then(c, s0, es, s, WriteReport(true));
    es, s := Then(c, s0, es, s, ExitWorker);
    es, s := Then(c, s0, es, s, WaitWorker);
  }

  lemma Agreeing(c: Config) returns (es: seq<Event>)
    requires c.Valid() && c.rows >= 1 && c.objects >= 1
    ensures Run(c, Initial(None), es) == Agreed(c)
  {
    hide Run, AnchorStep, WorkerStep, CleanupStep;
    var s0 := Initial(None);
    es := Succeeding(c);
    var s := Succeeded(c);
    es, s := Then(c, s0, es, s, ParentHead);
    es, s := Then(c, s0, es, s, ReadResult);
    es, s := Then(c, s0, es, s, ReadCompletion);
    es, s := Then(c, s0, es, s, ReadsDone);
    es, s := Then(c, s0, es, s, TestReady);
    es, s := Then(c, s0, es, s, TestReport);
  }

  /** And a verified answer is reached, by a run in which nothing goes wrong. */
  lemma {:induction false} VerifiedShows(c: Config)
    requires c.Valid() && c.rows >= 1 && c.objects >= 1
    ensures exists events: seq<Event> ::
              var s := Run(c, Initial(None), events);
              s.answer.Some? && s.answer.value.status == Verified && s.answer.value.summary == Summary(1, 1, 0, true)
  {
    hide Run, AnchorStep, WorkerStep, CleanupStep;
    var s0 := Initial(None);
    var es := Agreeing(c);
    var s := Agreed(c);
    es, s := Then(c, s0, es, s, LeaveLoop);
    var es', s' := CleansUp(c, s0, es, s);
  }

  /** A cancelled answer can carry figures: an interrupt between accepting a success and leaving the loop. */
  lemma {:induction false} LateInterruptShows(c: Config)
    requires c.Valid() && c.rows >= 1 && c.objects >= 1
    ensures exists events: seq<Event> ::
              var s := Run(c, Initial(None), events);
              s.answer.Some? && s.answer.value.status == Cancelled && s.answer.value.summary == Summary(1, 1, 0, true)
  {
    hide Run, AnchorStep, WorkerStep, CleanupStep;
    var s0 := Initial(None);
    var es := Agreeing(c);
    var s := Agreed(c);
    es, s := Then(c, s0, es, s, Interrupt);
    var es', s' := CleansUp(c, s0, es, s);
  }

  /** The death of the parent before it admits the worker, or the anchor's next look at the pipe
      after it, ends the matter. */
  lemma {:induction false} ParentDeath(c: Config, marker: Option<nat>, events: seq<Event>, later: seq<Event>)
    ensures var s := Run(c, Initial(marker), events);
            s.parent in {Returned, Gone} ==>
              && (!s.pipes.admission ==> Run(c, s, later).begun == 0)
              && (s.anchor.Supervising? ==>
                    var k := Step(c, s, WatchLifeline);
                    !WorkerRuns(k) && !AnchorRuns(k) && Run(c, k, later).begun == s.begun)
  {
    hide Inv, Over, Step, Run;
    Reachable(c, marker, events);
    var s := Run(c, Initial(marker), events);
    if !ParentHolds(s) {
      DeadParentAdmitsNobody(c, s);
      if !s.pipes.admission {
        OverForever(c, s, later);
      }
      if s.anchor.Supervising? {
        StepKeeps(c, s, WatchLifeline);
        OverForever(c, Step(c, s, WatchLifeline), later);
      }
    }
  }

  lemma DeadParentAdmitsNobody(c: Config, s: State)
    requires Inv(c, s) && !ParentHolds(s)
    ensures !s.pipes.admission ==> Over(s) && s.begun == 0
    ensures s.anchor.Supervising? ==>
              var k := Step(c, s, WatchLifeline);
              !WorkerRuns(k) && !AnchorRuns(k) && Over(k) && k.begun == s.begun
  {
    hide ParentOk, StatusOk, CleanupOk, AnswerOk, Truthful;
  }

  /** The parent never refuses for its contents a report that an honest worker made in time. */
  lemma {:induction false} HonestReportsAreRead(c: Config, marker: Option<nat>, events: seq<Event>)
    ensures var s := Run(c, Initial(marker), events);
            s.pipes.result.Some? && s.now < c.WorkEnd() ==> !ReportRefused(c, s.pipes.result.value, 0, s.now)
  {
    Reachable(c, marker, events);
  }

  // --- The parent answers ---

  /** How many program points a parent past its deadline still has before it. */
  function Rank(p: Parent): nat {
    match p
    case Reads => 8
    case Admit => 7
    case Accept | Launch => 6
    case Accepted | Head => 5
    case Kill => 4
    case Reap => 3
    case Probe => 2
    case Finish => 1
    case Returned | Gone => 0
  }

  /** The step that ends a program point; the reads before `ReadsDone` and every failure are further steps. */
  predicate Ends(p: Parent, e: Event) {
    match p
    case Launch => e.ForkAnchor?
    case Head => e.ParentHead?
    case Reads => e.ReadsDone?
    case Admit => e.TestReady?
    case Accept => e.TestReport?
    case Accepted => e.LeaveLoop?
    case Kill => e.KillGroup?
    case Reap => e.ReapAnchor?
    case Probe => e.ProbeGroup?
    case Finish => e.Return?
    case _ => false
  }

  /** How often in a run the parent ended a program point. */
  function Turns(c: Config, s: State, events: seq<Event>): nat {
    if events == [] then 0
    else
      var n := |events| - 1;
      Turns(c, s, events[..n]) + if Ends(Run(c, s, events[..n]).parent, events[n]) then 1 else 0
  }

  lemma LoopTurn(c: Config, s: State, e: Event)
    requires s.now >= c.end && c.Valid()
    ensures var p := LoopStep(c, s, e).parent;
            if p == s.parent then Ends(s.parent, e) ==> !InTry(s.parent) else Rank(p) < Rank(s.parent)
  {
    hide GroupChecks, ReportRefused;
  }

  lemma CleanupTurn(c: Config, s: State, e: Event)
    requires s.now >= c.end
    ensures var p := CleanupStep(c, s, e).parent;
            if p == s.parent then Ends(s.parent, e) ==> InTry(s.parent) else Rank(p) < Rank(s.parent)
    ensures CleanupStep(c, s, e).parent.Gone? ==> s.parent.Gone? || e.ParentDies?
  {
    hide GroupExists, TheAnswer;
  }

  lemma OthersEndNothing(p: Parent, e: Event)
    ensures Ends(p, e) ==>
              if InTry(p) then
                e.ForkAnchor? || e.ParentHead? || e.ReadsDone? || e.TestReady? || e.TestReport? || e.LeaveLoop?
              else e.KillGroup? || e.ReapAnchor? || e.ProbeGroup? || e.Return?
  {
  }

  lemma ParentTurn(c: Config, s: State, e: Event)
    requires s.now >= c.end && c.Valid()
    ensures var s' := ParentStep(c, s, e);
            && (Rank(s'.parent) < Rank(s.parent) || (s'.parent == s.parent && !(ParentMoves(e) && Ends(s.parent, e))))
            && s'.now == s.now && (s'.parent.Gone? ==> s.parent.Gone? || e.ParentDies?)
  {
    hide LoopStep, CleanupStep, Rank, Ends;
    LoopFrame(c, s, e);
    CleanupFrame(c, s, e);
    LoopTurn(c, s, e);
    CleanupTurn(c, s, e);
    OthersEndNothing(s.parent, e);
  }

  predicate ParentMoves(e: Event) {
    || e.ForkAnchor? || e.ParentHead? || e.ReadsDone? || e.TestReady? || e.TestReport? || e.LeaveLoop?
    || e.KillGroup? || e.ReapAnchor? || e.ProbeGroup? || e.Return?
  }

  lemma TurnCounts(c: Config, s: State, e: Event)
    requires s.now >= c.end && c.Valid()
    ensures var p := Step(c, s, e).parent; Rank(p) + (if Ends(s.parent, e) then 1 else 0) <= Rank(s.parent)
    ensures Step(c, s, e).now >= s.now && (Step(c, s, e).parent.Gone? ==> s.parent.Gone? || e.ParentDies?)
  {
    hide WorkerStep, AnchorStep, ParentStep, Rank, Ends, TheAnswer, Quiet, WorkerRuns;
    WorkerLeavesParent(c, s, e);
    AnchorLeavesParent(c, s, e);
    ParentTurn(c, s, e);
    OthersEndNothing(s.parent, e);
  }

  lemma LateCleanup(c: Config, s: State, e: Event)
    requires s.now >= c.end
    ensures CleanupStep(c, s, e).answer == s.answer || s.anchor.NoAnchor?
            || CleanupStep(c, s, e).answer == Some(Answer(ReconcileRequired, CleanupUnconfirmed, ZERO, s.my.started,
                                                          s.my.cleanup, s.now))
  {
    hide GroupExists;
  }

  lemma LateParent(c: Config, s: State, e: Event)
    requires s.now >= c.end
    ensures var answer := ParentStep(c, s, e).answer;
            answer == s.answer || s.anchor.NoAnchor?
            || answer == Some(Answer(ReconcileRequired, CleanupUnconfirmed, ZERO, s.my.started, s.my.cleanup, s.now))
  {
    hide LoopStep, CleanupStep;
    LoopFrame(c, s, e);
    LateCleanup(c, s, e);
  }

  /** An answer given past the deadline never vouches for anything, unless there was nothing to clean up. */
  lemma {:induction false} LateAnswer(c: Config, s: State, e: Event)
    requires s.now >= c.end && s.answer == None && Step(c, s, e).answer.Some?
    ensures var answer := Step(c, s, e).answer.value;
            (answer.status == ReconcileRequired && answer.summary == ZERO) || s.anchor.NoAnchor?
  {
    hide WorkerStep, AnchorStep, ParentStep, TheAnswer, Quiet, WorkerRuns;
    WorkerLeavesParent(c, s, e);
    AnchorLeavesParent(c, s, e);
    LateParent(c, s, e);
  }

  /** Past the deadline the parent ends at most eight more program points, whatever the others do, and
      when it has ended as many as it had before it, it has returned, unless it was killed. */
  lemma {:induction false} ParentAnswers(c: Config, s: State, events: seq<Event>)
    requires c.Valid() && s.now >= c.end
    ensures var t := Run(c, s, events);
            && Turns(c, s, events) + Rank(t.parent) <= Rank(s.parent) <= 8 && t.now >= c.end
            && (t.parent.Gone? ==> s.parent.Gone? || ParentDies in events)
            && (Turns(c, s, events) >= Rank(s.parent) ==> t.parent.Returned? || t.parent.Gone?)
    decreases |events|
  {
    hide Step, Rank, Ends;
    Ranks(s.parent);
    Ranks(Run(c, s, events).parent);
    if events != [] {
      var n := |events| - 1;
      ParentAnswers(c, s, events[..n]);
      TurnCounts(c, Run(c, s, events[..n]), events[n]);
    }
  }

  lemma Ranks(p: Parent)
    ensures Rank(p) <= 8 && (Rank(p) == 0 <==> p.Returned? || p.Gone?)
    ensures !p.Returned? && !p.Gone? ==> exists e :: Ends(p, e)
  {
    assert Ends(Launch, ForkAnchor) && Ends(Head, ParentHead) && Ends(Reads, ReadsDone) && Ends(Admit, TestReady);
    assert Ends(Accept, TestReport) && Ends(Accepted, LeaveLoop) && Ends(Kill, KillGroup(true, true));
    assert Ends(Reap, ReapAnchor) && Ends(Probe, ProbeGroup) && Ends(Finish, Return);
  }

  // --- Any number of invocations on one directory ---

  /** Every invocation ever made on the directory, and the marker they share. */
  datatype Directory = Directory(runs: map<nat, State>, marker: Option<nat>)

  function ShareStep(configs: nat -> Config, d: Directory, i: nat, e: Event): Directory {
    if i !in d.runs then d
    else
      var t := Step(configs(i), d.runs[i].(marker := d.marker), e);
      Directory(d.runs[i := t], t.marker)
  }

  function ShareRun(configs: nat -> Config, d: Directory, events: seq<(nat, Event)>): (t: Directory)
    ensures t.runs.Keys == d.runs.Keys
  {
    if events == [] then d
    else
      var (i, e) := events[|events| - 1];
      ShareStep(configs, ShareRun(configs, d, events[..|events| - 1]), i, e)
  }

  ghost predicate Fresh(d: Directory) {
    forall i | i in d.runs :: d.runs[i] == Initial(d.marker)
  }

  ghost predicate SharedInv(configs: nat -> Config, d: Directory) {
    forall i | i in d.runs :: configs(i).me == i ==> Inv(configs(i), d.runs[i].(marker := d.marker))
  }

  /** The marker is created once and never replaced. */
  lemma {:induction false} MarkerIsExclusive(c: Config, s: State, e: Event)
    ensures Step(c, s, e).marker != s.marker ==> s.marker == None && Step(c, s, e).marker == Some(c.me)
  {
    hide AnchorStep, ParentStep, ReportOf, Refusal;
    AnchorLeavesParent(c, s, e);
    SameWorker(c, s, e);
  }

  lemma {:induction false} AnotherMarks(c: Config, s: State, other: nat)
    requires Inv(c, s) && s.marker == None && other != c.me
    ensures Inv(c, s.(marker := Some(other)))
  {
    hide Bounded, Refusal, GroupChecks;
  }

  lemma ShareStepKeeps(configs: nat -> Config, d: Directory, i: nat, e: Event)
    requires SharedInv(configs, d) && forall k :: configs(k).me == k
    ensures SharedInv(configs, ShareStep(configs, d, i, e))
    ensures d.marker.Some? ==> ShareStep(configs, d, i, e).marker == d.marker
  {
    hide Inv, Step;
    if i in d.runs {
      var s := d.runs[i].(marker := d.marker);
      var d' := ShareStep(configs, d, i, e);
      StepKeeps(configs(i), s, e);
      MarkerIsExclusive(configs(i), s, e);
      forall k | k in d'.runs
        ensures Inv(configs(k), d'.runs[k].(marker := d'.marker))
      {
        if k != i && d'.marker != d.marker {
          AnotherMarks(configs(k), d.runs[k].(marker := d.marker), i);
          assert d.runs[k].(marker := d.marker).(marker := d'.marker) == d.runs[k].(marker := d'.marker);
        } else if k == i {
          assert d'.runs[i].(marker := d'.marker) == Step(configs(i), s, e);
        }
      }
    }
  }

  lemma {:induction false} SharedReachable(configs: nat -> Config, d: Directory, events: seq<(nat, Event)>)
    requires Fresh(d) && forall k :: configs(k).me == k
    ensures SharedInv(configs, ShareRun(configs, d, events))
    ensures d.marker.Some? ==> ShareRun(configs, d, events).marker == d.marker
    decreases |events|
  {
    hide Inv, Step;
    if events == [] {
      forall i | i in d.runs
        ensures Inv(configs(i), d.runs[i].(marker := d.marker))
      {
        AtLaunch(configs(i), d.marker);
      }
    } else {
      var before := events[..|events| - 1];
      SharedReachable(configs, d, before);
      ShareStepKeeps(configs, ShareRun(configs, d, before), events[|events| - 1].0, events[|events| - 1].1);
    }
  }

  /** Whatever is started, killed or retried on one directory, at most one transfer ever begins there,
      so at most one invocation is ever answered `verified`; and none once the marker is a stranger's. */
  lemma {:induction false} AtMostOneTransfer(configs: nat -> Config, d: Directory, events: seq<(nat, Event)>, i: nat,
                                             j: nat)
    requires Fresh(d) && forall k :: configs(k).me == k
    requires i in d.runs && j in d.runs
    ensures var t := ShareRun(configs, d, events);
            && t.runs[i].begun <= 1
            && (t.runs[i].begun > 0 && t.runs[j].begun > 0 ==> i == j)
            && (t.runs[i].answer.Some? && t.runs[i].answer.value.status == Verified ==> t.runs[i].begun == 1)
            && (d.marker.Some? && d.marker.value !in d.runs ==> t.runs[i].begun == 0)
  {
    SharedReachable(configs, d, events);
    var t := ShareRun(configs, d, events);
    OwnsMarker(configs(i), t.runs[i].(marker := t.marker));
    OwnsMarker(configs(j), t.runs[j].(marker := t.marker));
  }

  lemma OwnsMarker(c: Config, s: State)
    requires Inv(c, s)
    ensures s.begun <= 1 && (s.begun > 0 ==> s.marker == Some(c.me))
    ensures s.answer.Some? && s.answer.value.status == Verified ==> s.begun == 1
  {
  }
}
