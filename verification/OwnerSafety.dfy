/** What every reachable state of the owned transfer keeps, and what its answer therefore means. */
module OwnerSafety {
  import opened Outcomes
  import opened OwnerModel

  // --- The invariant ---

  predicate Bounded(c: Config, r: Outcome) {
    && r.Transferred? && |r.tallies| <= c.objects && Sum(r.tallies) <= c.rows && r.sequences <= c.objects
    && (c.final ==> r.cut)
  }

  /** A report tells the truth about what the worker did. */
  predicate Truthful(c: Config, s: State, r: Report) {
    && r.started == (s.begun == 1)
    && (r.outcome == 0 ==>
          && s.begun == 1 && s.outcome.Some? && Bounded(c, s.outcome.value)
          && r == Report(0, 0, |s.outcome.value.tallies|, Sum(s.outcome.value.tallies), s.outcome.value.sequences,
                         s.outcome.value.cut, true))
    && (r.outcome != 0 ==> r == Refusal(r.phase, r.started))
  }

  predicate WorkerOk(c: Config, s: State) {
    && s.begun <= 1
    && (s.begun == 1 ==> s.pipes.admission && s.marker == Some(c.me))
    && (s.worker.NoWorker? || s.worker.Waiting? || s.worker.Admitted? || s.worker.Marked? || s.worker.Started? ==>
          s.begun == 0 && s.pipes.result == None)
    && (s.worker.Admitted? || s.worker.Marked? || s.worker.Started? ==> s.pipes.admission)
    && (s.worker.Marked? || s.worker.Started? ==> s.marker == Some(c.me))
    && (s.worker.Transferring? ==> s.begun == 1 && s.pipes.result == None)
    && (s.worker.Reporting? ==> s.pipes.admission && s.pipes.result == None && Truthful(c, s, s.worker.report))
    && (s.worker.Reported? ==> s.pipes.result.Some?)
    && (s.pipes.result.Some? ==> s.pipes.admission && Truthful(c, s, s.pipes.result.value))
    && (s.worker.DeadWorker? || s.worker.ReapedWorker? ==> s.worker.code == Some(0) ==> s.pipes.result.Some?)
    && (s.commands > 0 ==> s.begun == 1)
  }

  predicate AnchorOk(c: Config, s: State) {
    && (s.anchor.NoAnchor? || s.anchor.Fresh? || s.anchor.Leader? ==> s.worker.NoWorker? && s.pipes.completion == None)
    && (s.anchor.Supervising? || s.anchor.Forked? ==> !s.worker.NoWorker?)
    && (s.anchor.Forked? || s.anchor == Supervising(false) ==> s.pipes.completion == None)
    && (s.pipes.completion == Some(0) ==> s.worker == ReapedWorker(Some(0)))
  }

  predicate ParentOk(c: Config, s: State) {
    && (s.parent.Launch? <==> s.anchor.NoAnchor? && InTry(s.parent))
    && (s.anchor.NoAnchor? ==> s.parent.Launch? || s.parent.Finish? || s.parent.Returned? || s.parent.Gone?)
    && (s.my.result.Some? ==> s.my.result == s.pipes.result)
    && (s.my.completion.Some? ==> s.my.completion == s.pipes.completion)
    && s.my.admitted == s.pipes.admission
    && (s.anchor.NoAnchor? ==> !s.my.admitted && s.my.status != ReconcileRequired)
    && (!s.my.admitted ==> s.my.started == Some(false))
    && (s.my.admitted && s.my.started.Some? ==> s.my.result.Some? && s.my.started == Some(s.my.result.value.started))
  }

  /** Figures and a verified status come only from a report accepted in time, of a worker seen to exit 0. */
  predicate StatusOk(c: Config, s: State) {
    && (InTry(s.parent) && s.parent != Accepted ==> s.my.status == Status.Refused && s.my.acceptedAt == None)
    && (s.parent.Accepted? ==> s.my.acceptedAt.Some? && s.my.status != Cancelled)
    && (s.my.acceptedAt == None ==> s.my.summary == ZERO && s.my.status != Verified && s.my.phase != FromWorker(0))
    && (s.my.acceptedAt.Some? ==>
          && s.my.acceptedAt.value < c.WorkEnd() && s.my.admitted && s.my.completion == Some(0)
          && s.my.result.Some?
          && var r := s.my.result.value;
             && s.my.summary == Summary(r.tables, r.rows, r.sequences, r.cut) && s.my.started == Some(r.started)
             && (r.outcome != 0 ==> s.my.summary == ZERO) && (r.outcome == 0 ==> r.started)
             && match s.my.status
                case Verified => r.outcome == 0 && s.my.phase == FromWorker(0)
                case Refused => r.outcome != 0 && s.my.phase == FromWorker(r.phase) && r.phase != 0
                case Cancelled => s.my.phase == Interrupted
                case ReconcileRequired => false)
    && (s.my.status == Cancelled <==> s.my.phase == Interrupted)
  }

  /** No process of the group is left, and none can come back. */
  predicate Quiet(s: State) {
    && (s.anchor.ReapedAnchor? || (s.anchor.NoAnchor? && s.parent != Launch))
    && (s.worker.NoWorker? || s.worker.ReapedWorker?) && s.commands == 0
  }

  predicate CleanupOk(c: Config, s: State) {
    && (s.my.signalled ==> s.anchor.DeadAnchor? || s.anchor.ReapedAnchor?)
    && (s.my.signalled ==> !WorkerRuns(s))
    && (s.parent.Probe? ==> s.anchor.ReapedAnchor?)
    && (s.parent.Reap? || s.parent.Kill? ==> !s.anchor.ReapedAnchor? && !s.anchor.NoAnchor?)
    && (InTry(s.parent) || s.parent.Kill? ==> !s.anchor.ReapedAnchor? && !s.my.signalled)
    && (s.my.cleanup == GroupAbsent ==> Quiet(s) && s.anchor.ReapedAnchor?)
    && (s.parent.Finish? || s.parent.Returned? ==> s.anchor.NoAnchor? || s.my.cleanup != NotLaunched)
    && (!s.parent.Finish? && !s.parent.Returned? && !s.parent.Gone? ==> s.my.cleanup == NotLaunched)
  }

  predicate AnswerOk(c: Config, s: State) {
    && (s.parent.Returned? <==> s.answer.Some?)
    && (s.answer.Some? ==>
          && s.answer.value == TheAnswer(c, s.(now := s.answer.value.at)))
  }

  predicate Inv(c: Config, s: State) {
    WorkerOk(c, s) && AnchorOk(c, s) && ParentOk(c, s) && StatusOk(c, s) && CleanupOk(c, s) && AnswerOk(c, s)
  }

  lemma {:induction false} WorkerKeepsItself(c: Config, s: State, e: Event)
    requires Inv(c, s)
    ensures WorkerOk(c, WorkerStep(c, s, e))
  {
  }

  lemma {:induction false} WorkerKeeps(c: Config, s: State, e: Event)
    requires Inv(c, s)
    ensures Inv(c, WorkerStep(c, s, e))
  {
    hide WorkerOk, Truthful, TheAnswer;
    WorkerKeepsItself(c, s, e);
    WorkerLeavesParent(c, s, e);
  }

  lemma {:induction false} WorkerLeavesParent(c: Config, s: State, e: Event)
    ensures var s' := WorkerStep(c, s, e);
            && s'.parent == s.parent && s'.my == s.my && s'.answer == s.answer && s'.now == s.now
            && s'.pipes.completion == s.pipes.completion && s'.anchor == s.anchor
            && (forall at :: TheAnswer(c, s'.(now := at)) == TheAnswer(c, s.(now := at)))
    ensures WorkerOk(c, s) && s.pipes.result.Some? ==> WorkerStep(c, s, e).pipes.result == s.pipes.result
    ensures WorkerOk(c, s) && Quiet(s) ==> Quiet(WorkerStep(c, s, e))
    ensures s.worker.ReapedWorker? ==> WorkerStep(c, s, e).worker == s.worker
    ensures s.worker.NoWorker? <==> WorkerStep(c, s, e).worker.NoWorker?
    ensures !WorkerRuns(s) ==> !WorkerRuns(WorkerStep(c, s, e))
    ensures WorkerStep(c, s, e).pipes.admission == s.pipes.admission
  {
    hide ReportOf, Truthful;
  }

  lemma AnchorLeavesParent(c: Config, s: State, e: Event)
    ensures var s' := AnchorStep(c, s, e);
            && s'.my == s.my && s'.parent == s.parent && s'.marker == s.marker && s'.begun == s.begun
            && s'.now == s.now && s'.answer == s.answer
            && s'.pipes.admission == s.pipes.admission && s'.pipes.result == s.pipes.result
            && (s'.worker == s.worker || s'.worker.DeadWorker? || s'.worker.ReapedWorker?
                || (s.anchor.Leader? && s'.worker.Waiting?))
  {
  }

  lemma {:induction false} AnchorKeepsBoth(c: Config, s: State, e: Event)
    requires Inv(c, s)
    ensures WorkerOk(c, AnchorStep(c, s, e)) && AnchorOk(c, AnchorStep(c, s, e))
  {
    hide ParentOk, StatusOk, CleanupOk, AnswerOk, Bounded, Refusal;
  }

  lemma {:induction false} AnchorKeeps(c: Config, s: State, e: Event)
    requires Inv(c, s)
    ensures Inv(c, AnchorStep(c, s, e))
  {
    hide WorkerOk, Truthful;
    AnchorKeepsBoth(c, s, e);
  }

  // --- What the parent's two halves leave alone ---

  /** Outside the `try` the loop does nothing; inside it only forks, admits and settles the parent's variables. */
  lemma LoopFrame(c: Config, s: State, e: Event)
    ensures var s' := LoopStep(c, s, e);
            && (!InTry(s.parent) ==> s' == s)
            && s'.worker == s.worker && s'.begun == s.begun && s'.outcome == s.outcome && s'.marker == s.marker
            && s'.commands == s.commands && s'.answer == s.answer && s'.now == s.now
            && s'.my.signalled == s.my.signalled && s'.my.cleanup == s.my.cleanup
            && (s'.anchor == s.anchor || (s.parent.Launch? && s'.parent.Head? && s'.anchor.Fresh?))
    ensures var s' := LoopStep(c, s, e);
            && s'.pipes.ready == s.pipes.ready && s'.pipes.result == s.pipes.result
            && s'.pipes.completion == s.pipes.completion && (s.pipes.admission ==> s'.pipes.admission)
    ensures var s' := LoopStep(c, s, e);
            s' == s || (!s'.parent.Launch? && !s'.parent.Returned? && !s'.parent.Gone?)
    ensures var s' := LoopStep(c, s, e);
            InTry(s.parent) && !InTry(s'.parent) ==>
              if s'.parent.Kill? then !s.anchor.NoAnchor? || s.parent.Accepted?
              else s'.parent.Finish? && s.anchor.NoAnchor?
  {
    hide LoopStep;
    LoopLeavesAlone(c, s, e);
    LoopMoves(c, s, e);
  }

  lemma LoopLeavesAlone(c: Config, s: State, e: Event)
    ensures var s' := LoopStep(c, s, e);
            && s'.worker == s.worker && s'.begun == s.begun && s'.outcome == s.outcome && s'.marker == s.marker
            && s'.commands == s.commands && s'.answer == s.answer && s'.now == s.now
            && s'.my.signalled == s.my.signalled && s'.my.cleanup == s.my.cleanup
            && s'.pipes.ready == s.pipes.ready && s'.pipes.result == s.pipes.result
            && s'.pipes.completion == s.pipes.completion && (s.pipes.admission ==> s'.pipes.admission)
  {
    hide GroupChecks, ReportRefused, InTry, AnchorRuns, WorkerRuns;
  }

  lemma LoopMoves(c: Config, s: State, e: Event)
    ensures var s' := LoopStep(c, s, e);
            && (!InTry(s.parent) ==> s' == s)
            && (s'.anchor == s.anchor || (s.parent.Launch? && s'.parent.Head? && s'.anchor.Fresh?))
            && (s' == s || (!s'.parent.Launch? && !s'.parent.Returned? && !s'.parent.Gone?))
            && (InTry(s.parent) && !InTry(s'.parent) ==>
                  if s'.parent.Kill? then !s.anchor.NoAnchor? || s.parent.Accepted?
                  else s'.parent.Finish? && s.anchor.NoAnchor?)
  {
    hide GroupChecks, ReportRefused, AnchorRuns, WorkerRuns;
  }

  /** Inside the `try` cleanup does nothing but die; it writes no pipe and settles no status. */
  lemma CleanupFrame(c: Config, s: State, e: Event)
    ensures var s' := CleanupStep(c, s, e);
            && (InTry(s.parent) ==> s' == s || s' == s.(parent := Gone))
            && (InTry(s'.parent) ==> s' == s)
            && (s'.worker == s.worker || s'.worker == Dead(s.worker))
            && s'.begun == s.begun && s'.outcome == s.outcome && s'.marker == s.marker
            && s'.commands == s.commands && s'.now == s.now && s'.pipes == s.pipes
            && s'.my == s.my.(signalled := s'.my.signalled, cleanup := s'.my.cleanup)
    ensures var s' := CleanupStep(c, s, e);
            && (s'.anchor == s.anchor || s'.anchor.DeadAnchor? || s'.anchor.ReapedAnchor?)
            && (s.anchor.NoAnchor? || s.anchor.ReapedAnchor? ==> s'.anchor == s.anchor)
            && (s'.answer == s.answer || (e.Return? && s.parent.Finish?))
  {
    hide TheAnswer, GroupExists, Dead;
  }

  lemma ParentKeepsWorker(c: Config, s: State, e: Event)
    requires Inv(c, s)
    ensures WorkerOk(c, ParentStep(c, s, e))
  {
    hide Truthful, AnchorOk, StatusOk, CleanupOk, AnswerOk, ParentStep, Refusal;
    SameWorker(c, s, e);
  }

  /** The parent changes the worker only by killing it. */
  lemma SameWorker(c: Config, s: State, e: Event)
    ensures var s' := ParentStep(c, s, e);
            && (s'.worker == s.worker || s'.worker == Dead(s.worker))
            && s'.begun == s.begun && s'.outcome == s.outcome && s'.marker == s.marker && s'.commands == s.commands
            && s'.pipes.result == s.pipes.result && s'.pipes.completion == s.pipes.completion
            && (s.pipes.admission ==> s'.pipes.admission)
    ensures var s' := ParentStep(c, s, e);
            forall r | Truthful(c, s, r) :: Truthful(c, s', r)
  {
    hide LoopStep, CleanupStep, Dead;
    LoopFrame(c, s, e);
    CleanupFrame(c, s, e);
  }

  lemma LoopKeepsAnchor(c: Config, s: State, e: Event)
    requires Inv(c, s)
    ensures AnchorOk(c, LoopStep(c, s, e))
  {
    hide LoopStep, WorkerOk, StatusOk, CleanupOk, AnswerOk;
    LoopFrame(c, s, e);
  }

  lemma CleanupKeepsAnchor(c: Config, s: State, e: Event)
    requires Inv(c, s)
    ensures AnchorOk(c, CleanupStep(c, s, e))
  {
    hide Truthful, WorkerOk, StatusOk, AnswerOk, TheAnswer, GroupExists, Quiet;
  }

  lemma LoopKeepsItself(c: Config, s: State, e: Event)
    requires Inv(c, s)
    ensures ParentOk(c, LoopStep(c, s, e))
  {
    hide WorkerOk, AnchorOk, CleanupOk, AnswerOk, GroupChecks, ReportRefused;
  }

  lemma CleanupKeepsItself(c: Config, s: State, e: Event)
    requires Inv(c, s)
    ensures ParentOk(c, CleanupStep(c, s, e))
  {
    hide WorkerOk, AnchorOk, StatusOk, AnswerOk, TheAnswer, GroupExists, Quiet, Dead;
  }

  lemma LoopKeepsStatus(c: Config, s: State, e: Event)
    requires Inv(c, s)
    ensures StatusOk(c, LoopStep(c, s, e))
  {
    hide Truthful, WorkerOk, AnchorOk, CleanupOk, AnswerOk, GroupChecks, Quiet, TheAnswer;
  }

  lemma CleanupKeepsStatus(c: Config, s: State, e: Event)
    requires Inv(c, s)
    ensures StatusOk(c, CleanupStep(c, s, e))
  {
    hide CleanupStep, WorkerOk, AnchorOk, ParentOk, CleanupOk, AnswerOk;
    CleanupFrame(c, s, e);
  }

  lemma LoopKeepsCleanup(c: Config, s: State, e: Event)
    requires Inv(c, s)
    ensures CleanupOk(c, LoopStep(c, s, e)) && AnswerOk(c, LoopStep(c, s, e))
  {
    hide LoopStep, WorkerOk, AnchorOk, StatusOk, TheAnswer;
    LoopFrame(c, s, e);
  }

  lemma CleanupKeepsCleanup(c: Config, s: State, e: Event)
    requires Inv(c, s)
    ensures CleanupOk(c, CleanupStep(c, s, e))
  {
    hide Truthful, ParentOk, StatusOk, AnswerOk, TheAnswer;
  }

  lemma CleanupKeepsAnswer(c: Config, s: State, e: Event)
    requires Inv(c, s)
    ensures AnswerOk(c, CleanupStep(c, s, e))
  {
    hide WorkerOk, AnchorOk, ParentOk, StatusOk, CleanupOk, GroupExists;
  }

  lemma ParentKeeps(c: Config, s: State, e: Event)
    requires Inv(c, s)
    ensures Inv(c, ParentStep(c, s, e))
  {
    hide WorkerOk, AnchorOk, ParentOk, StatusOk, CleanupOk, AnswerOk, LoopStep, CleanupStep;
    ParentKeepsWorker(c, s, e);
    LoopKeepsAnchor(c, s, e);
    CleanupKeepsAnchor(c, s, e);
    LoopKeepsItself(c, s, e);
    CleanupKeepsItself(c, s, e);
    LoopKeepsStatus(c, s, e);
    CleanupKeepsStatus(c, s, e);
    LoopKeepsCleanup(c, s, e);
    CleanupKeepsCleanup(c, s, e);
    CleanupKeepsAnswer(c, s, e);
  }

  lemma {:induction false} StepKeeps(c: Config, s: State, e: Event)
    requires Inv(c, s)
    ensures Inv(c, Step(c, s, e))
  {
    hide WorkerOk, AnchorOk, ParentOk, StatusOk, CleanupOk, AnswerOk, WorkerStep, AnchorStep, ParentStep;
    WorkerKeeps(c, s, e);
    AnchorKeeps(c, s, e);
    ParentKeeps(c, s, e);
    if e.Tick? {
      TickKeeps(c, s, e.seconds);
    }
  }

  lemma TickKeeps(c: Config, s: State, seconds: nat)
    requires Inv(c, s)
    ensures Inv(c, s.(now := s.now + seconds))
  {
  }

  lemma {:induction false} Reachable(c: Config, marker: Option<nat>, events: seq<Event>)
    ensures Inv(c, Run(c, Initial(marker), events))
    decreases |events|
  {
    hide WorkerOk, AnchorOk, ParentOk, StatusOk, CleanupOk, AnswerOk, Step;
    if events == [] {
      AtLaunch(c, marker);
    } else {
      Reachable(c, marker, events[..|events| - 1]);
      StepKeeps(c, Run(c, Initial(marker), events[..|events| - 1]), events[|events| - 1]);
    }
  }

  lemma AtLaunch(c: Config, marker: Option<nat>)
    ensures Inv(c, Initial(marker))
  {
  }
}
