/** Which answer the owned transfer gives: the status and phase of every answer follow from the event
    with which the parent left its `try` and from what its cleanup found. */
module OwnerAnswers {
  import opened Outcomes
  import opened OwnerModel
  import opened OwnerSafety
  import opened OwnerTheorems

  /** The event with which the parent left its `try`, and the state it left from. */
  datatype Exit = Exit(event: Event, from: State)

  predicate CleaningUp(p: Parent) {
    p in {Kill, Reap, Probe, Finish, Returned}
  }

  function ExitOf(c: Config, marker: Option<nat>, events: seq<Event>): Option<Exit> {
    if events == [] then None
    else
      var n := |events| - 1;
      var exit := ExitOf(c, marker, events[..n]);
      if exit.None? && CleaningUp(Run(c, Initial(marker), events).parent)
      then Some(Exit(events[n], Run(c, Initial(marker), events[..n]))) else exit
  }

  /** What the parent makes of its exit, before cleanup has its say. */
  predicate Follows(my: Locals, exit: Exit) {
    var s := exit.from;
    match exit.event
    case Interrupt => my.status == Cancelled && my.phase == Interrupted
    case LeaveLoop =>
      && my.acceptedAt.Some? && s.pipes.admission && s.pipes.completion == Some(0) && s.pipes.result.Some?
      && var report := s.pipes.result.value;
         && report.outcome in {0, 1} && my.status == (if report.outcome == 0 then Verified else Status.Refused)
         && my.phase == FromWorker(report.phase)
         && my.summary == Summary(report.tables, report.rows, report.sequences, report.cut)
    case _ =>
      && my.status == (if s.pipes.admission then ReconcileRequired else Status.Refused)
      && my.phase == (if exit.event == ParentHead then DeadlinePassed else Unavailable)
      && my.summary == ZERO && my.acceptedAt == None
  }

  predicate ExitOk(c: Config, s: State, exit: Option<Exit>) {
    && (CleaningUp(s.parent) ==> exit.Some?)
    && (exit.Some? ==> !InTry(s.parent) && Follows(s.my, exit.value))
    && (exit.Some? ==> s.pipes.admission == exit.value.from.pipes.admission)
    && (exit.Some? ==> (s.anchor.NoAnchor? <==> exit.value.from.parent == Launch))
  }

  lemma AcceptedExit(c: Config, s: State)
    requires Inv(c, s) && s.parent.Accepted?
    ensures Follows(s.my, Exit(LeaveLoop, s))
  {
    hide AnchorOk, CleanupOk, AnswerOk, Bounded;
  }

  lemma OtherExit(c: Config, s: State, e: Event)
    requires Inv(c, s) && InTry(s.parent) && !e.LeaveLoop?
    ensures var s' := LoopStep(c, s, e);
            CleaningUp(s'.parent) ==> Follows(s'.my, Exit(e, s))
  {
    hide GroupChecks, ReportRefused, WorkerOk, AnchorOk, CleanupOk, AnswerOk;
  }

  lemma LoopExit(c: Config, s: State, e: Event)
    requires Inv(c, s) && InTry(s.parent)
    ensures var s' := LoopStep(c, s, e);
            CleaningUp(s'.parent) ==>
              && !InTry(s'.parent) && Follows(s'.my, Exit(e, s)) && s'.pipes.admission == s.pipes.admission
              && (s'.anchor.NoAnchor? <==> s.parent == Launch)
  {
    hide GroupChecks, ReportRefused, WorkerOk, AnchorOk, CleanupOk, AnswerOk, StatusOk, Follows;
    if e.LeaveLoop? {
      if s.parent.Accepted? {
        AcceptedExit(c, s);
      }
    } else {
      OtherExit(c, s, e);
    }
  }

  lemma CleanupGoesOn(c: Config, s: State, e: Event)
    ensures CleaningUp(CleanupStep(c, s, e).parent) ==> CleaningUp(s.parent)
  {
    hide TheAnswer, GroupExists;
  }

  lemma AnchorStays(c: Config, s: State, e: Event)
    ensures AnchorStep(c, s, e).anchor.NoAnchor? <==> s.anchor.NoAnchor?
  {
  }

  /** Once the parent has left, only cleanup changes its variables, and never these. */
  lemma ParentExit(c: Config, s: State, e: Event, exit: Option<Exit>)
    requires Inv(c, s) && ExitOk(c, s, exit)
    ensures var s' := ParentStep(c, s, e);
            ExitOk(c, s', if exit.None? && CleaningUp(s'.parent) then Some(Exit(e, s)) else exit)
  {
    hide LoopStep, CleanupStep, WorkerOk, AnchorOk, StatusOk, CleanupOk, AnswerOk;
    LoopFrame(c, s, e);
    CleanupFrame(c, s, e);
    CleanupGoesOn(c, s, e);
    if InTry(s.parent) {
      LoopExit(c, s, e);
    }
  }

  lemma ExitStep(c: Config, s: State, e: Event, exit: Option<Exit>)
    requires Inv(c, s) && ExitOk(c, s, exit)
    ensures var s' := Step(c, s, e);
            ExitOk(c, s', if exit.None? && CleaningUp(s'.parent) then Some(Exit(e, s)) else exit)
  {
    hide ParentStep, WorkerStep, AnchorStep, WorkerOk, AnchorOk, StatusOk, CleanupOk, AnswerOk, Follows;
    WorkerLeavesParent(c, s, e);
    AnchorLeavesParent(c, s, e);
    AnchorStays(c, s, e);
    ParentExit(c, s, e, exit);
  }

  lemma {:induction false} ExitHistory(c: Config, marker: Option<nat>, events: seq<Event>)
    ensures ExitOk(c, Run(c, Initial(marker), events), ExitOf(c, marker, events))
    decreases |events|
  {
    hide Inv, Step, ExitOk;
    if events == [] {
      NoExitYet(c, marker);
    } else {
      var before := events[..|events| - 1];
      ExitHistory(c, marker, before);
      Reachable(c, marker, before);
      ExitStep(c, Run(c, Initial(marker), before), events[|events| - 1], ExitOf(c, marker, before));
    }
  }

  lemma NoExitYet(c: Config, marker: Option<nat>)
    ensures ExitOk(c, Initial(marker), None)
  {
  }

  /** Every answer, from how the parent left its `try`: `reconcile_required` with zero counts when an anchor
      was forked and its group's end was not seen before the deadline; otherwise cancelled after an
      interrupt, what the report says when it was accepted and the loop left, and in every other case
      `reconcile_required` if the worker had been admitted and `refused` if not. */
  lemma {:induction false} AnswerFollows(c: Config, marker: Option<nat>, events: seq<Event>)
    ensures var s := Run(c, Initial(marker), events);
            s.answer.Some? ==>
              && ExitOf(c, marker, events).Some?
              && var exit := ExitOf(c, marker, events).value;
                 var a := s.answer.value;
                 if exit.from.parent != Launch && (a.cleanup != GroupAbsent || a.at >= c.end) then
                   && a.status == ReconcileRequired && a.phase == CleanupUnconfirmed
                   && a.summary == Summary(0, 0, 0, false)
                 else
                   && Follows(s.my, exit)
                   && (a.status, a.phase, a.summary) == (s.my.status, s.my.phase, s.my.summary)
  {
    hide Follows, ExitOf, WorkerOk, AnchorOk, ParentOk, StatusOk, CleanupOk;
    Reachable(c, marker, events);
    ExitHistory(c, marker, events);
  }

  /** An admitted worker without an accepted report is never answered `refused` or `verified`; and an answer that
      vouches for the group is `refused` exactly when no worker was admitted and no interrupt came, or the
      worker's own refusal was accepted and the loop left. */
  lemma {:induction false} RefusedExactly(c: Config, marker: Option<nat>, events: seq<Event>)
    ensures var s := Run(c, Initial(marker), events);
            s.answer.Some? && s.pipes.admission && s.my.acceptedAt == None ==>
              s.answer.value.status in {ReconcileRequired, Cancelled}
    ensures var s := Run(c, Initial(marker), events);
            s.answer.Some? && s.answer.value.cleanup == GroupAbsent && s.answer.value.at < c.end ==>
              && ExitOf(c, marker, events).Some?
              && var exit := ExitOf(c, marker, events).value;
                 (s.answer.value.status == Status.Refused <==>
                    || (!s.pipes.admission && exit.event != Interrupt)
                    || (exit.event == LeaveLoop && exit.from.pipes.result.Some?
                        && exit.from.pipes.result.value.outcome == 1))
  {
    hide ExitOf, Truthful, AnchorOk, CleanupOk;
    Reachable(c, marker, events);
    ExitHistory(c, marker, events);
    AnswerFollows(c, marker, events);
  }

  // --- When the parent leaves, admits and accepts ---

  /** An interrupt always takes effect before cleanup begins. */
  lemma {:induction false} InterruptLeaves(c: Config, s: State)
    requires !CleaningUp(s.parent) && s.parent != Gone
    ensures var s' := Step(c, s, Interrupt);
            && CleaningUp(s'.parent) && (s'.my.status, s'.my.phase) == (Cancelled, Interrupted)
            && s'.my.summary == s.my.summary
  {
  }

  /** The loop goes on exactly while two seconds of the deadline are left. */
  lemma {:induction false} LoopGoesOn(c: Config, s: State)
    requires s.parent == Head
    ensures Step(c, s, ParentHead).parent == (if s.now < c.end - 2 then Reads
                                              else if s.anchor.NoAnchor? then Finish else Kill)
  {
  }

  /** A report the parent may accept: a success within the limits, whole and, for a final transfer, cut;
      or a refusal with one of the fixed phases and no figures. */
  predicate Acceptable(c: Config, r: Report) {
    || (r.outcome == 0 && r.phase == 0 && r.started && r.tables <= c.objects && r.rows <= c.rows
        && r.sequences <= c.objects && (r.cut || !c.final))
    || (r.outcome == 1 && 1 <= r.phase <= 24 && r.tables == r.rows == r.sequences == 0 && !r.cut)
  }

  /** A report is accepted exactly when it is acceptable, the worker was seen to exit 0, and two seconds of the
      deadline are left; any other report that is complete ends the loop. */
  lemma {:induction false} AcceptedExactly(c: Config, s: State)
    requires s.parent == Accept && s.my.admitted && s.my.result.Some? && s.my.completion.Some?
    ensures var s' := Step(c, s, TestReport);
            && (s'.parent == Accepted <==>
                  s.my.completion == Some(0) && Acceptable(c, s.my.result.value) && s.now < c.end - 2)
            && (s'.parent != Accepted ==> CleaningUp(s'.parent))
            && s'.my.started == Some(s.my.result.value.started)
  {
  }

  /** What the ready message says is so, once it was written. */
  predicate ReadyOk(c: Config, s: State) {
    && (s.pipes.ready.Some? ==>
          && s.pipes.ready.value == (c.anchorPid, c.workerPid) && !s.worker.NoWorker?
          && !s.anchor.NoAnchor? && !s.anchor.Fresh? && !s.anchor.Leader? && !s.anchor.Forked?)
    && (s.my.ready.Some? ==> s.my.ready == s.pipes.ready)
  }

  lemma WorkerReady(c: Config, s: State, e: Event)
    requires ReadyOk(c, s)
    ensures ReadyOk(c, WorkerStep(c, s, e))
  {
    hide ReportOf, Refusal;
  }

  lemma AnchorReady(c: Config, s: State, e: Event)
    requires Inv(c, s) && ReadyOk(c, s)
    ensures ReadyOk(c, AnchorStep(c, s, e))
  {
    hide WorkerOk, ParentOk, StatusOk, CleanupOk, AnswerOk;
  }

  lemma LoopHears(c: Config, s: State, e: Event)
    ensures var ready := LoopStep(c, s, e).my.ready; ready == s.my.ready || ready == s.pipes.ready
  {
    hide GroupChecks, ReportRefused;
  }

  lemma ParentReady(c: Config, s: State, e: Event)
    requires Inv(c, s) && ReadyOk(c, s)
    ensures ReadyOk(c, ParentStep(c, s, e))
  {
    hide LoopStep, CleanupStep, WorkerOk, AnchorOk, StatusOk, CleanupOk, AnswerOk;
    LoopFrame(c, s, e);
    CleanupFrame(c, s, e);
    LoopHears(c, s, e);
  }

  lemma {:induction false} ReadyAlways(c: Config, marker: Option<nat>, events: seq<Event>)
    ensures ReadyOk(c, Run(c, Initial(marker), events))
    decreases |events|
  {
    hide Inv, ReadyOk, WorkerStep, AnchorStep, ParentStep;
    if events == [] {
      NotReadyYet(c, marker);
    } else {
      var before := events[..|events| - 1];
      ReadyAlways(c, marker, before);
      var s, e := Run(c, Initial(marker), before), events[|events| - 1];
      Reachable(c, marker, before);
      WorkerReady(c, s, e);
      AnchorReady(c, s, e);
      ParentReady(c, s, e);
      if e.Tick? {
        LaterReady(c, s, e.seconds);
      }
    }
  }

  lemma NotReadyYet(c: Config, marker: Option<nat>)
    ensures ReadyOk(c, Initial(marker))
  {
  }

  lemma LaterReady(c: Config, s: State, seconds: nat)
    requires ReadyOk(c, s)
    ensures ReadyOk(c, s.(now := s.now + seconds))
  {
  }

  /** Over every history, a parent that has read the ready message admits the worker exactly when the anchor is
      alive and the worker still has its entry; otherwise it leaves. */
  lemma {:induction false} LiveGroupIsAdmitted(c: Config, marker: Option<nat>, events: seq<Event>)
    requires c.Valid()
    ensures var s := Run(c, Initial(marker), events);
            var s' := Step(c, s, TestReady);
            s.parent == Admit && !s.pipes.admission && s.my.ready.Some? ==>
              && (s'.pipes.admission <==> s.anchor.Supervising? && !s.worker.ReapedWorker?)
              && (s'.pipes.admission ==> s'.parent == Accept && s'.my.admitted && s'.my.started == None)
              && (!s'.pipes.admission ==> CleaningUp(s'.parent) && s'.my.status == Status.Refused)
  {
    hide Run, WorkerOk, AnchorOk, StatusOk, AnswerOk;
    Reachable(c, marker, events);
    ReadyAlways(c, marker, events);
  }

  // --- What the worker reports ---

  lemma {:induction false} TallyWithin(tallies: seq<nat>, i: nat)
    requires i < |tallies|
    ensures tallies[i] <= Sum(tallies)
  {
    if i > 0 {
      TallyWithin(tallies[1..], i - 1);
    }
  }

  /** A transfer is reported as a success exactly when it is within the limits, and then with its own figures; any
      other end is a refusal without figures, under its own phase when that is one of the fixed ones. */
  lemma {:induction false} ReportedExactly(c: Config, r: Outcome)
    ensures ReportOf(c, r)
            == if Bounded(c, r) then Report(0, 0, |r.tallies|, Sum(r.tallies), r.sequences, r.cut, true)
               else Report(1, if r.Denied? && 1 <= r.phase <= 24 then r.phase else 1, 0, 0, 0, false, true)
  {
    if r.Transferred? {
      forall i | 0 <= i < |r.tallies|
        ensures r.tallies[i] <= Sum(r.tallies)
      {
        TallyWithin(r.tallies, i);
      }
    }
  }

  /** What stops an admitted worker before the transfer, and how it reports that nothing started: a directory that is
      not private, or a directory or marker that fails. */
  lemma {:induction false} StoppedBeforeStart(c: Config, s: State)
    requires s.worker == Admitted
    ensures Step(c, s, CheckDirectory(false)).worker == Reporting(Report(1, 6, 0, 0, 0, false, false))
    ensures Step(c, s, CheckDirectory(true)) == s
    ensures Step(c, s, MarkerFails).worker == Reporting(Report(1, 1, 0, 0, 0, false, false))
  {
    hide ParentStep, AnchorStep, ReportOf;
  }

  /** A marker that is already there, or one that cannot be synced once made. */
  lemma {:induction false} StoppedByMarker(c: Config, s: State)
    ensures s.worker == Admitted ==>
              Step(c, s, CreateMarker).worker
              == if s.marker.Some? then Reporting(Report(1, 5, 0, 0, 0, false, false)) else Marked
    ensures s.worker == Marked ==>
              Step(c, s, SyncMarker(false)).worker == Reporting(Report(1, 1, 0, 0, 0, false, false))
  {
    hide ParentStep, AnchorStep, ReportOf;
  }

  /** A worker waits for its admission as long as a parent is there to give it. */
  lemma {:induction false} WaitsForAdmission(c: Config, s: State)
    requires s.worker == Waiting
    ensures var worker := Step(c, s, ReadAdmission).worker;
            && (worker == Admitted <==> s.pipes.admission)
            && (worker.DeadWorker? <==> !s.pipes.admission && s.parent in {Returned, Gone})
            && (worker == Waiting <==> !s.pipes.admission && s.parent !in {Returned, Gone})
  {
  }

  /** A worker with a report, or whose report was written, has no command left. */
  predicate CommandsOk(s: State) {
    (s.worker.Reporting? || s.worker.Reported? || s.pipes.result.Some?) ==> s.commands == 0
  }

  lemma CommandsStep(c: Config, s: State, e: Event)
    requires Inv(c, s) && CommandsOk(s)
    ensures CommandsOk(Step(c, s, e))
  {
    hide Truthful, ReportOf, Refusal, ParentStep, AnchorOk, ParentOk, StatusOk, CleanupOk, AnswerOk, TheAnswer;
    SameWorker(c, s, e);
    AnchorLeavesParent(c, s, e);
  }

  /** Over every history, no report is made while one of the transfer's commands is running. */
  lemma {:induction false} ReportsComeLast(c: Config, marker: Option<nat>, events: seq<Event>)
    ensures CommandsOk(Run(c, Initial(marker), events))
    decreases |events|
  {
    hide Inv, Step;
    if events != [] {
      ReportsComeLast(c, marker, events[..|events| - 1]);
      Reachable(c, marker, events[..|events| - 1]);
      CommandsStep(c, Run(c, Initial(marker), events[..|events| - 1]), events[|events| - 1]);
    }
  }

  lemma {:induction false} CommandStarts(c: Config, s: State)
    requires s.worker == Transferring
    ensures Step(c, s, StartCommand) == s.(commands := s.commands + 1)
  {
    hide ParentStep, AnchorStep, ReportOf, Refusal;
  }

  /** As many ends as there are commands end them all. */
  lemma {:induction false} CommandsEnd(c: Config, s: State, n: nat)
    requires n <= s.commands
    ensures Run(c, s, seq(n, _ => EndCommand)) == s.(commands := s.commands - n)
  {
    hide ParentStep, AnchorStep, ReportOf, Refusal;
    var ends := seq(n, _ => EndCommand);
    if n > 0 {
      CommandsEnd(c, s, n - 1);
      assert ends[..n - 1] == seq(n - 1, _ => EndCommand);
    }
  }

  // --- What the parent waits for, and what it kills ---

  /** Over every history, a parent at its reads gives up on a pipe exactly when it is empty and nobody is left to
      write to it. */
  lemma {:induction false} ReadsWait(c: Config, marker: Option<nat>, events: seq<Event>)
    ensures var s := Run(c, Initial(marker), events);
            s.parent == Reads ==>
              && (CleaningUp(Step(c, s, ReadReady).parent) <==>
                    s.my.ready == None && s.pipes.ready == None && s.anchor.DeadAnchor?)
              && (CleaningUp(Step(c, s, ReadCompletion).parent) <==>
                    s.my.completion == None && s.pipes.completion == None && s.anchor.DeadAnchor?)
              && (CleaningUp(Step(c, s, ReadResult).parent) <==>
                    && s.my.result == None && s.pipes.result == None
                    && (s.worker.DeadWorker? || s.worker.ReapedWorker? || (s.worker.NoWorker? && s.anchor.DeadAnchor?)))
  {
    hide Run, WorkerOk, StatusOk, AnswerOk;
    Reachable(c, marker, events);
  }

  /** An anchor that fails takes its group along; one that is killed does not. */
  lemma {:induction false} AnchorsEnd(c: Config, s: State)
    requires s.anchor.Fresh? || s.anchor.Leader? || s.anchor.Forked? || s.anchor.Supervising?
    ensures var failed, killed := Step(c, s, AnchorFails), Step(c, s, AnchorKilled);
            && failed.anchor == DeadAnchor && killed.anchor == DeadAnchor && killed.worker == s.worker
            && failed.worker == (if s.anchor.Fresh? || !WorkerRuns(s) then s.worker else DeadWorker(None))
  {
  }

  /** An anchor at its watch does nothing while a parent holds the lifeline, and ends its group once none does; it
      reports the worker's end as good only for exit 0, and nobody else reaps the worker meanwhile. */
  lemma {:induction false} AnchorWatches(c: Config, s: State)
    requires s.anchor.Supervising?
    ensures var k := Step(c, s, WatchLifeline);
            if s.parent in {Returned, Gone} then k.anchor == DeadAnchor && !WorkerRuns(k) else k == s
    ensures !s.anchor.finished && s.worker.DeadWorker? ==>
              var k := Step(c, s, WaitWorker);
              && k.worker == ReapedWorker(s.worker.code)
              && k.pipes.completion == Some(if s.worker.code == Some(0) then 0 else 1)
    ensures Step(c, s, InitReaps) == s
  {
    hide WorkerStep, ParentStep;
  }

  /** Without its anchor a dead worker is reaped by the system. */
  lemma {:induction false} OrphansAreReaped(c: Config, s: State)
    requires s.worker.DeadWorker? && (s.anchor.DeadAnchor? || s.anchor.ReapedAnchor? || s.anchor.NoAnchor?)
    ensures Step(c, s, InitReaps) == s.(worker := ReapedWorker(s.worker.code))
  {
    hide WorkerStep, ParentStep;
  }

  /** What cleanup says it found, and when: the anchor lost, the deadline past, the anchor reaped without a signal to
      its group, the group still there, or nothing left of it. */
  lemma {:induction false} CleanupFinds(c: Config, s: State)
    ensures s.parent == Reap ==>
              && Step(c, s, LoseAnchor) == s.(parent := Finish, my := s.my.(cleanup := ReapUnconfirmed))
              && var k := Step(c, s, ReapAnchor);
                 if s.now >= c.end then k == s.(parent := Finish, my := s.my.(cleanup := CleanupDeadline))
                 else if s.anchor != DeadAnchor then k == s
                 else if s.my.signalled then k == s.(parent := Probe, anchor := ReapedAnchor)
                 else k == s.(parent := Finish, anchor := ReapedAnchor, my := s.my.(cleanup := GroupUnconfirmed))
    ensures s.parent == Probe ==>
              && Step(c, s, ProbeFails) == s.(parent := Finish, my := s.my.(cleanup := GroupUnconfirmed))
              && var k := Step(c, s, ProbeGroup);
                 if s.now >= c.end then k == s.(parent := Finish, my := s.my.(cleanup := CleanupDeadline))
                 else if GroupExists(s) then k == s
                 else k == s.(parent := Finish, my := s.my.(cleanup := GroupAbsent))
  {
    hide WorkerStep, AnchorStep, LoopStep, GroupExists;
  }

  /** What is missing is waited for: a ready message before admission, report and exit before acceptance. */
  lemma {:induction false} LoopWaits(c: Config, s: State)
    ensures s.parent == Admit && (s.my.admitted || s.my.ready == None) ==>
              Step(c, s, TestReady) == s.(parent := Accept)
    ensures s.parent == Accept && (!s.my.admitted || s.my.result == None || s.my.completion == None) ==>
              Step(c, s, TestReport) == s.(parent := Head)
  {
    hide WorkerStep, AnchorStep, CleanupStep, GroupChecks, ReportRefused;
  }

  /** Over every history, the parent's signal reaches the group exactly when it is sent and the anchor has made one;
      then nothing of it runs. Failing that, the signal to the anchor alone ends the anchor. */
  lemma {:induction false} Signals(c: Config, marker: Option<nat>, events: seq<Event>, group: bool, single: bool)
    ensures var s := Run(c, Initial(marker), events);
            s.parent == Kill ==>
              var k := Step(c, s, KillGroup(group, single));
              && k.parent == Reap && (k.my.signalled <==> group && !s.anchor.Fresh?)
              && (k.my.signalled ==> k.anchor == DeadAnchor && !WorkerRuns(k))
              && (!k.my.signalled && single ==> k.anchor == DeadAnchor && k.worker == s.worker)
              && (!k.my.signalled && !single ==> k.anchor == s.anchor && k.worker == s.worker)
  {
    hide Run, StatusOk, AnswerOk, Truthful;
    Reachable(c, marker, events);
  }
}
