/** `historical_holds`: runs, usage events and cost liabilities checked row by row. Together the
    checks tie the three tables into a bijection and conserve the reserved money. */
module HistoricalHolds {
  import opened Outcomes
  import opened HoldChecks
  import Sizes

  // --- What acceptance means for the three tables ---

  predicate HoldsOk(runs: seq<Run>, events: seq<Event>, liabilities: seq<Liability>, known: seq<bool>, n: nat)
    requires n <= |liabilities| == |known|
  {
    forall i | 0 <= i < n && !known[i] :: Hold(runs, events, liabilities, liabilities[i]).Ok?
  }

  /** The ids collected from the unresolved liabilities among the first `n`. */
  function HeldRuns(runs: seq<Run>, events: seq<Event>, liabilities: seq<Liability>, known: seq<bool>,
                    n: nat): set<string>
    requires n <= |liabilities| == |known| && HoldsOk(runs, events, liabilities, known, n)
  {
    if n == 0 then {}
    else
      HeldRuns(runs, events, liabilities, known, n - 1)
      + if known[n - 1] then {} else {Hold(runs, events, liabilities, liabilities[n - 1]).value.0.id}
  }

  function HeldEvents(runs: seq<Run>, events: seq<Event>, liabilities: seq<Liability>, known: seq<bool>,
                      n: nat): set<string>
    requires n <= |liabilities| == |known| && HoldsOk(runs, events, liabilities, known, n)
  {
    if n == 0 then {}
    else
      HeldEvents(runs, events, liabilities, known, n - 1)
      + if known[n - 1] then {} else {Hold(runs, events, liabilities, liabilities[n - 1]).value.1.id}
  }

  predicate Reconciled(runs: seq<Run>, events: seq<Event>, liabilities: seq<Liability>, known: seq<bool>) {
    && Indexed(RunKeys(runs)) && Indexed(EventKeys(events)) && Indexed(LiabilityKeys(liabilities))
    && |known| == |liabilities| && HoldsOk(runs, events, liabilities, known, |known|)
    && var heldRuns := HeldRuns(runs, events, liabilities, known, |known|);
       var heldEvents := HeldEvents(runs, events, liabilities, known, |known|);
       && (forall r | r in runs && r.id !in heldRuns :: OtherRunOk(r))
       && (forall e | e in events && e.id !in heldEvents :: OtherEventOk(e, liabilities))
  }

  /** The hold of some unresolved liability. */
  ghost predicate Held(runs: seq<Run>, events: seq<Event>, liabilities: seq<Liability>, known: seq<bool>, run: Run,
                       event: Event)
    requires |known| == |liabilities|
  {
    exists i | 0 <= i < |known| && !known[i] :: GoodHold(runs, events, liabilities, liabilities[i], run, event)
  }

  ghost predicate AllHeld(runs: seq<Run>, events: seq<Event>, liabilities: seq<Liability>, known: seq<bool>)
    requires |known| == |liabilities|
  {
    forall i | 0 <= i < |known| && !known[i] ::
      exists run, event :: GoodHold(runs, events, liabilities, liabilities[i], run, event)
  }

  /** What the three tables must be: each well formed, every unresolved liability with a proven hold, and every other
      run and event settled. */
  ghost predicate Balanced(runs: seq<Run>, events: seq<Event>, liabilities: seq<Liability>, known: seq<bool>) {
    && GoodTable(RunKeys(runs)) && GoodTable(EventKeys(events)) && GoodTable(LiabilityKeys(liabilities))
    && |known| == |liabilities| && AllHeld(runs, events, liabilities, known)
    && (forall run | run in runs ::
          SettledRun(run) || exists event :: Held(runs, events, liabilities, known, run, event))
    && (forall event | event in events ::
          SettledEvent(event, liabilities) || exists run :: Held(runs, events, liabilities, known, run, event))
  }

  lemma HoldFound(runs: seq<Run>, events: seq<Event>, liabilities: seq<Liability>, l: Liability)
    requires Indexed(RunKeys(runs))
    ensures Hold(runs, events, liabilities, l).Ok? <==>
              exists run, event :: GoodHold(runs, events, liabilities, l, run, event)
    ensures Hold(runs, events, liabilities, l).Ok? ==>
              var (run, event) := Hold(runs, events, liabilities, l).value;
              forall run', event' ::
                GoodHold(runs, events, liabilities, l, run', event') <==> (run', event') == (run, event)
  {
    hide Hold, Indexed, GoodHold;
    RunsApart(runs);
    forall run, event
      ensures Hold(runs, events, liabilities, l) == Ok((run, event)) <==>
                GoodHold(runs, events, liabilities, l, run, event)
    {
      HoldMeans(runs, events, liabilities, l, run, event);
    }
    if Hold(runs, events, liabilities, l).Ok? {
      var (run, event) := Hold(runs, events, liabilities, l).value;
      assert Hold(runs, events, liabilities, l) == Ok((run, event));
    }
  }

  // --- The procedure ---

  function Ids(keys: seq<Key>): set<string> {
    set key | key in keys :: key.id
  }

  lemma {:induction false} DistinctWithLast(keys: seq<Key>)
    requires keys != []
    ensures var shorter, last := keys[..|keys| - 1], keys[|keys| - 1];
            && (Distinct(keys) <==> Distinct(shorter) && last.id !in Ids(shorter))
            && Ids(keys) == Ids(shorter) + {last.id}
  {
  }

  /** A dictionary is smaller than the rows it is built from exactly when an id repeats. */
  lemma {:induction false} DuplicatesShow(keys: seq<Key>)
    ensures |Ids(keys)| <= |keys|
    ensures |Ids(keys)| == |keys| <==> Distinct(keys)
    decreases |keys|
  {
    hide Ids, Distinct;
    if keys == [] {
      NoKeys();
    } else {
      DistinctWithLast(keys);
      DuplicatesShow(keys[..|keys| - 1]);
      Sizes.SetWith(Ids(keys[..|keys| - 1]), keys[|keys| - 1].id);
    }
  }

  lemma NoKeys()
    ensures Distinct([]) && Ids([]) == {}
  {
  }

  /** More than 256 rows, or a row whose identifier or size is out of bounds. */
  ghost predicate Broken(keys: seq<Key>) {
    |keys| > 256 || exists i | 0 <= i < |keys| :: !IsIdentifier(keys[i].id) || keys[i].oversized
  }

  ghost predicate Repeats(keys: seq<Key>) {
    exists i, j | 0 <= i < j < |keys| :: keys[i].id == keys[j].id
  }

  lemma IdentifiersMean(keys: seq<Key>)
    ensures forall key | key in keys :: Identifier(key.id) <==> IsIdentifier(key.id)
  {
    hide Identifier, IsIdentifier;
    forall key | key in keys
      ensures Identifier(key.id) <==> IsIdentifier(key.id)
    {
      IdentifierMeans(key.id);
    }
  }

  lemma RepeatsMean(keys: seq<Key>)
    ensures Repeats(keys) <==> !Distinct(keys)
  {
  }

  /** `indexed`: the rows go into a dictionary by id. */
  method Index(keys: seq<Key>) returns (denied: Option<Denial>)
    ensures denied == None <==> Indexed(keys)
    ensures denied.Some? ==> denied.value == (if Broken(keys) then HistoryBound else HistoryDuplicate)
    ensures denied == Some(HistoryDuplicate) ==> Repeats(keys)
  {
    hide Identifier, IsIdentifier, Distinct, Repeats;
    DuplicatesShow(keys);
    IdentifiersMean(keys);
    RepeatsMean(keys);
    if !(|keys| <= 256 && forall key | key in keys :: Identifier(key.id) && !key.oversized) {
      return Some(HistoryBound);
    }
    var ids: set<string> := {};
    for i := 0 to |keys|
      invariant ids == Ids(keys[..i])
    {
      assert keys[..i + 1] == keys[..i] + [keys[i]];
      ids := ids + {keys[i].id};
    }
    assert keys[..|keys|] == keys;
    return if |ids| == |keys| then None else Some(HistoryDuplicate);
  }

  // --- What the row checks imply together ---

  lemma RunsApart(runs: seq<Run>)
    requires Indexed(RunKeys(runs))
    ensures forall i, j | 0 <= i < j < |runs| :: runs[i].id != runs[j].id
  {
    assert forall i | 0 <= i < |runs| :: RunKeys(runs)[i].id == runs[i].id;
  }

  /** What one accepted hold says, in terms of the three tables. */
  lemma HoldIs(runs: seq<Run>, events: seq<Event>, liabilities: seq<Liability>, l: Liability)
    requires Indexed(RunKeys(runs)) && Hold(runs, events, liabilities, l).Ok?
    ensures var (run, event) := Hold(runs, events, liabilities, l).value;
            && GoodHold(runs, events, liabilities, l, run, event)
            && run in runs && event in events
            && event.liabilityId == Some(l.id) && OnlyInGroup(liabilities, l.groupId) && run.groupId == l.groupId
            && run.reserved == event.reserved == l.reserved && l.reserved.Some? && run.ceiling.Some?
            && 0 < l.reserved.value <= run.ceiling.value
            && event.costState == "outcome_unknown"
  {
    hide Hold, Indexed, QuotedAs, SameParties, EstimatedAs, MadeInOrder, FirstSaved, PricedAs, CoversCost;
    RunsApart(runs);
    var (run, event) := Hold(runs, events, liabilities, l).value;
    HoldMeans(runs, events, liabilities, l, run, event);
  }

  /** Two unresolved liabilities never share a run or an event. */
  lemma {:induction false} HoldsAreApart(runs: seq<Run>, events: seq<Event>, liabilities: seq<Liability>, i: nat,
                                         j: nat)
    requires Indexed(RunKeys(runs)) && Indexed(EventKeys(events)) && Indexed(LiabilityKeys(liabilities))
    requires i < |liabilities| && j < |liabilities|
    requires Hold(runs, events, liabilities, liabilities[i]).Ok? && Hold(runs, events, liabilities, liabilities[j]).Ok?
    ensures var (run, event) := Hold(runs, events, liabilities, liabilities[i]).value;
            var (run', event') := Hold(runs, events, liabilities, liabilities[j]).value;
            run.id == run'.id || event.id == event'.id ==> i == j
  {
    hide Hold, Indexed;
    HoldIs(runs, events, liabilities, liabilities[i]);
    HoldIs(runs, events, liabilities, liabilities[j]);
    var (run, event) := Hold(runs, events, liabilities, liabilities[i]).value;
    var (run', event') := Hold(runs, events, liabilities, liabilities[j]).value;
    if run.id == run'.id {
      SameRun(runs, run, run');
    }
    if event.id == event'.id {
      SameEvent(events, event, event');
      SameLiability(liabilities, i, j);
    }
  }

  lemma {:induction false} SameRun(runs: seq<Run>, a: Run, b: Run)
    requires Indexed(RunKeys(runs)) && a in runs && b in runs && a.id == b.id
    ensures a == b
  {
  }

  lemma {:induction false} SameEvent(events: seq<Event>, a: Event, b: Event)
    requires Indexed(EventKeys(events)) && a in events && b in events && a.id == b.id
    ensures a == b
  {
  }

  lemma {:induction false} SameLiability(liabilities: seq<Liability>, i: nat, j: nat)
    requires Indexed(LiabilityKeys(liabilities)) && i < |liabilities| && j < |liabilities|
    requires liabilities[i].id == liabilities[j].id
    ensures i == j
  {
    assert LiabilityKeys(liabilities)[i].id == LiabilityKeys(liabilities)[j].id;
  }

  function Unresolved(known: seq<bool>, n: nat): nat
    requires n <= |known|
  {
    if n == 0 then 0 else Unresolved(known, n - 1) + if known[n - 1] then 0 else 1
  }

  lemma {:induction false} HeldIs(runs: seq<Run>, events: seq<Event>, liabilities: seq<Liability>, known: seq<bool>,
                                  n: nat)
    requires n <= |liabilities| == |known| && HoldsOk(runs, events, liabilities, known, n)
    ensures forall id :: id in HeldRuns(runs, events, liabilities, known, n) <==>
                           exists i | 0 <= i < n && !known[i] ::
                             Hold(runs, events, liabilities, liabilities[i]).value.0.id == id
    ensures forall id :: id in HeldEvents(runs, events, liabilities, known, n) <==>
                           exists i | 0 <= i < n && !known[i] ::
                             Hold(runs, events, liabilities, liabilities[i]).value.1.id == id
  {
    hide Hold;
    if n > 0 {
      HeldIs(runs, events, liabilities, known, n - 1);
    }
  }

  /** The liability `n` adds a run and an event of its own. */
  lemma HeldGrows(runs: seq<Run>, events: seq<Event>, liabilities: seq<Liability>, known: seq<bool>, n: nat)
    requires Reconciled(runs, events, liabilities, known) && n < |known| && !known[n]
    requires HoldsOk(runs, events, liabilities, known, n)
    ensures Hold(runs, events, liabilities, liabilities[n]).Ok?
    ensures var (run, event) := Hold(runs, events, liabilities, liabilities[n]).value;
            && run.id !in HeldRuns(runs, events, liabilities, known, n)
            && event.id !in HeldEvents(runs, events, liabilities, known, n)
  {
    hide Hold, Indexed, OtherRunOk, OtherEventOk, HeldRuns, HeldEvents;
    HeldIs(runs, events, liabilities, known, n);
    var (run, event) := Hold(runs, events, liabilities, liabilities[n]).value;
    forall i | 0 <= i < n && !known[i]
      ensures Hold(runs, events, liabilities, liabilities[i]).value.0.id != run.id
      ensures Hold(runs, events, liabilities, liabilities[i]).value.1.id != event.id
    {
      HoldsAreApart(runs, events, liabilities, i, n);
    }
  }

  lemma NothingHeld(runs: seq<Run>, events: seq<Event>, liabilities: seq<Liability>, known: seq<bool>)
    requires |liabilities| == |known| && HoldsOk(runs, events, liabilities, known, 0)
    ensures HeldRuns(runs, events, liabilities, known, 0) == {} == HeldEvents(runs, events, liabilities, known, 0)
  {
  }

  lemma HeldNext(runs: seq<Run>, events: seq<Event>, liabilities: seq<Liability>, known: seq<bool>, n: nat)
    requires 0 < n <= |liabilities| == |known| && HoldsOk(runs, events, liabilities, known, n)
    ensures HoldsOk(runs, events, liabilities, known, n - 1)
    ensures var heldRuns := HeldRuns(runs, events, liabilities, known, n - 1);
            var heldEvents := HeldEvents(runs, events, liabilities, known, n - 1);
            var hold := Hold(runs, events, liabilities, liabilities[n - 1]);
            if known[n - 1]
            then HeldRuns(runs, events, liabilities, known, n) == heldRuns
                 && HeldEvents(runs, events, liabilities, known, n) == heldEvents
            else
              && hold.Ok? && HeldRuns(runs, events, liabilities, known, n) == heldRuns + {hold.value.0.id}
              && HeldEvents(runs, events, liabilities, known, n) == heldEvents + {hold.value.1.id}
  {
    hide Hold;
  }

  lemma {:induction false} HeldCount(runs: seq<Run>, events: seq<Event>, liabilities: seq<Liability>,
                                     known: seq<bool>, n: nat)
    requires Reconciled(runs, events, liabilities, known) && n <= |known|
             && HoldsOk(runs, events, liabilities, known, n)
    ensures |HeldRuns(runs, events, liabilities, known, n)| == Unresolved(known, n)
            == |HeldEvents(runs, events, liabilities, known, n)|
  {
    hide Hold, Reconciled, RunKeys, EventKeys, LiabilityKeys, Indexed, HoldsOk, HeldRuns, HeldEvents;
    ReconciledIndexes(runs, events, liabilities, known);
    if n == 0 {
      NothingHeld(runs, events, liabilities, known);
    } else {
      HeldNext(runs, events, liabilities, known, n);
      HeldCount(runs, events, liabilities, known, n - 1);
      if !known[n - 1] {
        HeldGrows(runs, events, liabilities, known, n - 1);
        var (run, event) := Hold(runs, events, liabilities, liabilities[n - 1]).value;
        Sizes.SetWith(HeldRuns(runs, events, liabilities, known, n - 1), run.id);
        Sizes.SetWith(HeldEvents(runs, events, liabilities, known, n - 1), event.id);
      }
    }
  }

  // --- The returned sets and the verdict, in terms of the holds ---

  lemma {:induction false} HeldRunIs(runs: seq<Run>, events: seq<Event>, liabilities: seq<Liability>,
                                     known: seq<bool>, run: Run)
    requires Indexed(RunKeys(runs)) && |known| == |liabilities|
    requires HoldsOk(runs, events, liabilities, known, |known|) && run in runs
    ensures run.id in HeldRuns(runs, events, liabilities, known, |known|) <==>
              exists event :: Held(runs, events, liabilities, known, run, event)
  {
    hide Hold, Indexed, GoodHold, HeldRuns, HeldEvents;
    HeldIs(runs, events, liabilities, known, |known|);
    forall i | 0 <= i < |known| && !known[i]
      ensures var (held, event) := Hold(runs, events, liabilities, liabilities[i]).value;
              && GoodHold(runs, events, liabilities, liabilities[i], held, event)
              && (held.id == run.id <==> held == run)
              && forall run', event' :: GoodHold(runs, events, liabilities, liabilities[i], run', event') <==>
                                          (run', event') == (held, event)
    {
      HoldFound(runs, events, liabilities, liabilities[i]);
      HoldIs(runs, events, liabilities, liabilities[i]);
      var (held, event) := Hold(runs, events, liabilities, liabilities[i]).value;
      if held.id == run.id {
        SameRun(runs, held, run);
      }
    }
    if exists event :: Held(runs, events, liabilities, known, run, event) {
      var event :| Held(runs, events, liabilities, known, run, event);
      var i :| 0 <= i < |known| && !known[i] && GoodHold(runs, events, liabilities, liabilities[i], run, event);
      assert Hold(runs, events, liabilities, liabilities[i]).value == (run, event);
    }
    if run.id in HeldRuns(runs, events, liabilities, known, |known|) {
      var i :| 0 <= i < |known| && !known[i] && Hold(runs, events, liabilities, liabilities[i]).value.0.id == run.id;
      assert Held(runs, events, liabilities, known, run, Hold(runs, events, liabilities, liabilities[i]).value.1);
    }
  }

  lemma {:induction false} HeldEventIs(runs: seq<Run>, events: seq<Event>, liabilities: seq<Liability>,
                                       known: seq<bool>, event: Event)
    requires Indexed(RunKeys(runs)) && Indexed(EventKeys(events)) && |known| == |liabilities|
    requires HoldsOk(runs, events, liabilities, known, |known|) && event in events
    ensures event.id in HeldEvents(runs, events, liabilities, known, |known|) <==>
              exists run :: Held(runs, events, liabilities, known, run, event)
  {
    hide Hold, Indexed, GoodHold, HeldRuns, HeldEvents;
    HeldIs(runs, events, liabilities, known, |known|);
    forall i | 0 <= i < |known| && !known[i]
      ensures var (run, held) := Hold(runs, events, liabilities, liabilities[i]).value;
              && GoodHold(runs, events, liabilities, liabilities[i], run, held)
              && (held.id == event.id <==> held == event)
              && forall run', event' :: GoodHold(runs, events, liabilities, liabilities[i], run', event') <==>
                                          (run', event') == (run, held)
    {
      HoldFound(runs, events, liabilities, liabilities[i]);
      HoldIs(runs, events, liabilities, liabilities[i]);
      var (run, held) := Hold(runs, events, liabilities, liabilities[i]).value;
      if held.id == event.id {
        SameEvent(events, held, event);
      }
    }
    if exists run :: Held(runs, events, liabilities, known, run, event) {
      var run :| Held(runs, events, liabilities, known, run, event);
      var i :| 0 <= i < |known| && !known[i] && GoodHold(runs, events, liabilities, liabilities[i], run, event);
      assert Hold(runs, events, liabilities, liabilities[i]).value == (run, event);
    }
    if event.id in HeldEvents(runs, events, liabilities, known, |known|) {
      var i :| 0 <= i < |known| && !known[i] && Hold(runs, events, liabilities, liabilities[i]).value.1.id == event.id;
      assert Held(runs, events, liabilities, known, Hold(runs, events, liabilities, liabilities[i]).value.0, event);
    }
  }

  lemma AllFound(runs: seq<Run>, events: seq<Event>, liabilities: seq<Liability>, known: seq<bool>)
    requires Indexed(RunKeys(runs)) && |known| == |liabilities|
    ensures HoldsOk(runs, events, liabilities, known, |known|) <==> AllHeld(runs, events, liabilities, known)
  {
    hide Hold, Indexed, GoodHold;
    forall i | 0 <= i < |known|
      ensures Hold(runs, events, liabilities, liabilities[i]).Ok? <==>
                exists run, event :: GoodHold(runs, events, liabilities, liabilities[i], run, event)
    {
      HoldFound(runs, events, liabilities, liabilities[i]);
    }
  }

  /** The procedure's own test accepts exactly the balanced tables. */
  lemma {:induction false} ReconciledMeans(runs: seq<Run>, events: seq<Event>, liabilities: seq<Liability>,
                                           known: seq<bool>)
    ensures Reconciled(runs, events, liabilities, known) <==> Balanced(runs, events, liabilities, known)
  {
    hide Hold, Indexed, GoodTable, HoldsOk, AllHeld, Held, HeldRuns, HeldEvents, OtherRunOk, OtherEventOk, SettledRun;
    hide SettledEvent, RunKeys, EventKeys, LiabilityKeys;
    TableMeans(RunKeys(runs));
    TableMeans(EventKeys(events));
    TableMeans(LiabilityKeys(liabilities));
    if GoodTable(RunKeys(runs)) && GoodTable(EventKeys(events)) && |known| == |liabilities| {
      AllFound(runs, events, liabilities, known);
      if HoldsOk(runs, events, liabilities, known, |known|) {
        HeldRows(runs, events, liabilities, known);
      }
    }
  }

  /** Why the tables are refused: an ill-formed table, a liability that is not bound to one run and event, or whose
      state or quote proves no hold, and, when every hold is proven, a run or event outside them that is not settled. */
  ghost predicate Explains(reason: Denial, runs: seq<Run>, events: seq<Event>, liabilities: seq<Liability>,
                           known: seq<bool>) {
    if reason.LengthMismatch? then |known| != |liabilities|
    else if reason.HistoryBound? then
      Broken(RunKeys(runs)) || Broken(EventKeys(events)) || Broken(LiabilityKeys(liabilities))
    else if reason.HistoryDuplicate? then
      Repeats(RunKeys(runs)) || Repeats(EventKeys(events)) || Repeats(LiabilityKeys(liabilities))
    else if |known| != |liabilities| then false
    else if reason.OtherRun? then
      && AllHeld(runs, events, liabilities, known)
      && exists run | run in runs ::
           !SettledRun(run) && forall event :: !Held(runs, events, liabilities, known, run, event)
    else if reason.OtherEvent? then
      && AllHeld(runs, events, liabilities, known)
      && exists event | event in events ::
           !SettledEvent(event, liabilities) && forall run :: !Held(runs, events, liabilities, known, run, event)
    else
      exists i | 0 <= i < |known| && !known[i] :: NoHold(reason, runs, events, liabilities, liabilities[i])
  }

  /** Why one liability has no hold. */
  ghost predicate NoHold(reason: Denial, runs: seq<Run>, events: seq<Event>, liabilities: seq<Liability>,
                         l: Liability) {
    match reason
    case HoldBinding => forall run, event :: !BoundTogether(runs, events, liabilities, l, run, event)
    case HoldState =>
      exists run, event ::
        BoundTogether(runs, events, liabilities, l, run, event) && !StateProven(run, event, l, events)
    case HoldQuote =>
      exists run, event ::
        && BoundTogether(runs, events, liabilities, l, run, event)
        && StateProven(run, event, l, events) && !QuoteProven(run, event, l)
    case _ => false
  }

  lemma RefusedHold(runs: seq<Run>, events: seq<Event>, liabilities: seq<Liability>, l: Liability)
    requires Indexed(RunKeys(runs)) && Hold(runs, events, liabilities, l).Refused?
    ensures NoHold(Hold(runs, events, liabilities, l).reason, runs, events, liabilities, l)
    ensures Hold(runs, events, liabilities, l).reason in {HoldBinding, HoldState, HoldQuote}
  {
    hide StateOk, StateProven, QuoteOk, QuoteProven, Indexed, Where, OnlyLinked, OnlyInGroup;
    RunsApart(runs);
    var linked := Where(events, LinkedTo(l.id));
    OneInGroup(liabilities, l.groupId);
    WhereIs(events, LinkedTo(l.id));
    forall run: Run, event: Event
      ensures OnlyLinked(events, event, l.id) <==> linked == [event]
      ensures event in events && event.runId == Some(run.id) ==>
                (StateOk(run, event, l, events) <==> StateProven(run, event, l, events))
      ensures QuoteOk(run, event, l) <==> QuoteProven(run, event, l)
    {
      OneLinked(events, event, l.id);
      QuoteMeans(run, event, l);
      if event in events && event.runId == Some(run.id) {
        StateMeans(run, event, l, events);
      }
    }
    if |linked| == 1 {
      assert linked == [linked[0]] && linked[0] in linked;
      NamedIs(runs, linked[0].runId);
    }
  }

  // --- The procedure ---

  lemma HeldRows(runs: seq<Run>, events: seq<Event>, liabilities: seq<Liability>, known: seq<bool>)
    requires Indexed(RunKeys(runs)) && Indexed(EventKeys(events)) && |known| == |liabilities|
    requires HoldsOk(runs, events, liabilities, known, |known|)
    ensures AllHeld(runs, events, liabilities, known)
    ensures forall run | run in runs ::
              && (OtherRunOk(run) <==> SettledRun(run))
              && (run.id in HeldRuns(runs, events, liabilities, known, |known|) <==>
                    exists event :: Held(runs, events, liabilities, known, run, event))
    ensures forall event | event in events ::
              && (OtherEventOk(event, liabilities) <==> SettledEvent(event, liabilities))
              && (event.id in HeldEvents(runs, events, liabilities, known, |known|) <==>
                    exists run :: Held(runs, events, liabilities, known, run, event))
  {
    hide Hold, Indexed, HoldsOk, AllHeld, Held, HeldRuns, HeldEvents, OtherRunOk, OtherEventOk, SettledRun;
    hide SettledEvent, RunKeys, EventKeys;
    AllFound(runs, events, liabilities, known);
    forall run | run in runs
      ensures OtherRunOk(run) <==> SettledRun(run)
      ensures run.id in HeldRuns(runs, events, liabilities, known, |known|) <==>
                exists event :: Held(runs, events, liabilities, known, run, event)
    {
      HeldRunIs(runs, events, liabilities, known, run);
      OtherRunMeans(run);
    }
    forall event | event in events
      ensures OtherEventOk(event, liabilities) <==> SettledEvent(event, liabilities)
      ensures event.id in HeldEvents(runs, events, liabilities, known, |known|) <==>
                exists run :: Held(runs, events, liabilities, known, run, event)
    {
      HeldEventIs(runs, events, liabilities, known, event);
      OtherEventMeans(event, liabilities);
    }
  }

  method HistoricalHolds(runs: seq<Run>, events: seq<Event>, liabilities: seq<Liability>, known: seq<bool>)
    returns (result: Result<(set<string>, set<string>), Denial>)
    ensures result.Ok? <==> Reconciled(runs, events, liabilities, known)
    ensures result.Ok? ==>
              && result.value.0 == HeldRuns(runs, events, liabilities, known, |known|)
              && result.value.1 == HeldEvents(runs, events, liabilities, known, |known|)
    ensures result.Ok? <==> Balanced(runs, events, liabilities, known)
    ensures result.Ok? ==>
              && (forall run | run in runs ::
                    run.id in result.value.0 <==> exists event :: Held(runs, events, liabilities, known, run, event))
              && (forall event | event in events ::
                    event.id in result.value.1 <==> exists run :: Held(runs, events, liabilities, known, run, event))
    ensures result.Refused? ==> Explains(result.reason, runs, events, liabilities, known)
  {
    hide Balanced, Held, AllHeld, NoHold, Broken, Repeats, SettledRun, SettledEvent;
    hide HeldRuns, HeldEvents;
    hide Hold, OtherRunOk, OtherEventOk, Indexed, RunKeys, EventKeys, LiabilityKeys, Ids, Reserved;
    ReconciledMeans(runs, events, liabilities, known);
    var denied := Index(RunKeys(runs));
    if denied.Some? { return Refused(denied.value); }
    denied := Index(EventKeys(events));
    if denied.Some? { return Refused(denied.value); }
    denied := Index(LiabilityKeys(liabilities));
    if denied.Some? { return Refused(denied.value); }
    if |known| != |liabilities| { return Refused(LengthMismatch); }
    var heldRuns: set<string>, heldEvents: set<string> := {}, {};
    NothingHeld(runs, events, liabilities, known);
    for i := 0 to |liabilities|
      invariant HoldsOk(runs, events, liabilities, known, i)
      invariant heldRuns == HeldRuns(runs, events, liabilities, known, i)
      invariant heldEvents == HeldEvents(runs, events, liabilities, known, i)
    {
      if known[i] {
        HeldNext(runs, events, liabilities, known, i + 1);
        continue;
      }
      var hold := Hold(runs, events, liabilities, liabilities[i]);
      if hold.Refused? {
        RefusedHold(runs, events, liabilities, liabilities[i]);
        return Refused(hold.reason);
      }
      HeldNext(runs, events, liabilities, known, i + 1);
      heldRuns, heldEvents := heldRuns + {hold.value.0.id}, heldEvents + {hold.value.1.id};
    }
    HeldRows(runs, events, liabilities, known);
    for i := 0 to |runs|
      invariant forall k | 0 <= k < i && runs[k].id !in heldRuns :: OtherRunOk(runs[k])
    {
      if runs[i].id !in heldRuns && !OtherRunOk(runs[i]) { return Refused(OtherRun); }
    }
    for i := 0 to |events|
      invariant forall k | 0 <= k < i && events[k].id !in heldEvents :: OtherEventOk(events[k], liabilities)
    {
      if events[i].id !in heldEvents && !OtherEventOk(events[i], liabilities) { return Refused(OtherEvent); }
    }
    return Ok((heldRuns, heldEvents));
  }

  // --- Conservation ---

  /** The money reserved by the runs named in `ids`. */
  function ReservedBy(runs: seq<Run>, ids: set<string>): int {
    if runs == [] then 0
    else ReservedBy(runs[1..], ids) + if runs[0].id in ids && runs[0].reserved.Some? then runs[0].reserved.value else 0
  }

  function Reserved(runs: seq<Run>): int {
    if runs == [] then 0
    else Reserved(runs[1..]) + if runs[0].reserved.Some? then runs[0].reserved.value else 0
  }

  function Owed(liabilities: seq<Liability>, known: seq<bool>, n: nat): int
    requires n <= |liabilities| == |known|
  {
    if n == 0 then 0
    else
      Owed(liabilities, known, n - 1)
      + if known[n - 1] || liabilities[n - 1].reserved == None then 0 else liabilities[n - 1].reserved.value
  }

  predicate OneOf(runs: seq<Run>, i: nat)
    requires i < |runs|
  {
    forall j | 0 <= j < |runs| && j != i :: runs[j].id != runs[i].id
  }

  lemma {:induction false} ReservedWith(runs: seq<Run>, ids: set<string>, i: nat)
    requires i < |runs| && OneOf(runs, i) && runs[i].id !in ids && runs[i].reserved.Some?
    ensures ReservedBy(runs, ids + {runs[i].id}) == ReservedBy(runs, ids) + runs[i].reserved.value
    decreases |runs|
  {
    if i == 0 {
      assert forall r | r in runs[1..] :: r.id != runs[0].id;
      ReservedWithout(runs[1..], ids, runs[0].id);
    } else {
      assert runs[1..][i - 1] == runs[i];
      ReservedWith(runs[1..], ids, i - 1);
    }
  }

  lemma {:induction false} ReservedWithout(runs: seq<Run>, ids: set<string>, id: string)
    requires forall r | r in runs :: r.id != id
    ensures ReservedBy(runs, ids + {id}) == ReservedBy(runs, ids)
  {
    if runs != [] {
      ReservedWithout(runs[1..], ids, id);
    }
  }

  lemma {:induction false} ReservedAll(runs: seq<Run>, ids: set<string>)
    requires forall r | r in runs && r.id !in ids :: r.reserved == Some(0)
    ensures Reserved(runs) == ReservedBy(runs, ids)
  {
    if runs != [] {
      ReservedAll(runs[1..], ids);
    }
  }

  lemma {:induction false} ReservedNobody(runs: seq<Run>)
    ensures ReservedBy(runs, {}) == 0
  {
    if runs != [] {
      ReservedNobody(runs[1..]);
    }
  }

  lemma RunAt(runs: seq<Run>, run: Run) returns (i: nat)
    requires Indexed(RunKeys(runs)) && run in runs
    ensures i < |runs| && runs[i] == run && OneOf(runs, i)
  {
    i :| 0 <= i < |runs| && runs[i] == run;
    forall j | 0 <= j < |runs| && j != i
      ensures runs[j].id != runs[i].id
    {
      assert RunKeys(runs)[i].id != RunKeys(runs)[j].id;
    }
  }

  lemma {:induction false} HeldOwed(runs: seq<Run>, events: seq<Event>, liabilities: seq<Liability>, known: seq<bool>,
                                    n: nat)
    requires Reconciled(runs, events, liabilities, known) && n <= |known|
             && HoldsOk(runs, events, liabilities, known, n)
    ensures ReservedBy(runs, HeldRuns(runs, events, liabilities, known, n)) == Owed(liabilities, known, n)
    decreases n
  {
    hide Hold, Reconciled, ReservedBy;
    ReconciledIndexes(runs, events, liabilities, known);
    if n == 0 {
      ReservedNobody(runs);
    } else {
      HeldOwed(runs, events, liabilities, known, n - 1);
      var before := HeldRuns(runs, events, liabilities, known, n - 1);
      if known[n - 1] {
        assert before + {} == before;
      } else {
        HeldGrows(runs, events, liabilities, known, n - 1);
        HoldIs(runs, events, liabilities, liabilities[n - 1]);
        var run := Hold(runs, events, liabilities, liabilities[n - 1]).value.0;
        var i := RunAt(runs, run);
        ReservedWith(runs, before, i);
      }
    }
  }

  lemma {:induction false} ReconciledIndexes(runs: seq<Run>, events: seq<Event>, liabilities: seq<Liability>,
                                             known: seq<bool>)
    requires Reconciled(runs, events, liabilities, known)
    ensures Indexed(RunKeys(runs)) && Indexed(EventKeys(events)) && Indexed(LiabilityKeys(liabilities))
    ensures |known| == |liabilities| && HoldsOk(runs, events, liabilities, known, |known|)
    ensures forall r | r in runs && r.id !in HeldRuns(runs, events, liabilities, known, |known|) ::
              r.reserved == Some(0)
    ensures forall e | e in events && e.id !in HeldEvents(runs, events, liabilities, known, |known|) ::
              e.costState != "outcome_unknown"
  {
    hide Hold;
  }

  /** If the procedure returns: the unresolved liabilities, the returned runs and the returned events
      are in bijection, and every cent reserved on any run is owed by exactly one unresolved liability. */
  lemma {:induction false} HoldConservation(runs: seq<Run>, events: seq<Event>, liabilities: seq<Liability>,
                                            known: seq<bool>)
    requires Reconciled(runs, events, liabilities, known)
    ensures var heldRuns := HeldRuns(runs, events, liabilities, known, |known|);
            var heldEvents := HeldEvents(runs, events, liabilities, known, |known|);
            && |heldRuns| == |heldEvents| == Unresolved(known, |known|)
            && Reserved(runs) == Owed(liabilities, known, |known|)
  {
    hide Hold, Reconciled;
    ReconciledIndexes(runs, events, liabilities, known);
    HeldCount(runs, events, liabilities, known, |known|);
    HeldOwed(runs, events, liabilities, known, |known|);
    ReservedAll(runs, HeldRuns(runs, events, liabilities, known, |known|));
  }

  /** A run is returned exactly when it reserves money, then within its ceiling and for one
      unresolved liability; an event exactly when its outcome is unknown. */
  lemma {:induction false} ReturnedExactly(runs: seq<Run>, events: seq<Event>, liabilities: seq<Liability>,
                                           known: seq<bool>)
    requires Reconciled(runs, events, liabilities, known)
    ensures var heldRuns := HeldRuns(runs, events, liabilities, known, |known|);
            var heldEvents := HeldEvents(runs, events, liabilities, known, |known|);
            && (forall r | r in runs :: r.id in heldRuns <==> r.reserved != Some(0))
            && (forall r | r in runs && r.id in heldRuns ::
                  r.reserved.Some? && r.ceiling.Some? && 0 < r.reserved.value <= r.ceiling.value)
            && (forall e | e in events :: e.id in heldEvents <==> e.costState == "outcome_unknown")
            && (forall id | id in heldRuns :: exists r | r in runs :: r.id == id)
            && (forall id | id in heldEvents :: exists e | e in events :: e.id == id)
  {
    hide Hold, Reconciled, HeldRuns, HeldEvents, Indexed;
    ReconciledIndexes(runs, events, liabilities, known);
    HeldIs(runs, events, liabilities, known, |known|);
    forall i | 0 <= i < |known| && !known[i]
      ensures var (run, event) := Hold(runs, events, liabilities, liabilities[i]).value;
              && run in runs && event in events && event.costState == "outcome_unknown"
              && run.reserved.Some? && run.ceiling.Some? && 0 < run.reserved.value <= run.ceiling.value
              && (forall r | r in runs && r.id == run.id :: r == run)
              && (forall e | e in events && e.id == event.id :: e == event)
    {
      HoldIs(runs, events, liabilities, liabilities[i]);
      var (run, event) := Hold(runs, events, liabilities, liabilities[i]).value;
      forall r | r in runs && r.id == run.id ensures r == run { SameRun(runs, r, run); }
      forall e | e in events && e.id == event.id ensures e == event { SameEvent(events, e, event); }
    }
  }
}
