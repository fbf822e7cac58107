/** Safety of the object channel over whole runs. */
module ChannelTheorems {
  import opened Outcomes
  import opened ChannelModel
  import opened ChannelInvariant
  import opened ChannelSteps
  import Sizes

  // --- Mutual exclusion ---

  ghost predicate OpenClaim(o: Objects, before: Checkpoint) {
    RunIntent(before) in o && RunTerminal(before) !in o
  }

  lemma OpenClaimIsLast(o: Objects, runs: seq<Claim>, before: Checkpoint)
    requires NamesOk(o, runs) && ChainOk(o, runs) && OpenClaim(o, before)
    ensures runs != [] && before == runs[|runs| - 1].before
  {
    assert Claimed(runs, before);
    var k :| 0 <= k < |runs| && runs[k].before == before;
    if k + 1 < |runs| {
      NextIsClaimed(o, runs, k);
    }
  }

  /** Whatever the interleaving, at most one run is claimed without its run terminal, although
      the reads of `begin` and its claim are separate steps. */
  lemma {:induction false} MutualExclusion(keys: seq<Key>, events: seq<Event>, a: Checkpoint, b: Checkpoint)
    requires OpenClaim(Run(keys, Initial, events).objects, a) && OpenClaim(Run(keys, Initial, events).objects, b)
    ensures a == b
  {
    hide ChannelOk, Run;
    var s := Run(keys, Initial, events);
    Reached(keys, events);
    OpenClaimIsLast(s.objects, s.runs, a);
    OpenClaimIsLast(s.objects, s.runs, b);
  }

  /** The store holds the channel's claim and not yet its run terminal, whether or not the
      acknowledgements have arrived: `begin` takes its last step or has returned, and `finish` has
      not closed the run. */
  ghost predicate Started(channel: Channel) {
    var pc := channel.pc;
    || (pc.Claiming? && Applied(channel))
    || pc.Ready? || pc.Intending? || pc.Holding? || pc.InFlight? || pc.Publishing? || pc.Committing?
    || (pc.Scan? && pc.purpose == ForFinish)
    || (pc.Finishing? && !Applied(channel))
  }

  lemma StartedOwns(keys: seq<Key>, o: Objects, runs: seq<Claim>, log: seq<Key>, i: nat, channel: Channel)
    requires ChannelOk(keys, o, runs, log, i, channel) && Started(channel)
    ensures OwnsRun(o, runs, i, channel.dispatch)
  {
  }

  lemma {:induction false} OneStartedChannel(keys: seq<Key>, events: seq<Event>, i: nat, j: nat)
    requires var channels := Run(keys, Initial, events).channels;
             && i < |channels| && j < |channels| && Started(channels[i]) && Started(channels[j])
    ensures i == j
  {
    hide ChannelOk, Run, NamesOk, ChainOk, TipOk, OwnerOk, Started;
    var s := Run(keys, Initial, events);
    Reached(keys, events);
    StartedOwns(keys, s.objects, s.runs, s.log, i, s.channels[i]);
    StartedOwns(keys, s.objects, s.runs, s.log, j, s.channels[j]);
  }

  // --- At most one send ---

  /** Over the whole life of the namespace each key reaches the transport at most once, and its
      intent object is in the store. */
  lemma {:induction false} AtMostOneSend(keys: seq<Key>, events: seq<Event>)
    ensures var s := Run(keys, Initial, events);
            Distinct(s.log) && forall key :: key in s.log ==> key in keys && PhaseIntent(key) in s.objects
  {
    hide ChannelOk, Run, NamesOk, ChainOk, TipOk, OwnerOk;
    Reached(keys, events);
  }

  lemma HolderHasIntent(keys: seq<Key>, o: Objects, runs: seq<Claim>, log: seq<Key>, i: nat, channel: Channel)
    requires ChannelOk(keys, o, runs, log, i, channel) && channel.pc.Holding?
    ensures PhaseIntent(channel.pc.key) in o && o[PhaseIntent(channel.pc.key)] == channel.pc.intent
    ensures channel.pc.key !in log && channel.pc.key in channel.sent
  {
  }

  /** The intent is in the store before the key is sent, and it is this channel's own intent. */
  lemma {:induction false} SendFollowsIntent(keys: seq<Key>, events: seq<Event>, i: nat)
    requires var s := Run(keys, Initial, events);
             Step(keys, s, Send(i)).log != s.log
    ensures var s := Run(keys, Initial, events);
            && i < |s.channels| && s.channels[i].pc.Holding? && s.channels[i].alive
            && Pinned(s.objects, s.channels[i].pc.intent)
            && s.channels[i].pc.intent.name == PhaseIntent(s.channels[i].pc.key)
            && s.channels[i].pc.key !in s.log
            && Step(keys, s, Send(i)).log == s.log + [s.channels[i].pc.key]
  {
    hide ChannelOk, Run, NamesOk, ChainOk, TipOk, OwnerOk, LogOk;
    var s := Run(keys, Initial, events);
    Reached(keys, events);
    HolderHasIntent(keys, s.objects, s.runs, s.log, i, s.channels[i]);
  }

  // --- Permanent fail-stop ---

  /** The open run's channel is gone and its run terminal is not on its way. */
  ghost predicate Abandoned(s: State) {
    && Open(s.objects, s.runs)
    && s.runs[|s.runs| - 1].owner < |s.channels|
    && var owner := s.channels[s.runs[|s.runs| - 1].owner];
       !owner.alive && !owner.pc.Finishing?
  }

  ghost predicate NobodyStarted(channels: seq<Channel>) {
    forall i :: 0 <= i < |channels| && channels[i].alive ==> !Started(channels[i])
  }

  /** While a run is open the store can take no other claim, and only its owner can close it. */
  lemma AbandonedApply(keys: seq<Key>, s: State, i: nat, generation: nat)
    requires Inv(keys, s) && Abandoned(s) && i < |s.channels|
    ensures var s' := TakeRequest(s, i, generation);
            s'.runs == s.runs && s'.log == s.log && Abandoned(s')
  {
    hide NamesOk, ChainOk, TipOk, OwnerOk, LogOk, StoreOk, ChannelOk;
    var channel := s.channels[i];
    if channel.pending.Some? && channel.pending.value.applied.None? && channel.pending.value.name !in s.objects {
      if channel.pending.value.name.RunIntent? || channel.pending.value.name.RunTerminal? {
        PendingRunFacts(keys, s.objects, s.runs, s.log, i, channel);
        if channel.pending.value.name.RunIntent? {
          ClaimFollowsLast(s.objects, s.runs, channel.dispatch);
        }
      }
    }
  }

  lemma PendingRunFacts(keys: seq<Key>, o: Objects, runs: seq<Claim>, log: seq<Key>, i: nat, channel: Channel)
    requires ChannelOk(keys, o, runs, log, i, channel)
    requires channel.pending.Some? && channel.pending.value.applied.None?
    requires channel.pending.value.name.RunIntent? || channel.pending.value.name.RunTerminal?
    ensures channel.pending.value.name.RunIntent? ==>
              channel.pending.value.name.before == channel.dispatch.before && Justified(o, channel.dispatch)
    ensures channel.pending.value.name.RunTerminal? ==> channel.pc.Finishing? && OwnsRun(o, runs, i, channel.dispatch)
  {
  }

  lemma AbandonedStep(keys: seq<Key>, s: State, e: Event)
    requires Inv(keys, s) && Abandoned(s)
    ensures var s' := Step(keys, s, e);
            s'.runs == s.runs && s'.log == s.log && Abandoned(s')
  {
    hide NamesOk, ChainOk, TipOk, OwnerOk, LogOk, StoreOk, ChannelOk, React;
    match e
    case Apply(i, generation) =>
      if i < |s.channels| { AbandonedApply(keys, s, i, generation); }
    case Send(i) =>
      if i < |s.channels| && s.channels[i].pc.Holding? {
        StartedOwns(keys, s.objects, s.runs, s.log, i, s.channels[i]);
      }
    case Publish(_) =>
    case Build(_) =>
    case _ =>
  }

  lemma {:induction false} AbandonedIdle(keys: seq<Key>, s: State)
    requires Inv(keys, s) && Abandoned(s)
    ensures NobodyStarted(s.channels)
  {
    hide ChannelOk, StoreOk, RunsOk, OwnerOk, LogOk, Started;
    forall i | 0 <= i < |s.channels| && s.channels[i].alive
      ensures !Started(s.channels[i])
    {
      if Started(s.channels[i]) {
        StartedOwns(keys, s.objects, s.runs, s.log, i, s.channels[i]);
      }
    }
  }

  /** Once a claimed run is abandoned without its run terminal, no continuation admits another
      claim, no later `begin` returns, and nothing more reaches the transport. */
  lemma {:induction false} PermanentFailStop(keys: seq<Key>, s: State, events: seq<Event>)
    requires Inv(keys, s) && Abandoned(s)
    ensures var s' := Run(keys, s, events);
            s'.runs == s.runs && s'.log == s.log && Abandoned(s') && NobodyStarted(s'.channels)
    decreases |events|
  {
    hide Inv, Abandoned;
    if events == [] {
      AbandonedIdle(keys, s);
    } else {
      StepKeeps(keys, s, events[0]);
      AbandonedStep(keys, s, events[0]);
      PermanentFailStop(keys, Step(keys, s, events[0]), events[1..]);
    }
  }

  lemma {:induction false} RunAppend(keys: seq<Key>, s: State, first: seq<Event>, second: seq<Event>)
    ensures Run(keys, s, first + second) == Run(keys, Run(keys, s, first), second)
    decreases |first|
  {
    if first == [] {
      assert first + second == second;
    } else {
      assert (first + second)[1..] == first[1..] + second;
      RunAppend(keys, Step(keys, s, first[0]), first[1..], second);
    }
  }

  lemma {:induction false} AbandonedForever(keys: seq<Key>, before: seq<Event>, after: seq<Event>)
    requires Abandoned(Run(keys, Initial, before))
    ensures var s, s' := Run(keys, Initial, before), Run(keys, Initial, before + after);
            s'.runs == s.runs && s'.log == s.log && NobodyStarted(s'.channels)
  {
    hide Abandoned, Inv, Run;
    Reached(keys, before);
    PermanentFailStop(keys, Run(keys, Initial, before), after);
    RunAppend(keys, Initial, before, after);
  }

  // --- Conservation along the parent chain ---

  /** The refs `_parent` visits when it accepts, newest first. */
  function ParentChain(o: Objects, binding: Ref, reference: Option<Ref>, checkpoint: Checkpoint,
                       visited: set<Name>, bound: nat): Option<seq<Ref>>
    decreases bound - |visited|
  {
    match reference
    case None => if checkpoint == map[] then Some([]) else None
    case Some(ref) =>
      if ref.name !in visited && |visited| < bound && Pinned(o, ref) && LinkShape(ref, binding, checkpoint)
         && Pinned(o, ref.raw.ack) && ref.raw.ack.raw == ref.raw.dispatched
      then
        var rest := ParentChain(o, binding, ref.raw.parent, ref.raw.before, visited + {ref.name}, bound);
        if rest.Some? then Some([ref] + rest.value) else None
      else None
  }

  /** One link of a chain: the stored terminal of a completed run with the channel's binding, one to ten requests and
      its own stored acknowledgement. */
  ghost predicate CompletedRun(o: Objects, binding: Ref, run: Ref, after: Checkpoint) {
    && run.name in o && o[run.name] == run && run.raw.RunDoc?
    && run.raw.binding == binding && run.raw.after == after && run.name == RunTerminal(run.raw.before)
    && 1 <= run.raw.requests && run.raw.requests <= 10
    && run.raw.ack.name in o && o[run.raw.ack.name] == run.raw.ack && run.raw.ack.raw == run.raw.dispatched
  }

  ghost predicate LinkAt(o: Objects, binding: Ref, chain: seq<Ref>, checkpoint: Checkpoint, i: nat)
    requires i < |chain|
  {
    && (i > 0 ==> chain[i - 1].raw.RunDoc?)
    && CompletedRun(o, binding, chain[i], if i == 0 then checkpoint else chain[i - 1].raw.before)
    && chain[i].raw.parent == (if i + 1 < |chain| then Some(chain[i + 1]) else None)
  }

  /** Completed runs, newest first, each with the next as its parent and its start as the next one's end, from
      `checkpoint` down to nothing; no run twice, none already visited, and no more than the bound. */
  ghost predicate Lineage(o: Objects, binding: Ref, chain: seq<Ref>, reference: Option<Ref>, checkpoint: Checkpoint,
                          visited: set<Name>, bound: int) {
    && |chain| <= bound
    && (forall i :: 0 <= i < |chain| ==> chain[i].name !in visited)
    && (forall i, j :: 0 <= i < j < |chain| ==> chain[i].name != chain[j].name)
    && reference == (if chain == [] then None else Some(chain[0]))
    && (forall i :: 0 <= i < |chain| ==> LinkAt(o, binding, chain, checkpoint, i))
    && (if chain == [] then checkpoint == map[]
        else chain[|chain| - 1].raw.RunDoc? && chain[|chain| - 1].raw.before == map[])
  }

  lemma LineageCons(o: Objects, binding: Ref, ref: Ref, rest: seq<Ref>, checkpoint: Checkpoint, visited: set<Name>,
                    bound: int)
    requires ref.raw.RunDoc?
    ensures Lineage(o, binding, [ref] + rest, Some(ref), checkpoint, visited, bound) <==>
              && ref.name !in visited && CompletedRun(o, binding, ref, checkpoint)
              && Lineage(o, binding, rest, ref.raw.parent, ref.raw.before, visited + {ref.name}, bound - 1)
  {
    hide LinkAt, CompletedRun;
    var chain := [ref] + rest;
    FirstLink(o, binding, ref, rest, checkpoint);
    assert forall i | 0 <= i < |rest| :: chain[i + 1] == rest[i];
    forall i | 0 <= i < |rest|
      ensures LinkAt(o, binding, chain, checkpoint, i + 1) <==> LinkAt(o, binding, rest, ref.raw.before, i)
    {
      LaterLink(o, binding, ref, rest, checkpoint, i);
    }
    if LinkAt(o, binding, chain, checkpoint, 0)
       && forall i | 0 <= i < |rest| :: LinkAt(o, binding, rest, ref.raw.before, i) {
      forall i | 0 <= i < |chain|
        ensures LinkAt(o, binding, chain, checkpoint, i)
      {
        if i > 0 {
          assert LinkAt(o, binding, rest, ref.raw.before, i - 1);
        }
      }
    }
  }

  lemma FirstLink(o: Objects, binding: Ref, ref: Ref, rest: seq<Ref>, checkpoint: Checkpoint)
    ensures LinkAt(o, binding, [ref] + rest, checkpoint, 0) <==>
              CompletedRun(o, binding, ref, checkpoint)
              && ref.raw.parent == if rest == [] then None else Some(rest[0])
  {
  }

  lemma LaterLink(o: Objects, binding: Ref, ref: Ref, rest: seq<Ref>, checkpoint: Checkpoint, i: nat)
    requires ref.raw.RunDoc? && i < |rest|
    ensures LinkAt(o, binding, [ref] + rest, checkpoint, i + 1) <==> LinkAt(o, binding, rest, ref.raw.before, i)
  {
    hide CompletedRun;
    var chain := [ref] + rest;
    assert chain[i + 1] == rest[i] && chain[i] == (if i == 0 then ref else rest[i - 1]);
    assert i + 1 < |rest| ==> chain[i + 2] == rest[i + 1];
  }

  /** The walk accepts exactly the lineages of completed runs, and visits each run of it. */
  lemma {:induction false} ChainMeans(o: Objects, binding: Ref, reference: Option<Ref>, checkpoint: Checkpoint,
                                      visited: set<Name>, bound: nat, chain: seq<Ref>)
    requires |visited| <= bound
    ensures ParentChain(o, binding, reference, checkpoint, visited, bound) == Some(chain) <==>
              Lineage(o, binding, chain, reference, checkpoint, visited, bound - |visited|)
    decreases bound - |visited|
  {
    hide Lineage;
    match reference
    case None => LineageOfNone(o, binding, chain, checkpoint, visited, bound - |visited|);
    case Some(ref) =>
      LineageStarts(o, binding, chain, ref, checkpoint, visited, bound - |visited|);
      if ref.raw.RunDoc? && chain != [] && chain[0] == ref {
        assert chain == [ref] + chain[1..];
        LineageCons(o, binding, ref, chain[1..], checkpoint, visited, bound - |visited|);
        if ref.name !in visited && |visited| < bound {
          ChainMeans(o, binding, ref.raw.parent, ref.raw.before, visited + {ref.name}, bound, chain[1..]);
        }
      }
  }

  lemma LineageOfNone(o: Objects, binding: Ref, chain: seq<Ref>, checkpoint: Checkpoint, visited: set<Name>,
                      bound: int)
    requires 0 <= bound
    ensures Lineage(o, binding, chain, None, checkpoint, visited, bound) <==> chain == [] && checkpoint == map[]
  {
  }

  lemma LineageStarts(o: Objects, binding: Ref, chain: seq<Ref>, ref: Ref, checkpoint: Checkpoint, visited: set<Name>,
                      bound: int)
    ensures Lineage(o, binding, chain, Some(ref), checkpoint, visited, bound) ==>
              chain != [] && chain[0] == ref && ref.raw.RunDoc? && ref.name !in visited && bound > 0
  {
    if Lineage(o, binding, chain, Some(ref), checkpoint, visited, bound) {
      assert LinkAt(o, binding, chain, checkpoint, 0);
    }
  }

  function Requests(chain: seq<Ref>): nat {
    if chain == [] then 0
    else (if chain[0].raw.RunDoc? then chain[0].raw.requests else 0) + Requests(chain[1..])
  }

  /** Consecutive links meet, each run adds phases and drops none, and the oldest starts empty. */
  ghost predicate Conserved(chain: seq<Ref>, checkpoint: Checkpoint) {
    && (forall j :: 0 <= j < |chain| ==> chain[j].raw.RunDoc?)
    && (forall j :: 0 <= j < |chain| ==>
          && chain[j].raw.after == (if j == 0 then checkpoint else chain[j - 1].raw.before)
          && Extends(chain[j].raw.before, chain[j].raw.after)
          && |chain[j].raw.before| < |chain[j].raw.after|)
    && (if chain == [] then checkpoint else chain[|chain| - 1].raw.before) == map[]
    && Requests(chain) == |checkpoint|
  }

  lemma {:induction false} StoredRunIsDone(o: Objects, runs: seq<Claim>, b: Checkpoint)
    requires NamesOk(o, runs) && ChainOk(o, runs) && RunTerminal(b) in o
    ensures exists claim :: claim in runs && claim.before == b && DoneOk(o, claim, o[RunTerminal(b)])
  {
  }

  lemma RequestsCons(ref: Ref, rest: seq<Ref>)
    requires ref.raw.RunDoc?
    ensures Requests([ref] + rest) == ref.raw.requests + Requests(rest)
  {
    assert ([ref] + rest)[1..] == rest;
  }

  lemma ConservedCons(ref: Ref, rest: seq<Ref>, checkpoint: Checkpoint)
    requires ref.raw.RunDoc? && ref.raw.after == checkpoint && Conserved(rest, ref.raw.before)
    requires Extends(ref.raw.before, checkpoint)
    requires 1 <= ref.raw.requests == |checkpoint| - |ref.raw.before|
    ensures Conserved([ref] + rest, checkpoint)
  {
    hide Extends, Requests;
    var chain := [ref] + rest;
    RequestsCons(ref, rest);
    forall j | 0 <= j < |chain|
      ensures chain[j].raw.RunDoc? && |chain[j].raw.before| < |chain[j].raw.after|
      ensures Extends(chain[j].raw.before, chain[j].raw.after)
    {
      assert j > 0 ==> chain[j] == rest[j - 1];
    }
    forall j | 0 <= j < |chain|
      ensures chain[j].raw.after == (if j == 0 then checkpoint else chain[j - 1].raw.before)
    {
      if j > 0 {
        assert chain[j] == rest[j - 1];
        assert rest[j - 1].raw.after == (if j == 1 then ref.raw.before else rest[j - 2].raw.before);
      }
    }
  }

  lemma {:induction false} ChainConserves(o: Objects, runs: seq<Claim>, binding: Ref, reference: Option<Ref>,
                                          checkpoint: Checkpoint, visited: set<Name>, bound: nat)
    requires NamesOk(o, runs) && ChainOk(o, runs)
    requires ParentChain(o, binding, reference, checkpoint, visited, bound).Some?
    ensures Conserved(ParentChain(o, binding, reference, checkpoint, visited, bound).value, checkpoint)
    decreases bound - |visited|
  {
    match reference
    case None =>
    case Some(ref) =>
      hide Conserved, NamesOk, ChainOk, Extends;
      var rest := ParentChain(o, binding, ref.raw.parent, ref.raw.before, visited + {ref.name}, bound).value;
      ChainConserves(o, runs, binding, ref.raw.parent, ref.raw.before, visited + {ref.name}, bound);
      StoredRunIsDone(o, runs, ref.raw.before);
      ConservedCons(ref, rest, checkpoint);
  }

  /** Along any parent chain a channel accepts, the committed phase sets grow strictly from the
      empty genesis, after and before checkpoints meet, and the recorded requests add up to the
      number of phases committed at the tip. */
  lemma {:induction false} ChainConservation(keys: seq<Key>, events: seq<Event>, binding: Ref, parent: Option<Ref>,
                          checkpoint: Checkpoint, bound: nat)
    requires ParentChain(Run(keys, Initial, events).objects, binding, parent, checkpoint, {}, bound).Some?
    ensures Conserved(ParentChain(Run(keys, Initial, events).objects, binding, parent, checkpoint, {}, bound).value,
                      checkpoint)
  {
    hide ChannelOk, Run, Conserved, ParentChain;
    var s := Run(keys, Initial, events);
    Reached(keys, events);
    ChainConserves(s.objects, s.runs, binding, parent, checkpoint, {}, bound);
  }

  // --- The chain that finished runs leave is accepted ---

  lemma {:induction false} ManyRunsManyPhases(o: Objects, runs: seq<Claim>, k: nat)
    requires ChainOk(o, runs) && k < |runs|
    ensures |runs[k].before| >= k
  {
    if k > 0 {
      ManyRunsManyPhases(o, runs, k - 1);
      assert Linked(o, runs[k - 1], runs[k]);
      assert DoneOk(o, runs[k - 1], o[RunTerminal(runs[k - 1].before)]);
    }
  }

  lemma {:induction false} KeySetSize(keys: seq<Key>)
    ensures |set key | key in keys| <= |keys|
  {
    if keys != [] {
      var init, last := keys[..|keys| - 1], keys[|keys| - 1];
      KeySetSize(init);
      assert (set key | key in keys) == (set key | key in init) + {last};
    }
  }

  lemma RunsFitKeys(keys: seq<Key>, o: Objects, runs: seq<Claim>)
    requires ChainOk(o, runs) && TipOk(keys, o, runs) && runs != [] && !Open(o, runs)
    ensures |runs| <= |keys|
  {
    var n := |runs| - 1;
    ManyRunsManyPhases(o, runs, n);
    assert DoneOk(o, runs[n], o[RunTerminal(runs[n].before)]);
    var committed := Committed(keys, o);
    KeySetSize(keys);
    Sizes.SubsetSize(committed.Keys, set key | key in keys);
    assert |committed| == |committed.Keys|;
  }

  /** Names of the run terminals newer than run `k`. */
  ghost function Newer(runs: seq<Claim>, k: nat): set<Name> {
    set j | k < j < |runs| :: RunTerminal(runs[j].before)
  }

  lemma {:induction false} NewerSize(runs: seq<Claim>, k: nat)
    requires k < |runs|
    ensures |Newer(runs, k)| <= |runs| - 1 - k
    decreases |runs| - k
  {
    if k + 1 < |runs| {
      NewerSize(runs, k + 1);
      assert Newer(runs, k) == Newer(runs, k + 1) + {RunTerminal(runs[k + 1].before)};
    } else {
      assert Newer(runs, k) == {};
    }
  }

  lemma NewerBy(runs: seq<Claim>, k: nat)
    requires k < |runs|
    ensures k > 0 ==> Newer(runs, k - 1) == Newer(runs, k) + {RunTerminal(runs[k].before)}
  {
  }

  lemma NamedApart(o: Objects, runs: seq<Claim>, k: nat)
    requires NamesOk(o, runs) && k < |runs|
    ensures RunTerminal(runs[k].before) !in Newer(runs, k)
  {
  }

  lemma LinkAccepted(o: Objects, binding: Ref, ref: Ref, checkpoint: Checkpoint, visited: set<Name>, bound: nat)
    requires ref.name !in visited && |visited| < bound && Pinned(o, ref) && LinkShape(ref, binding, checkpoint)
    requires Pinned(o, ref.raw.ack) && ref.raw.ack.raw == ref.raw.dispatched
    requires match ref.raw.parent
             case None => ref.raw.before == map[]
             case Some(_) =>
               ParentChain(o, binding, ref.raw.parent, ref.raw.before, visited + {ref.name}, bound).Some?
    ensures ParentChain(o, binding, Some(ref), checkpoint, visited, bound).Some?
  {
  }

  lemma {:induction false} ParentAcceptedFrom(keys: seq<Key>, o: Objects, runs: seq<Claim>, k: nat)
    requires StoreOk(keys, o) && NamesOk(o, runs) && ChainOk(o, runs) && |runs| <= |keys|
    requires k < |runs| && RunTerminal(runs[k].before) in o && BindingName in o
    ensures var done := o[RunTerminal(runs[k].before)];
            && done.raw.RunDoc?
            && ParentChain(o, o[BindingName], Some(done), done.raw.after, Newer(runs, k), |keys|).Some?
  {
    hide NamesOk, Newer, ParentChain;
    var done := o[RunTerminal(runs[k].before)];
    assert DoneOk(o, runs[k], done);
    NewerSize(runs, k);
    NewerBy(runs, k);
    NamedApart(o, runs, k);
    assert done.name == RunTerminal(runs[k].before);
    if k > 0 {
      assert Linked(o, runs[k - 1], runs[k]);
      ParentAcceptedFrom(keys, o, runs, k - 1);
    }
    LinkAccepted(o, o[BindingName], done, done.raw.after, Newer(runs, k), |keys|);
  }

  /** Whatever happened before, once the last run has its run terminal `_parent` accepts that
      terminal: its visit bound and its cycle check refuse no chain the protocol can produce. */
  lemma {:induction false} ParentAccepted(keys: seq<Key>, events: seq<Event>)
    requires var s := Run(keys, Initial, events); s.runs != [] && !Open(s.objects, s.runs)
    ensures var s := Run(keys, Initial, events);
            var tip := RunTerminal(s.runs[|s.runs| - 1].before);
            && tip in s.objects && BindingName in s.objects && s.objects[tip].raw.RunDoc?
            && s.objects[tip].raw.after == Committed(keys, s.objects)
            && ParentChain(s.objects, s.objects[BindingName], Some(s.objects[tip]), Committed(keys, s.objects),
                           {}, |keys|).Some?
  {
    hide ChannelOk, Run, OwnerOk, LogOk;
    var s := Run(keys, Initial, events);
    Reached(keys, events);
    var n := |s.runs| - 1;
    assert DoneOk(s.objects, s.runs[n], s.objects[RunTerminal(s.runs[n].before)]);
    RunsFitKeys(keys, s.objects, s.runs);
    ParentAcceptedFrom(keys, s.objects, s.runs, n);
    assert Newer(s.runs, n) == {};
  }
}
