/** Every event keeps the invariant: the steps that change the store, and the whole run. */
module ChannelSteps {
  import opened Outcomes
  import opened ChannelModel
  import opened ChannelInvariant

  /** A channel that does not own the open run keeps its facts when the store grows. */
  lemma OthersKeep(keys: seq<Key>, o: Objects, o': Objects, runs: seq<Claim>, runs': seq<Claim>, log: seq<Key>,
                   j: nat, channel: Channel)
    requires ChannelOk(keys, o, runs, log, j, channel) && Grows(o, o') && !OwnsRun(o, runs, j, channel.dispatch)
    ensures ChannelOk(keys, o', runs', log, j, channel)
  {
  }

  // --- The external authority stores a binding or an acknowledgement ---

  predicate External(name: Name) {
    name.BindingName? || name.AckName?
  }

  lemma ActiveGrows(keys: seq<Key>, o: Objects, o': Objects, runs: seq<Claim>, i: nat, d: Dispatch, sent: seq<Key>)
    requires Active(keys, o, runs, i, d, sent) && Grows(o, o')
    requires forall b :: RunTerminal(b) in o' ==> RunTerminal(b) in o
    ensures Active(keys, o', runs, i, d, sent)
  {
  }

  lemma {:induction false} PublishKeepsChannel(keys: seq<Key>, o: Objects, ref: Ref, runs: seq<Claim>, log: seq<Key>,
                                               j: nat, channel: Channel)
    requires ChannelOk(keys, o, runs, log, j, channel) && External(ref.name) && ref.name !in o
    ensures ChannelOk(keys, o[ref.name := ref], runs, log, j, channel)
  {
    var o' := o[ref.name := ref];
    if !OwnsRun(o, runs, j, channel.dispatch) {
      OthersKeep(keys, o, o', runs, runs, log, j, channel);
    } else {
      hide Active;
      assert Committed(keys, o') == Committed(keys, o);
      if Active(keys, o, runs, j, channel.dispatch, channel.sent) {
        ActiveGrows(keys, o, o', runs, j, channel.dispatch, channel.sent);
      }
    }
  }

  lemma PublishKeeps(keys: seq<Key>, s: State, ref: Ref)
    requires Inv(keys, s) && External(ref.name) && ref.name !in s.objects
    ensures Inv(keys, s.(objects := s.objects[ref.name := ref]))
  {
    hide ChannelOk, NamesOk, ChainOk, TipOk, OwnerOk, StoreOk, LogOk;
    var o, o' := s.objects, s.objects[ref.name := ref];
    StoreGrows(keys, o, ref);
    NamesStay(o, ref, s.runs);
    ChainGrows(o, o', s.runs);
    TipStays(keys, o, ref, s.runs);
    OwnerStays(o, ref, s.runs, s.channels);
    LogGrows(o, o', s.log);
    forall j | 0 <= j < |s.channels| ensures ChannelOk(keys, o', s.runs, s.log, j, s.channels[j]) {
      PublishKeepsChannel(keys, o, ref, s.runs, s.log, j, s.channels[j]);
    }
  }

  // --- The parts of the invariant when one object is added ---

  lemma StoreGrows(keys: seq<Key>, o: Objects, ref: Ref)
    requires StoreOk(keys, o) && ref.name !in o
    requires ref.name.PhaseIntent? ==> ref.name.key in keys
    requires ref.name.PhaseTerminal? ==> PhaseIntent(ref.name.key) in o
    ensures StoreOk(keys, o[ref.name := ref])
  {
  }

  lemma NamesStay(o: Objects, ref: Ref, runs: seq<Claim>)
    requires NamesOk(o, runs) && !ref.name.RunIntent? && (ref.name.RunTerminal? ==> Claimed(runs, ref.name.before))
    ensures NamesOk(o[ref.name := ref], runs)
  {
  }

  lemma {:induction false} TipStays(keys: seq<Key>, o: Objects, ref: Ref, runs: seq<Claim>)
    requires TipOk(keys, o, runs) && External(ref.name) && ref.name !in o
    ensures TipOk(keys, o[ref.name := ref], runs)
  {
    assert Committed(keys, o[ref.name := ref]) == Committed(keys, o);
  }

  lemma OwnerStays(o: Objects, ref: Ref, runs: seq<Claim>, channels: seq<Channel>)
    requires OwnerOk(o, runs, channels) && !ref.name.RunTerminal? && !ref.name.PhaseIntent?
    ensures OwnerOk(o[ref.name := ref], runs, channels)
  {
  }

  lemma LogGrows(o: Objects, o': Objects, log: seq<Key>)
    requires LogOk(o, log) && Grows(o, o')
    ensures LogOk(o', log)
  {
  }

  /** The chain of runs stays when the store grows by anything but a run terminal. */
  lemma {:induction false} ChainGrows(o: Objects, o': Objects, runs: seq<Claim>)
    requires ChainOk(o, runs) && Grows(o, o')
    requires forall b :: RunTerminal(b) in o' ==> RunTerminal(b) in o
    ensures ChainOk(o', runs)
  {
  }

  // --- The store takes a claim ---

  /** A claim the store can still take starts where the last run ended, and no run is open. */
  lemma {:induction false} ClaimFollowsLast(o: Objects, runs: seq<Claim>, d: Dispatch)
    requires NamesOk(o, runs) && ChainOk(o, runs) && Justified(o, d) && RunIntent(d.before) !in o
    ensures !Open(o, runs)
    ensures if runs == [] then d.before == map[] && d.parent == None
            else && d.parent == Some(o[RunTerminal(runs[|runs| - 1].before)])
                 && o[RunTerminal(runs[|runs| - 1].before)].raw.RunDoc?
                 && d.before == o[RunTerminal(runs[|runs| - 1].before)].raw.after
  {
    assert !Claimed(runs, d.before);
    match d.parent
    case None =>
      FirstIsGenesis(o, runs);
    case Some(ref) =>
      var b := ref.raw.before;
      assert Claimed(runs, b);
      var k :| 0 <= k < |runs| && runs[k].before == b;
      assert k == |runs| - 1 by {
        if k + 1 < |runs| {
          NextIsClaimed(o, runs, k);
          assert false;
        }
      }
  }

  lemma {:induction false} FirstIsGenesis(o: Objects, runs: seq<Claim>)
    requires ChainOk(o, runs)
    ensures runs != [] ==> Claimed(runs, map[])
  {
  }

  lemma NextIsClaimed(o: Objects, runs: seq<Claim>, k: nat)
    requires ChainOk(o, runs) && k + 1 < |runs|
    ensures RunTerminal(runs[k].before) in o && o[RunTerminal(runs[k].before)].raw.RunDoc?
    ensures Claimed(runs, o[RunTerminal(runs[k].before)].raw.after)
  {
    assert Linked(o, runs[k], runs[k + 1]);
  }

  lemma ClaimedAppend(runs: seq<Claim>, claim: Claim, b: Checkpoint)
    ensures Claimed(runs + [claim], b) <==> Claimed(runs, b) || b == claim.before
  {
    var runs' := runs + [claim];
    if b == claim.before {
      assert runs'[|runs|].before == b;
    } else if Claimed(runs, b) {
      var k :| 0 <= k < |runs| && runs[k].before == b;
      assert runs'[k].before == b;
    }
  }

  lemma ClaimKeepsNames(o: Objects, runs: seq<Claim>, claim: Claim, ref: Ref)
    requires NamesOk(o, runs) && RunIntent(claim.before) !in o
    ensures NamesOk(o[RunIntent(claim.before) := ref], runs + [claim])
    ensures RunTerminal(claim.before) !in o
  {
    var runs' := runs + [claim];
    forall b ensures Claimed(runs', b) <==> Claimed(runs, b) || b == claim.before {
      ClaimedAppend(runs, claim, b);
    }
    forall k, l | 0 <= k < l < |runs'| ensures runs'[k].before != runs'[l].before {
      if l == |runs| {
        assert Claimed(runs, runs[k].before);
      }
    }
  }

  lemma {:induction false} ClaimKeepsChain(o: Objects, runs: seq<Claim>, claim: Claim, ref: Ref)
    requires NamesOk(o, runs) && ChainOk(o, runs) && RunIntent(claim.before) !in o
    requires if runs == [] then claim.before == map[] && claim.parent == None
             else Linked(o, runs[|runs| - 1], claim)
    ensures ChainOk(o[RunIntent(claim.before) := ref], runs + [claim])
  {
    var o', runs' := o[RunIntent(claim.before) := ref], runs + [claim];
    ChainGrows(o, o', runs);
    ClaimKeepsNames(o, runs, claim, ref);
    forall k | 0 < k < |runs'| ensures Linked(o', runs'[k - 1], runs'[k]) {
      if k < |runs| {
        assert Linked(o', runs[k - 1], runs[k]);
      }
    }
    forall k | 0 <= k < |runs'| && RunTerminal(runs'[k].before) in o'
      ensures DoneOk(o', runs'[k], o'[RunTerminal(runs'[k].before)])
    {
      assert runs'[k] == if k < |runs| then runs[k] else claim;
    }
  }

  lemma {:induction false} ClaimKeepsTip(keys: seq<Key>, o: Objects, runs: seq<Claim>, claim: Claim, ref: Ref)
    requires NamesOk(o, runs) && TipOk(keys, o, runs) && !Open(o, runs) && RunIntent(claim.before) !in o
    requires if runs == [] then claim.before == map[]
             else && o[RunTerminal(runs[|runs| - 1].before)].raw.RunDoc?
                  && claim.before == o[RunTerminal(runs[|runs| - 1].before)].raw.after
    ensures TipOk(keys, o[RunIntent(claim.before) := ref], runs + [claim])
    ensures Open(o[RunIntent(claim.before) := ref], runs + [claim])
    ensures forall key :: PhaseIntent(key) in o ==> PhaseTerminal(key) in o && (key in keys ==> key in claim.before)
  {
  }

  lemma ClaimFacts(keys: seq<Key>, o: Objects, runs: seq<Claim>, log: seq<Key>, i: nat, channel: Channel)
    requires ChannelOk(keys, o, runs, log, i, channel) && channel.pc.Claiming?
    ensures channel.pending.Some? && channel.pending.value.name == RunIntent(channel.dispatch.before)
    ensures Justified(o, channel.dispatch)
  {
  }

  lemma ClaimKeepsClaimer(keys: seq<Key>, o: Objects, runs: seq<Claim>, o': Objects, runs': seq<Claim>,
                          log: seq<Key>, i: nat, channel: Channel, ref: Ref)
    requires ChannelOk(keys, o, runs, log, i, channel) && channel.pc.Claiming? && Grows(o, o') && Open(o', runs')
    requires runs' != [] && runs'[|runs'| - 1] == Claim(channel.dispatch.before, i, channel.dispatch.parent)
    requires ref.name == channel.pending.value.name && ref.raw == channel.pending.value.raw && Pinned(o', ref)
    ensures ChannelOk(keys, o', runs', log, i, channel.(pending := Some(channel.pending.value.(applied := Some(ref)))))
  {
  }

  lemma ClaimKeepsOwner(keys: seq<Key>, o: Objects, runs: seq<Claim>, channels: seq<Channel>)
    requires Open(o, runs) && KeysKnown(keys, o)
    requires var last := runs[|runs| - 1];
             && last.owner < |channels| && OwnsRun(o, runs, last.owner, channels[last.owner].dispatch)
             && forall key :: PhaseIntent(key) in o && key in keys ==> key in last.before
    ensures OwnerOk(o, runs, channels)
  {
  }

  lemma ClaimKeeps(keys: seq<Key>, s: State, i: nat, generation: nat)
    requires Inv(keys, s) && i < |s.channels| && s.channels[i].pc.Claiming? && s.channels[i].pending.Some?
    requires s.channels[i].pending.value.applied.None? && s.channels[i].pending.value.name !in s.objects
    ensures Inv(keys, TakeRequest(s, i, generation))
  {
    hide ChannelOk, NamesOk, ChainOk, TipOk, OwnerOk, LogOk, Justified, Quiet, Committed, Claimed;
    hide Active, Pends, SeenOk, LookOk, ExactScan, Linked, Extends, LinkShape, AckOk;
    var channel, s' := s.channels[i], TakeRequest(s, i, generation);
    var o, o', claim := s.objects, s'.objects, Claim(channel.dispatch.before, i, channel.dispatch.parent);
    var ref := Ref(channel.pending.value.name, generation, channel.pending.value.raw);
    ClaimFacts(keys, o, s.runs, s.log, i, channel);
    ClaimFollowsLast(o, s.runs, channel.dispatch);
    ClaimKeepsNames(o, s.runs, claim, ref);
    ClaimKeepsChain(o, s.runs, claim, ref);
    ClaimKeepsTip(keys, o, s.runs, claim, ref);
    ClaimKeepsOwner(keys, o', s'.runs, s'.channels);
    ClaimKeepsClaimer(keys, o, s.runs, o', s'.runs, s.log, i, channel, ref);
    LogGrows(o, o', s.log);
    forall j | 0 <= j < |s.channels| ensures ChannelOk(keys, o', s'.runs, s'.log, j, s'.channels[j]) {
      if j != i {
        OthersKeep(keys, o, o', s.runs, s'.runs, s.log, j, s.channels[j]);
      }
    }
  }

  // --- The store takes a phase object of the open run ---

  predicate OfPhase(name: Name) {
    name.PhaseIntent? || name.PhaseTerminal? || name.PhaseFile?
  }

  lemma {:induction false} PhaseKeepsTip(keys: seq<Key>, o: Objects, runs: seq<Claim>, name: Name, ref: Ref)
    requires TipOk(keys, o, runs) && Open(o, runs) && OfPhase(name) && name !in o
    ensures TipOk(keys, o[name := ref], runs)
  {
    assert Extends(Committed(keys, o), Committed(keys, o[name := ref]));
  }

  lemma {:induction false} PhaseKeepsWriter(keys: seq<Key>, o: Objects, runs: seq<Claim>, log: seq<Key>, i: nat,
                                            channel: Channel, ref: Ref)
    requires ChannelOk(keys, o, runs, log, i, channel) && channel.pending.Some? && OfPhase(channel.pending.value.name)
    requires channel.pending.value.applied.None? && channel.pending.value.name !in o
    requires ref.name == channel.pending.value.name && ref.raw == channel.pending.value.raw
    requires TipOk(keys, o, runs) && KeysKnown(keys, o) && LogOk(o, log)
    ensures ChannelOk(keys, o[ref.name := ref], runs, log, i,
                      channel.(pending := Some(channel.pending.value.(applied := Some(ref)))))
  {
  }

  lemma PhaseKeepsOwner(o: Objects, runs: seq<Claim>, channels: seq<Channel>, i: nat, ref: Ref, next: Channel)
    requires OwnerOk(o, runs, channels) && i < |channels| && OwnsRun(o, runs, i, channels[i].dispatch)
             && OfPhase(ref.name)
    requires next.dispatch == channels[i].dispatch && next.sent == channels[i].sent && next.pc == channels[i].pc
    requires Applied(next) && (ref.name.PhaseIntent? ==> next.pc == Intending(ref.name.key))
    ensures OwnerOk(o[ref.name := ref], runs, channels[i := next])
  {
  }

  lemma PhaseFacts(keys: seq<Key>, o: Objects, runs: seq<Claim>, log: seq<Key>, i: nat, channel: Channel)
    requires ChannelOk(keys, o, runs, log, i, channel)
    requires channel.pending.Some? && OfPhase(channel.pending.value.name)
    ensures OwnsRun(o, runs, i, channel.dispatch)
    ensures channel.pending.value.name.PhaseIntent? ==>
              channel.pc == Intending(channel.pending.value.name.key) && channel.pending.value.name.key in keys
    ensures channel.pending.value.name.PhaseTerminal? ==> PhaseIntent(channel.pending.value.name.key) in o
  {
  }

  lemma PhaseKeeps(keys: seq<Key>, s: State, i: nat, generation: nat)
    requires Inv(keys, s) && i < |s.channels| && s.channels[i].pending.Some?
    requires OfPhase(s.channels[i].pending.value.name)
    requires s.channels[i].pending.value.applied.None? && s.channels[i].pending.value.name !in s.objects
    ensures Inv(keys, TakeRequest(s, i, generation))
  {
    hide ChannelOk, NamesOk, ChainOk, TipOk, OwnerOk, LogOk;
    var s', channel := TakeRequest(s, i, generation), s.channels[i];
    var name, o, o' := channel.pending.value.name, s.objects, s'.objects;
    var ref := Ref(name, generation, channel.pending.value.raw);
    PhaseFacts(keys, o, s.runs, s.log, i, channel);
    StoreGrows(keys, o, ref);
    NamesStay(o, ref, s.runs);
    ChainGrows(o, o', s.runs);
    PhaseKeepsTip(keys, o, s.runs, name, ref);
    PhaseKeepsOwner(o, s.runs, s.channels, i, ref, s'.channels[i]);
    LogGrows(o, o', s.log);
    PhaseKeepsWriter(keys, o, s.runs, s.log, i, channel, ref);
    forall j | 0 <= j < |s.channels| ensures ChannelOk(keys, o', s'.runs, s'.log, j, s'.channels[j]) {
      if j != i {
        OthersKeep(keys, o, o', s.runs, s'.runs, s.log, j, s.channels[j]);
      }
    }
  }

  // --- The store takes a run terminal ---

  lemma {:induction false} SetOfDistinct(s: seq<Key>)
    requires Distinct(s)
    ensures |set key | key in s| == |s|
  {
    if s != [] {
      var init, last := s[..|s| - 1], s[|s| - 1];
      SetOfDistinct(init);
      assert (set key | key in s) == (set key | key in init) + {last};
    }
  }

  lemma UnionSize(whole: set<Key>, left: set<Key>, right: set<Key>)
    requires whole == left + right && left !! right
    ensures |whole| == |left| + |right|
  {
  }

  /** The run committed exactly the phases it sent, and none that was committed before it. */
  lemma {:induction false} RunCommitsWhatItSent(keys: seq<Key>, o: Objects, before: Checkpoint, sent: seq<Key>)
    requires KeysKnown(keys, o) && Quiet(o) && Distinct(sent) && Extends(before, Committed(keys, o))
    requires forall key :: key in sent ==> PhaseIntent(key) in o && key !in before
    requires forall key :: PhaseIntent(key) in o ==> key in before || key in sent
    ensures Committed(keys, o).Keys == before.Keys + (set key | key in sent)
    ensures |Committed(keys, o)| == |before| + |sent|
  {
    var after := Committed(keys, o);
    var sentSet := set key | key in sent;
    SetOfDistinct(sent);
    forall key ensures key in after.Keys <==> key in before.Keys + sentSet {
      if key in after {
        assert PhaseIntent(key) in o;
      }
    }
    UnionSize(after.Keys, before.Keys, sentSet);
    assert |after| == |after.Keys| && |before| == |before.Keys|;
  }

  lemma {:induction false} FinishKeepsChain(o: Objects, runs: seq<Claim>, ref: Ref)
    requires NamesOk(o, runs) && ChainOk(o, runs) && Open(o, runs)
    requires ref.name == RunTerminal(runs[|runs| - 1].before)
    requires DoneOk(o, runs[|runs| - 1], ref)
    ensures ChainOk(o[ref.name := ref], runs)
  {
    var o' := o[ref.name := ref];
    forall k | 0 < k < |runs| ensures Linked(o', runs[k - 1], runs[k]) {
      assert Linked(o, runs[k - 1], runs[k]);
    }
    forall k | 0 <= k < |runs| && RunTerminal(runs[k].before) in o'
      ensures DoneOk(o', runs[k], o'[RunTerminal(runs[k].before)])
    {
      if k == |runs| - 1 {
        assert o'[RunTerminal(runs[k].before)] == ref;
      } else {
        assert runs[k].before != runs[|runs| - 1].before;
        assert DoneOk(o, runs[k], o[RunTerminal(runs[k].before)]);
      }
    }
  }

  lemma FinishFacts(keys: seq<Key>, o: Objects, runs: seq<Claim>, log: seq<Key>, i: nat, channel: Channel)
    requires ChannelOk(keys, o, runs, log, i, channel) && channel.pc.Finishing? && !Applied(channel)
    ensures Active(keys, o, runs, i, channel.dispatch, channel.sent) && channel.sent != [] && Quiet(o)
            && channel.dispatch.Valid()
    ensures channel.pending.Some? && channel.pending.value.name == RunTerminal(channel.dispatch.before)
    ensures channel.pending.value.raw == RunDocument(channel, Committed(keys, o))
    ensures channel.pending.value.raw.RunDoc? && channel.pending.value.raw.after == Committed(keys, o)
  {
  }

  lemma OwnerKnows(o: Objects, runs: seq<Claim>, channels: seq<Channel>, i: nat)
    requires OwnerOk(o, runs, channels) && i < |channels| && OwnsRun(o, runs, i, channels[i].dispatch)
    requires channels[i].pc.Finishing?
    ensures forall key :: PhaseIntent(key) in o ==> key in channels[i].dispatch.before || key in channels[i].sent
  {
  }

  lemma FinishDocumentOk(keys: seq<Key>, o: Objects, runs: seq<Claim>, i: nat, channel: Channel, ref: Ref)
    requires KeysKnown(keys, o) && TipOk(keys, o, runs) && Quiet(o)
    requires Active(keys, o, runs, i, channel.dispatch, channel.sent) && channel.sent != [] && channel.dispatch.Valid()
    requires forall key :: PhaseIntent(key) in o ==> key in channel.dispatch.before || key in channel.sent
    requires ref.raw == RunDocument(channel, Committed(keys, o))
    ensures DoneOk(o, runs[|runs| - 1], ref)
  {
    RunCommitsWhatItSent(keys, o, channel.dispatch.before, channel.sent);
  }

  lemma {:induction false} FinishKeepsTip(keys: seq<Key>, o: Objects, runs: seq<Claim>, ref: Ref)
    requires runs != [] && ref.name == RunTerminal(runs[|runs| - 1].before) && Quiet(o)
    requires ref.raw.RunDoc? && ref.raw.after == Committed(keys, o)
    ensures TipOk(keys, o[ref.name := ref], runs)
  {
    assert Committed(keys, o[ref.name := ref]) == Committed(keys, o);
  }

  lemma LastIsClaimed(runs: seq<Claim>)
    ensures runs != [] ==> Claimed(runs, runs[|runs| - 1].before)
  {
  }

  lemma ClosedHasNoOwner(o: Objects, runs: seq<Claim>, channels: seq<Channel>)
    requires !Open(o, runs)
    ensures OwnerOk(o, runs, channels)
  {
  }

  lemma FinishKeepsWriter(keys: seq<Key>, o: Objects, runs: seq<Claim>, o': Objects, log: seq<Key>, i: nat,
                          channel: Channel, ref: Ref)
    requires ChannelOk(keys, o, runs, log, i, channel) && channel.pc.Finishing? && !Applied(channel) && Grows(o, o')
    requires ref.name == channel.pending.value.name && ref.raw == channel.pending.value.raw && Pinned(o', ref)
    ensures ChannelOk(keys, o', runs, log, i, channel.(pending := Some(channel.pending.value.(applied := Some(ref)))))
  {
  }

  lemma FinishKeepsStore(keys: seq<Key>, o: Objects, b: Checkpoint, ref: Ref)
    requires StoreOk(keys, o) && ref.name == RunTerminal(b)
    ensures StoreOk(keys, o[ref.name := ref]) && KeysKnown(keys, o)
  {
  }

  lemma FinishKeeps(keys: seq<Key>, s: State, i: nat, generation: nat)
    requires Inv(keys, s) && i < |s.channels| && s.channels[i].pc.Finishing? && s.channels[i].pending.Some?
    requires !Applied(s.channels[i]) && s.channels[i].pending.value.name !in s.objects
    ensures Inv(keys, TakeRequest(s, i, generation))
  {
    hide ChannelOk, NamesOk, ChainOk, TipOk, LogOk, DoneOk, SentOk, AckOk, OwnerOk;
    hide Claimed, Quiet, Committed, RunDocument, Active, Pends, Justified, SeenOk, LookOk, ExactScan, Linked, Extends;
    hide Grows, Pinned, InHand, PublishedOk, HoldsIntent, LinkShape, StoreOk;
    var s', channel := TakeRequest(s, i, generation), s.channels[i];
    var o, o', runs := s.objects, s'.objects, s.runs;
    var ref := Ref(channel.pending.value.name, generation, channel.pending.value.raw);
    FinishFacts(keys, o, runs, s.log, i, channel);
    FinishKeepsStore(keys, o, channel.dispatch.before, ref);
    OwnerKnows(o, runs, s.channels, i);
    FinishDocumentOk(keys, o, runs, i, channel, ref);
    FinishKeepsChain(o, runs, ref);
    FinishKeepsTip(keys, o, runs, ref);
    LastIsClaimed(runs);
    NamesStay(o, ref, runs);
    LogGrows(o, o', s.log);
    assert OwnerOk(o', runs, s'.channels) by { ClosedHasNoOwner(o', runs, s'.channels); }
    FinishKeepsWriter(keys, o, runs, o', s.log, i, channel, ref);
    forall j | 0 <= j < |s.channels| ensures ChannelOk(keys, o', s'.runs, s'.log, j, s'.channels[j]) {
      if j != i {
        OthersKeep(keys, o, o', s.runs, s'.runs, s.log, j, s.channels[j]);
      }
    }
  }

  lemma TakeRequestKeeps(keys: seq<Key>, s: State, i: nat, generation: nat)
    requires Inv(keys, s) && i < |s.channels|
    ensures Inv(keys, TakeRequest(s, i, generation))
  {
    var channel := s.channels[i];
    if channel.pending.Some? && channel.pending.value.applied.None? && channel.pending.value.name !in s.objects {
      assert ChannelOk(keys, s.objects, s.runs, s.log, i, channel);
      match channel.pc
      case Claiming => ClaimKeeps(keys, s, i, generation);
      case Finishing => FinishKeeps(keys, s, i, generation);
      case _ => PhaseKeeps(keys, s, i, generation);
    }
  }

  // --- The other events ---

  lemma ReactStepKeeps(keys: seq<Key>, s: State, i: nat, e: Event)
    requires Inv(keys, s) && i < |s.channels|
    ensures Inv(keys, Update(s, i, React(keys, s.objects, s.channels[i], e)))
  {
    hide ChannelOk, NamesOk, ChainOk, TipOk, OwnerOk, StoreOk, LogOk, React;
    var next := React(keys, s.objects, s.channels[i], e);
    ReactKeeps(keys, s.objects, s.runs, s.log, i, s.channels[i], e);
    ReactKeepsDispatch(keys, s.objects, s.channels[i], e);
    forall key | InHand(s.channels[i], key) ensures InHand(next, key) {
      ReactKeepsHand(keys, s.objects, s.runs, s.log, i, s.channels[i], e, key);
    }
    OwnerUpdated(s.objects, s.runs, s.channels, i, next);
  }

  lemma SendKeepsSender(keys: seq<Key>, o: Objects, runs: seq<Claim>, log: seq<Key>, i: nat, channel: Channel)
    requires ChannelOk(keys, o, runs, log, i, channel) && channel.pc.Holding? && LogOk(o, log)
    ensures OwnsRun(o, runs, i, channel.dispatch) && LogOk(o, log + [channel.pc.key])
    ensures ChannelOk(keys, o, runs, log + [channel.pc.key], i,
                      channel.(pc := InFlight(channel.pc.key, channel.pc.intent)))
    ensures forall key :: InHand(channel, key) ==>
              InHand(channel.(pc := InFlight(channel.pc.key, channel.pc.intent)), key)
  {
  }

  lemma OthersIgnoreLog(keys: seq<Key>, o: Objects, runs: seq<Claim>, log: seq<Key>, log': seq<Key>, j: nat,
                        channel: Channel)
    requires ChannelOk(keys, o, runs, log, j, channel) && !OwnsRun(o, runs, j, channel.dispatch)
    ensures ChannelOk(keys, o, runs, log', j, channel)
  {
  }

  lemma SendKeeps(keys: seq<Key>, s: State, i: nat)
    requires Inv(keys, s)
    ensures Inv(keys, Step(keys, s, Send(i)))
  {
    hide ChannelOk, NamesOk, ChainOk, TipOk, OwnerOk, StoreOk, LogOk, InHand;
    if i < |s.channels| && s.channels[i].alive && s.channels[i].pc.Holding? {
      var s', pc := Step(keys, s, Send(i)), s.channels[i].pc;
      SendKeepsSender(keys, s.objects, s.runs, s.log, i, s.channels[i]);
      OwnerUpdated(s.objects, s.runs, s.channels, i, s'.channels[i]);
      forall j | 0 <= j < |s.channels| ensures ChannelOk(keys, s'.objects, s'.runs, s'.log, j, s'.channels[j]) {
        if j != i {
          OthersIgnoreLog(keys, s.objects, s.runs, s.log, s'.log, j, s.channels[j]);
        }
      }
    }
  }

  lemma {:induction false} BuildKeeps(keys: seq<Key>, s: State, dispatch: Dispatch)
    requires Inv(keys, s)
    ensures Inv(keys, Step(keys, s, Build(dispatch)))
  {
    hide NamesOk, ChainOk, TipOk, StoreOk, LogOk;
  }

  lemma RefuseKeeps(keys: seq<Key>, o: Objects, runs: seq<Claim>, log: seq<Key>, i: nat, channel: Channel)
    requires ChannelOk(keys, o, runs, log, i, channel)
    ensures ChannelOk(keys, o, runs, log, i, Refuse(channel))
  {
  }

  lemma OwnerUpdated(o: Objects, runs: seq<Claim>, channels: seq<Channel>, i: nat, next: Channel)
    requires OwnerOk(o, runs, channels) && i < |channels| && next.dispatch == channels[i].dispatch
    requires forall key :: InHand(channels[i], key) ==> InHand(next, key)
    ensures OwnerOk(o, runs, channels[i := next])
  {
  }

  lemma CrashKeeps(keys: seq<Key>, s: State, i: nat)
    requires Inv(keys, s)
    ensures Inv(keys, Step(keys, s, Crash(i)))
  {
    hide ChannelOk, NamesOk, ChainOk, TipOk, OwnerOk, StoreOk, LogOk;
    if i < |s.channels| {
      OwnerUpdated(s.objects, s.runs, s.channels, i, Refuse(s.channels[i]));
      RefuseKeeps(keys, s.objects, s.runs, s.log, i, s.channels[i]);
    }
  }

  lemma {:induction false} StepKeeps(keys: seq<Key>, s: State, e: Event)
    requires Inv(keys, s)
    ensures Inv(keys, Step(keys, s, e))
  {
    hide ChannelOk, NamesOk, ChainOk, TipOk, OwnerOk, StoreOk, LogOk;
    match e
    case Publish(ref) =>
      if External(ref.name) && ref.name !in s.objects { PublishKeeps(keys, s, ref); }
    case Build(dispatch) => BuildKeeps(keys, s, dispatch);
    case Apply(i, generation) =>
      if i < |s.channels| { TakeRequestKeeps(keys, s, i, generation); }
    case Send(i) => SendKeeps(keys, s, i);
    case Crash(i) => CrashKeeps(keys, s, i);
    case _ =>
      if e.i < |s.channels| && s.channels[e.i].alive { ReactStepKeeps(keys, s, e.i, e); }
  }

  lemma {:induction false} RunKeeps(keys: seq<Key>, s: State, events: seq<Event>)
    requires Inv(keys, s)
    ensures Inv(keys, Run(keys, s, events))
    decreases |events|
  {
    if events != [] {
      StepKeeps(keys, s, events[0]);
      RunKeeps(keys, Step(keys, s, events[0]), events[1..]);
    }
  }

  /** Every reachable state, for every interleaving, loss and crash. */
  lemma {:induction false} Reached(keys: seq<Key>, events: seq<Event>)
    ensures Inv(keys, Run(keys, Initial, events))
  {
    RunKeeps(keys, Initial, events);
  }
}
