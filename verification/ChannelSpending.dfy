/** The budget over the life of a namespace: what an honest `begin` has to read never becomes less. */
module ChannelSpending {
  import opened Outcomes
  import opened ChannelModel
  import opened ChannelInvariant
  import opened ChannelSteps
  import opened ChannelTheorems
  import opened ChannelBudget
  import opened ChannelObject
  import opened ChannelAdmission

  // --- Nothing is forgotten ---

  lemma {:induction false} HistoryGrows(keys: seq<Key>, s: State, events: seq<Event>)
    ensures Grows(s.objects, Run(keys, s, events).objects) && s.runs <= Run(keys, s, events).runs
    decreases |events|
  {
    hide Step;
    if events != [] {
      StepGrows(keys, s, events[0]);
      HistoryGrows(keys, Step(keys, s, events[0]), events[1..]);
    }
  }

  lemma StepGrows(keys: seq<Key>, s: State, e: Event)
    ensures Grows(s.objects, Step(keys, s, e).objects) && s.runs <= Step(keys, s, e).runs
  {
    hide React, Refuse, Dispatch.Valid;
  }

  // --- The chain of a closed namespace ---

  /** The run terminals up to run `k`, newest first. */
  function Dones(o: Objects, runs: seq<Claim>, k: nat): seq<Ref>
    requires k < |runs|
  {
    Last(o, RunTerminal(runs[k].before)) + if k == 0 then [] else Dones(o, runs, k - 1)
  }

  function Last(o: Objects, name: Name): seq<Ref> {
    if name in o then [o[name]] else []
  }

  ghost predicate Closed(keys: seq<Key>, o: Objects, runs: seq<Claim>) {
    StoreOk(keys, o) && NamesOk(o, runs) && ChainOk(o, runs) && |runs| <= |keys| && BindingName in o
  }

  /** What `_parent` visits from run `k` on are the terminals of all runs so far. */
  lemma {:induction false} ChainIs(keys: seq<Key>, o: Objects, runs: seq<Claim>, k: nat)
    requires Closed(keys, o, runs) && k < |runs| && RunTerminal(runs[k].before) in o
    ensures var done := o[RunTerminal(runs[k].before)];
            && done.raw.RunDoc?
            && ParentChain(o, o[BindingName], Some(done), done.raw.after, Newer(runs, k), |keys|)
               == Some(Dones(o, runs, k))
  {
    hide NamesOk, ParentChain;
    var done := o[RunTerminal(runs[k].before)];
    ParentAcceptedFrom(keys, o, runs, k);
    FirstLink(o, o[BindingName], done, Newer(runs, k), |keys|);
    assert DoneOk(o, runs[k], done);
    if k > 0 {
      assert Linked(o, runs[k - 1], runs[k]);
      ChainIs(keys, o, runs, k - 1);
      assert done.name == RunTerminal(runs[k].before);
      assert Newer(runs, k - 1) == Newer(runs, k) + {done.name};
    } else {
      LastLink(o, o[BindingName], map[], Newer(runs, 0) + {done.name}, |keys|);
    }
  }

  lemma FirstLink(o: Objects, binding: Ref, ref: Ref, visited: set<Name>, bound: nat)
    requires ref.raw.RunDoc? && ParentChain(o, binding, Some(ref), ref.raw.after, visited, bound).Some?
    ensures var rest := ParentChain(o, binding, ref.raw.parent, ref.raw.before, visited + {ref.name}, bound);
            && |visited| < bound && rest.Some?
            && ParentChain(o, binding, Some(ref), ref.raw.after, visited, bound) == Some([ref] + rest.value)
  {
  }

  lemma {:induction false} DonesTouch(keys: seq<Key>, o: Objects, runs: seq<Claim>, k: nat, n: nat)
    requires Closed(keys, o, runs) && k <= n < |runs| && RunTerminal(runs[n].before) in o
    ensures Grows(ChainTouch(Dones(o, runs, k)), ChainTouch(Dones(o, runs, n)))
    ensures Grows(ChainTouch(Dones(o, runs, n)), o)
    decreases n
  {
    hide StoreOk, NamesOk, ChainOk, ParentChain, ChainTouch;
    ChainIs(keys, o, runs, n);
    var done := o[RunTerminal(runs[n].before)];
    ChainTouchIn(o, o[BindingName], Some(done), done.raw.after, Newer(runs, n), |keys|);
    if k < n {
      TerminalBefore(keys, o, runs, n);
      DonesTouch(keys, o, runs, k, n - 1);
      ChainTouchCons(done, Dones(o, runs, n - 1));
      LinkIn(keys, o, runs, n);
      Both(LinkTouch(done), ChainTouch(Dones(o, runs, n - 1)), o);
    }
  }

  lemma TerminalBefore(keys: seq<Key>, o: Objects, runs: seq<Claim>, n: nat)
    requires Closed(keys, o, runs) && 0 < n < |runs|
    ensures RunTerminal(runs[n - 1].before) in o
  {
    assert Linked(o, runs[n - 1], runs[n]);
  }

  lemma LinkIn(keys: seq<Key>, o: Objects, runs: seq<Claim>, n: nat)
    requires Closed(keys, o, runs) && n < |runs| && RunTerminal(runs[n].before) in o
    ensures Grows(LinkTouch(o[RunTerminal(runs[n].before)]), o)
  {
    assert DoneOk(o, runs[n], o[RunTerminal(runs[n].before)]);
  }

  lemma SameLast(o: Objects, o': Objects, name: Name)
    requires Grows(o, o') && name in o
    ensures Last(o, name) == Last(o', name)
  {
  }

  lemma {:induction false} SameDones(o: Objects, o': Objects, runs: seq<Claim>, runs': seq<Claim>, k: nat)
    requires Grows(o, o') && runs <= runs' && k < |runs|
    requires forall j | 0 <= j <= k :: RunTerminal(runs[j].before) in o
    ensures Dones(o, runs, k) == Dones(o', runs', k)
  {
    hide Last, Grows;
    assert RunTerminal(runs[k].before) in o && runs'[k] == runs[k];
    SameLast(o, o', RunTerminal(runs[k].before));
    if k > 0 {
      SameDones(o, o', runs, runs', k - 1);
    }
  }

  // --- The phases ---

  lemma PhaseTouchGrows(o: Objects, o': Objects, key: Key)
    requires Grows(o, o') && !ReadPhase(o, key).Denied? && !ReadPhase(o', key).Denied?
    ensures Grows(PhaseTouch(o, key), PhaseTouch(o', key))
  {
    hide RefMap, CommitShape, CommitComplete, FilesOf, AllPinned;
    PhaseTouchIn(o, key);
    PhaseTouchIn(o', key);
  }

  lemma {:induction false} AllTouchGrows(o: Objects, o': Objects, keys: seq<Key>, n: nat)
    requires Grows(o, o') && n <= |keys| && ReadAll(o, keys, n).Some? && ReadAll(o', keys, n).Some?
    ensures Grows(AllTouch(o, keys, n), AllTouch(o', keys, n))
  {
    hide ReadPhase, PhaseTouch, RefMap, CommitShape, CommitComplete;
    if n > 0 {
      AllTouchGrows(o, o', keys, n - 1);
      PhaseTouchGrows(o, o', keys[n - 1]);
      AllTouchIn(o', keys, n - 1);
      PhaseTouchIn(o', keys[n - 1]);
      Both(AllTouch(o', keys, n - 1), PhaseTouch(o', keys[n - 1]), o');
    }
  }

  lemma RemoteTouchGrows(o: Objects, o': Objects, keys: seq<Key>, binding: Ref)
    requires Grows(o, o') && ReadAll(o, keys, |keys|).Some? && ReadAll(o', keys, |keys|).Some?
    requires Pinned(o, binding) && binding.name == BindingName
    ensures Grows(RemoteTouch(o, keys, binding), RemoteTouch(o', keys, binding))
  {
    hide ReadAll, AllTouch;
    AllTouchGrows(o, o', keys, |keys|);
    AllTouchIn(o', keys, |keys|);
  }

  // --- What an honest `begin` reads ---

  /** The reads of an honest `begin` that every later one repeats: all but its own acknowledgement. */
  function StoreTouch(o: Objects, keys: seq<Key>, runs: seq<Claim>, binding: Ref): Objects {
    RemoteTouch(o, keys, binding) + if runs == [] then map[] else ChainTouch(Dones(o, runs, |runs| - 1))
  }

  lemma ClosedFacts(keys: seq<Key>, events: seq<Event>, d: Dispatch)
    requires var s := Run(keys, Initial, events); !Open(s.objects, s.runs) && Honest(keys, s, d)
    ensures var s := Run(keys, Initial, events);
            && Closed(keys, s.objects, s.runs) && ReadAll(s.objects, keys, |keys|).Some?
            && Pinned(s.objects, d.binding) && d.binding.name == BindingName && Pinned(s.objects, d.ack)
            && (d.parent.Some? <==> s.runs != [])
            && forall j | 0 <= j < |s.runs| :: RunTerminal(s.runs[j].before) in s.objects
  {
    hide Run, StoredCommitsOk, NamesOk, ReadAll, ChannelOk, LogOk, OwnerOk;
    var s := Run(keys, Initial, events);
    Reached(keys, events);
    ReachedCommits(keys, events);
    QuietScan(keys, s.objects, |keys|);
    if s.runs != [] {
      RunsFitKeys(keys, s.objects, s.runs);
    }
    forall j | 0 <= j < |s.runs|
      ensures RunTerminal(s.runs[j].before) in s.objects
    {
      if j < |s.runs| - 1 {
        assert Linked(s.objects, s.runs[j], s.runs[j + 1]);
      }
    }
  }

  /** An honest `begin` reads exactly these objects and its own acknowledgement. */
  lemma {:induction false} HonestTouch(keys: seq<Key>, events: seq<Event>, d: Dispatch)
    requires var s := Run(keys, Initial, events); !Open(s.objects, s.runs) && Honest(keys, s, d)
    ensures var s := Run(keys, Initial, events);
            && Grows(StoreTouch(s.objects, keys, s.runs, d.binding), s.objects)
            && ReviewTouch(s.objects, keys, d)
               == StoreTouch(s.objects, keys, s.runs, d.binding) + map[d.ack.name := d.ack]
  {
    hide Run, ReadAll, RemoteTouch, Dones, ChainTouch, Closed, ParentChain, Honest, Open;
    var s := Run(keys, Initial, events);
    var remote := RemoteTouch(s.objects, keys, d.binding);
    ClosedFacts(keys, events, d);
    RemoteTouchLess(s.objects, keys, |keys|, d.binding);
    if s.runs != [] {
      var n := |s.runs| - 1;
      HonestChain(keys, events, d);
      DonesTouch(keys, s.objects, s.runs, n, n);
      Reordered(s.objects, remote, d.ack, ChainTouch(Dones(s.objects, s.runs, n)));
    } else {
      Reordered(s.objects, remote, d.ack, map[]);
    }
  }

  lemma Reordered(o: Objects, remote: Objects, ack: Ref, chain: Objects)
    requires Grows(remote, o) && Pinned(o, ack) && Grows(chain, o)
    ensures Grows(remote + chain, o)
    ensures remote + map[ack.name := ack] + chain == remote + chain + map[ack.name := ack]
  {
  }

  lemma HonestChain(keys: seq<Key>, events: seq<Event>, d: Dispatch)
    requires var s := Run(keys, Initial, events); !Open(s.objects, s.runs) && Honest(keys, s, d) && s.runs != []
    ensures var s := Run(keys, Initial, events);
            ParentChain(s.objects, d.binding, d.parent, d.before, {}, |keys|)
            == Some(Dones(s.objects, s.runs, |s.runs| - 1))
  {
    hide Run, Dones, Closed, ParentChain, StoreOk, NamesOk, ChannelOk, OwnerOk, LogOk;
    var s := Run(keys, Initial, events);
    var n := |s.runs| - 1;
    ClosedFacts(keys, events, d);
    Reached(keys, events);
    ParentAccepted(keys, events);
    ChainIs(keys, s.objects, s.runs, n);
    assert Newer(s.runs, n) == {};
  }

  /** Whatever happens between two closed states of a namespace, a later honest `begin` reads everything an
      earlier one had to read but its acknowledgement; so once the budget does not cover that, no later
      `begin` is ever admitted. */
  lemma {:induction false} BudgetStaysSpent(b: Budget, keys: seq<Key>, before: seq<Event>, after: seq<Event>,
                                            d: Dispatch, d': Dispatch)
    requires var s := Run(keys, Initial, before); !Open(s.objects, s.runs) && Honest(keys, s, d)
    requires var t := Run(keys, Initial, before + after); !Open(t.objects, t.runs) && Honest(keys, t, d')
    ensures var s, t := Run(keys, Initial, before), Run(keys, Initial, before + after);
            var spent := StoreTouch(s.objects, keys, s.runs, d.binding);
            && Grows(spent, ReviewTouch(t.objects, keys, d'))
            && (!Within(b, spent) ==> !Within(b, ReviewTouch(t.objects, keys, d')))
  {
    hide Run, ReadAll, ChainTouch, Closed, ParentChain, Within, Honest, Open, RemoteTouch, ReviewTouch, Dones;
    var s, t := Run(keys, Initial, before), Run(keys, Initial, before + after);
    RunAppend(keys, Initial, before, after);
    HistoryGrows(keys, s, after);
    ClosedFacts(keys, before, d);
    ClosedFacts(keys, before + after, d');
    HonestTouch(keys, before + after, d');
    RemoteTouchGrows(s.objects, t.objects, keys, d.binding);
    RemoteTouchLess(t.objects, keys, |keys|, d'.binding);
    if s.runs != [] {
      var k, n := |s.runs| - 1, |t.runs| - 1;
      SameDones(s.objects, t.objects, s.runs, t.runs, k);
      DonesTouch(keys, t.objects, t.runs, k, n);
      Joined(RemoteTouch(s.objects, keys, d.binding), ChainTouch(Dones(s.objects, s.runs, k)),
             RemoteTouch(t.objects, keys, d'.binding), ChainTouch(Dones(t.objects, t.runs, n)), t.objects, d'.ack);
    } else if t.runs != [] {
      DonesTouch(keys, t.objects, t.runs, |t.runs| - 1, |t.runs| - 1);
      Joined(RemoteTouch(s.objects, keys, d.binding), map[], RemoteTouch(t.objects, keys, d'.binding),
             ChainTouch(Dones(t.objects, t.runs, |t.runs| - 1)), t.objects, d'.ack);
    } else {
      Joined(RemoteTouch(s.objects, keys, d.binding), map[], RemoteTouch(t.objects, keys, d'.binding), map[], t.objects,
             d'.ack);
    }
    WithinLess(b, StoreTouch(s.objects, keys, s.runs, d.binding), ReviewTouch(t.objects, keys, d'));
  }

  lemma Joined(a: Objects, c: Objects, a': Objects, c': Objects, o: Objects, ack: Ref)
    requires Grows(a, a') && Grows(c, c') && Grows(a', o) && Grows(c', o) && Pinned(o, ack)
    ensures Grows(a + c, a' + c' + map[ack.name := ack])
  {
  }
}
