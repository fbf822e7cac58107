/** Reading a reachable store back: `_phase` never refuses it, and an honest dispatch over a
    finished namespace is admitted. */
module ChannelAdmission {
  import opened Outcomes
  import opened ChannelModel
  import opened ChannelInvariant
  import opened ChannelSteps
  import opened ChannelCommits
  import opened ChannelTheorems
  import opened ChannelObject

  ghost predicate StoredCommitsOk(keys: seq<Key>, o: Objects) {
    forall key :: PhaseTerminal(key) in o ==> CommitOk(keys, o, key, o[PhaseTerminal(key)].raw)
  }

  lemma ReachedCommits(keys: seq<Key>, events: seq<Event>)
    ensures StoredCommitsOk(keys, Run(keys, Initial, events).objects)
  {
    forall key | PhaseTerminal(key) in Run(keys, Initial, events).objects
      ensures var o := Run(keys, Initial, events).objects; CommitOk(keys, o, key, o[PhaseTerminal(key)].raw)
    {
      CommitsHold(keys, events, key);
    }
  }

  lemma PhaseReads(keys: seq<Key>, o: Objects, key: Key)
    requires KeysKnown(keys, o)
    requires PhaseTerminal(key) in o ==> CommitOk(keys, o, key, o[PhaseTerminal(key)].raw)
    ensures var view := ReadPhase(o, key);
            if PhaseIntent(key) !in o then view == Absent
            else if PhaseTerminal(key) !in o then view == Unfinished(o[PhaseIntent(key)])
            else && view.Captured? && view.commit == o[PhaseTerminal(key)]
                 && view.files == FilesOf([o[PhaseIntent(key)]] + o[PhaseTerminal(key)].raw.files)
  {
  }

  /** On every reachable store `_phase` accepts: a missing intent reads as absent, an uncommitted
      one as unknown, and a commit as its reference with the intent's and each listed file's bytes. */
  lemma {:induction false} PhaseNeverDenied(keys: seq<Key>, events: seq<Event>, key: Key)
    ensures var o := Run(keys, Initial, events).objects;
            var view := ReadPhase(o, key);
            if PhaseIntent(key) !in o then view == Absent
            else if PhaseTerminal(key) !in o then view == Unfinished(o[PhaseIntent(key)])
            else && view.Captured? && view.commit == o[PhaseTerminal(key)] && view.commit.raw.PhaseDoc?
                 && view.files == FilesOf([o[PhaseIntent(key)]] + view.commit.raw.files)
  {
    hide Run, Inv, ReadPhase;
    Reached(keys, events);
    CommitsHold(keys, events, key);
    assert KeysKnown(keys, Run(keys, Initial, events).objects) by { KnownFromInv(keys, Run(keys, Initial, events)); }
    PhaseReads(keys, Run(keys, Initial, events).objects, key);
  }

  lemma {:induction false} KnownFromInv(keys: seq<Key>, s: State)
    requires Inv(keys, s)
    ensures KeysKnown(keys, s.objects)
  {
    hide ChannelOk, NamesOk, ChainOk, TipOk, OwnerOk, LogOk;
  }

  /** A quiet store scans to its committed phases with nothing unknown. */
  lemma {:induction false} QuietScan(keys: seq<Key>, o: Objects, n: nat)
    requires n <= |keys| && KeysKnown(keys, o) && StoredCommitsOk(keys, o) && Quiet(o)
    ensures var view := ReadAll(o, keys, n);
            && view.Some? && view.value.unknown == []
            && (forall key :: key in view.value.phases <==> key in keys[..n] && PhaseTerminal(key) in o)
            && SeenOk(o, view.value.phases)
            && ((forall key :: PhaseIntent(key) !in o) ==> view.value.files == map[])
  {
    hide ReadPhase, CommitOk;
    if n > 0 {
      QuietScan(keys, o, n - 1);
      PhaseReads(keys, o, keys[n - 1]);
      assert keys[..n] == keys[..n - 1] + [keys[n - 1]];
    }
  }

  lemma {:induction false} BeforeSizesGrow(o: Objects, runs: seq<Claim>, k: nat, n: nat)
    requires ChainOk(o, runs) && k <= n < |runs|
    ensures |runs[k].before| <= |runs[n].before|
    decreases n - k
  {
    if k < n {
      BeforeSizesGrow(o, runs, k, n - 1);
      assert Linked(o, runs[n - 1], runs[n]);
      assert DoneOk(o, runs[n - 1], o[RunTerminal(runs[n - 1].before)]);
    }
  }

  /** The checkpoint after the last run has never been claimed. */
  lemma TipIsUnclaimed(keys: seq<Key>, o: Objects, runs: seq<Claim>)
    requires NamesOk(o, runs) && ChainOk(o, runs) && TipOk(keys, o, runs) && !Open(o, runs)
    ensures RunIntent(Committed(keys, o)) !in o
  {
    if runs != [] {
      var n := |runs| - 1;
      assert DoneOk(o, runs[n], o[RunTerminal(runs[n].before)]);
      forall k | 0 <= k < |runs| ensures runs[k].before != Committed(keys, o) {
        BeforeSizesGrow(o, runs, k, n);
      }
    }
    assert !Claimed(runs, Committed(keys, o));
  }

  /** A dispatch that states the store's own facts: its committed phases, and the last run terminal. */
  ghost predicate Honest(keys: seq<Key>, s: State, d: Dispatch) {
    && d.Valid() && Pinned(s.objects, d.binding) && AckOk(s.objects, d.ack, d.Document())
    && d.before == Committed(keys, s.objects)
    && (if s.runs == [] then d.parent == None
        else var tip := RunTerminal(s.runs[|s.runs| - 1].before);
             tip in s.objects && d.parent == Some(s.objects[tip]))
  }

  /** After any history that left no run open, `begin` admits an honest dispatch whose local
      journal matches: none of its checks refuses what the protocol itself produced. */
  lemma {:induction false} HonestDispatchAdmitted(keys: seq<Key>, events: seq<Event>, d: Dispatch,
                                                  local: map<Name, Content>)
    requires var s := Run(keys, Initial, events); !Open(s.objects, s.runs) && Honest(keys, s, d)
    requires var s := Run(keys, Initial, events);
             var view := ReadAll(s.objects, keys, |keys|);
             view.Some? ==> LocalMatches(local, view.value.files, keys)
    ensures Admits(Run(keys, Initial, events).objects, keys, d.binding.raw, d, local, None, false)
  {
    hide Run, Inv, LocalMatches, ParentChain, StoredCommitsOk, Admits, ReadAll, Honest, Open;
    var s := Run(keys, Initial, events);
    Reached(keys, events);
    ReachedCommits(keys, events);
    assert s.runs != [] ==> ParentAcceptedAt(keys, s) by {
      if s.runs != [] {
        ParentAcceptedIn(keys, events);
      }
    }
    HonestAdmittedAt(keys, s, d, local);
  }

  ghost predicate ParentAcceptedAt(keys: seq<Key>, s: State)
    requires s.runs != []
  {
    var tip := RunTerminal(s.runs[|s.runs| - 1].before);
    && tip in s.objects && BindingName in s.objects
    && ParentChain(s.objects, s.objects[BindingName], Some(s.objects[tip]), Committed(keys, s.objects), {},
                   |keys|).Some?
  }

  lemma ParentAcceptedIn(keys: seq<Key>, events: seq<Event>)
    requires var s := Run(keys, Initial, events); s.runs != [] && !Open(s.objects, s.runs)
    ensures ParentAcceptedAt(keys, Run(keys, Initial, events))
  {
    hide Run, ParentChain;
    ParentAccepted(keys, events);
  }

  /** A scan that saw exactly the stored commits yields the committed checkpoint. */
  lemma {:induction false} SeenIsCommitted(keys: seq<Key>, o: Objects, phases: Checkpoint)
    requires SeenOk(o, phases)
    requires forall key :: key in phases <==> key in keys[..|keys|] && PhaseTerminal(key) in o
    ensures phases == Committed(keys, o)
  {
    assert keys[..|keys|] == keys;
    assert phases.Keys == Committed(keys, o).Keys;
  }

  lemma TipFacts(keys: seq<Key>, s: State)
    requires Inv(keys, s) && !Open(s.objects, s.runs)
    ensures KeysKnown(keys, s.objects) && Quiet(s.objects) && RunIntent(Committed(keys, s.objects)) !in s.objects
    ensures s.runs == [] ==> forall key :: PhaseIntent(key) !in s.objects
  {
    hide ChannelOk, OwnerOk, LogOk, NamesOk, ChainOk;
    TipIsUnclaimed(keys, s.objects, s.runs);
  }

  lemma HonestAdmittedAt(keys: seq<Key>, s: State, d: Dispatch, local: map<Name, Content>)
    requires Inv(keys, s) && StoredCommitsOk(keys, s.objects) && !Open(s.objects, s.runs) && Honest(keys, s, d)
    requires s.runs != [] ==> ParentAcceptedAt(keys, s)
    requires var view := ReadAll(s.objects, keys, |keys|);
             view.Some? ==> LocalMatches(local, view.value.files, keys)
    ensures Admits(s.objects, keys, d.binding.raw, d, local, None, false)
  {
    hide Inv, LocalMatches, ParentChain, StoredCommitsOk, ReadAll, KeysKnown, Quiet, SeenOk, Open;
    TipFacts(keys, s);
    QuietScan(keys, s.objects, |keys|);
    SeenIsCommitted(keys, s.objects, ReadAll(s.objects, keys, |keys|).value.phases);
  }
}
