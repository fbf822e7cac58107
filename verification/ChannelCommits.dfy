/** Commit atomicity and read-back: what a phase commit promises about the objects it lists. */
module ChannelCommits {
  import opened ChannelModel
  import opened ChannelInvariant
  import opened ChannelSteps

  // --- Which files a commit lists ---

  /** The result always; the raw and the retained response unless the service refused; the compiled document
      exactly for a captured compile phase. */
  ghost predicate CallsFor(key: Key, state: ResultState, kind: Kind) {
    match kind
    case ResultFile => true
    case RawFile => state != RefusedByService
    case RetainedFile => state != RefusedByService
    case CompiledFile => state == Captured && key.phase == Compile
  }

  ghost predicate FileOf(key: Key, state: ResultState, name: Name) {
    name.PhaseFile? && name.key == key && CallsFor(key, state, name.kind)
  }

  ghost predicate Lists(files: seq<Ref>, name: Name) {
    exists i :: 0 <= i < |files| && files[i].name == name
  }

  /** A commit of `key` under this intent: each file once, one of them a result, and with it exactly the files
      that the recorded state calls for. */
  ghost predicate InOrder(key: Key, intent: Ref, raw: Content) {
    && raw.PhaseDoc? && raw.key == key && raw.intent == intent
    && (forall i, j :: 0 <= i < j < |raw.files| ==> raw.files[i].name != raw.files[j].name)
    && exists r :: 0 <= r < |raw.files| && raw.files[r].name == PhaseFile(key, ResultFile)
                   && raw.files[r].raw.ResultDoc?
                   && forall name :: Lists(raw.files, name) <==> FileOf(key, raw.files[r].raw.state, name)
  }

  /** The files are published in a fixed order, and which of them follows from the state. */
  lemma {:induction false} PublishedKinds(key: Key, state: ResultState)
    ensures Kinds(key, state) <= [ResultFile, RawFile, RetainedFile, CompiledFile]
    ensures forall kind :: kind in Kinds(key, state) <==> CallsFor(key, state, kind)
    ensures forall name :: name in FileNames(key, state) <==> FileOf(key, state, name)
  {
    var all := [ResultFile, RawFile, RetainedFile, CompiledFile];
    assert all[..1] == [ResultFile] && all[..3] == [ResultFile, RawFile, RetainedFile] && all[..4] == all;
  }

  lemma ListedNames(key: Key, state: ResultState, files: seq<Ref>)
    ensures forall name :: name in RefNames(files) <==> Lists(files, name)
    ensures RefNames(files) == FileNames(key, state) <==>
              forall name :: Lists(files, name) <==> FileOf(key, state, name)
    ensures RefNames(files) == FileNames(key, state) ==>
              RefNames(files) <= AllowedNames(key) && PhaseFile(key, ResultFile) in RefNames(files)
  {
    hide Kinds, FileNames;
    PublishedKinds(key, state);
    forall name
      ensures name in RefNames(files) <==> Lists(files, name)
    {
      if name in RefNames(files) {
        var file :| file in files && file.name == name;
      }
    }
  }

  /** The two checks of `_phase` accept exactly the commits in order. */
  lemma {:induction false} AcceptedCommits(key: Key, intent: Ref, raw: Content)
    ensures raw.PhaseDoc? && CommitShape(key, intent, raw) && CommitComplete(key, raw.files) <==>
              InOrder(key, intent, raw)
  {
    hide RefNames, FileNames, AllowedNames, Lists, FileOf;
    if raw.PhaseDoc? {
      forall r | 0 <= r < |raw.files| && raw.files[r].raw.ResultDoc?
        ensures RefNames(raw.files) == FileNames(key, raw.files[r].raw.state) <==>
                  forall name :: Lists(raw.files, name) <==> FileOf(key, raw.files[r].raw.state, name)
        ensures RefNames(raw.files) == FileNames(key, raw.files[r].raw.state) ==>
                  RefNames(raw.files) <= AllowedNames(key) && PhaseFile(key, ResultFile) in RefNames(raw.files)
      {
        ListedNames(key, raw.files[r].raw.state, raw.files);
      }
    }
  }

  /** A commit document is backed by the store: its intent and each listed file are there with
      the recorded reference, and the list is the one its result state calls for. */
  ghost predicate CommitOk(keys: seq<Key>, o: Objects, key: Key, raw: Content) {
    && key in keys && PhaseIntent(key) in o
    && CommitShape(key, o[PhaseIntent(key)], raw)
    && CommitComplete(key, raw.files)
    && forall file :: file in raw.files ==> Pinned(o, file)
  }

  ghost predicate CommitsOk(keys: seq<Key>, s: State) {
    && (forall key :: PhaseTerminal(key) in s.objects ==>
          CommitOk(keys, s.objects, key, s.objects[PhaseTerminal(key)].raw))
    && (forall i :: 0 <= i < |s.channels| && s.channels[i].pc.Committing? && s.channels[i].pending.Some? ==>
          CommitOk(keys, s.objects, s.channels[i].pc.key, s.channels[i].pending.value.raw))
  }

  lemma CommitOkGrows(keys: seq<Key>, o: Objects, o': Objects, key: Key, raw: Content)
    requires CommitOk(keys, o, key, raw) && Grows(o, o')
    ensures CommitOk(keys, o', key, raw)
  {
  }

  /** The commit document that `terminal` builds passes every check of `_phase`. */
  lemma {:induction false} CommitDocumentOk(keys: seq<Key>, o: Objects, key: Key, intent: Ref, state: ResultState,
                         contents: seq<Content>, refs: seq<Ref>)
    requires key in keys && PhaseIntent(key) in o && o[PhaseIntent(key)] == intent
    requires PublishedOk(o, key, state, contents, refs) && |refs| == |contents|
    ensures CommitOk(keys, o, key, PhaseDoc(key, intent, refs))
  {
  }

  /** Only the last acknowledgement of a publication issues a commit. */
  lemma CommitsAfterFiles(keys: seq<Key>, o: Objects, runs: seq<Claim>, log: seq<Key>, i: nat, channel: Channel,
                          e: Event)
    requires ChannelOk(keys, o, runs, log, i, channel)
    requires React(keys, o, channel, e).pc.Committing? && !channel.pc.Committing?
    ensures channel.pc.Publishing? && Applied(channel)
    ensures var next, pc := React(keys, o, channel, e), channel.pc;
            var refs := pc.refs + [channel.pending.value.applied.value];
            && |refs| == |pc.contents| && next.pc.key == pc.key && next.pending.Some?
            && next.pending.value.raw == PhaseDoc(pc.key, pc.intent, refs)
  {
    hide SeenOk, ExactScan, LookOk, Justified, Active, Pends, HoldsIntent, AckOk, Quiet, Committed, PublishedOk;
    hide ReadNext, StartScan, RunDocument;
    ReadsIssueNoCommit(keys, o, channel);
  }

  lemma ReadsIssueNoCommit(keys: seq<Key>, o: Objects, channel: Channel)
    ensures ReadNext(keys, o, channel).pc.Committing? ==> channel.pc.Committing?
    ensures forall purpose :: StartScan(o, channel, purpose).pc.Committing? ==> channel.pc.Committing?
  {
  }

  lemma PublishedSoFar(keys: seq<Key>, o: Objects, runs: seq<Claim>, log: seq<Key>, i: nat, channel: Channel)
    requires ChannelOk(keys, o, runs, log, i, channel) && channel.pc.Publishing? && Applied(channel)
    ensures var pc := channel.pc;
            && pc.key in keys && PhaseIntent(pc.key) in o && o[PhaseIntent(pc.key)] == pc.intent
            && PublishedOk(o, pc.key, pc.state, pc.contents, pc.refs + [channel.pending.value.applied.value])
  {
    hide SeenOk, ExactScan, LookOk, Justified, OwnsRun, AckOk, Quiet, Committed, Kinds;
  }

  lemma ReactCommits(keys: seq<Key>, o: Objects, runs: seq<Claim>, log: seq<Key>, i: nat, channel: Channel, e: Event)
    requires ChannelOk(keys, o, runs, log, i, channel)
    requires React(keys, o, channel, e).pc.Committing? && !channel.pc.Committing?
    ensures var next := React(keys, o, channel, e);
            next.pending.Some? && CommitOk(keys, o, next.pc.key, next.pending.value.raw)
  {
    hide CommitOk, ChannelOk, React, PublishedOk;
    CommitsAfterFiles(keys, o, runs, log, i, channel, e);
    PublishedSoFar(keys, o, runs, log, i, channel);
    var Publishing(key, intent, state, contents, refs) := channel.pc;
    CommitDocumentOk(keys, o, key, intent, state, contents, refs + [channel.pending.value.applied.value]);
  }

  lemma CommitStays(keys: seq<Key>, o: Objects, channel: Channel, e: Event)
    requires channel.pc.Committing? && React(keys, o, channel, e).pc.Committing?
    ensures React(keys, o, channel, e) == channel
  {
  }

  lemma PendingCommit(keys: seq<Key>, o: Objects, runs: seq<Claim>, log: seq<Key>, i: nat, channel: Channel)
    requires ChannelOk(keys, o, runs, log, i, channel)
    requires channel.pending.Some? && channel.pending.value.name.PhaseTerminal?
    ensures channel.pc == Committing(channel.pending.value.name.key)
  {
  }

  lemma TakeRequestCommits(keys: seq<Key>, s: State, i: nat, generation: nat)
    requires Inv(keys, s) && CommitsOk(keys, s) && i < |s.channels|
    ensures CommitsOk(keys, TakeRequest(s, i, generation))
  {
    hide CommitOk, ChannelOk, StoreOk, RunsOk, OwnerOk, LogOk;
    var s' := TakeRequest(s, i, generation);
    var o, o' := s.objects, s'.objects;
    forall key | PhaseTerminal(key) in o' ensures CommitOk(keys, o', key, o'[PhaseTerminal(key)].raw) {
      if PhaseTerminal(key) in o {
        CommitOkGrows(keys, o, o', key, o[PhaseTerminal(key)].raw);
      } else {
        PendingCommit(keys, o, s.runs, s.log, i, s.channels[i]);
        CommitOkGrows(keys, o, o', key, s.channels[i].pending.value.raw);
      }
    }
    forall j | 0 <= j < |s'.channels| && s'.channels[j].pc.Committing? && s'.channels[j].pending.Some?
      ensures CommitOk(keys, o', s'.channels[j].pc.key, s'.channels[j].pending.value.raw)
    {
      CommitOkGrows(keys, o, o', s.channels[j].pc.key, s.channels[j].pending.value.raw);
    }
  }

  lemma {:induction false} PublishCommits(keys: seq<Key>, s: State, ref: Ref)
    requires CommitsOk(keys, s) && External(ref.name) && ref.name !in s.objects
    ensures CommitsOk(keys, s.(objects := s.objects[ref.name := ref]))
  {
  }

  lemma ReactStepCommits(keys: seq<Key>, s: State, i: nat, e: Event)
    requires Inv(keys, s) && CommitsOk(keys, s) && i < |s.channels|
    ensures CommitsOk(keys, Update(s, i, React(keys, s.objects, s.channels[i], e)))
  {
    hide CommitOk, ChannelOk, React;
    var next := React(keys, s.objects, s.channels[i], e);
    if next.pc.Committing? {
      if s.channels[i].pc.Committing? {
        CommitStays(keys, s.objects, s.channels[i], e);
      } else {
        ReactCommits(keys, s.objects, s.runs, s.log, i, s.channels[i], e);
      }
    }
  }

  lemma StepCommits(keys: seq<Key>, s: State, e: Event)
    requires Inv(keys, s) && CommitsOk(keys, s)
    ensures CommitsOk(keys, Step(keys, s, e))
  {
    hide CommitOk, ChannelOk, React, Inv;
    match e
    case Publish(ref) =>
      if External(ref.name) && ref.name !in s.objects { PublishCommits(keys, s, ref); }
    case Apply(i, generation) =>
      if i < |s.channels| { TakeRequestCommits(keys, s, i, generation); }
    case Build(_) =>
    case Send(_) =>
    case Crash(_) =>
    case _ =>
      if e.i < |s.channels| && s.channels[e.i].alive { ReactStepCommits(keys, s, e.i, e); }
  }

  lemma {:induction false} RunCommits(keys: seq<Key>, s: State, events: seq<Event>)
    requires Inv(keys, s) && CommitsOk(keys, s)
    ensures CommitsOk(keys, Run(keys, s, events))
    decreases |events|
  {
    hide CommitsOk, Inv;
    if events != [] {
      StepKeeps(keys, s, events[0]);
      StepCommits(keys, s, events[0]);
      RunCommits(keys, Step(keys, s, events[0]), events[1..]);
    }
  }

  lemma CommitsHold(keys: seq<Key>, events: seq<Event>, key: Key)
    ensures var o := Run(keys, Initial, events).objects;
            PhaseTerminal(key) in o ==> CommitOk(keys, o, key, o[PhaseTerminal(key)].raw)
  {
    assert Inv(keys, Initial) by { RunKeeps(keys, Initial, []); }
    RunCommits(keys, Initial, events);
  }

  /** In every reachable store, a phase commit implies its intent and every file it lists, each
      with the recorded reference, and it lists exactly the files its recorded result calls for. */
  lemma {:induction false} CommitAtomicity(keys: seq<Key>, events: seq<Event>, key: Key)
    ensures var o := Run(keys, Initial, events).objects;
            PhaseTerminal(key) in o ==>
              && key in keys && PhaseIntent(key) in o
              && InOrder(key, o[PhaseIntent(key)], o[PhaseTerminal(key)].raw)
              && forall file | file in o[PhaseTerminal(key)].raw.files :: file.name in o && o[file.name] == file
  {
    hide CommitComplete, InOrder, Inv;
    CommitsHold(keys, events, key);
    var o := Run(keys, Initial, events).objects;
    if PhaseTerminal(key) in o {
      AcceptedCommits(key, o[PhaseIntent(key)], o[PhaseTerminal(key)].raw);
    }
  }
}
