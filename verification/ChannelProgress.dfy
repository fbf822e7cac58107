/** What a channel reads when nobody else writes meanwhile, and that the protocol can go on: an honest
    dispatch starts a run, and a run with nothing unfinished closes. */
module ChannelProgress {
  import opened Outcomes
  import opened ChannelModel
  import opened ChannelInvariant
  import opened ChannelSteps
  import opened ChannelTheorems
  import opened ChannelObject
  import opened ChannelAdmission

  type Channel = ChannelModel.Channel

  // --- Consecutive reads on one store ---

  function Reading(keys: seq<Key>, o: Objects, channel: Channel, n: nat): Channel {
    if n == 0 then channel
    else
      var c := Reading(keys, o, channel, n - 1);
      if c.alive then ReadNext(keys, o, c) else c
  }

  lemma {:induction false} ReadingOn(keys: seq<Key>, o: Objects, channel: Channel, n: nat, m: nat)
    ensures Reading(keys, o, channel, n + m) == Reading(keys, o, Reading(keys, o, channel, n), m)
    decreases m
  {
    hide ReadNext;
    if m > 0 {
      ReadingOn(keys, o, channel, n, m - 1);
    }
  }

  lemma ReadingOne(keys: seq<Key>, o: Objects, channel: Channel)
    requires channel.alive
    ensures Reading(keys, o, channel, 1) == ReadNext(keys, o, channel)
  {
    hide ReadNext;
    assert Reading(keys, o, channel, 0) == channel;
  }

  /** The file reads of one commit: each must be as pinned. */
  lemma {:induction false} FilesRead(keys: seq<Key>, o: Objects, channel: Channel) returns (n: nat)
    requires channel.alive && channel.pc.Scan? && channel.pc.index < |keys| && channel.pc.look.AtFiles?
    ensures var todo, c := channel.pc.look.todo, Reading(keys, o, channel, n);
            if AllPinned(o, todo) then c == channel.(pc := channel.pc.(look := AtFiles(channel.pc.look.commit, [])))
            else !c.alive
    decreases |channel.pc.look.todo|
  {
    var commit, todo := channel.pc.look.commit, channel.pc.look.todo;
    if todo == [] {
      n := 0;
    } else {
      ReadingOne(keys, o, channel);
      if Pinned(o, todo[0]) {
        var next := channel.(pc := channel.pc.(look := AtFiles(commit, todo[1..])));
        var rest := FilesRead(keys, o, next);
        n := 1 + rest;
        ReadingOn(keys, o, channel, 1, rest);
        PinnedFirst(o, todo);
      } else {
        n := 1;
      }
    }
  }

  lemma PinnedFirst(o: Objects, refs: seq<Ref>)
    requires refs != []
    ensures AllPinned(o, refs) <==> Pinned(o, refs[0]) && AllPinned(o, refs[1..])
  {
    if Pinned(o, refs[0]) && AllPinned(o, refs[1..]) {
      assert forall i | 0 < i < |refs| :: refs[i] == refs[1..][i - 1];
    }
    if AllPinned(o, refs) {
      assert forall i | 0 <= i < |refs| - 1 :: refs[1..][i] == refs[i + 1];
    }
  }

  /** The state of a scan after one more key was judged. */
  function Judged(channel: Channel, key: Key, phase: PhaseView): Channel
    requires channel.pc.Scan?
  {
    var pc := channel.pc;
    match phase
    case Captured(commit, _) => NextKey(channel, pc.seen[key := commit], true, pc.unknown)
    case Unfinished(_) => NextKey(channel, pc.seen, true, true)
    case _ => NextKey(channel, pc.seen, pc.any, pc.unknown)
  }

  lemma ReadsIntent(keys: seq<Key>, o: Objects, channel: Channel)
    requires channel.pc.Scan? && channel.pc.index < |keys| && channel.pc.look.AtIntent?
    ensures ReadNext(keys, o, channel)
            == channel.(pc := channel.pc.(look := AtCommit(Lookup(o, PhaseIntent(keys[channel.pc.index])))))
  {
  }

  /** The second read settles the key unless there is a commit to open. */
  lemma ReadsNoFiles(keys: seq<Key>, o: Objects, channel: Channel, second: Channel)
    requires channel.alive && channel.pc.Scan? && channel.pc.index < |keys| && channel.pc.look.AtIntent?
    requires second == channel.(pc := channel.pc.(look := AtCommit(Lookup(o, PhaseIntent(keys[channel.pc.index])))))
    ensures var key, c := keys[channel.pc.index], ReadNext(keys, o, second);
            var intent, commit := Lookup(o, PhaseIntent(key)), Lookup(o, PhaseTerminal(key));
            || (intent.Some? && commit.Some? && CommitShape(key, intent.value, commit.value.raw))
            || if ReadPhase(o, key).Denied? then !c.alive else c == Judged(channel, key, ReadPhase(o, key))
  {
    hide CommitShape, CommitComplete, AllPinned;
  }

  /** The undisturbed reads of one key are `_phase`. */
  lemma {:induction false} PhaseRead(keys: seq<Key>, o: Objects, channel: Channel) returns (n: nat)
    requires channel.alive && channel.pc.Scan? && channel.pc.index < |keys| && channel.pc.look.AtIntent?
    ensures var key, c := keys[channel.pc.index], Reading(keys, o, channel, n);
            if ReadPhase(o, key).Denied? then !c.alive else c == Judged(channel, key, ReadPhase(o, key))
  {
    hide CommitShape, CommitComplete, AllPinned, ReadPhase, ReadNext, Reading, Judged, Lookup;
    var key := keys[channel.pc.index];
    var intent, commit := Lookup(o, PhaseIntent(key)), Lookup(o, PhaseTerminal(key));
    var second := channel.(pc := channel.pc.(look := AtCommit(intent)));
    ReadingOne(keys, o, channel);
    ReadsIntent(keys, o, channel);
    ReadingOne(keys, o, second);
    ReadingOn(keys, o, channel, 1, 1);
    ReadsNoFiles(keys, o, channel, second);
    n := 2;
    if intent.Some? && commit.Some? && CommitShape(key, intent.value, commit.value.raw) {
      n := CommitRead(keys, o, channel, second, intent.value, commit.value);
    }
  }

  lemma ReadOfCommit(o: Objects, key: Key, intent: Ref, commit: Ref)
    requires Lookup(o, PhaseIntent(key)) == Some(intent) && Lookup(o, PhaseTerminal(key)) == Some(commit)
    requires CommitShape(key, intent, commit.raw)
    ensures commit.raw.PhaseDoc?
    ensures var r := ReadPhase(o, key);
            if AllPinned(o, commit.raw.files) && CommitComplete(key, commit.raw.files)
            then r.Captured? && r.commit == commit else r.Denied?
  {
    hide CommitComplete, AllPinned, FilesOf;
  }

  lemma ReadsCommit(keys: seq<Key>, o: Objects, channel: Channel, intent: Ref, commit: Ref)
    requires channel.pc.Scan? && channel.pc.index < |keys| && channel.pc.look == AtCommit(Some(intent))
    requires Lookup(o, PhaseTerminal(keys[channel.pc.index])) == Some(commit)
    requires CommitShape(keys[channel.pc.index], intent, commit.raw) && commit.raw.PhaseDoc?
    ensures ReadNext(keys, o, channel) == channel.(pc := channel.pc.(look := AtFiles(commit, commit.raw.files)))
  {
    hide CommitShape;
  }

  lemma EndsFiles(keys: seq<Key>, o: Objects, channel: Channel, commit: Ref)
    requires channel.pc.Scan? && channel.pc.index < |keys| && channel.pc.look == AtFiles(commit, [])
             && commit.raw.PhaseDoc?
    ensures ReadNext(keys, o, channel)
            == if CommitComplete(keys[channel.pc.index], commit.raw.files)
               then NextKey(channel, channel.pc.seen[keys[channel.pc.index] := commit], true, channel.pc.unknown)
               else Refuse(channel)
  {
    hide CommitComplete;
  }

  lemma CommitRead(keys: seq<Key>, o: Objects, channel: Channel, second: Channel, intent: Ref, commit: Ref)
    returns (n: nat)
    requires channel.alive && channel.pc.Scan? && channel.pc.index < |keys| && channel.pc.look.AtIntent?
    requires second == channel.(pc := channel.pc.(look := AtCommit(Some(intent))))
    requires Reading(keys, o, channel, 1) == second
    requires var key := keys[channel.pc.index];
             && Lookup(o, PhaseIntent(key)) == Some(intent) && Lookup(o, PhaseTerminal(key)) == Some(commit)
             && CommitShape(key, intent, commit.raw)
    ensures var key, c := keys[channel.pc.index], Reading(keys, o, channel, n);
            if ReadPhase(o, key).Denied? then !c.alive else c == Judged(channel, key, ReadPhase(o, key))
  {
    hide CommitShape, CommitComplete, AllPinned, ReadPhase, ReadNext, Reading, Lookup;
    ReadOfCommit(o, keys[channel.pc.index], intent, commit);
    ReadsCommit(keys, o, second, intent, commit);
    var third := channel.(pc := channel.pc.(look := AtFiles(commit, commit.raw.files)));
    ReadingOne(keys, o, second);
    ReadingOn(keys, o, channel, 1, 1);
    var m := FilesRead(keys, o, third);
    ReadingOn(keys, o, channel, 2, m);
    n := 2 + m;
    if AllPinned(o, commit.raw.files) {
      var last := channel.(pc := channel.pc.(look := AtFiles(commit, [])));
      EndsFiles(keys, o, last, commit);
      ReadingOne(keys, o, last);
      ReadingOn(keys, o, channel, n, 1);
      n := n + 1;
    }
  }

  /** The state of a scan that has seen exactly `view`. */
  function Scanned(channel: Channel, purpose: Purpose, index: nat, view: View): Channel {
    channel.(pc := Scan(purpose, index, view.phases, view.files != map[], view.unknown != [], AtIntent))
  }

  lemma ScannedNext(o: Objects, channel: Channel, purpose: Purpose, index: nat, view: View, key: Key, phase: PhaseView)
    requires phase == ReadPhase(o, key) && !phase.Denied? && (phase.Captured? ==> phase.files != map[])
    ensures Judged(Scanned(channel, purpose, index, view), key, phase)
            == Scanned(channel, purpose, index + 1, Extended(view, key, phase))
  {
    hide ReadPhase;
    if phase.Captured? {
      var name :| name in phase.files;
      assert name in view.files + phase.files;
    } else if phase.Unfinished? {
      assert phase.intent.name in view.files[phase.intent.name := phase.intent.raw];
    }
  }

  lemma CapturedHasFiles(o: Objects, key: Key)
    requires ReadPhase(o, key).Captured?
    ensures ReadPhase(o, key).files != map[]
  {
    var all := [o[PhaseIntent(key)]] + o[PhaseTerminal(key)].raw.files;
    FilesOfNames(all, all[0].name);
  }

  /** The undisturbed scan is `_remote`. */
  lemma {:induction false} RemoteRead(keys: seq<Key>, o: Objects, channel: Channel, purpose: Purpose, k: nat)
    returns (n: nat)
    requires channel.alive && k <= |keys|
    ensures var c := Reading(keys, o, Scanned(channel, purpose, 0, View(map[], map[], [])), n);
            if ReadAll(o, keys, k).None? then !c.alive
            else c == Scanned(channel, purpose, k, ReadAll(o, keys, k).value)
    decreases k
  {
    hide ReadPhase, ReadNext;
    var start := Scanned(channel, purpose, 0, View(map[], map[], []));
    if k == 0 {
      n := 0;
    } else {
      n := RemoteRead(keys, o, channel, purpose, k - 1);
      var before := ReadAll(o, keys, k - 1);
      if before.Some? {
        var c := Scanned(channel, purpose, k - 1, before.value);
        var m := PhaseRead(keys, o, c);
        ReadingOn(keys, o, start, n, m);
        n := n + m;
        ReadNextKey(o, keys, k - 1, before.value);
        var phase := ReadPhase(o, keys[k - 1]);
        if !phase.Denied? {
          if phase.Captured? {
            CapturedHasFiles(o, keys[k - 1]);
          }
          ScannedNext(o, channel, purpose, k - 1, before.value, keys[k - 1], phase);
        }
      }
    }
  }

  /** The undisturbed walk is `_parent`. */
  lemma {:induction false} ParentRead(keys: seq<Key>, o: Objects, channel: Channel) returns (n: nat)
    requires channel.alive && channel.pc.Walk? && !channel.pc.atAck
    ensures var pc, c := channel.pc, Reading(keys, o, channel, n);
            if ParentChain(o, channel.dispatch.binding, pc.reference, pc.checkpoint, pc.visited, |keys|).Some?
            then c == IssueClaim(channel) else !c.alive
    decreases |keys| - |channel.pc.visited|
  {
    var pc := channel.pc;
    ReadingOne(keys, o, channel);
    n := 1;
    if pc.reference.Some? {
      var ref := pc.reference.value;
      if ref.name !in pc.visited && |pc.visited| < |keys| && Pinned(o, ref)
         && LinkShape(ref, channel.dispatch.binding, pc.checkpoint) {
        var atAck := channel.(pc := pc.(visited := pc.visited + {ref.name}, atAck := true));
        ReadingOne(keys, o, atAck);
        ReadingOn(keys, o, channel, 1, 1);
        n := 2;
        if Pinned(o, ref.raw.ack) && ref.raw.ack.raw == ref.raw.dispatched {
          var next := channel.(pc := Walk(ref.raw.parent, ref.raw.before, pc.visited + {ref.name}, false));
          var m := ParentRead(keys, o, next);
          ReadingOn(keys, o, channel, 2, m);
          n := 2 + m;
        }
      }
    }
  }

  // --- `begin` and `finish` as one channel's reads ---

  function Fresh(d: Dispatch): Channel {
    Channel.Channel(d, Idle, [], None, true)
  }

  /** An undisturbed `begin` issues its claim exactly when the store passes review. */
  lemma {:induction false} BeginRead(keys: seq<Key>, o: Objects, d: Dispatch) returns (n: nat)
    ensures var c := Reading(keys, o, StartScan(o, Fresh(d), ForBegin), n);
            if StoreReviews(keys, o, d) then c == IssueClaim(Fresh(d)) else !c.alive
  {
    hide ReadAll, ParentChain;
    var channel := Fresh(d);
    var start := StartScan(o, channel, ForBegin);
    if !Pinned(o, d.binding) {
      n := 0;
    } else {
      assert start == Scanned(channel, ForBegin, 0, View(map[], map[], []));
      n := RemoteRead(keys, o, channel, ForBegin, |keys|);
      var view := ReadAll(o, keys, |keys|);
      if view.Some? {
        n := AfterScan(keys, o, d, view.value, n);
      }
    }
  }

  lemma ClaimsAlike(d: Dispatch)
    ensures forall pc :: IssueClaim(Fresh(d).(pc := pc)) == IssueClaim(Fresh(d))
  {
  }

  lemma AfterScan(keys: seq<Key>, o: Objects, d: Dispatch, view: View, k: nat) returns (n: nat)
    requires Pinned(o, d.binding) && ReadAll(o, keys, |keys|) == Some(view)
    requires Reading(keys, o, StartScan(o, Fresh(d), ForBegin), k) == Scanned(Fresh(d), ForBegin, |keys|, view)
    ensures var c := Reading(keys, o, StartScan(o, Fresh(d), ForBegin), n);
            if StoreReviews(keys, o, d) then c == IssueClaim(Fresh(d)) else !c.alive
  {
    hide ReadAll, ParentChain, Reading, IssueClaim;
    ClaimsAlike(d);
    var start, scanned := StartScan(o, Fresh(d), ForBegin), Scanned(Fresh(d), ForBegin, |keys|, view);
    ReadingOne(keys, o, scanned);
    ReadingOn(keys, o, start, k, 1);
    n := k + 1;
    if view.unknown == [] && view.phases == d.before {
      var atAck := Fresh(d).(pc := ReadAck(view.files != map[]));
      ReadingOne(keys, o, atAck);
      ReadingOn(keys, o, start, n, 1);
      n := n + 1;
      if Pinned(o, d.ack) && d.ack.raw == d.Document() && d.parent.Some? {
        var walk := Fresh(d).(pc := Walk(d.parent, d.before, {}, false));
        var m := ParentRead(keys, o, walk);
        ReadingOn(keys, o, start, n, m);
        n := n + m;
      }
    }
  }

  /** An undisturbed `finish` issues the run terminal of exactly what `_remote` reads, when nothing
      is unfinished and something was sent. */
  lemma {:induction false} FinishRead(keys: seq<Key>, o: Objects, channel: Channel) returns (n: nat)
    requires channel.alive && channel.pc.Ready? && channel.pending == None
    ensures var c, view := Reading(keys, o, StartScan(o, channel, ForFinish), n), ReadAll(o, keys, |keys|);
            if Pinned(o, channel.dispatch.binding) && view.Some? && view.value.unknown == [] && channel.sent != []
            then c == Issue(channel, Finishing, RunTerminal(channel.dispatch.before),
                            RunDocument(channel, view.value.phases))
            else !c.alive
  {
    hide ReadAll;
    var start := StartScan(o, channel, ForFinish);
    if !Pinned(o, channel.dispatch.binding) {
      n := 0;
    } else {
      assert start == Scanned(channel, ForFinish, 0, View(map[], map[], []));
      n := RemoteRead(keys, o, channel, ForFinish, |keys|);
      var view := ReadAll(o, keys, |keys|);
      if view.Some? {
        var scanned := Scanned(channel, ForFinish, |keys|, view.value);
        ReadingOne(keys, o, scanned);
        ReadingOn(keys, o, start, n, 1);
        n := n + 1;
      }
    }
  }

  // --- Events ---

  function Reads(i: nat, n: nat): seq<Event> {
    seq(n, _ => Read(i))
  }

  lemma {:induction false} RunReads(keys: seq<Key>, s: State, i: nat, n: nat)
    requires i < |s.channels|
    ensures Run(keys, s, Reads(i, n)) == Update(s, i, Reading(keys, s.objects, s.channels[i], n))
    decreases n
  {
    hide ReadNext;
    if n == 0 {
      assert Reads(i, 0) == [];
      assert Update(s, i, s.channels[i]) == s;
    } else {
      RunReads(keys, s, i, n - 1);
      assert Reads(i, n) == Reads(i, n - 1) + [Read(i)];
      RunAppend(keys, s, Reads(i, n - 1), [Read(i)]);
      var t := Run(keys, s, Reads(i, n - 1));
      RunOne(keys, t, Read(i));
      assert t.channels[i] == Reading(keys, s.objects, s.channels[i], n - 1);
    }
  }

  lemma RunOne(keys: seq<Key>, s: State, e: Event)
    ensures Run(keys, s, [e]) == Step(keys, s, e)
  {
    hide Step;
    assert [e][1..] == [];
    assert Run(keys, Step(keys, s, e), []) == Step(keys, s, e);
  }

  /** A create on an absent name, taken and acknowledged. */
  lemma RunCreate(keys: seq<Key>, s: State, i: nat, generation: nat)
    requires i < |s.channels| && s.channels[i].alive && s.channels[i].pending.Some?
    requires s.channels[i].pending.value.applied == None && s.channels[i].pending.value.name !in s.objects
    ensures var channel, t := s.channels[i], Run(keys, s, [Apply(i, generation), Acknowledge(i)]);
            var request := channel.pending.value;
            var ref := Ref(request.name, generation, request.raw);
            && t.objects == s.objects[request.name := ref] && |t.channels| == |s.channels| && t.log == s.log
            && (!request.name.RunIntent? ==> t.runs == s.runs)
            && t.channels[i] == Continue(channel.(pending := Some(request.(applied := Some(ref)))), ref)
  {
    hide Continue;
    var t := Step(keys, s, Apply(i, generation));
    RunAppend(keys, s, [Apply(i, generation)], [Acknowledge(i)]);
    assert [Apply(i, generation)] + [Acknowledge(i)] == [Apply(i, generation), Acknowledge(i)];
    RunOne(keys, s, Apply(i, generation));
    RunOne(keys, t, Acknowledge(i));
  }

  // --- Progress ---

  /** A dispatch that passes review, with its checkpoint unclaimed, can start a run. */
  lemma {:induction false} ReviewedStarts(keys: seq<Key>, s: State, d: Dispatch) returns (more: seq<Event>)
    requires d.Valid() && StoreReviews(keys, s.objects, d) && RunIntent(d.before) !in s.objects
    ensures var t, i := Run(keys, s, more), |s.channels|;
            && |t.channels| == i + 1 && t.channels[i] == Fresh(d).(pc := Ready)
            && RunIntent(d.before) in t.objects && t.log == s.log
  {
    hide StoreReviews, Run, IssueClaim, StartScan, Reading;
    var i := |s.channels|;
    var built := s.(channels := s.channels + [Fresh(d)]);
    var n := BeginRead(keys, s.objects, d);
    var first := [Build(d), Begin(i)];
    StartsScan(keys, s, d);
    var begun := Run(keys, s, first);
    RunReads(keys, begun, i, n);
    RunAppend(keys, s, first, Reads(i, n));
    var claiming := Run(keys, s, first + Reads(i, n));
    IssuesClaim(d);
    RunCreate(keys, claiming, i, 0);
    more := first + Reads(i, n) + [Apply(i, 0), Acknowledge(i)];
    RunAppend(keys, s, first + Reads(i, n), [Apply(i, 0), Acknowledge(i)]);
  }

  lemma StartsScan(keys: seq<Key>, s: State, d: Dispatch)
    requires d.Valid()
    ensures Run(keys, s, [Build(d), Begin(|s.channels|)])
            == s.(channels := s.channels + [StartScan(s.objects, Fresh(d), ForBegin)])
  {
    hide StartScan;
    var i := |s.channels|;
    var built := Step(keys, s, Build(d));
    assert [Build(d)] + [Begin(i)] == [Build(d), Begin(i)];
    RunAppend(keys, s, [Build(d)], [Begin(i)]);
    RunOne(keys, s, Build(d));
    RunOne(keys, built, Begin(i));
    assert built.channels[i] == Fresh(d);
  }

  lemma IssuesClaim(d: Dispatch)
    ensures var c := IssueClaim(Fresh(d));
            && c.alive && c.pc == Claiming
            && c.pending == Some(Request(RunIntent(d.before), ClaimDoc(d.Document(), d.before), None))
            && forall ref, request :: Continue(c.(pending := request), ref) == Fresh(d).(pc := Ready)
  {
  }

  /** After any history that left no run open, an honest dispatch starts a run. */
  lemma {:induction false} HonestDispatchStarts(keys: seq<Key>, events: seq<Event>, d: Dispatch)
    requires var s := Run(keys, Initial, events); !Open(s.objects, s.runs) && Honest(keys, s, d)
    ensures exists more ::
              var s, t := Run(keys, Initial, events), Run(keys, Initial, events + more);
              && |t.channels| == |s.channels| + 1 && t.channels[|s.channels|] == Fresh(d).(pc := Ready)
              && Started(t.channels[|s.channels|])
  {
    hide Run, Honest, Open, ReadAll, LocalMatches, ParentChain, Reviews;
    var s := Run(keys, Initial, events);
    var view := ReadAll(s.objects, keys, |keys|);
    var local := if view.Some? then view.value.files else map[];
    LocalIsItself(local, keys);
    HonestDispatchAdmitted(keys, events, d, local);
    AdmittedReviews(keys, s.objects, d, local);
    HonestIsValid(keys, s, d);
    var more := ReviewedStarts(keys, s, d);
    RunAppend(keys, Initial, events, more);
  }

  /** The first run: once the authority has stored a binding and an acknowledgement of a dispatch from nothing, that
      dispatch starts. */
  lemma {:induction false} FirstRunStarts(keys: seq<Key>, d: Dispatch)
    requires d.binding.name == BindingName && d.ack.name.AckName? && 1 <= d.maxRequests <= 10
    requires d.before == map[] && d.parent == None && d.ack.raw == d.Document()
    ensures exists more ::
              var t := Run(keys, Initial, [Publish(d.binding), Publish(d.ack)] + more);
              |t.channels| == 1 && t.channels[0] == Fresh(d).(pc := Ready) && Started(t.channels[0])
  {
    hide Run, Honest, Open;
    AuthorityPublishes(keys, d);
    var first := [Publish(d.binding), Publish(d.ack)];
    HonestDispatchStarts(keys, first, d);
    var more :| var s, t := Run(keys, Initial, first), Run(keys, Initial, first + more);
                && |t.channels| == |s.channels| + 1 && t.channels[|s.channels|] == Fresh(d).(pc := Ready)
                && Started(t.channels[|s.channels|]);
  }

  lemma AuthorityPublishes(keys: seq<Key>, d: Dispatch)
    requires d.binding.name == BindingName && d.ack.name.AckName? && 1 <= d.maxRequests <= 10
    requires d.before == map[] && d.parent == None && d.ack.raw == d.Document()
    ensures var s := Run(keys, Initial, [Publish(d.binding), Publish(d.ack)]);
            s.channels == [] && !Open(s.objects, s.runs) && Honest(keys, s, d)
  {
    hide Run;
    RunOne(keys, Initial, Publish(d.binding));
    RunAppend(keys, Initial, [Publish(d.binding)], [Publish(d.ack)]);
    RunOne(keys, Run(keys, Initial, [Publish(d.binding)]), Publish(d.ack));
    assert [Publish(d.binding)] + [Publish(d.ack)] == [Publish(d.binding), Publish(d.ack)];
  }

  lemma LocalIsItself(local: map<Name, Content>, keys: seq<Key>)
    ensures LocalMatches(local, local, keys)
  {
  }

  lemma AdmittedReviews(keys: seq<Key>, o: Objects, d: Dispatch, local: map<Name, Content>)
    requires Admits(o, keys, d.binding.raw, d, local, None, false)
    ensures StoreReviews(keys, o, d) && RunIntent(d.before) !in o
  {
    hide ReadAll, ParentChain, LocalMatches;
  }

  lemma HonestIsValid(keys: seq<Key>, s: State, d: Dispatch)
    requires Honest(keys, s, d)
    ensures d.Valid()
  {
  }

  // --- A channel between two keys has left nothing unfinished ---

  /** The key a channel has in hand and has not seen committed. */
  predicate Busy(channel: Channel, key: Key) {
    match channel.pc
    case Holding(k, _) => k == key
    case InFlight(k, _) => k == key
    case Publishing(k, _, _, _, _) => k == key
    case Committing(k) => k == key
    case _ => false
  }

  ghost predicate Tidy(o: Objects, channel: Channel) {
    forall key | key in channel.sent && !Busy(channel, key) :: PhaseTerminal(key) in o
  }

  lemma ReadTidy(keys: seq<Key>, o: Objects, channel: Channel)
    ensures ReadNext(keys, o, channel).sent == channel.sent
    ensures forall key :: Busy(ReadNext(keys, o, channel), key) == Busy(channel, key)
  {
  }

  lemma ReactTidy(keys: seq<Key>, o: Objects, runs: seq<Claim>, log: seq<Key>, i: nat, channel: Channel, e: Event)
    requires ChannelOk(keys, o, runs, log, i, channel) && Tidy(o, channel)
    ensures Tidy(o, React(keys, o, channel, e))
  {
    hide Active, Justified, HoldsIntent, PublishedOk, SeenOk, LookOk, ExactScan, AckOk, Dispatch.Valid, ReadNext;
    if e.Read? {
      ReadTidy(keys, o, channel);
    } else if e.Acknowledge? && channel.pc.Committing? && Applied(channel) {
      assert PhaseTerminal(channel.pc.key) in o;
    }
  }

  lemma StepTidy(keys: seq<Key>, s: State, e: Event)
    requires Inv(keys, s) && forall i | 0 <= i < |s.channels| :: Tidy(s.objects, s.channels[i])
    ensures var t := Step(keys, s, e); forall i | 0 <= i < |t.channels| :: Tidy(t.objects, t.channels[i])
  {
    hide React, ChannelOk, StoreOk, RunsOk, OwnerOk, LogOk, Dispatch.Valid;
    var t := Step(keys, s, e);
    forall i | 0 <= i < |t.channels|
      ensures Tidy(t.objects, t.channels[i])
    {
      if i < |s.channels| {
        assert ChannelOk(keys, s.objects, s.runs, s.log, i, s.channels[i]);
        ReactTidy(keys, s.objects, s.runs, s.log, i, s.channels[i], e);
      }
    }
  }

  lemma {:induction false} RunTidy(keys: seq<Key>, s: State, events: seq<Event>)
    requires Inv(keys, s) && forall i | 0 <= i < |s.channels| :: Tidy(s.objects, s.channels[i])
    ensures var t := Run(keys, s, events); forall i | 0 <= i < |t.channels| :: Tidy(t.objects, t.channels[i])
    decreases |events|
  {
    hide Tidy, Step, Inv;
    if events != [] {
      StepTidy(keys, s, events[0]);
      StepKeeps(keys, s, events[0]);
      RunTidy(keys, Step(keys, s, events[0]), events[1..]);
      assert Run(keys, s, events) == Run(keys, Step(keys, s, events[0]), events[1..]);
    }
  }

  /** Whenever some channel is ready for its next key, every intent in the store has its terminal. */
  lemma {:induction false} ReadyIsQuiet(keys: seq<Key>, events: seq<Event>, i: nat)
    requires var s := Run(keys, Initial, events); i < |s.channels| && s.channels[i].pc.Ready?
    ensures Quiet(Run(keys, Initial, events).objects)
  {
    hide Run, StoreOk, LogOk, NamesOk, ChainOk;
    var s := Run(keys, Initial, events);
    Reached(keys, events);
    Reached(keys, []);
    EmptyIsTidy(keys);
    RunTidy(keys, Initial, events);
    assert ChannelOk(keys, s.objects, s.runs, s.log, i, s.channels[i]);
    assert Tidy(s.objects, s.channels[i]);
  }

  lemma EmptyIsTidy(keys: seq<Key>)
    ensures Run(keys, Initial, []) == Initial && Initial.channels == []
  {
  }

  lemma ReadyFinishes(keys: seq<Key>, s: State, i: nat, view: View) returns (more: seq<Event>)
    requires i < |s.channels| && s.channels[i].alive && s.channels[i].pc.Ready? && s.channels[i].sent != []
    requires s.channels[i].pending == None && Pinned(s.objects, s.channels[i].dispatch.binding)
    requires ReadAll(s.objects, keys, |keys|) == Some(view) && view.unknown == []
    requires RunTerminal(s.channels[i].dispatch.before) !in s.objects
    ensures var t := Run(keys, s, more);
            && i < |t.channels| && t.channels[i].pc.Finished? && t.channels[i].alive && t.runs == s.runs
            && RunTerminal(s.channels[i].dispatch.before) in t.objects
  {
    hide Run, ReadAll, Reading, StartScan, ReadNext;
    var channel := s.channels[i];
    var n := FinishRead(keys, s.objects, channel);
    RunOne(keys, s, Finish(i));
    RunReads(keys, Run(keys, s, [Finish(i)]), i, n);
    RunAppend(keys, s, [Finish(i)], Reads(i, n));
    var issued := Run(keys, s, [Finish(i)] + Reads(i, n));
    IssuesTerminal(channel, view.phases);
    RunCreate(keys, issued, i, 0);
    more := [Finish(i)] + Reads(i, n) + [Apply(i, 0), Acknowledge(i)];
    RunAppend(keys, s, [Finish(i)] + Reads(i, n), [Apply(i, 0), Acknowledge(i)]);
  }

  /** A started run that has sent something can close whenever it is ready for its next key. */
  lemma {:induction false} StartedRunCloses(keys: seq<Key>, events: seq<Event>, i: nat)
    requires var s := Run(keys, Initial, events);
             i < |s.channels| && s.channels[i].alive && s.channels[i].pc.Ready? && s.channels[i].sent != []
    ensures exists more ::
              var s, t := Run(keys, Initial, events), Run(keys, Initial, events + more);
              && i < |t.channels| && t.channels[i].pc.Finished? && t.channels[i].alive
              && RunTerminal(s.channels[i].dispatch.before) in t.objects && !Open(t.objects, t.runs)
  {
    hide Run, ReadAll, StoredCommitsOk, ChannelOk, NamesOk, ChainOk, TipOk, OwnerOk, LogOk;
    var s := Run(keys, Initial, events);
    Reached(keys, events);
    ReachedCommits(keys, events);
    ReadyIsQuiet(keys, events, i);
    QuietScan(keys, s.objects, |keys|);
    ReadyFacts(keys, s, i);
    var more := ReadyFinishes(keys, s, i, ReadAll(s.objects, keys, |keys|).value);
    RunAppend(keys, Initial, events, more);
  }

  lemma IssuesTerminal(channel: Channel, after: Checkpoint)
    requires channel.alive
    ensures var c := Issue(channel, Finishing, RunTerminal(channel.dispatch.before), RunDocument(channel, after));
            && c.alive && c.pending.Some? && c.pending.value.applied == None
            && c.pending.value.name == RunTerminal(channel.dispatch.before)
            && forall ref, request ::
                 Continue(c.(pending := request), ref) == channel.(pc := Finished, pending := None)
  {
  }

  lemma ReadyFacts(keys: seq<Key>, s: State, i: nat)
    requires Inv(keys, s) && i < |s.channels| && s.channels[i].pc.Ready?
    ensures s.channels[i].pending == None && Pinned(s.objects, s.channels[i].dispatch.binding)
    ensures Open(s.objects, s.runs) && s.runs[|s.runs| - 1].before == s.channels[i].dispatch.before
    ensures KeysKnown(keys, s.objects)
  {
    hide NamesOk, ChainOk, TipOk, OwnerOk, LogOk;
    assert ChannelOk(keys, s.objects, s.runs, s.log, i, s.channels[i]);
  }
}
