/** A phase that nothing disturbs goes through: from a channel that is ready for its next key, the intent, the one
    send, every file and the commit, and the channel is ready again. */
module ChannelPhases {
  import opened Outcomes
  import opened ChannelModel
  import opened ChannelInvariant
  import opened ChannelSteps
  import opened ChannelCommits
  import opened ChannelTheorems
  import opened ChannelProgress

  // --- Nothing is published for a key without its intent ---

  ghost predicate FilesFollow(o: Objects) {
    forall key, kind :: PhaseFile(key, kind) in o ==> PhaseIntent(key) in o
  }

  lemma PublishesOwn(keys: seq<Key>, o: Objects, runs: seq<Claim>, log: seq<Key>, i: nat, channel: Channel)
    requires ChannelOk(keys, o, runs, log, i, channel)
    ensures channel.pending.Some? && channel.pending.value.name.PhaseFile? ==>
              PhaseIntent(channel.pending.value.name.key) in o
  {
    hide SeenOk, ExactScan, LookOk, Justified, OwnsRun, AckOk, Quiet, Committed, Kinds, SentOk;
  }

  lemma StepFollows(keys: seq<Key>, s: State, e: Event)
    requires Inv(keys, s) && FilesFollow(s.objects)
    ensures FilesFollow(Step(keys, s, e).objects)
  {
    hide React, ChannelOk, StoreOk, RunsOk, OwnerOk, LogOk, Dispatch.Valid;
    if e.Apply? && e.i < |s.channels| {
      PublishesOwn(keys, s.objects, s.runs, s.log, e.i, s.channels[e.i]);
    }
  }

  lemma {:induction false} RunFollows(keys: seq<Key>, s: State, events: seq<Event>)
    requires Inv(keys, s) && FilesFollow(s.objects)
    ensures FilesFollow(Run(keys, s, events).objects)
    decreases |events|
  {
    hide FilesFollow, Step, Inv;
    if events != [] {
      StepFollows(keys, s, events[0]);
      StepKeeps(keys, s, events[0]);
      RunFollows(keys, Step(keys, s, events[0]), events[1..]);
    }
  }

  // --- From the terminal call to the commit ---

  lemma KindsApart(key: Key, state: ResultState)
    ensures forall j, k | 0 <= j < k < |Kinds(key, state)| :: Kinds(key, state)[j] != Kinds(key, state)[k]
    ensures Kinds(key, state) != []
  {
  }

  /** The files published so far, as the store holds them. */
  ghost predicate FilesDone(o: Objects, key: Key, state: ResultState, contents: seq<Content>, n: nat) {
    && n <= |contents| == |Kinds(key, state)|
    && forall j :: 0 <= j < n ==>
         PhaseFile(key, Kinds(key, state)[j]) in o && o[PhaseFile(key, Kinds(key, state)[j])].raw == contents[j]
  }

  /** And those still to come are free. */
  ghost predicate FilesFree(o: Objects, key: Key, state: ResultState, n: nat) {
    && PhaseTerminal(key) !in o
    && forall j :: n <= j < |Kinds(key, state)| ==> PhaseFile(key, Kinds(key, state)[j]) !in o
  }

  lemma OneMoreFile(o: Objects, key: Key, state: ResultState, contents: seq<Content>, n: nat, ref: Ref)
    requires FilesDone(o, key, state, contents, n) && FilesFree(o, key, state, n) && n < |contents|
    requires ref.name == PhaseFile(key, Kinds(key, state)[n]) && ref.raw == contents[n]
    ensures FilesDone(o[ref.name := ref], key, state, contents, n + 1)
    ensures FilesFree(o[ref.name := ref], key, state, n + 1)
  {
    hide Kinds;
    KindsApart(key, state);
  }

  lemma PublishesNext(channel: Channel, ref: Ref, request: Option<Request>)
    requires channel.pc.Publishing?
    requires |channel.pc.refs| < |channel.pc.contents| == |Kinds(channel.pc.key, channel.pc.state)|
    ensures var pc := channel.pc;
            var n := |pc.refs| + 1;
            Continue(channel.(pending := request), ref)
            == if n < |pc.contents|
               then channel.(pc := pc.(refs := pc.refs + [ref]),
                             pending := Some(Request(PhaseFile(pc.key, Kinds(pc.key, pc.state)[n]), pc.contents[n],
                                                     None)))
               else channel.(pc := Committing(pc.key),
                             pending := Some(Request(PhaseTerminal(pc.key),
                                                     PhaseDoc(pc.key, pc.intent, pc.refs + [ref]), None)))
  {
    hide Kinds;
  }

  lemma {:induction false} Publishes(keys: seq<Key>, s: State, i: nat) returns (more: seq<Event>)
    requires i < |s.channels| && s.channels[i].alive && s.channels[i].pc.Publishing?
    requires var pc := s.channels[i].pc;
             && |pc.refs| < |pc.contents|
             && FilesDone(s.objects, pc.key, pc.state, pc.contents, |pc.refs|)
             && FilesFree(s.objects, pc.key, pc.state, |pc.refs|)
             && s.channels[i].pending
                == Some(Request(PhaseFile(pc.key, Kinds(pc.key, pc.state)[|pc.refs|]), pc.contents[|pc.refs|], None))
    ensures var pc, t := s.channels[i].pc, Run(keys, s, more);
            && i < |t.channels| && t.channels[i] == s.channels[i].(pc := Ready, pending := None)
            && t.log == s.log && t.runs == s.runs && Grows(s.objects, t.objects)
            && FilesDone(t.objects, pc.key, pc.state, pc.contents, |pc.contents|) && PhaseTerminal(pc.key) in t.objects
    decreases |s.channels[i].pc.contents| - |s.channels[i].pc.refs|
  {
    hide Run, Continue, Kinds;
    var channel, pc := s.channels[i], s.channels[i].pc;
    var request := channel.pending.value;
    var ref := Ref(request.name, 0, request.raw);
    RunCreate(keys, s, i, 0);
    PublishesNext(channel, ref, Some(request.(applied := Some(ref))));
    OneMoreFile(s.objects, pc.key, pc.state, pc.contents, |pc.refs|, ref);
    var first := [Apply(i, 0), Acknowledge(i)];
    var t := Run(keys, s, first);
    if |pc.refs| + 1 < |pc.contents| {
      var rest := Publishes(keys, t, i);
      more := first + rest;
      RunAppend(keys, s, first, rest);
    } else {
      RunCreate(keys, t, i, 0);
      CommitsNext(t.channels[i]);
      more := first + first;
      RunAppend(keys, s, first, first);
    }
  }

  lemma CommitsNext(channel: Channel)
    requires channel.pc.Committing?
    ensures forall request, ref :: Continue(channel.(pending := request), ref) == channel.(pc := Ready, pending := None)
  {
  }

  // --- From ready to ready ---

  /** The journal's intent is created, the key is sent, and the transport's result is handed over. */
  lemma SendsOne(keys: seq<Key>, s: State, i: nat, key: Key, raw: Content, state: ResultState, contents: seq<Content>)
    returns (more: seq<Event>)
    requires i < |s.channels| && s.channels[i].alive && s.channels[i].pc.Ready? && key in keys
    requires key !in s.channels[i].sent && |s.channels[i].sent| < s.channels[i].dispatch.maxRequests
    requires PhaseIntent(key) !in s.objects
    requires |contents| == |Kinds(key, state)| && contents[0] == ResultDoc(state)
    ensures var channel, t := s.channels[i], Run(keys, s, more);
            var intent := Ref(PhaseIntent(key), 0, raw);
            && i < |t.channels| && t.log == s.log + [key] && t.runs == s.runs
            && t.objects == s.objects[PhaseIntent(key) := intent]
            && t.channels[i]
               == channel.(pc := Publishing(key, intent, state, contents, []), sent := channel.sent + [key],
                           pending := Some(Request(PhaseFile(key, Kinds(key, state)[0]), contents[0], None)))
  {
    hide Run, Kinds, Dispatch.Valid, ReadNext, StartScan;
    KindsApart(key, state);
    var channel, intent := s.channels[i], Ref(PhaseIntent(key), 0, raw);
    RunOne(keys, s, BeforeSend(i, key, raw));
    var s1 := Run(keys, s, [BeforeSend(i, key, raw)]);
    var create := [Apply(i, 0), Acknowledge(i)];
    RunCreate(keys, s1, i, 0);
    RunAppend(keys, s, [BeforeSend(i, key, raw)], create);
    var first := [BeforeSend(i, key, raw)] + create;
    var s2 := Run(keys, s, first);
    RunOne(keys, s2, Send(i));
    RunAppend(keys, s, first, [Send(i)]);
    var s3 := Run(keys, s, first + [Send(i)]);
    RunOne(keys, s3, Terminal(i, state, contents));
    more := first + [Send(i)] + [Terminal(i, state, contents)];
    RunAppend(keys, s, first + [Send(i)], [Terminal(i, state, contents)]);
  }

  /** After any history, a channel that is ready and may still send can take any key of the plan that was never
      claimed through its phase, whatever the transport answers: the key is sent once, intent and files are stored
      with exactly these bytes, the commit is in order, and the channel is ready for the next key. */
  lemma {:induction false} PhaseGoesThrough(keys: seq<Key>, events: seq<Event>, i: nat, key: Key, raw: Content,
                                            state: ResultState, contents: seq<Content>)
    requires var s := Run(keys, Initial, events);
             && i < |s.channels| && s.channels[i].alive && s.channels[i].pc.Ready? && key in keys
             && key !in s.channels[i].sent && |s.channels[i].sent| < s.channels[i].dispatch.maxRequests
             && PhaseIntent(key) !in s.objects
    requires |contents| == |Kinds(key, state)| && contents[0] == ResultDoc(state)
    ensures exists more ::
              var s, t := Run(keys, Initial, events), Run(keys, Initial, events + more);
              && i < |t.channels| && t.channels[i] == s.channels[i].(sent := s.channels[i].sent + [key])
              && t.log == s.log + [key] && t.runs == s.runs && Grows(s.objects, t.objects)
              && PhaseIntent(key) in t.objects && t.objects[PhaseIntent(key)].raw == raw
              && FilesDone(t.objects, key, state, contents, |contents|)
              && PhaseTerminal(key) in t.objects
              && InOrder(key, t.objects[PhaseIntent(key)], t.objects[PhaseTerminal(key)].raw)
  {
    hide Run, Inv, Kinds, InOrder;
    var s := Run(keys, Initial, events);
    NothingYet(keys);
    RunFollows(keys, Initial, events);
    Reached(keys, events);
    ReadyHolds(keys, s, i, key);
    var first := SendsOne(keys, s, i, key, raw, state, contents);
    var sent := Run(keys, s, first);
    KindsApart(key, state);
    StillFree(s.objects, Ref(PhaseIntent(key), 0, raw), key, state, contents);
    var rest := Publishes(keys, sent, i);
    RunAppend(keys, s, first, rest);
    RunAppend(keys, Initial, events, first + rest);
    CommitAtomicity(keys, events + (first + rest), key);
  }

  lemma NothingYet(keys: seq<Key>)
    ensures Inv(keys, Initial) && FilesFollow(Initial.objects)
  {
    Reached(keys, []);
  }

  lemma ReadyHolds(keys: seq<Key>, s: State, i: nat, key: Key)
    requires Inv(keys, s) && i < |s.channels| && s.channels[i].pc.Ready? && PhaseIntent(key) !in s.objects
    ensures s.channels[i].pending == None && PhaseTerminal(key) !in s.objects
  {
    hide RunsOk, OwnerOk, LogOk;
    assert ChannelOk(keys, s.objects, s.runs, s.log, i, s.channels[i]);
  }

  lemma StillFree(o: Objects, intent: Ref, key: Key, state: ResultState, contents: seq<Content>)
    requires FilesFollow(o) && PhaseIntent(key) !in o && PhaseTerminal(key) !in o
    requires |contents| == |Kinds(key, state)|
    ensures var o' := o[PhaseIntent(key) := intent];
            FilesFree(o', key, state, 0) && FilesDone(o', key, state, contents, 0) && Grows(o, o')
  {
    hide Kinds;
  }
}
