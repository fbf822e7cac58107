/** What every event of the object-channel protocol keeps. */
module ChannelInvariant {
  import opened Outcomes
  import opened ChannelModel

  ghost predicate Grows(o: Objects, o': Objects) {
    forall n :: n in o ==> n in o' && o'[n] == o[n]
  }

  function Committed(keys: seq<Key>, o: Objects): Checkpoint {
    map key | key in keys && PhaseTerminal(key) in o :: o[PhaseTerminal(key)]
  }

  ghost predicate Extends(small: Checkpoint, large: Checkpoint) {
    forall key :: key in small ==> key in large && large[key] == small[key]
  }

  predicate Distinct<T(==)>(s: seq<T>) {
    forall i, j :: 0 <= i < j < |s| ==> s[i] != s[j]
  }

  // --- The store ---

  ghost predicate KeysKnown(keys: seq<Key>, o: Objects) {
    && (forall key :: PhaseIntent(key) in o ==> key in keys)
    && (forall key :: PhaseTerminal(key) in o ==> PhaseIntent(key) in o)
  }

  ghost predicate StoreOk(keys: seq<Key>, o: Objects) {
    && (forall n :: n in o ==> o[n].name == n)
    && KeysKnown(keys, o)
  }

  ghost predicate Quiet(o: Objects) {
    forall key :: PhaseIntent(key) in o ==> PhaseTerminal(key) in o
  }

  // --- The claims ---

  ghost predicate Open(o: Objects, runs: seq<Claim>) {
    |runs| > 0 && RunTerminal(runs[|runs| - 1].before) !in o
  }

  ghost predicate AckOk(o: Objects, ack: Ref, dispatched: Content) {
    Pinned(o, ack) && ack.raw == dispatched
  }

  /** What a stored run terminal says about the claim it closes. */
  ghost predicate DoneOk(o: Objects, claim: Claim, done: Ref) {
    && done.raw.RunDoc?
    && done.raw.before == claim.before
    && done.raw.parent == claim.parent
    && Extends(done.raw.before, done.raw.after)
    && done.raw.requests == |done.raw.after| - |done.raw.before|
    && 1 <= done.raw.requests <= 10
    && done.raw.binding.name == BindingName && Pinned(o, done.raw.binding)
    && AckOk(o, done.raw.ack, done.raw.dispatched)
  }

  ghost predicate Claimed(runs: seq<Claim>, before: Checkpoint) {
    exists i :: 0 <= i < |runs| && runs[i].before == before
  }

  ghost predicate Linked(o: Objects, older: Claim, newer: Claim) {
    && RunTerminal(older.before) in o
    && o[RunTerminal(older.before)].raw.RunDoc?
    && o[RunTerminal(older.before)].raw.after == newer.before
    && newer.parent == Some(o[RunTerminal(older.before)])
  }

  /** Claims and run terminals in the store are those of the history. */
  ghost predicate NamesOk(o: Objects, runs: seq<Claim>) {
    && (forall b :: RunIntent(b) in o <==> Claimed(runs, b))
    && (forall b :: RunTerminal(b) in o ==> Claimed(runs, b))
    && (forall i, j :: 0 <= i < j < |runs| ==> runs[i].before != runs[j].before)
  }

  /** Every run starts where the one before it ended. */
  ghost predicate ChainOk(o: Objects, runs: seq<Claim>) {
    && (runs != [] ==> runs[0].before == map[] && runs[0].parent == None)
    && (forall i :: 0 < i < |runs| ==> Linked(o, runs[i - 1], runs[i]))
    && (forall i :: 0 <= i < |runs| && RunTerminal(runs[i].before) in o ==>
          DoneOk(o, runs[i], o[RunTerminal(runs[i].before)]))
  }

  /** The last run accounts for everything committed. */
  ghost predicate TipOk(keys: seq<Key>, o: Objects, runs: seq<Claim>) {
    && (runs == [] ==> forall key :: PhaseIntent(key) !in o)
    && (runs != [] && !Open(o, runs) ==>
          && Quiet(o) && o[RunTerminal(runs[|runs| - 1].before)].raw.RunDoc?
          && o[RunTerminal(runs[|runs| - 1].before)].raw.after == Committed(keys, o))
    && (Open(o, runs) ==> Extends(runs[|runs| - 1].before, Committed(keys, o)))
  }

  ghost predicate RunsOk(keys: seq<Key>, o: Objects, runs: seq<Claim>) {
    NamesOk(o, runs) && ChainOk(o, runs) && TipOk(keys, o, runs)
  }

  /** Keys whose intent the channel has put in the store in this run. */
  ghost predicate InHand(channel: Channel, key: Key) {
    || key in channel.sent
    || (channel.pc == Intending(key) && channel.pending.Some? && channel.pending.value.applied.Some?)
  }

  ghost predicate OwnerOk(o: Objects, runs: seq<Claim>, channels: seq<Channel>) {
    Open(o, runs) ==>
      var last := runs[|runs| - 1];
      && last.owner < |channels|
      && OwnsRun(o, runs, last.owner, channels[last.owner].dispatch)
      && forall key :: PhaseIntent(key) in o ==> key in last.before || InHand(channels[last.owner], key)
  }

  // --- The channels ---

  ghost predicate OwnsRun(o: Objects, runs: seq<Claim>, i: nat, d: Dispatch) {
    Open(o, runs) && runs[|runs| - 1] == Claim(d.before, i, d.parent)
  }

  ghost predicate Justified(o: Objects, d: Dispatch) {
    match d.parent
    case None => d.before == map[]
    case Some(ref) => Pinned(o, ref) && LinkShape(ref, d.binding, d.before)
  }

  ghost predicate SentOk(keys: seq<Key>, o: Objects, d: Dispatch, sent: seq<Key>) {
    && Distinct(sent) && |sent| <= d.maxRequests
    && forall key :: key in sent ==> key in keys && PhaseIntent(key) in o && key !in d.before
  }

  /** Started and not yet finished: this channel owns the open run. */
  ghost predicate Active(keys: seq<Key>, o: Objects, runs: seq<Claim>, i: nat, d: Dispatch, sent: seq<Key>) {
    && OwnsRun(o, runs, i, d)
    && SentOk(keys, o, d, sent)
    && Pinned(o, d.binding)
    && AckOk(o, d.ack, d.Document())
  }

  ghost predicate SeenOk(o: Objects, seen: Checkpoint) {
    forall key :: key in seen ==> PhaseTerminal(key) in o && seen[key] == o[PhaseTerminal(key)]
  }

  ghost predicate LookOk(o: Objects, key: Key, look: Look) {
    match look
    case AtIntent => true
    case AtCommit(intent) => intent.Some? ==> PhaseIntent(key) in o
    case AtFiles(commit, _) => Pinned(o, commit) && commit.name == PhaseTerminal(key)
  }

  /** The scan of `finish` is exact: nobody else writes phase objects meanwhile. */
  ghost predicate ExactScan(keys: seq<Key>, o: Objects, pc: Pc)
    requires pc.Scan?
  {
    && (forall j :: 0 <= j < pc.index && j < |keys| && PhaseTerminal(keys[j]) in o ==> keys[j] in pc.seen)
    && (!pc.unknown ==>
          forall j :: 0 <= j < pc.index && j < |keys| && PhaseIntent(keys[j]) in o ==> PhaseTerminal(keys[j]) in o)
    && (pc.index < |keys| && pc.look.AtCommit? ==>
          (pc.look.intent.Some? <==> PhaseIntent(keys[pc.index]) in o))
  }

  ghost predicate Pends(o: Objects, channel: Channel, name: Name) {
    && channel.pending.Some? && channel.pending.value.name == name
    && (channel.pending.value.applied.Some? ==>
          && Pinned(o, channel.pending.value.applied.value)
          && channel.pending.value.applied.value.name == name
          && channel.pending.value.applied.value.raw == channel.pending.value.raw)
  }

  ghost predicate Applied(channel: Channel) {
    channel.pending.Some? && channel.pending.value.applied.Some?
  }

  ghost predicate PublishedOk(o: Objects, key: Key, state: ResultState, contents: seq<Content>, refs: seq<Ref>) {
    && |refs| <= |contents| == |Kinds(key, state)| && contents[0] == ResultDoc(state)
    && forall j :: 0 <= j < |refs| ==>
         Pinned(o, refs[j]) && refs[j].name == PhaseFile(key, Kinds(key, state)[j]) && refs[j].raw == contents[j]
  }

  ghost predicate HoldsIntent(o: Objects, channel: Channel, key: Key, intent: Ref) {
    key in channel.sent && PhaseIntent(key) in o && o[PhaseIntent(key)] == intent
  }

  ghost predicate ChannelOk(keys: seq<Key>, o: Objects, runs: seq<Claim>, log: seq<Key>, i: nat, channel: Channel) {
    && channel.dispatch.Valid()
    && match channel.pc
       case Idle => channel.sent == [] && channel.pending == None
       case Scan(purpose, _, seen, any, unknown, look) =>
         && channel.pending == None && SeenOk(o, seen) && seen.Keys <= (set key | key in keys)
         && (channel.pc.index < |keys| ==> LookOk(o, keys[channel.pc.index], look))
         && (!any ==> seen == map[]) && channel.pc.index <= |keys|
         && Pinned(o, channel.dispatch.binding)
         && (purpose == ForBegin ==> channel.sent == [])
         && (purpose == ForFinish ==>
               Active(keys, o, runs, i, channel.dispatch, channel.sent) && ExactScan(keys, o, channel.pc))
       case ReadAck(any) =>
         && channel.sent == [] && channel.pending == None && Pinned(o, channel.dispatch.binding)
         && (!any ==> channel.dispatch.before == map[])
       case Walk(reference, checkpoint, visited, atAck) =>
         && channel.sent == [] && channel.pending == None && Pinned(o, channel.dispatch.binding)
         && AckOk(o, channel.dispatch.ack, channel.dispatch.Document())
         && (if visited == {} then reference == channel.dispatch.parent && reference.Some?
                                   && checkpoint == channel.dispatch.before && !atAck
             else channel.dispatch.parent.Some? && Justified(o, channel.dispatch))
       case Claiming =>
         && channel.sent == [] && Pends(o, channel, RunIntent(channel.dispatch.before))
         && Pinned(o, channel.dispatch.binding)
         && AckOk(o, channel.dispatch.ack, channel.dispatch.Document())
         && Justified(o, channel.dispatch)
         && (Applied(channel) ==> OwnsRun(o, runs, i, channel.dispatch))
       case Ready => Active(keys, o, runs, i, channel.dispatch, channel.sent) && channel.pending == None
       case Intending(key) =>
         && Active(keys, o, runs, i, channel.dispatch, channel.sent) && Pends(o, channel, PhaseIntent(key))
         && key in keys && key !in channel.sent && |channel.sent| < channel.dispatch.maxRequests
         && (Applied(channel) ==> key !in log && key !in channel.dispatch.before)
       case Holding(key, intent) =>
         && Active(keys, o, runs, i, channel.dispatch, channel.sent) && channel.pending == None
         && HoldsIntent(o, channel, key, intent) && key !in log
       case InFlight(key, intent) =>
         && Active(keys, o, runs, i, channel.dispatch, channel.sent) && channel.pending == None
         && HoldsIntent(o, channel, key, intent)
       case Publishing(key, intent, state, contents, refs) =>
         && Active(keys, o, runs, i, channel.dispatch, channel.sent) && HoldsIntent(o, channel, key, intent)
         && PublishedOk(o, key, state, contents, refs) && |refs| < |contents|
         && Pends(o, channel, PhaseFile(key, Kinds(key, state)[|refs|]))
         && channel.pending.value.raw == contents[|refs|]
       case Committing(key) =>
         && Active(keys, o, runs, i, channel.dispatch, channel.sent) && Pends(o, channel, PhaseTerminal(key))
         && key in channel.sent
       case Finishing =>
         && Pends(o, channel, RunTerminal(channel.dispatch.before))
         && (!Applied(channel) ==>
               && Active(keys, o, runs, i, channel.dispatch, channel.sent) && channel.sent != [] && Quiet(o)
               && channel.pending.value.raw == RunDocument(channel, Committed(keys, o)))
       case Finished => channel.pending == None
  }

  ghost predicate LogOk(o: Objects, log: seq<Key>) {
    Distinct(log) && forall key :: key in log ==> PhaseIntent(key) in o
  }

  ghost predicate Inv(keys: seq<Key>, s: State) {
    && StoreOk(keys, s.objects)
    && RunsOk(keys, s.objects, s.runs)
    && OwnerOk(s.objects, s.runs, s.channels)
    && LogOk(s.objects, s.log)
    && forall i :: 0 <= i < |s.channels| ==> ChannelOk(keys, s.objects, s.runs, s.log, i, s.channels[i])
  }

  // --- Reactions of one channel: the store, the claims and the log stay as they are ---

  /** `begin` and `finish` start a scan. */
  lemma StartScanKeeps(keys: seq<Key>, o: Objects, runs: seq<Claim>, log: seq<Key>, i: nat, channel: Channel,
                       purpose: Purpose)
    requires ChannelOk(keys, o, runs, log, i, channel)
    requires if purpose == ForBegin then channel.pc.Idle? else channel.pc.Ready?
    ensures ChannelOk(keys, o, runs, log, i, StartScan(o, channel, purpose))
  {
  }

  lemma ScanIntentKeeps(keys: seq<Key>, o: Objects, runs: seq<Claim>, log: seq<Key>, i: nat, channel: Channel)
    requires ChannelOk(keys, o, runs, log, i, channel)
    requires channel.pc.Scan? && channel.pc.index < |keys| && channel.pc.look.AtIntent?
    ensures ChannelOk(keys, o, runs, log, i, ScanKey(keys, o, channel))
  {
  }

  /** A key without a commit: its intent is missing, or unfinished. */
  lemma {:induction false} ScanUncommittedKeeps(keys: seq<Key>, o: Objects, runs: seq<Claim>, log: seq<Key>, i: nat,
                                                channel: Channel, any: bool, unknown: bool)
    requires KeysKnown(keys, o) && ChannelOk(keys, o, runs, log, i, channel)
    requires channel.pc.Scan? && channel.pc.index < |keys|
    requires PhaseTerminal(keys[channel.pc.index]) !in o
    requires (channel.pc.any ==> any) && (channel.pc.unknown ==> unknown)
    requires channel.pc.purpose == ForFinish && PhaseIntent(keys[channel.pc.index]) in o ==> unknown
    ensures ChannelOk(keys, o, runs, log, i, NextKey(channel, channel.pc.seen, any, unknown))
  {
  }

  lemma ScanCommitKeeps(keys: seq<Key>, o: Objects, runs: seq<Claim>, log: seq<Key>, i: nat, channel: Channel)
    requires StoreOk(keys, o)
    requires ChannelOk(keys, o, runs, log, i, channel)
    requires channel.pc.Scan? && channel.pc.index < |keys| && channel.pc.look.AtCommit?
    ensures ChannelOk(keys, o, runs, log, i, ScanKey(keys, o, channel))
  {
    hide CommitShape, CommitComplete, Active, Justified, SeenOk, Pends, PublishedOk, HoldsIntent, Committed, Quiet;
    var pc := channel.pc;
    if PhaseTerminal(keys[pc.index]) !in o {
      if pc.look.intent.None? {
        ScanUncommittedKeeps(keys, o, runs, log, i, channel, pc.any, pc.unknown);
      } else {
        ScanUncommittedKeeps(keys, o, runs, log, i, channel, true, true);
      }
    }
  }

  lemma {:induction false} ScanFilesKeeps(keys: seq<Key>, o: Objects, runs: seq<Claim>, log: seq<Key>, i: nat,
                                          channel: Channel)
    requires KeysKnown(keys, o)
    requires ChannelOk(keys, o, runs, log, i, channel)
    requires channel.pc.Scan? && channel.pc.index < |keys| && channel.pc.look.AtFiles?
    ensures ChannelOk(keys, o, runs, log, i, ScanKey(keys, o, channel))
  {
    hide Active;
    var next := ScanKey(keys, o, channel);
    if next.pc.look.AtIntent? {
      var key := keys[channel.pc.index];
      assert next.pc.seen == channel.pc.seen[key := o[PhaseTerminal(key)]];
      if channel.pc.purpose == ForFinish {
        NextKeyExact(keys, o, channel.pc, next.pc);
      }
    }
  }

  /** Moving to the next key keeps the scan exact when this key was judged rightly. */
  lemma NextKeyExact(keys: seq<Key>, o: Objects, pc: Pc, next: Pc)
    requires pc.Scan? && pc.index < |keys| && ExactScan(keys, o, pc)
    requires next.Scan? && next.index == pc.index + 1 && next.look == AtIntent
    requires pc.seen.Keys <= next.seen.Keys && (!next.unknown ==> !pc.unknown)
    requires PhaseTerminal(keys[pc.index]) in o ==> keys[pc.index] in next.seen
    requires !next.unknown && PhaseIntent(keys[pc.index]) in o ==> PhaseTerminal(keys[pc.index]) in o
    ensures ExactScan(keys, o, next)
  {
  }

  /** The scan of `finish` saw exactly the committed phases. */
  lemma {:induction false} ExactScanIsCommitted(keys: seq<Key>, o: Objects, pc: Pc)
    requires KeysKnown(keys, o)
    requires pc.Scan? && pc.index == |keys| && SeenOk(o, pc.seen) && pc.seen.Keys <= (set key | key in keys)
    requires ExactScan(keys, o, pc) && !pc.unknown
    ensures pc.seen == Committed(keys, o) && Quiet(o)
  {
  }

  lemma {:induction false} EndScanKeeps(keys: seq<Key>, o: Objects, runs: seq<Claim>, log: seq<Key>, i: nat,
                                        channel: Channel)
    requires StoreOk(keys, o) && ChannelOk(keys, o, runs, log, i, channel)
    requires channel.pc.Scan? && channel.pc.index == |keys|
    ensures ChannelOk(keys, o, runs, log, i, EndScan(channel))
  {
    if channel.pc.purpose == ForFinish && !channel.pc.unknown {
      ExactScanIsCommitted(keys, o, channel.pc);
    }
  }

  lemma ReadAckKeeps(keys: seq<Key>, o: Objects, runs: seq<Claim>, log: seq<Key>, i: nat, channel: Channel)
    requires ChannelOk(keys, o, runs, log, i, channel) && channel.pc.ReadAck?
    ensures ChannelOk(keys, o, runs, log, i, ReadAckObject(o, channel))
  {
  }

  lemma {:induction false} WalkKeeps(keys: seq<Key>, o: Objects, runs: seq<Claim>, log: seq<Key>, i: nat,
                                     channel: Channel)
    requires ChannelOk(keys, o, runs, log, i, channel) && channel.pc.Walk?
    ensures ChannelOk(keys, o, runs, log, i, WalkParent(keys, o, channel))
  {
    hide LinkShape, AckOk, OwnsRun, Active, SeenOk, Committed, Quiet;
  }

  lemma PublishNextKeeps(keys: seq<Key>, o: Objects, runs: seq<Claim>, log: seq<Key>, i: nat, channel: Channel,
                         key: Key, intent: Ref, state: ResultState, contents: seq<Content>, refs: seq<Ref>)
    requires channel.dispatch.Valid() && Active(keys, o, runs, i, channel.dispatch, channel.sent)
             && HoldsIntent(o, channel, key, intent)
    requires PublishedOk(o, key, state, contents, refs)
    ensures ChannelOk(keys, o, runs, log, i, PublishNext(channel, key, intent, state, contents, refs))
  {
    hide Active, Justified, SeenOk, LookOk, ExactScan, AckOk, Committed, Quiet, RunDocument, Kinds, Pinned;
  }

  lemma ContinueKeeps(keys: seq<Key>, o: Objects, runs: seq<Claim>, log: seq<Key>, i: nat, channel: Channel)
    requires StoreOk(keys, o) && ChannelOk(keys, o, runs, log, i, channel) && Applied(channel)
    ensures ChannelOk(keys, o, runs, log, i, Continue(channel, channel.pending.value.applied.value))
  {
    hide CommitShape, CommitComplete, ExactScan, SeenOk, LookOk, Justified, OwnsRun, AckOk, Committed, Quiet;
    hide PublishNext, RunDocument, Kinds, StoreOk;
    var ref := channel.pending.value.applied.value;
    match channel.pc
    case Publishing(key, intent, state, contents, refs) =>
      PublishNextKeeps(keys, o, runs, log, i, channel.(pending := None), key, intent, state, contents, refs + [ref]);
    case _ =>
  }

  lemma BeforeSendKeeps(keys: seq<Key>, o: Objects, runs: seq<Claim>, log: seq<Key>, i: nat, channel: Channel, e: Event)
    requires ChannelOk(keys, o, runs, log, i, channel) && e.BeforeSend?
    ensures ChannelOk(keys, o, runs, log, i, React(keys, o, channel, e))
  {
  }

  lemma ReactKeeps(keys: seq<Key>, o: Objects, runs: seq<Claim>, log: seq<Key>, i: nat, channel: Channel, e: Event)
    requires StoreOk(keys, o) && ChannelOk(keys, o, runs, log, i, channel)
    ensures ChannelOk(keys, o, runs, log, i, React(keys, o, channel, e))
  {
    hide Active, SentOk, Pends, HoldsIntent, SeenOk, LookOk, ExactScan, Justified, AckOk;
    hide ScanKey, EndScan, WalkParent, ReadAckObject, PublishNext, Continue, StartScan, Committed, Quiet;
    hide Dispatch.Valid;
    match e
    case Begin(_) =>
      if channel.pc.Idle? { StartScanKeeps(keys, o, runs, log, i, channel, ForBegin); }
    case Finish(_) =>
      if channel.pc.Ready? { StartScanKeeps(keys, o, runs, log, i, channel, ForFinish); }
    case Read(_) =>
      if channel.pc.Scan? {
        if channel.pc.index < |keys| {
          match channel.pc.look
          case AtIntent => ScanIntentKeeps(keys, o, runs, log, i, channel);
          case AtCommit(_) => ScanCommitKeeps(keys, o, runs, log, i, channel);
          case AtFiles(_, _) => ScanFilesKeeps(keys, o, runs, log, i, channel);
        }
        else { EndScanKeeps(keys, o, runs, log, i, channel); }
      } else if channel.pc.ReadAck? {
        ReadAckKeeps(keys, o, runs, log, i, channel);
      } else if channel.pc.Walk? {
        WalkKeeps(keys, o, runs, log, i, channel);
      }
    case Acknowledge(_) =>
      if Applied(channel) { ContinueKeeps(keys, o, runs, log, i, channel); }
    case Terminal(_, state, contents) =>
      if channel.pc.InFlight? && |contents| == |Kinds(channel.pc.key, state)| && contents[0] == ResultDoc(state) {
        PublishNextKeeps(keys, o, runs, log, i, channel, channel.pc.key, channel.pc.intent, state, contents, []);
      }
    case BeforeSend(_, _, _) => BeforeSendKeeps(keys, o, runs, log, i, channel, e);
    case _ =>
  }

  /** A reaction never forgets an intent the channel put in the store. */
  lemma ReactKeepsHand(keys: seq<Key>, o: Objects, runs: seq<Claim>, log: seq<Key>, i: nat, channel: Channel,
                       e: Event, key: Key)
    requires ChannelOk(keys, o, runs, log, i, channel) && InHand(channel, key)
    ensures InHand(React(keys, o, channel, e), key)
  {
  }

  lemma ReactKeepsDispatch(keys: seq<Key>, o: Objects, channel: Channel, e: Event)
    ensures React(keys, o, channel, e).dispatch == channel.dispatch
  {
  }
}
