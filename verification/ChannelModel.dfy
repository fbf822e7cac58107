/** The object-channel protocol of backend/scripts/native_acquisition_channel.py as a
    transition system: any number of channels share one create-only object store.

    A digest is modelled as the digested value itself, so two digests agree exactly when the
    bytes agree, and an object reference carries the bytes it pins.  Object names are a
    datatype: one constructor for each family of names the script builds. */
module ChannelModel {
  import opened Outcomes

  datatype Phase = Source | Compile | Pdf

  datatype Key = Key(caseId: nat, phase: Phase)

  datatype Kind = ResultFile | RawFile | RetainedFile | CompiledFile

  datatype ResultState = Captured | RefusedByService | InvalidResponse

  /** The committed phases, each with the reference of its commit object.  Its digest names
      the checkpoint. */
  type Checkpoint = map<Key, Ref>

  datatype Name =
    | BindingName
    | AckName(id: nat)
    | RunIntent(before: Checkpoint)
    | RunTerminal(before: Checkpoint)
    | PhaseIntent(key: Key)
    | PhaseTerminal(key: Key)
    | PhaseFile(key: Key, kind: Kind)

  datatype Ref = Ref(name: Name, generation: nat, raw: Content)

  datatype Content =
    | Bytes(data: seq<nat>)
    | ResultDoc(state: ResultState)
    | AckDoc(binding: Ref, before: Checkpoint, parent: Option<Ref>, maxRequests: nat)
    | ClaimDoc(dispatched: Content, before: Checkpoint)
    | RunDoc(ack: Ref, dispatched: Content, binding: Ref, before: Checkpoint, after: Checkpoint,
             requests: nat, parent: Option<Ref>)
    | PhaseDoc(key: Key, intent: Ref, files: seq<Ref>)

  type Objects = map<Name, Ref>

  /** The reviewed external handoff that one channel is built with. */
  datatype Dispatch = Dispatch(binding: Ref, ack: Ref, before: Checkpoint, parent: Option<Ref>,
                               maxRequests: nat)
  {
    predicate Valid() {
      binding.name == BindingName && ack.name.AckName? && 1 <= maxRequests <= 10
    }

    /** The acknowledgement object's bytes: the dispatch without its own reference. */
    function Document(): Content {
      AckDoc(binding, before, parent, maxRequests)
    }
  }

  /** The files a phase publishes, in the order the script creates them. */
  function Kinds(key: Key, state: ResultState): seq<Kind> {
    [ResultFile]
    + (if state != RefusedByService then [RawFile, RetainedFile] else [])
    + (if state == Captured && key.phase == Compile then [CompiledFile] else [])
  }

  function FileNames(key: Key, state: ResultState): set<Name> {
    set kind | kind in Kinds(key, state) :: PhaseFile(key, kind)
  }

  function AllowedNames(key: Key): set<Name> {
    {PhaseFile(key, ResultFile), PhaseFile(key, RawFile), PhaseFile(key, RetainedFile)}
    + if key.phase == Compile then {PhaseFile(key, CompiledFile)} else {}
  }

  function RefNames(files: seq<Ref>): set<Name> {
    set file | file in files :: file.name
  }

  predicate Pinned(objects: Objects, ref: Ref) {
    ref.name in objects && objects[ref.name] == ref
  }

  /** The checks `_phase` makes on a commit document before it opens the listed files. */
  predicate CommitShape(key: Key, intent: Ref, raw: Content) {
    && raw.PhaseDoc? && raw.key == key && raw.intent == intent
    && (forall i, j :: 0 <= i < j < |raw.files| ==> raw.files[i].name != raw.files[j].name)
    && RefNames(raw.files) <= AllowedNames(key)
    && PhaseFile(key, ResultFile) in RefNames(raw.files)
  }

  /** The checks `_phase` makes once every listed file has been read back. */
  predicate CommitComplete(key: Key, files: seq<Ref>) {
    exists i :: 0 <= i < |files| && files[i].name == PhaseFile(key, ResultFile) && files[i].raw.ResultDoc?
                && RefNames(files) == FileNames(key, files[i].raw.state)
  }

  /** One link of `_parent`: the pinned object is a completed run's terminal that ends at `after`. */
  predicate LinkShape(ref: Ref, binding: Ref, after: Checkpoint) {
    && ref.raw.RunDoc? && ref.raw.binding == binding && ref.raw.after == after
    && 1 <= ref.raw.requests <= 10
    && ref.name == RunTerminal(ref.raw.before)
  }

  // --- Channels ---

  /** Why `_remote` runs: once inside `begin` and once inside `finish`. */
  datatype Purpose = ForBegin | ForFinish

  /** The next object read of `_phase`. */
  datatype Look =
    | AtIntent
    | AtCommit(intent: Option<Ref>)
    | AtFiles(commit: Ref, todo: seq<Ref>)

  /** Program counter of one channel.  Every constructor is a point between two store
      operations, so another channel may act there. */
  datatype Pc =
    | Idle
    | Scan(purpose: Purpose, index: nat, seen: Checkpoint, any: bool, unknown: bool, look: Look)
    | ReadAck(any: bool)
    | Walk(reference: Option<Ref>, checkpoint: Checkpoint, visited: set<Name>, atAck: bool)
    | Claiming
    | Ready
    | Intending(key: Key)
    | Holding(key: Key, intent: Ref)
    | InFlight(key: Key, intent: Ref)
    | Publishing(key: Key, intent: Ref, state: ResultState, contents: seq<Content>, refs: seq<Ref>)
    | Committing(key: Key)
    | Finishing
    | Finished

  /** A create request.  `applied` is set when the store took it, whether or not the
      acknowledgement reaches the channel. */
  datatype Request = Request(name: Name, raw: Content, applied: Option<Ref>)

  datatype Channel = Channel(dispatch: Dispatch, pc: Pc, sent: seq<Key>, pending: Option<Request>,
                             alive: bool)

  /** History of a claim that reached the store. */
  datatype Claim = Claim(before: Checkpoint, owner: nat, parent: Option<Ref>)

  /** `log` is what the transport received and `runs` the claims in the order the store took
      them; no channel reads either. */
  datatype State = State(objects: Objects, channels: seq<Channel>, log: seq<Key>, runs: seq<Claim>)

  datatype Event =
    | Publish(ref: Ref)                 // the external authority stores a binding or a dispatch ack
    | Build(dispatch: Dispatch)         // a new Channel object
    | Begin(i: nat)
    | Read(i: nat)                      // the channel's next store read
    | Apply(i: nat, generation: nat)    // the store takes a create request
    | Acknowledge(i: nat)               // and its acknowledgement arrives
    | BeforeSend(i: nat, key: Key, raw: Content)
    | Send(i: nat)                      // the transport receives the key
    | Terminal(i: nat, state: ResultState, contents: seq<Content>)
    | Finish(i: nat)
    | Crash(i: nat)                     // exception, refusal or process death at any point

  const Initial := State(map[], [], [], [])

  function Refuse(channel: Channel): Channel {
    channel.(alive := false)
  }

  function Issue(channel: Channel, pc: Pc, name: Name, raw: Content): Channel {
    channel.(pc := pc, pending := Some(Request(name, raw, None)))
  }

  function NextKey(channel: Channel, seen: Checkpoint, any: bool, unknown: bool): Channel
    requires channel.pc.Scan?
  {
    channel.(pc := Scan(channel.pc.purpose, channel.pc.index + 1, seen, any, unknown, AtIntent))
  }

  function Lookup(objects: Objects, name: Name): Option<Ref> {
    if name in objects then Some(objects[name]) else None
  }

  /** One read of `_phase` inside `_remote`. */
  function ScanKey(keys: seq<Key>, objects: Objects, channel: Channel): Channel
    requires channel.pc.Scan? && channel.pc.index < |keys|
  {
    var pc := channel.pc;
    var key := keys[pc.index];
    match pc.look
    case AtIntent =>
      channel.(pc := pc.(look := AtCommit(Lookup(objects, PhaseIntent(key)))))
    case AtCommit(intent) =>
      var commit := Lookup(objects, PhaseTerminal(key));
      if intent.None? then
        if commit.Some? then Refuse(channel) else NextKey(channel, pc.seen, pc.any, pc.unknown)
      else if commit.None? then
        NextKey(channel, pc.seen, true, true)
      else if CommitShape(key, intent.value, commit.value.raw) then
        channel.(pc := pc.(look := AtFiles(commit.value, commit.value.raw.files)))
      else Refuse(channel)
    case AtFiles(commit, todo) =>
      if todo != [] then
        if Pinned(objects, todo[0]) then channel.(pc := pc.(look := AtFiles(commit, todo[1..])))
        else Refuse(channel)
      else if commit.raw.PhaseDoc? && CommitComplete(key, commit.raw.files) then
        NextKey(channel, pc.seen[key := commit], true, pc.unknown)
      else Refuse(channel)
  }

  function RunDocument(channel: Channel, after: Checkpoint): Content {
    var d := channel.dispatch;
    RunDoc(d.ack, d.Document(), d.binding, d.before, after, |channel.sent|, d.parent)
  }

  /** The scan is over: `begin` compares the checkpoint, `finish` writes the run terminal. */
  function EndScan(channel: Channel): Channel
    requires channel.pc.Scan?
  {
    var pc := channel.pc;
    if pc.unknown then Refuse(channel)
    else if pc.purpose == ForBegin then
      if pc.seen == channel.dispatch.before then channel.(pc := ReadAck(pc.any)) else Refuse(channel)
    else if channel.sent == [] then Refuse(channel)
    else Issue(channel, Finishing, RunTerminal(channel.dispatch.before), RunDocument(channel, pc.seen))
  }

  function IssueClaim(channel: Channel): Channel {
    var d := channel.dispatch;
    Issue(channel, Claiming, RunIntent(d.before), ClaimDoc(d.Document(), d.before))
  }

  function ReadAckObject(objects: Objects, channel: Channel): Channel
    requires channel.pc.ReadAck?
  {
    var d := channel.dispatch;
    if !(Pinned(objects, d.ack) && d.ack.raw == d.Document()) then Refuse(channel)
    else if d.parent.Some? then channel.(pc := Walk(d.parent, d.before, {}, false))
    else if channel.pc.any then Refuse(channel)
    else IssueClaim(channel)
  }

  /** One read of the `_parent` loop. */
  function WalkParent(keys: seq<Key>, objects: Objects, channel: Channel): Channel
    requires channel.pc.Walk?
  {
    var pc := channel.pc;
    match pc.reference
    case None => if pc.checkpoint == map[] then IssueClaim(channel) else Refuse(channel)
    case Some(ref) =>
      if !pc.atAck then
        if ref.name !in pc.visited && |pc.visited| < |keys| && Pinned(objects, ref)
           && LinkShape(ref, channel.dispatch.binding, pc.checkpoint)
        then channel.(pc := pc.(visited := pc.visited + {ref.name}, atAck := true))
        else Refuse(channel)
      else if ref.raw.RunDoc? && Pinned(objects, ref.raw.ack) && ref.raw.ack.raw == ref.raw.dispatched
      then channel.(pc := Walk(ref.raw.parent, ref.raw.before, pc.visited, false))
      else Refuse(channel)
  }

  function ReadNext(keys: seq<Key>, objects: Objects, channel: Channel): Channel {
    match channel.pc
    case Scan(_, index, _, _, _, _) =>
      if index < |keys| then ScanKey(keys, objects, channel) else EndScan(channel)
    case ReadAck(_) => ReadAckObject(objects, channel)
    case Walk(_, _, _, _) => WalkParent(keys, objects, channel)
    case _ => channel
  }

  function StartScan(objects: Objects, channel: Channel, purpose: Purpose): Channel {
    if Pinned(objects, channel.dispatch.binding)
    then channel.(pc := Scan(purpose, 0, map[], false, false, AtIntent))
    else Refuse(channel)
  }

  /** Publish the next file of a phase, or its commit object once every file is acknowledged. */
  function PublishNext(channel: Channel, key: Key, intent: Ref, state: ResultState,
                       contents: seq<Content>, refs: seq<Ref>): Channel
    requires |refs| <= |contents| == |Kinds(key, state)|
  {
    if |refs| < |contents|
    then Issue(channel, Publishing(key, intent, state, contents, refs),
               PhaseFile(key, Kinds(key, state)[|refs|]), contents[|refs|])
    else Issue(channel, Committing(key), PhaseTerminal(key), PhaseDoc(key, intent, refs))
  }

  /** The channel continues after the acknowledgement `ref` of its pending create. */
  function Continue(channel: Channel, ref: Ref): Channel {
    var clear := channel.(pending := None);
    match channel.pc
    case Claiming => clear.(pc := Ready)
    case Intending(key) => clear.(pc := Holding(key, ref), sent := channel.sent + [key])
    case Publishing(key, intent, state, contents, refs) =>
      if |refs| < |contents| == |Kinds(key, state)|
      then PublishNext(clear, key, intent, state, contents, refs + [ref])
      else Refuse(channel)
    case Committing(_) => clear.(pc := Ready)
    case Finishing => clear.(pc := Finished)
    case _ => channel
  }

  function Update(s: State, i: nat, channel: Channel): State
    requires i < |s.channels|
  {
    s.(channels := s.channels[i := channel])
  }

  /** The store takes a create request only when the name is absent. */
  function TakeRequest(s: State, i: nat, generation: nat): State
    requires i < |s.channels|
  {
    var channel := s.channels[i];
    if channel.pending.Some? && channel.pending.value.applied.None?
       && channel.pending.value.name !in s.objects
    then
      var request := channel.pending.value;
      var ref := Ref(request.name, generation, request.raw);
      State(s.objects[request.name := ref],
            s.channels[i := channel.(pending := Some(request.(applied := Some(ref))))],
            s.log,
            if request.name.RunIntent?
            then s.runs + [Claim(request.name.before, i, channel.dispatch.parent)] else s.runs)
    else s
  }

  /** What channel `i`, when alive, makes of a call or a reply. */
  function React(keys: seq<Key>, objects: Objects, channel: Channel, e: Event): Channel {
    match e
    case Begin(_) => if channel.pc.Idle? then StartScan(objects, channel, ForBegin) else channel
    case Read(_) => ReadNext(keys, objects, channel)
    case Acknowledge(_) =>
      if channel.pending.Some? && channel.pending.value.applied.Some?
      then Continue(channel, channel.pending.value.applied.value) else channel
    case BeforeSend(_, key, raw) =>
      if channel.pc.Ready? && |channel.sent| < channel.dispatch.maxRequests
         && key in keys && key !in channel.sent
      then Issue(channel, Intending(key), PhaseIntent(key), raw) else channel
    case Terminal(_, state, contents) =>
      if channel.pc.InFlight? && |contents| == |Kinds(channel.pc.key, state)| && contents[0] == ResultDoc(state)
      then PublishNext(channel, channel.pc.key, channel.pc.intent, state, contents, []) else channel
    case Finish(_) => if channel.pc.Ready? then StartScan(objects, channel, ForFinish) else channel
    case _ => channel
  }

  /** One event.  An event that cannot happen in `s` leaves it unchanged. */
  function Step(keys: seq<Key>, s: State, e: Event): State {
    match e
    case Publish(ref) =>
      if (ref.name.BindingName? || ref.name.AckName?) && ref.name !in s.objects
      then s.(objects := s.objects[ref.name := ref]) else s
    case Build(dispatch) =>
      if dispatch.Valid() then s.(channels := s.channels + [Channel(dispatch, Idle, [], None, true)]) else s
    case Apply(i, generation) =>
      if i < |s.channels| then TakeRequest(s, i, generation) else s
    case Send(i) =>
      if i < |s.channels| && s.channels[i].alive && s.channels[i].pc.Holding?
      then
        var pc := s.channels[i].pc;
        Update(s, i, s.channels[i].(pc := InFlight(pc.key, pc.intent))).(log := s.log + [pc.key])
      else s
    case Crash(i) =>
      if i < |s.channels| then Update(s, i, Refuse(s.channels[i])) else s
    case _ =>
      if e.i < |s.channels| && s.channels[e.i].alive
      then Update(s, e.i, React(keys, s.objects, s.channels[e.i], e)) else s
  }

  function Run(keys: seq<Key>, s: State, events: seq<Event>): State
    decreases |events|
  {
    if events == [] then s else Run(keys, Step(keys, s, events[0]), events[1..])
  }
}
