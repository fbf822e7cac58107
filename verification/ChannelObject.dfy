/** The `Channel` object itself: its methods over a store that other channels may extend
    between any two of its calls. */
module ChannelObject {
  import opened Outcomes
  import opened ChannelModel
  import opened ChannelInvariant
  import opened ChannelCommits
  import opened ChannelTheorems
  import opened ChannelBudget

  // --- What the reads mean on one store ---

  datatype PhaseView =
    | Absent
    | Unfinished(intent: Ref)
    | Captured(commit: Ref, files: map<Name, Content>)
    | Denied

  function FilesOf(refs: seq<Ref>): map<Name, Content> {
    if refs == [] then map[]
    else FilesOf(refs[..|refs| - 1])[refs[|refs| - 1].name := refs[|refs| - 1].raw]
  }

  predicate AllPinned(o: Objects, refs: seq<Ref>) {
    forall i :: 0 <= i < |refs| ==> Pinned(o, refs[i])
  }

  /** The outcome of `_phase` for one key. */
  function ReadPhase(o: Objects, key: Key): PhaseView {
    var intent, commit := Lookup(o, PhaseIntent(key)), Lookup(o, PhaseTerminal(key));
    if intent.None? then if commit.Some? then Denied else Absent
    else if commit.None? then Unfinished(intent.value)
    else if CommitShape(key, intent.value, commit.value.raw) && AllPinned(o, commit.value.raw.files)
            && CommitComplete(key, commit.value.raw.files)
    then PhaseView.Captured(commit.value, FilesOf([intent.value] + commit.value.raw.files))
    else Denied
  }

  datatype View = View(phases: Checkpoint, files: map<Name, Content>, unknown: seq<Key>)

  /** The outcome of `_remote` over the first `n` keys. */
  function ReadAll(o: Objects, keys: seq<Key>, n: nat): Option<View>
    requires n <= |keys|
  {
    if n == 0 then Some(View(map[], map[], []))
    else
      var v := ReadAll(o, keys, n - 1);
      if v.None? then None
      else
        match ReadPhase(o, keys[n - 1])
        case Denied => None
        case Absent => v
        case Unfinished(intent) =>
          Some(View(v.value.phases, v.value.files[intent.name := intent.raw], v.value.unknown + [keys[n - 1]]))
        case Captured(commit, files) =>
          Some(View(v.value.phases[keys[n - 1] := commit], v.value.files + files, v.value.unknown))
  }

  predicate LocalMatches(local: map<Name, Content>, files: map<Name, Content>, keys: seq<Key>) {
    && (forall name :: name in files ==> name in local && local[name] == files[name])
    && forall name :: name in local && name !in files ==>
         !((name.PhaseIntent? && name.key in keys)
           || (name.PhaseFile? && name.kind != CompiledFile && name.key in keys))
  }

  /** What `begin` demands of the store. */
  predicate StoreReviews(keys: seq<Key>, o: Objects, d: Dispatch) {
    var view := ReadAll(o, keys, |keys|);
    && Pinned(o, d.binding) && view.Some? && view.value.unknown == [] && view.value.phases == d.before
    && Pinned(o, d.ack) && d.ack.raw == d.Document()
    && (d.parent.None? ==> view.value.files == map[])
    && (d.parent.Some? ==> ParentChain(o, d.binding, d.parent, d.before, {}, |keys|).Some?)
  }

  /** And of the dispatch and the local journal. */
  predicate Reviews(o: Objects, keys: seq<Key>, configuration: Content, d: Dispatch, local: map<Name, Content>,
                   blocked: Option<Content>, initialize: bool) {
    && StoreReviews(keys, o, d) && d.binding.raw == configuration
    && (var files := ReadAll(o, keys, |keys|).value.files;
        (initialize ==> files == map[]) && LocalMatches(local, files, keys))
    && blocked != Some(d.Document())
  }

  /** And with the claim it then makes. */
  predicate Admits(o: Objects, keys: seq<Key>, configuration: Content, d: Dispatch, local: map<Name, Content>,
                   blocked: Option<Content>, initialize: bool) {
    Reviews(o, keys, configuration, d, local, blocked, initialize) && RunIntent(d.before) !in o
  }

  // --- The store as one channel sees it ---

  /** Create-only objects.  With `alone` nobody else writes; otherwise other channels may add
      objects around every call. */
  class Store {
    var objects: Objects
    const alone: bool

    ghost predicate Valid() reads this {
      forall n :: n in objects ==> objects[n].name == n
    }

    constructor (alone: bool)
      ensures Valid() && objects == map[] && this.alone == alone
    {
      this.alone := alone;
      objects := map[];
    }

    method Others()
      requires Valid()
      modifies this
      ensures Valid() && Grows(old(objects), objects) && (alone ==> objects == old(objects))
    {
    }

    method Fetch(name: Name, reference: Option<Ref>) returns (value: Option<Ref>)
      requires Valid()
      modifies this
      ensures Valid() && Grows(old(objects), objects) && (alone ==> objects == old(objects))
      ensures value == (if name in objects
                           && (reference.None? || reference.value.generation == objects[name].generation)
                        then Some(objects[name]) else None)
    {
      Others();
      value := if name in objects && (reference.None? || reference.value.generation == objects[name].generation)
               then Some(objects[name]) else None;
    }

    /** The object may be stored although no acknowledgement comes back. */
    method Create(name: Name, raw: Content, generation: nat) returns (ack: Option<Ref>)
      requires Valid()
      modifies this
      ensures Valid() && Grows(old(objects), objects)
      ensures ack.Some? ==>
                && name !in old(objects) && Pinned(objects, ack.value) && ack.value == Ref(name, generation, raw)
      ensures alone ==> (ack.Some? <==> name !in old(objects))
      ensures alone && ack.Some? ==> objects == old(objects)[name := ack.value]
      ensures alone && ack.None? ==> objects == old(objects)
    {
      Others();
      if name in objects {
        return None;
      }
      var ref := Ref(name, generation, raw);
      objects := objects[name := ref];
      var lost: bool := *;
      if !alone && lost {
        return None;
      }
      return Some(ref);
    }
  }

  /** The local journal directory. */
  class Journal {
    var files: map<Name, Content>
    var marker: Option<Ref>
    /** The dispatches whose durable stop is recorded here. */
    var stops: set<Content>
    var blocked: Option<Content>

    constructor (files: map<Name, Content>, blocked: Option<Content>)
      ensures this.files == files && this.blocked == blocked && marker == None && stops == {}
    {
      this.files, this.blocked, marker, stops := files, blocked, None, {};
    }
  }

  // --- What a view says of the store, whoever else writes ---

  /** The names one phase's files may have. */
  predicate Mine(name: Name, key: Key) {
    name == PhaseIntent(key) || (name.PhaseFile? && name.key == key)
  }

  /** What a view taken since `before` says of one key, as the store `o` now bears it out. */
  ghost predicate Shown(before: Objects, o: Objects, key: Key, view: View) {
    if key in view.phases then
      var r := ReadPhase(o, key);
      && r.Captured? && r.commit == view.phases[key]
      && forall name :: name in r.files ==> name in view.files && view.files[name] == r.files[name]
    else if key in view.unknown then
      && PhaseIntent(key) in o && PhaseTerminal(key) !in before
      && PhaseIntent(key) in view.files && view.files[PhaseIntent(key)] == o[PhaseIntent(key)].raw
    else PhaseIntent(key) !in before
  }

  /** The view of one of its own files. */
  ghost predicate Listed(o: Objects, key: Key, view: View, name: Name) {
    && name in view.files && Mine(name, key)
    && if key in view.phases then ReadPhase(o, key).Captured? && name in ReadPhase(o, key).files
       else key in view.unknown && name == PhaseIntent(key)
  }

  /** A view of the first `n` keys: every key is shown, and nothing else is listed. */
  ghost predicate ViewOk(before: Objects, o: Objects, keys: seq<Key>, n: nat, view: View)
    requires n <= |keys|
  {
    && (forall j :: 0 <= j < n ==> Shown(before, o, keys[j], view))
    && (forall key :: key in view.phases || key in view.unknown ==> key in keys[..n])
    && (forall name :: name in view.files ==> exists j :: 0 <= j < n && Listed(o, keys[j], view, name))
  }

  lemma CapturedFiles(o: Objects, key: Key)
    requires ReadPhase(o, key).Captured? && forall n :: n in o ==> o[n].name == n
    ensures forall name :: name in ReadPhase(o, key).files ==> Mine(name, key)
    ensures PhaseIntent(key) in o && PhaseIntent(key) in ReadPhase(o, key).files
    ensures ReadPhase(o, key).files[PhaseIntent(key)] == o[PhaseIntent(key)].raw
  {
    var intent, files := o[PhaseIntent(key)], o[PhaseTerminal(key)].raw.files;
    var all := [intent] + files;
    forall name | name in FilesOf(all)
      ensures Mine(name, key)
    {
      FilesOfNames(all, name);
      var i :| 0 <= i < |all| && all[i].name == name;
      if i > 0 {
        assert files[i - 1] in files && files[i - 1].name in RefNames(files);
      }
    }
    forall i | 0 < i < |all|
      ensures all[i].name != intent.name
    {
      assert files[i - 1] in files && files[i - 1].name in RefNames(files);
    }
    FilesOfNames(all, intent.name);
    FilesOfFirst(all);
  }

  lemma {:induction false} FilesOfFirst(refs: seq<Ref>)
    requires refs != [] && forall i :: 0 < i < |refs| ==> refs[i].name != refs[0].name
    ensures refs[0].name in FilesOf(refs) && FilesOf(refs)[refs[0].name] == refs[0].raw
  {
    if |refs| > 1 {
      FilesOfFirst(refs[..|refs| - 1]);
    }
  }

  lemma CapturedStays(o: Objects, o': Objects, key: Key)
    requires ReadPhase(o, key).Captured? && Grows(o, o')
    ensures ReadPhase(o', key) == ReadPhase(o, key)
  {
  }

  lemma ShownStays(before: Objects, o: Objects, o': Objects, key: Key, view: View)
    requires Shown(before, o, key, view) && Grows(o, o')
    ensures Shown(before, o', key, view)
    ensures forall name :: Listed(o, key, view, name) ==> Listed(o', key, view, name)
  {
    hide ReadPhase;
    if key in view.phases {
      CapturedStays(o, o', key);
    }
  }

  lemma ViewGrows(before: Objects, o: Objects, o': Objects, keys: seq<Key>, n: nat, view: View)
    requires n <= |keys| && ViewOk(before, o, keys, n, view) && Grows(o, o')
    ensures ViewOk(before, o', keys, n, view)
  {
    hide Shown, Listed;
    forall j | 0 <= j < n
      ensures Shown(before, o', keys[j], view)
      ensures forall name :: Listed(o, keys[j], view, name) ==> Listed(o', keys[j], view, name)
    {
      assert Shown(before, o, keys[j], view);
      ShownStays(before, o, o', keys[j], view);
    }
    forall name | name in view.files
      ensures exists j :: 0 <= j < n && Listed(o', keys[j], view, name)
    {
      var j :| 0 <= j < n && Listed(o, keys[j], view, name);
      assert Listed(o', keys[j], view, name);
    }
  }

  /** What `_remote` makes of one more key: a commit and its files, an intent alone, or nothing. */
  function Extended(view: View, key: Key, phase: PhaseView): View {
    match phase
    case Unfinished(intent) => View(view.phases, view.files[intent.name := intent.raw], view.unknown + [key])
    case Captured(commit, files) => View(view.phases[key := commit], view.files + files, view.unknown)
    case _ => view
  }

  /** A phase's reading since `before`, borne out by the store `o`. */
  ghost predicate ReadOk(before: Objects, o: Objects, key: Key, phase: PhaseView) {
    && Grows(before, o) && (forall n :: n in o ==> o[n].name == n)
    && match phase
       case Denied => false
       case Absent => PhaseIntent(key) !in before
       case Unfinished(intent) =>
         PhaseTerminal(key) !in before && intent.name == PhaseIntent(key) && Pinned(o, intent)
       case Captured(_, _) => phase == ReadPhase(o, key)
  }

  lemma ShownOther(before: Objects, o: Objects, view: View, key: Key, phase: PhaseView, other: Key)
    requires ReadOk(before, o, key, phase) && other != key && Shown(before, o, other, view)
    ensures Shown(before, o, other, Extended(view, key, phase))
    ensures forall name :: Listed(o, other, view, name) ==> Listed(o, other, Extended(view, key, phase), name)
  {
    hide ReadPhase;
    if phase.Captured? {
      CapturedFiles(o, key);
    }
    if other in view.phases {
      CapturedFiles(o, other);
    }
  }

  lemma ShownSame(before: Objects, o: Objects, view: View, key: Key, phase: PhaseView)
    requires ReadOk(before, o, key, phase)
    requires Shown(before, o, key, view) || (key !in view.phases && key !in view.unknown)
    ensures Shown(before, o, key, Extended(view, key, phase))
    ensures forall name :: Listed(o, key, view, name) ==> Listed(o, key, Extended(view, key, phase), name)
    ensures forall name :: name in Extended(view, key, phase).files && name !in view.files ==>
                             Listed(o, key, Extended(view, key, phase), name)
  {
    hide ReadPhase;
    if phase.Captured? || key in view.phases {
      CapturedFiles(o, key);
    }
  }

  lemma ViewExtends(before: Objects, o: Objects, keys: seq<Key>, n: nat, view: View, phase: PhaseView)
    requires n < |keys| && ViewOk(before, o, keys, n, view) && ReadOk(before, o, keys[n], phase)
    ensures ViewOk(before, o, keys, n + 1, Extended(view, keys[n], phase))
  {
    hide Shown, Listed, ReadOk;
    var key, after := keys[n], Extended(view, keys[n], phase);
    assert keys[..n + 1] == keys[..n] + [key];
    if key in view.phases || key in view.unknown {
      var i :| 0 <= i < n && keys[..n][i] == key;
      assert Shown(before, o, keys[i], view);
    }
    ShownSame(before, o, view, key, phase);
    forall j | 0 <= j < n + 1
      ensures Shown(before, o, keys[j], after)
      ensures forall name :: Listed(o, keys[j], view, name) ==> Listed(o, keys[j], after, name)
    {
      if keys[j] != key {
        ShownOther(before, o, view, key, phase, keys[j]);
      }
    }
    forall name | name in after.files
      ensures exists j :: 0 <= j < n + 1 && Listed(o, keys[j], after, name)
    {
      if name in view.files {
        var j :| 0 <= j < n && Listed(o, keys[j], view, name);
        assert Listed(o, keys[j], after, name);
      } else {
        assert Listed(o, keys[n], after, name);
      }
    }
  }

  /** The local journal agrees with the store on every key: a phase of the checkpoint is stored as the
      dispatch says and its files are in the journal, and of any other phase neither has anything. */
  ghost predicate LocalOk(before: Objects, o: Objects, keys: seq<Key>, d: Dispatch, local: map<Name, Content>) {
    && (forall key :: key in d.before ==> key in keys)
    && forall key :: key in keys ==>
         if key in d.before then
           var r := ReadPhase(o, key);
           && r.Captured? && r.commit == d.before[key]
           && forall name :: name in r.files ==> name in local && local[name] == r.files[name]
         else
           && PhaseIntent(key) !in before
           && forall name :: name in local && Mine(name, key) ==> name.PhaseFile? && name.kind == CompiledFile
  }

  /** What `begin` has made sure of since `before`, as the store `o` still bears it out. */
  ghost predicate ReviewedAt(before: Objects, o: Objects, keys: seq<Key>, configuration: Content, d: Dispatch,
                             local: map<Name, Content>) {
    && LocalOk(before, o, keys, d, local)
    && Pinned(o, d.binding) && d.binding.raw == configuration && AckOk(o, d.ack, d.Document())
    && (d.parent.Some? ==> ParentChain(o, d.binding, d.parent, d.before, {}, |keys|).Some?)
    && (d.parent.None? ==> d.before == map[])
  }

  lemma ReviewedStays(before: Objects, o: Objects, o': Objects, keys: seq<Key>, configuration: Content, d: Dispatch,
                      local: map<Name, Content>)
    requires ReviewedAt(before, o, keys, configuration, d, local) && Grows(o, o')
    ensures ReviewedAt(before, o', keys, configuration, d, local)
  {
    hide LocalOk, ParentChain;
    LocalStays(before, o, o', keys, d, local);
    if d.parent.Some? {
      ParentStays(o, o', d.binding, d.parent, d.before, {}, |keys|);
    }
  }

  lemma NothingSeen(before: Objects, o: Objects, keys: seq<Key>)
    ensures ViewOk(before, o, keys, 0, View(map[], map[], []))
  {
  }

  lemma NothingRead(o: Objects, keys: seq<Key>)
    ensures ReadAll(o, keys, 0) == Some(View(map[], map[], []))
  {
  }

  lemma ReadNextKey(o: Objects, keys: seq<Key>, n: nat, view: View)
    requires n < |keys| && ReadAll(o, keys, n) == Some(view)
    ensures ReadAll(o, keys, n + 1)
            == if ReadPhase(o, keys[n]).Denied? then None else Some(Extended(view, keys[n], ReadPhase(o, keys[n])))
  {
    hide ReadPhase;
  }

  lemma ViewFacts(before: Objects, o: Objects, keys: seq<Key>, view: View)
    requires ViewOk(before, o, keys, |keys|, view) && forall n :: n in o ==> o[n].name == n
    ensures SeenOk(o, view.phases) && (view.files == map[] ==> view.phases == map[])
  {
    forall key | key in view.phases
      ensures PhaseTerminal(key) in o && view.phases[key] == o[PhaseTerminal(key)] && view.files != map[]
    {
      PhasesAreKeys(before, o, keys, view, key);
      KeyShown(before, o, keys, view, key);
      CapturedFiles(o, key);
    }
  }

  lemma KeyShown(before: Objects, o: Objects, keys: seq<Key>, view: View, key: Key)
    requires ViewOk(before, o, keys, |keys|, view) && key in keys
    ensures Shown(before, o, key, view)
  {
    hide ReadPhase;
    var j :| 0 <= j < |keys| && keys[j] == key;
    assert Shown(before, o, keys[j], view);
  }

  lemma ListedKey(before: Objects, o: Objects, keys: seq<Key>, view: View, key: Key, name: Name)
    requires ViewOk(before, o, keys, |keys|, view) && view.unknown == [] && Mine(name, key) && name in view.files
    ensures key in view.phases
  {
    hide ReadPhase, Shown;
    var j :| 0 <= j < |keys| && Listed(o, keys[j], view, name);
    assert keys[j] == key;
  }

  lemma LocalStays(before: Objects, o: Objects, o': Objects, keys: seq<Key>, d: Dispatch, local: map<Name, Content>)
    requires LocalOk(before, o, keys, d, local) && Grows(o, o')
    ensures LocalOk(before, o', keys, d, local)
  {
    hide ReadPhase;
    forall key | key in keys && key in d.before
      ensures ReadPhase(o', key) == ReadPhase(o, key)
    {
      CapturedStays(o, o', key);
    }
  }

  lemma LocalFollows(before: Objects, o: Objects, o': Objects, keys: seq<Key>, d: Dispatch, local: map<Name, Content>,
                     view: View)
    requires ViewOk(before, o, keys, |keys|, view) && view.unknown == [] && view.phases == d.before && Grows(o, o')
    ensures LocalMatches(local, view.files, keys) ==> LocalOk(before, o', keys, d, local)
  {
    hide ReadPhase, Listed, ViewOk;
    ViewGrows(before, o, o', keys, |keys|, view);
    forall key | key in d.before
      ensures key in keys
    {
      PhasesAreKeys(before, o, keys, view, key);
    }
    forall key | key in keys
      ensures Shown(before, o', key, view)
    {
      KeyShown(before, o', keys, view, key);
    }
    forall key, name | LocalMatches(local, view.files, keys)
                       && key in keys && key !in d.before && name in local && Mine(name, key)
      ensures name.PhaseFile? && name.kind == CompiledFile
    {
      if name in view.files {
        ListedKey(before, o', keys, view, key, name);
      }
    }
  }

  lemma PhasesAreKeys(before: Objects, o: Objects, keys: seq<Key>, view: View, key: Key)
    requires ViewOk(before, o, keys, |keys|, view) && key in view.phases
    ensures key in keys
  {
    assert keys[..|keys|] == keys;
  }

  // --- Facts that survive other channels' writes ---

  lemma {:induction false} ParentStays(o: Objects, o': Objects, binding: Ref, reference: Option<Ref>,
                                       checkpoint: Checkpoint, visited: set<Name>, bound: nat)
    requires Grows(o, o') && ParentChain(o, binding, reference, checkpoint, visited, bound).Some?
    ensures ParentChain(o', binding, reference, checkpoint, visited, bound)
            == ParentChain(o, binding, reference, checkpoint, visited, bound)
    decreases bound - |visited|
  {
    if reference.Some? {
      ParentStays(o, o', binding, reference.value.raw.parent, reference.value.raw.before,
                  visited + {reference.value.name}, bound);
    }
  }

  lemma {:induction false} FilesOfNames(refs: seq<Ref>, name: Name)
    ensures name in FilesOf(refs) <==> exists i :: 0 <= i < |refs| && refs[i].name == name
  {
    if refs != [] {
      var n := |refs| - 1;
      FilesOfNames(refs[..n], name);
      forall i | 0 <= i < n ensures refs[..n][i] == refs[i] {}
    }
  }

  lemma {:induction false} FilesOfValues(refs: seq<Ref>, i: nat)
    requires i < |refs| && forall j, k :: 0 <= j < k < |refs| ==> refs[j].name != refs[k].name
    ensures refs[i].name in FilesOf(refs) && FilesOf(refs)[refs[i].name] == refs[i].raw
  {
    var n := |refs| - 1;
    if i < n {
      FilesOfValues(refs[..n], i);
    }
  }

  /** A captured phase as it is read: its commit in order, and exactly the intent and the files that the recorded
      result calls for, each with the store's bytes. */
  ghost predicate WholePhase(o: Objects, key: Key, view: PhaseView)
    requires view.Captured?
  {
    && PhaseIntent(key) in o && Pinned(o, view.commit) && view.commit.name == PhaseTerminal(key)
    && InOrder(key, o[PhaseIntent(key)], view.commit.raw)
    && PhaseFile(key, ResultFile) in view.files && view.files[PhaseFile(key, ResultFile)].ResultDoc?
    && (forall name :: name in view.files <==>
                         name == PhaseIntent(key) || FileOf(key, view.files[PhaseFile(key, ResultFile)].state, name))
    && forall name :: name in view.files ==> name in o && view.files[name] == o[name].raw
  }

  /** What is read of one phase, in every case. */
  lemma {:induction false} PhaseIs(o: Objects, key: Key)
    requires forall n :: n in o ==> o[n].name == n
    ensures var view := ReadPhase(o, key);
            && (view.Absent? <==> PhaseIntent(key) !in o && PhaseTerminal(key) !in o)
            && (view.Unfinished? <==> PhaseIntent(key) in o && PhaseTerminal(key) !in o)
            && (view.Unfinished? ==> view.intent == o[PhaseIntent(key)])
            && (view.Captured? <==>
                  && PhaseIntent(key) in o && PhaseTerminal(key) in o
                  && InOrder(key, o[PhaseIntent(key)], o[PhaseTerminal(key)].raw)
                  && forall file :: file in o[PhaseTerminal(key)].raw.files ==> file.name in o && o[file.name] == file)
            && (view.Captured? ==> WholePhase(o, key, view))
  {
    hide CommitShape, CommitComplete, InOrder, FilesOf, WholePhase;
    if PhaseIntent(key) in o && PhaseTerminal(key) in o {
      var commit := o[PhaseTerminal(key)];
      AcceptedCommits(key, o[PhaseIntent(key)], commit.raw);
      ShapeIsPhase(key, o[PhaseIntent(key)], commit.raw);
      if ReadPhase(o, key).Captured? {
        CapturedIsWhole(o, key);
      }
    }
  }

  lemma IntentAndFiles(key: Key, intent: Ref, raw: Content)
    requires intent.name == PhaseIntent(key) && InOrder(key, intent, raw)
    ensures var all := [intent] + raw.files; forall j, k | 0 <= j < k < |all| :: all[j].name != all[k].name
  {
    assert forall i | 0 <= i < |raw.files| :: Lists(raw.files, raw.files[i].name);
  }

  lemma ReadFrom(o: Objects, refs: seq<Ref>, name: Name)
    requires forall j, k | 0 <= j < k < |refs| :: refs[j].name != refs[k].name
    requires forall i | 0 <= i < |refs| :: Pinned(o, refs[i])
    ensures name in FilesOf(refs) <==> Lists(refs, name)
    ensures name in FilesOf(refs) ==> name in o && FilesOf(refs)[name] == o[name].raw
  {
    hide FilesOf;
    FilesOfNames(refs, name);
    if name in FilesOf(refs) {
      var i :| 0 <= i < |refs| && refs[i].name == name;
      FilesOfValues(refs, i);
    }
  }

  lemma ListsCons(first: Ref, rest: seq<Ref>, name: Name)
    ensures Lists([first] + rest, name) <==> name == first.name || Lists(rest, name)
  {
    var all := [first] + rest;
    assert all[0] == first && forall i | 0 <= i < |rest| :: all[i + 1] == rest[i];
  }

  lemma CapturedIsWhole(o: Objects, key: Key)
    requires ReadPhase(o, key).Captured? && forall n :: n in o ==> o[n].name == n
    ensures WholePhase(o, key, ReadPhase(o, key))
  {
    hide CommitComplete, RefNames, AllowedNames, FileNames, FilesOf, Lists, FileOf;
    var intent, commit := o[PhaseIntent(key)], o[PhaseTerminal(key)];
    var files := commit.raw.files;
    AcceptedCommits(key, intent, commit.raw);
    IntentAndFiles(key, intent, commit.raw);
    var r :| 0 <= r < |files| && files[r].name == PhaseFile(key, ResultFile) && files[r].raw.ResultDoc?
             && forall name :: Lists(files, name) <==> FileOf(key, files[r].raw.state, name);
    var all := [intent] + files;
    assert all[r + 1] == files[r];
    FilesOfValues(all, r + 1);
    forall name
      ensures name in FilesOf(all) <==> name == PhaseIntent(key) || Lists(files, name)
      ensures name in FilesOf(all) ==> name in o && FilesOf(all)[name] == o[name].raw
    {
      ReadFrom(o, all, name);
      ListsCons(intent, files, name);
    }
  }

  lemma NoFiles()
    ensures FilesOf([]) == map[]
  {
  }

  lemma {:induction false} FilesOfAppend(refs: seq<Ref>, ref: Ref)
    ensures FilesOf(refs + [ref]) == FilesOf(refs)[ref.name := ref.raw]
  {
    assert (refs + [ref])[..|refs|] == refs;
  }

  // --- What the reads touch ---

  lemma NoRefs(base: Objects)
    ensures base + RefMap([]) == base
  {
  }

  lemma RefMapNext(base: Objects, refs: seq<Ref>, i: nat)
    requires i < |refs|
    ensures base + RefMap(refs[..i + 1]) == (base + RefMap(refs[..i]))[refs[i].name := refs[i]]
  {
    assert refs[..i + 1][..i] == refs[..i];
  }

  lemma {:induction false} RefMapIn(o: Objects, refs: seq<Ref>)
    requires AllPinned(o, refs)
    ensures Grows(RefMap(refs), o)
    decreases |refs|
  {
    if refs != [] {
      assert Pinned(o, refs[|refs| - 1]);
      RefMapIn(o, refs[..|refs| - 1]);
    }
  }

  lemma {:induction false} RefMapLess(o: Objects, base: Objects, refs: seq<Ref>, n: nat)
    requires Grows(base, o) && AllPinned(o, refs) && n <= |refs|
    ensures Grows(base + RefMap(refs[..n]), base + RefMap(refs))
    decreases |refs|
  {
    hide RefMap;
    if n == |refs| {
      assert refs[..n] == refs;
    } else {
      var shorter, last := refs[..|refs| - 1], refs[|refs| - 1];
      RefMapLess(o, base, shorter, n);
      assert shorter[..n] == refs[..n];
      RefMapNext(base, refs, |refs| - 1);
      assert refs[..|refs|] == refs;
      RefMapIn(o, shorter);
      assert Pinned(o, last);
      Both(base, RefMap(shorter), o);
    }
  }

  /** Whatever is not refused is in the store. */
  lemma PhaseTouchIn(o: Objects, key: Key)
    requires !ReadPhase(o, key).Denied?
    ensures Grows(PhaseTouch(o, key), o)
  {
    hide FilesOf, RefMap, CommitShape, CommitComplete;
    if ReadPhase(o, key).Captured? {
      ShapeIsPhase(key, o[PhaseIntent(key)], o[PhaseTerminal(key)].raw);
      RefMapIn(o, o[PhaseTerminal(key)].raw.files);
    }
  }

  lemma {:induction false} AllTouchIn(o: Objects, keys: seq<Key>, n: nat)
    requires n <= |keys| && ReadAll(o, keys, n).Some?
    ensures Grows(AllTouch(o, keys, n), o)
  {
    hide ReadPhase, PhaseTouch;
    if n > 0 {
      AllTouchIn(o, keys, n - 1);
      PhaseTouchIn(o, keys[n - 1]);
      Both(AllTouch(o, keys, n - 1), PhaseTouch(o, keys[n - 1]), o);
    }
  }

  lemma {:induction false} AllTouchLess(o: Objects, keys: seq<Key>, n: nat, m: nat)
    requires n <= m <= |keys| && ReadAll(o, keys, m).Some?
    ensures ReadAll(o, keys, n).Some? && Grows(AllTouch(o, keys, n), AllTouch(o, keys, m))
    decreases m
  {
    hide ReadPhase, PhaseTouch;
    if n < m {
      AllTouchLess(o, keys, n, m - 1);
      AllTouchIn(o, keys, m - 1);
      PhaseTouchIn(o, keys[m - 1]);
      Both(AllTouch(o, keys, m - 1), PhaseTouch(o, keys[m - 1]), o);
    }
  }

  /** With the binding read first: what is touched up to a key, and from there to the end. */
  lemma RemoteTouchLess(o: Objects, keys: seq<Key>, n: nat, binding: Ref)
    requires n <= |keys| && ReadAll(o, keys, |keys|).Some? && Pinned(o, binding) && binding.name == BindingName
    ensures Grows(map[BindingName := binding] + AllTouch(o, keys, n), RemoteTouch(o, keys, binding))
    ensures Grows(RemoteTouch(o, keys, binding), o)
  {
    hide AllTouch, ReadAll;
    AllTouchLess(o, keys, n, |keys|);
    AllTouchIn(o, keys, |keys|);
    AllTouchIn(o, keys, n);
  }

  lemma TouchNextKey(o: Objects, keys: seq<Key>, n: nat, binding: Ref)
    requires n < |keys|
    ensures map[BindingName := binding] + AllTouch(o, keys, n + 1)
            == (map[BindingName := binding] + AllTouch(o, keys, n)) + PhaseTouch(o, keys[n])
  {
    hide PhaseTouch;
  }

  /** The accepted chain is in the store. */
  lemma {:induction false} ChainTouchIn(o: Objects, binding: Ref, reference: Option<Ref>, checkpoint: Checkpoint,
                                        visited: set<Name>, bound: nat)
    requires ParentChain(o, binding, reference, checkpoint, visited, bound).Some?
    ensures Grows(ChainTouch(ParentChain(o, binding, reference, checkpoint, visited, bound).value), o)
    decreases bound - |visited|
  {
    if reference.Some? {
      var ref := reference.value;
      var rest := ParentChain(o, binding, ref.raw.parent, ref.raw.before, visited + {ref.name}, bound);
      ChainTouchIn(o, binding, ref.raw.parent, ref.raw.before, visited + {ref.name}, bound);
      ChainTouchCons(ref, rest.value);
      Both(LinkTouch(ref), ChainTouch(rest.value), o);
    }
  }

  lemma LinkThenRest(b: Budget, o: Objects, refs: Objects, ref: Ref, rest: Objects)
    requires Grows(refs, o) && Pinned(o, ref) && ref.raw.RunDoc? && Pinned(o, ref.raw.ack) && Grows(rest, o)
    ensures var after := refs[ref.name := ref][ref.raw.ack.name := ref.raw.ack];
            && Grows(after, o) && refs + (LinkTouch(ref) + rest) == after + rest
            && (Within(b, after + rest) ==> Within(b, refs[ref.name := ref]) && Within(b, after))
  {
    hide Within;
    var after := refs[ref.name := ref][ref.raw.ack.name := ref.raw.ack];
    assert refs + (LinkTouch(ref) + rest) == after + rest by {
      assert LinkTouch(ref) == map[ref.name := ref] + map[ref.raw.ack.name := ref.raw.ack];
      assert after == refs + map[ref.name := ref] + map[ref.raw.ack.name := ref.raw.ack];
    }
    Both(after, rest, o);
    WithinLess(b, after, after + rest);
    WithinLess(b, refs[ref.name := ref], after + rest);
  }

  lemma ChainTouchCons(ref: Ref, rest: seq<Ref>)
    ensures ChainTouch([ref] + rest) == LinkTouch(ref) + ChainTouch(rest)
  {
    assert ([ref] + rest)[1..] == rest;
  }

  // --- The channel ---

  class Channel {
    const keys: seq<Key>
    const configuration: Content
    const dispatch: Dispatch
    const store: Store
    const budget: Budget
    var references: Objects
    var started: bool
    var sent: seq<Key>
    /** The journal `begin` was called with. */
    var own: Journal?

    ghost predicate Valid() reads this, store {
      && store.Valid() && dispatch.Valid()
      && forall n :: n in references ==> references[n].name == n && Pinned(store.objects, references[n])
    }

    constructor (store: Store, keys: seq<Key>, configuration: Content, budget: Budget, dispatch: Dispatch)
      requires store.Valid() && dispatch.Valid()
      ensures Valid() && this.store == store && this.keys == keys && this.configuration == configuration
      ensures this.budget == budget && this.dispatch == dispatch
      ensures references == map[] && !started && sent == [] && own == null
    {
      this.store, this.keys, this.configuration, this.dispatch := store, keys, configuration, dispatch;
      this.budget := budget;
      references, started, sent, own := map[], false, [], null;
    }

    /** The bytes of everything referred to. */
    method TotalSize() returns (total: nat)
      ensures total == Weight(budget, references)
    {
      var todo := references;
      total := 0;
      while todo != map[]
        invariant total + Weight(budget, todo) == Weight(budget, references)
        decreases |todo|
      {
        var name :| name in todo;
        WeightWithout(budget, todo, name);
        total, todo := total + budget.size(todo[name].raw), todo - {name};
      }
    }

    /** `_get`: in a create-only store the reference-conflict check never refuses; the budget is tested
        after the object was added to the references. */
    method Get(name: Name, reference: Option<Ref>) returns (value: Result<Option<Ref>, ()>)
      requires Valid()
      modifies this`references, store
      ensures Valid() && Grows(old(store.objects), store.objects)
      ensures store.alone ==> store.objects == old(store.objects)
      ensures value.Refused? ==>
                || (reference.Some? && (reference.value.name == name ==> !Pinned(old(store.objects), reference.value)))
                || !Within(budget, references)
      ensures value == Ok(None) ==> reference.None? && name !in old(store.objects) && references == old(references)
      ensures value.Ok? && value.value.Some? ==>
                && Pinned(store.objects, value.value.value) && value.value.value.name == name
                && (reference.Some? ==> value.value == reference)
                && references == old(references)[name := value.value.value] && Within(budget, references)
      ensures store.alone && name !in old(store.objects) && reference.None? ==> value == Ok(None)
      ensures store.alone && name in old(store.objects) && reference.None? ==>
                value == if Within(budget, old(references)[name := old(store.objects)[name]])
                         then Ok(Some(old(store.objects)[name])) else Refused(())
      ensures (store.alone && reference.Some? && reference.value.name == name
               && Pinned(old(store.objects), reference.value)) ==>
                value == if Within(budget, old(references)[name := reference.value]) then Ok(reference) else Refused(())
    {
      hide Within, Weight;
      var found := store.Fetch(name, reference);
      if found.None? {
        return if reference.None? then Ok(None) else Refused(());
      }
      if reference.Some? && found.value != reference.value {
        return Refused(());
      }
      if name in references && references[name] != found.value {
        return Refused(());
      }
      var within := Keep(found.value);
      return if within then Ok(found) else Refused(());
    }

    /** What was read is referred to from now on, and only then is the budget tested. */
    method Keep(ref: Ref) returns (ok: bool)
      requires Valid() && Pinned(store.objects, ref)
      modifies this`references
      ensures Valid() && references == old(references)[ref.name := ref]
      ensures ok <==> Within(budget, references)
    {
      hide Within, Weight, Dispatch.Valid;
      references := references[ref.name := ref];
      ok := Bounds();
    }

    /** `_bounds`. */
    method Bounds() returns (ok: bool)
      ensures ok <==> Within(budget, references)
    {
      var total := TotalSize();
      ok := |references| <= budget.objects && total <= budget.bytes;
    }

    /** `_create`: the budget is tested before the object is stored. */
    method Create(name: Name, raw: Content, generation: nat) returns (ack: Option<Ref>)
      requires Valid()
      modifies this`references, store
      ensures Valid() && Grows(old(store.objects), store.objects)
      ensures ack.Some? ==>
                && name !in old(store.objects) && Pinned(store.objects, ack.value)
                && ack.value.name == name && ack.value.raw == raw
                && references == old(references)[name := ack.value] && Within(budget, references)
      ensures ack.None? ==> references == old(references)
      ensures store.alone ==>
                ack == if name !in old(store.objects)
                          && Within(budget, old(references)[name := Ref(name, generation, raw)])
                       then Some(Ref(name, generation, raw)) else None
      ensures store.alone && ack.Some? ==> store.objects == old(store.objects)[name := ack.value]
      ensures store.alone && ack.None? ==> store.objects == old(store.objects)
    {
      hide Weight;
      if name in references {
        return None;
      }
      var total := TotalSize();
      var ref := Ref(name, generation, raw);
      WeightWith(budget, references, name, ref);
      if |references| + 1 > budget.objects || total + budget.size(raw) > budget.bytes {
        return None;
      }
      ack := store.Create(name, raw, generation);
      if ack.Some? {
        WeightWith(budget, references, name, ack.value);
        references := references[name := ack.value];
      }
    }

    /** The intent's bytes and those of each listed file, read by exact reference. */
    method ReadFiles(intent: Ref, refs: seq<Ref>) returns (files: Option<map<Name, Content>>)
      requires Valid() && Pinned(store.objects, intent)
      modifies this`references, store
      ensures Valid() && Grows(old(store.objects), store.objects)
      ensures store.alone ==> store.objects == old(store.objects)
      ensures files.Some? ==>
                && AllPinned(store.objects, refs) && intent.name in files.value
                && files.value == FilesOf([intent] + refs) && references == old(references) + RefMap(refs)
      ensures store.alone ==>
                (files.Some? <==> AllPinned(store.objects, refs)
                                  && (refs == [] || Within(budget, old(references) + RefMap(refs))))
    {
      hide FilesOf, Within, RefMap;
      var read := map[intent.name := intent.raw];
      FilesOfAppend([], intent);
      NoFiles();
      NoRefs(references);
      assert [] + [intent] == [intent] && [intent] + refs[..0] == [intent];
      for i := 0 to |refs|
        invariant Valid() && Grows(old(store.objects), store.objects)
        invariant store.alone ==> store.objects == old(store.objects)
        invariant AllPinned(store.objects, refs[..i]) && intent.name in read
        invariant read == FilesOf([intent] + refs[..i])
        invariant references == old(references) + RefMap(refs[..i])
        invariant i > 0 ==> Within(budget, references)
      {
        RefMapNext(old(references), refs, i);
        var value := Get(refs[i].name, Some(refs[i]));
        if value.Refused? {
          if store.alone && AllPinned(store.objects, refs) {
            RefMapLess(store.objects, old(references), refs, i + 1);
            WithinLess(budget, old(references) + RefMap(refs[..i + 1]), old(references) + RefMap(refs));
          }
          return None;
        }
        read := read[refs[i].name := value.value.value.raw];
        FilesOfAppend([intent] + refs[..i], refs[i]);
        assert [intent] + refs[..i + 1] == [intent] + refs[..i] + [refs[i]];
      }
      assert refs[..|refs|] == refs;
      return Some(read);
    }

    /** `_phase`: alone it is `ReadPhase`, unless the budget does not cover what it touches; with other
        writers about, a captured phase is still what the store holds from now on, and an absent one
        was absent when the call began. */
    method Phase(key: Key) returns (view: PhaseView)
      requires Valid()
      modifies this`references, store
      ensures Valid() && Grows(old(store.objects), store.objects)
      ensures store.alone ==>
                && store.objects == old(store.objects)
                && view == (if TouchFits(old(store.objects), key, old(references))
                            then ReadPhase(old(store.objects), key) else Denied)
                && (!view.Denied? ==> references == old(references) + PhaseTouch(old(store.objects), key))
      ensures view.Captured? ==> ReadPhase(store.objects, key) == view && WholePhase(store.objects, key, view)
      ensures view.Unfinished? ==>
                Pinned(store.objects, view.intent) && view.intent.name == PhaseIntent(key)
                && PhaseTerminal(key) !in old(store.objects)
      ensures view.Captured? ==>
                view.files != map[] && Pinned(store.objects, view.commit) && view.commit.name == PhaseTerminal(key)
      ensures view.Absent? ==> PhaseIntent(key) !in old(store.objects)
    {
      hide Within, RefMap, CommitShape, CommitComplete, FilesOf, AllPinned, WholePhase, Dispatch.Valid;
      ghost var o, before := store.objects, references;
      if store.alone {
        PhaseSteps(budget, o, key, before);
      }
      var intent := Get(PhaseIntent(key), None);
      if intent.Refused? {
        return Denied;
      }
      var commit := Get(PhaseTerminal(key), None);
      if commit.Refused? {
        return Denied;
      }
      if intent.value.None? {
        return if commit.value.Some? then Denied else Absent;
      }
      if commit.value.None? {
        return Unfinished(intent.value.value);
      }
      var doc := commit.value.value.raw;
      if !CommitShape(key, intent.value.value, doc) {
        return Denied;
      }
      HasFiles(key, intent.value.value, doc);
      var intentRef, commitRef := intent.value.value, commit.value.value;
      var files := ReadFiles(intentRef, doc.files);
      if files.None? || !CommitComplete(key, doc.files) {
        return Denied;
      }
      CapturedIsWhole(store.objects, key);
      return PhaseView.Captured(commitRef, files.value);
    }

    /** A reading that touches nothing is never refused for the budget. */
    ghost predicate TouchFits(o: Objects, key: Key, refs: Objects) {
      PhaseTouch(o, key) == map[] || Within(budget, refs + PhaseTouch(o, key))
    }

    /** The references are forgotten, and the binding is read first. */
    method ReadBinding() returns (ok: bool)
      requires Valid()
      modifies this`references, store
      ensures Valid() && Grows(old(store.objects), store.objects)
      ensures store.alone ==> store.objects == old(store.objects)
      ensures ok ==>
                && Pinned(store.objects, dispatch.binding) && dispatch.binding.raw == configuration
                && references == map[BindingName := dispatch.binding]
      ensures store.alone ==>
                (ok <==> Pinned(old(store.objects), dispatch.binding) && dispatch.binding.raw == configuration
                         && Within(budget, map[BindingName := dispatch.binding]))
      ensures ok ==> Within(budget, references)
    {
      hide Within;
      references := map[];
      var configured := Get(BindingName, Some(dispatch.binding));
      ok := configured.Ok? && configured.value.value.raw == configuration;
    }

    /** `_remote`: the checkpoint, the files and the unfinished phases. */
    method Remote() returns (view: Option<View>)
      requires Valid()
      modifies this`references, store
      ensures Valid() && Grows(old(store.objects), store.objects)
      ensures store.alone ==> store.objects == old(store.objects)
      ensures view.Some? ==> Pinned(store.objects, dispatch.binding) && dispatch.binding.raw == configuration
      ensures view.Some? ==> SeenOk(store.objects, view.value.phases)
      ensures view.Some? ==> ViewOk(old(store.objects), store.objects, keys, |keys|, view.value)
      ensures view.Some? && view.value.files == map[] ==> view.value.phases == map[]
      ensures store.alone ==>
                view == if Pinned(old(store.objects), dispatch.binding) && dispatch.binding.raw == configuration
                           && Within(budget, RemoteTouch(old(store.objects), keys, dispatch.binding))
                        then ReadAll(old(store.objects), keys, |keys|) else None
      ensures store.alone && view.Some? ==> references == RemoteTouch(old(store.objects), keys, dispatch.binding)
    {
      hide ReadPhase, ViewOk, ReadAll, Extended, SeenOk, Within, AllTouch, PhaseTouch;
      ghost var o0, binding := store.objects, dispatch.binding;
      NothingRead(o0, keys);
      NothingTouched(o0, keys, binding);
      var configured := ReadBinding();
      if store.alone && Pinned(o0, binding) && ReadAll(o0, keys, |keys|).Some? {
        RemoteTouchLess(o0, keys, 0, binding);
        WithinLess(budget, map[BindingName := binding], RemoteTouch(o0, keys, binding));
      }
      if !configured {
        return None;
      }
      var v := View(map[], map[], []);
      NothingSeen(old(store.objects), store.objects, keys);
      for n := 0 to |keys|
        invariant Valid() && Grows(old(store.objects), store.objects)
        invariant store.alone ==> store.objects == old(store.objects)
        invariant Pinned(store.objects, dispatch.binding)
        invariant store.alone ==> ReadAll(old(store.objects), keys, n) == Some(v)
        invariant store.alone ==> references == map[BindingName := binding] + AllTouch(o0, keys, n)
        invariant store.alone ==> Within(budget, references)
        invariant ViewOk(old(store.objects), store.objects, keys, n, v)
      {
        ghost var o, refs := store.objects, references;
        TouchNextKey(o0, keys, n, binding);
        var phase := Phase(keys[n]);
        ViewGrows(old(store.objects), o, store.objects, keys, n, v);
        if !phase.Denied? {
          ViewExtends(old(store.objects), store.objects, keys, n, v, phase);
        }
        if store.alone {
          ReadNextKey(o0, keys, n, v);
          if TouchFits(o0, keys[n], refs) {
            FitsOrNot(o0, n, refs);
          }
        }
        if phase.Denied? {
          if store.alone {
            DeniedHere(o0, n, refs);
          }
          return None;
        }
        v := Extended(v, keys[n], phase);
      }
      ViewFacts(old(store.objects), store.objects, keys, v);
      return Some(v);
    }

    lemma FitsOrNot(o: Objects, n: nat, refs: Objects)
      requires n < |keys| && Within(budget, refs) && TouchFits(o, keys[n], refs)
      ensures Within(budget, refs + PhaseTouch(o, keys[n]))
    {
      hide Within, PhaseTouch;
      if PhaseTouch(o, keys[n]) == map[] {
        assert refs + map[] == refs;
      }
    }

    /** A refusal at one key, for its reading or for the budget, is one of the whole. */
    lemma DeniedHere(o: Objects, n: nat, refs: Objects)
      requires n < |keys| && Pinned(o, dispatch.binding) && dispatch.Valid()
      requires refs == map[BindingName := dispatch.binding] + AllTouch(o, keys, n)
      requires ReadPhase(o, keys[n]).Denied? || !TouchFits(o, keys[n], refs)
      ensures ReadAll(o, keys, |keys|).None? || !Within(budget, RemoteTouch(o, keys, dispatch.binding))
    {
      hide ReadPhase, ReadAll, AllTouch, PhaseTouch, Within;
      if ReadPhase(o, keys[n]).Denied? {
        DeniedAt(o, keys, n);
        DeniedStays(o, keys, n + 1);
      } else if ReadAll(o, keys, |keys|).Some? {
        TouchNextKey(o, keys, n, dispatch.binding);
        RemoteTouchLess(o, keys, n + 1, dispatch.binding);
        WithinLess(budget, refs + PhaseTouch(o, keys[n]), RemoteTouch(o, keys, dispatch.binding));
      }
    }

    /** The reads of one link: the run terminal and the acknowledgement of its dispatch. */
    method ReadLink(ref: Ref, checkpoint: Checkpoint) returns (ok: bool)
      requires Valid()
      modifies this`references, store
      ensures Valid() && Grows(old(store.objects), store.objects)
      ensures store.alone ==> store.objects == old(store.objects)
      ensures ok ==>
                && Pinned(store.objects, ref) && LinkShape(ref, dispatch.binding, checkpoint) && ref.raw.RunDoc?
                && Pinned(store.objects, ref.raw.ack) && ref.raw.ack.raw == ref.raw.dispatched
                && references == old(references)[ref.name := ref][ref.raw.ack.name := ref.raw.ack]
                && Within(budget, references)
      ensures (store.alone && Pinned(old(store.objects), ref) && LinkShape(ref, dispatch.binding, checkpoint)
               && Pinned(old(store.objects), ref.raw.ack) && ref.raw.ack.raw == ref.raw.dispatched
               && Within(budget, old(references)[ref.name := ref])
               && Within(budget, old(references)[ref.name := ref][ref.raw.ack.name := ref.raw.ack])) ==> ok
    {
      hide Within, Dispatch.Valid;
      var prior := Get(ref.name, Some(ref));
      if prior.Refused? || !LinkShape(ref, dispatch.binding, checkpoint) {
        return false;
      }
      var ack := Get(ref.raw.ack.name, Some(ref.raw.ack));
      return ack.Ok? && ref.raw.ack.raw == ref.raw.dispatched;
    }

    /** `_parent`: the loop accepts exactly when the chain does and the budget covers it. */
    method Parent(parent: Option<Ref>, tip: Checkpoint) returns (ok: bool)
      requires Valid()
      modifies this`references, store
      ensures Valid() && Grows(old(store.objects), store.objects)
      ensures store.alone ==> store.objects == old(store.objects)
      ensures ok ==> ParentChain(store.objects, dispatch.binding, parent, tip, {}, |keys|).Some?
      ensures store.alone && Within(budget, old(references)) ==>
                var chain := ParentChain(old(store.objects), dispatch.binding, parent, tip, {}, |keys|);
                && (ok <==> chain.Some? && Within(budget, old(references) + ChainTouch(chain.value)))
                && (ok ==> references == old(references) + ChainTouch(chain.value))
    {
      hide WalkSound, Within, ChainTouch, ParentChain, LinkShape, Dispatch.Valid;
      ghost var o, refs, chain := store.objects, references,
                                  ParentChain(store.objects, dispatch.binding, parent, tip, {}, |keys|);
      var seen: set<Name>, reference, checkpoint := {}, parent, tip;
      WalkStarts(store.objects, dispatch.binding, parent, tip, |keys|);
      while reference.Some?
        invariant Valid() && Grows(old(store.objects), store.objects)
        invariant store.alone ==> store.objects == old(store.objects)
        invariant WalkSound(store.objects, dispatch.binding, parent, tip, reference, checkpoint, seen, |keys|)
        invariant store.alone && Within(budget, refs) ==>
          var rest := ParentChain(o, dispatch.binding, reference, checkpoint, seen, |keys|);
          && Within(budget, references) && (chain.Some? <==> rest.Some?)
          && (chain.Some? ==> refs + ChainTouch(chain.value) == references + ChainTouch(rest.value))
        decreases |keys| - |seen|
      {
        ghost var before, had := store.objects, references;
        ghost var rest := ParentChain(o, dispatch.binding, reference, checkpoint, seen, |keys|);
        var ref := reference.value;
        NextLink(o, dispatch.binding, ref, checkpoint, seen, |keys|);
        if ref.name in seen || |seen| >= |keys| {
          return false;
        }
        if store.alone && rest.Some? {
          LinkFits(o, reference, checkpoint, seen, had);
        }
        var linked := ReadLink(ref, checkpoint);
        if !linked {
          return false;
        }
        WalkExtends(before, store.objects, dispatch.binding, parent, tip, ref, checkpoint, seen, |keys|);
        seen, checkpoint, reference := seen + {ref.name}, ref.raw.before, ref.raw.parent;
      }
      WalkEnds(store.objects, dispatch.binding, parent, tip, checkpoint, seen, |keys|);
      NoChain(references);
      LastLink(o, dispatch.binding, checkpoint, seen, |keys|);
      return checkpoint == map[];
    }

    /** The two reads of a link, when the rest of the chain is accepted. */
    lemma LinkFits(o: Objects, reference: Option<Ref>, checkpoint: Checkpoint, seen: set<Name>, refs: Objects)
      requires reference.Some? && Grows(refs, o) && forall n :: n in o ==> o[n].name == n
      requires ParentChain(o, dispatch.binding, reference, checkpoint, seen, |keys|).Some?
      ensures var ref := reference.value;
              var chain := ParentChain(o, dispatch.binding, reference, checkpoint, seen, |keys|).value;
              var seen', after := seen + {ref.name}, refs[ref.name := ref][ref.raw.ack.name := ref.raw.ack];
              var rest := ParentChain(o, dispatch.binding, ref.raw.parent, ref.raw.before, seen', |keys|);
              && ref.raw.RunDoc? && rest.Some? && Grows(after, o)
              && refs + ChainTouch(chain) == after + ChainTouch(rest.value)
              && (Within(budget, refs + ChainTouch(chain)) ==>
                    Within(budget, refs[ref.name := ref]) && Within(budget, after))
    {
      hide Within, ChainTouch, LinkTouch;
      var ref, chain := reference.value, ParentChain(o, dispatch.binding, reference, checkpoint, seen, |keys|).value;
      var rest := ParentChain(o, dispatch.binding, ref.raw.parent, ref.raw.before, seen + {ref.name}, |keys|);
      ChainTouchCons(ref, rest.value);
      ChainTouchIn(o, dispatch.binding, ref.raw.parent, ref.raw.before, seen + {ref.name}, |keys|);
      LinkThenRest(budget, o, refs, ref, ChainTouch(rest.value));
    }

    /** What `begin` has made sure of before it claims, and still holds whoever else writes. */
    ghost predicate Reviewed(before: Objects, local: map<Name, Content>)
      reads this, store
    {
      ReviewedAt(before, store.objects, keys, configuration, dispatch, local)
    }

    /** What the reads of `begin` touch, one after another. */
    lemma ReviewFits(o: Objects)
      requires dispatch.Valid() && StoreReviews(keys, o, dispatch)
      ensures var all, remote := ReviewTouch(o, keys, dispatch), RemoteTouch(o, keys, dispatch.binding);
              var chain := ParentChain(o, dispatch.binding, dispatch.parent, dispatch.before, {}, |keys|);
              && Grows(all, o)
              && (Within(budget, all) ==>
                    Within(budget, remote) && Within(budget, remote[dispatch.ack.name := dispatch.ack]))
              && (dispatch.parent.None? ==> all == remote[dispatch.ack.name := dispatch.ack])
              && (dispatch.parent.Some? ==> all == remote[dispatch.ack.name := dispatch.ack] + ChainTouch(chain.value))
    {
      hide Within, ReadAll, RemoteTouch, ChainTouch, ParentChain, Dispatch.Document;
      var remote, chain := RemoteTouch(o, keys, dispatch.binding),
                           ParentChain(o, dispatch.binding, dispatch.parent, dispatch.before, {}, |keys|);
      RemoteTouchLess(o, keys, |keys|, dispatch.binding);
      if dispatch.parent.Some? {
        ChainTouchIn(o, dispatch.binding, dispatch.parent, dispatch.before, {}, |keys|);
        OneAfterAnother(budget, o, remote, dispatch.ack, ChainTouch(chain.value));
      } else {
        OneAfterAnother(budget, o, remote, dispatch.ack, map[]);
      }
    }

    /** The reads of `begin` and its comparisons with the local journal. */
    method Review(journal: Journal, initialize: bool) returns (ok: bool)
      requires Valid()
      modifies this`references, store
      ensures Valid() && Grows(old(store.objects), store.objects)
      ensures store.alone ==> store.objects == old(store.objects)
      ensures ok ==>
                && Reviewed(old(store.objects), journal.files)
                && journal.blocked != Some(dispatch.Document()) && (initialize ==> dispatch.before == map[])
      ensures store.alone ==>
                (ok <==>
                   && Reviews(old(store.objects), keys, configuration, dispatch, journal.files, journal.blocked,
                              initialize)
                   && Within(budget, ReviewTouch(old(store.objects), keys, dispatch)))
      ensures store.alone && ok ==> references == ReviewTouch(old(store.objects), keys, dispatch)
    {
      hide ViewOk, LocalOk, LocalMatches, ReadAll, ParentChain, Dispatch.Document, SeenOk, Within, RemoteTouch;
      hide ChainTouch;
      if store.alone && StoreReviews(keys, store.objects, dispatch) {
        ReviewFits(store.objects);
      }
      var view := Remote();
      if view.None? || view.value.unknown != [] || view.value.phases != dispatch.before {
        return false;
      }
      ghost var seen := store.objects;
      var ack := Get(dispatch.ack.name, Some(dispatch.ack));
      if ack.Refused? || dispatch.ack.raw != dispatch.Document() {
        return false;
      }
      if dispatch.parent.None? {
        if view.value.files != map[] {
          return false;
        }
      } else {
        var linked := Parent(dispatch.parent, dispatch.before);
        if !linked {
          return false;
        }
      }
      if initialize && view.value.files != map[] {
        return false;
      }
      LocalFollows(old(store.objects), seen, store.objects, keys, dispatch, journal.files, view.value);
      return LocalMatches(journal.files, view.value.files, keys) && journal.blocked != Some(dispatch.Document());
    }

    /** What `begin` does before it reads: the channel is unused, the cap is kept, no stop is on record, and
        the journal's binding marker is new or the same. */
    method Adopt(journal: Journal, initialize: bool, maximumRequests: nat) returns (ok: bool)
      modifies this`own, journal`marker
      ensures ok <==>
                && !started && maximumRequests <= dispatch.maxRequests && journal.stops == {}
                && old(journal.marker) == (if initialize then None else Some(dispatch.binding))
      ensures own == if ok then journal else old(own)
    {
      if started || maximumRequests > dispatch.maxRequests || journal.stops != {} {
        return false;
      }
      if initialize {
        if journal.marker != None {
          return false;
        }
        journal.marker := Some(dispatch.binding);
      } else if journal.marker != Some(dispatch.binding) {
        return false;
      }
      own := journal;
      return true;
    }

    function ClaimRef(generation: nat): Ref {
      Ref(RunIntent(dispatch.before), generation, ClaimDoc(dispatch.Document(), dispatch.before))
    }

    /** `begin`.  A channel admitted while others write holds a claim nobody else can take, over a
        parent chain and phases the store still backs and the journal agrees with.  Alone, it is
        admitted exactly when `Admits` says so and the budget covers its reads and its claim. */
    method Begin(journal: Journal, initialize: bool, maximumRequests: nat, generation: nat) returns (ok: bool)
      requires Valid()
      modifies this, store, journal`marker
      ensures Valid() && Grows(old(store.objects), store.objects) && sent == old(sent)
      ensures ok <==> started && !old(started)
      ensures ok ==>
                && RunIntent(dispatch.before) !in old(store.objects) && RunIntent(dispatch.before) in store.objects
                && store.objects[RunIntent(dispatch.before)].raw == ClaimDoc(dispatch.Document(), dispatch.before)
                && Reviewed(old(store.objects), journal.files) && own == journal
                && maximumRequests <= dispatch.maxRequests && journal.stops == {}
                && journal.blocked != Some(dispatch.Document()) && (initialize ==> dispatch.before == map[])
                && old(journal.marker) == (if initialize then None else Some(dispatch.binding))
      ensures own == old(own) || own == journal
      ensures store.alone ==>
                (ok <==>
                   && !old(started) && maximumRequests <= dispatch.maxRequests && journal.stops == {}
                   && old(journal.marker) == (if initialize then None else Some(dispatch.binding))
                   && Admits(old(store.objects), keys, configuration, dispatch, journal.files, journal.blocked,
                             initialize)
                   && Within(budget, ReviewTouch(old(store.objects), keys, dispatch)[
                                       RunIntent(dispatch.before) := ClaimRef(generation)]))
    {
      hide Reviews, StoreReviews, LocalOk, ParentChain, Dispatch.Document, Within, ReviewTouch, RemoteTouch, ChainTouch;
      hide Dispatch.Valid, ReviewedAt;
      ghost var o0 := store.objects;
      ReviewsStore(o0, keys, configuration, dispatch, journal.files, journal.blocked, initialize);
      if store.alone && StoreReviews(keys, o0, dispatch) && RunIntent(dispatch.before) !in o0 {
        ReviewFits(o0);
        OneMore(budget, o0, ReviewTouch(o0, keys, dispatch), ClaimRef(generation));
      }
      ok := false;
      var adopted := Adopt(journal, initialize, maximumRequests);
      if !adopted {
        return;
      }
      var reviewed := Review(journal, initialize);
      if !reviewed {
        return;
      }
      ghost var o := store.objects;
      var claim := Create(RunIntent(dispatch.before), ClaimDoc(dispatch.Document(), dispatch.before), generation);
      if claim.None? {
        return;
      }
      ReviewedStays(old(store.objects), o, store.objects, keys, configuration, dispatch, journal.files);
      started := true;
      ok := true;
    }

    /** `before_send`: it returns only with an acknowledged intent that was not there before. */
    method BeforeSend(journal: Journal, key: Key, generation: nat) returns (ok: bool)
      requires Valid()
      modifies this`references, this`sent, store
      ensures Valid() && Grows(old(store.objects), store.objects)
      ensures sent == if ok then old(sent) + [key] else old(sent)
      ensures ok ==>
                && started && own == journal && key in keys && key !in old(sent) && |old(sent)| < dispatch.maxRequests
                && PhaseIntent(key) !in old(store.objects)
                && PhaseIntent(key) in references && PhaseIntent(key) in journal.files
                && references[PhaseIntent(key)].raw == journal.files[PhaseIntent(key)]
      ensures store.alone ==>
                (ok <==>
                   && started && own == journal && key in keys && key !in old(sent)
                   && |old(sent)| < dispatch.maxRequests
                   && PhaseIntent(key) in journal.files && PhaseIntent(key) !in old(store.objects)
                   && Within(budget, old(references)[PhaseIntent(key) := Ref(PhaseIntent(key), generation,
                                                                            journal.files[PhaseIntent(key)])]))
    {
      hide Within;
      if !started || own != journal || |sent| >= dispatch.maxRequests || key !in keys || key in sent
         || PhaseIntent(key) !in journal.files {
        return false;
      }
      var ack := Create(PhaseIntent(key), journal.files[PhaseIntent(key)], generation);
      if ack.None? {
        return false;
      }
      sent := sent + [key];
      return true;
    }

    /** Everything `terminal` needs of a store that only it writes to. */
    ghost predicate CanPublish(journal: Journal, key: Key, generation: nat)
      reads this, store, journal
    {
      && started && own == journal && key in sent && PhaseIntent(key) in references
      && PhaseFile(key, ResultFile) in journal.files && journal.files[PhaseFile(key, ResultFile)].ResultDoc?
      && var state := journal.files[PhaseFile(key, ResultFile)].state;
         && CanPublishAll(budget, store.objects, references, key, state, journal.files, generation)
         && PhaseTerminal(key) !in store.objects
         && var refs := Published(key, Kinds(key, state), journal.files, generation);
            Within(budget, (references + RefMap(refs))[
                             PhaseTerminal(key) := Ref(PhaseTerminal(key), generation,
                                                       PhaseDoc(key, references[PhaseIntent(key)], refs))])
    }

    /** The files of one phase, created in order from the journal's bytes. */
    method PublishFiles(journal: Journal, key: Key, state: ResultState, generation: nat)
      returns (refs: Option<seq<Ref>>)
      requires Valid()
      modifies this`references, store
      ensures Valid() && Grows(old(store.objects), store.objects)
      ensures refs.Some? ==> FilesPublished(store.objects, key, state, journal.files, refs.value)
      ensures store.alone ==>
                (refs.Some? <==>
                   CanPublishAll(budget, old(store.objects), old(references), key, state, journal.files, generation))
      ensures store.alone && refs.Some? ==>
                && refs.value == Published(key, Kinds(key, state), journal.files, generation)
                && references == old(references) + RefMap(refs.value)
      ensures store.alone ==> store.objects.Keys <= old(store.objects).Keys + FileNames(key, state)
    {
      hide Kinds, FileNames, Within, RefMap, Published, FilesPublished, SoFar, CanPublishAll;
      ghost var o0, refs0 := store.objects, references;
      var kinds := Kinds(key, state);
      var done: seq<Ref> := [];
      SoFarStarts(budget, o0, refs0, key, state, journal.files, generation);
      for n := 0 to |kinds|
        invariant Valid() && Grows(old(store.objects), store.objects) && |done| == n
        invariant forall j :: 0 <= j < n ==>
          && Pinned(store.objects, done[j]) && done[j].name == PhaseFile(key, kinds[j])
          && PhaseFile(key, kinds[j]) in journal.files && done[j].raw == journal.files[PhaseFile(key, kinds[j])]
        invariant store.alone ==>
          SoFar(budget, o0, store.objects, refs0, references, key, state, journal.files, generation, n, done)
      {
        ghost var o, refs := store.objects, references;
        var name := PhaseFile(key, kinds[n]);
        if store.alone {
          SoFarBound(budget, o0, o, refs0, refs, key, state, journal.files, generation, n, done);
        }
        if name !in journal.files {
          if store.alone {
            SoFarStops(budget, o0, o, refs0, refs, key, state, journal.files, generation, n, done);
          }
          return None;
        }
        var ack := Create(name, journal.files[name], generation);
        if ack.None? {
          if store.alone {
            SoFarStops(budget, o0, o, refs0, refs, key, state, journal.files, generation, n, done);
          }
          return None;
        }
        if store.alone {
          SoFarMore(budget, o0, o, refs0, refs, key, state, journal.files, generation, n, done);
        }
        done := done + [ack.value];
      }
      ArePublished(store.objects, key, state, journal.files, done);
      if store.alone {
        SoFarEnds(budget, o0, store.objects, refs0, references, key, state, journal.files, generation, done);
      }
      return Some(done);
    }

    /** `terminal`: the commit it leaves is one that `_phase` accepts from then on, with exactly
        the journal's bytes for the intent and for each file the result state calls for. */
    method Terminal(journal: Journal, key: Key, generation: nat) returns (ok: bool)
      requires Valid()
      modifies this`references, store
      ensures Valid() && Grows(old(store.objects), store.objects)
      ensures ok ==>
                && started && own == journal && key in sent && PhaseTerminal(key) !in old(store.objects)
                && PhaseFile(key, ResultFile) in journal.files && journal.files[PhaseFile(key, ResultFile)].ResultDoc?
                && PhaseIntent(key) in old(references)
      ensures ok ==> ReadsBack(store.objects, key, old(references)[PhaseIntent(key)], journal.files)
      ensures store.alone ==> (ok <==> old(CanPublish(journal, key, generation)))
    {
      hide ReadsBack, FilesPublished, Within, RefMap, Kinds, Published, CanPublishAll, FileNames, Dispatch.Valid;
      if !started || own != journal || key !in sent || PhaseIntent(key) !in references
         || PhaseFile(key, ResultFile) !in journal.files || !journal.files[PhaseFile(key, ResultFile)].ResultDoc? {
        return false;
      }
      var intent := references[PhaseIntent(key)];
      var state := journal.files[PhaseFile(key, ResultFile)].state;
      ghost var all := Published(key, Kinds(key, state), journal.files, generation);
      if store.alone && PhaseTerminal(key) !in store.objects {
        NotPublished(key, state, journal.files, generation);
        OneMore(budget, references + RefMap(all), references + RefMap(all),
                Ref(PhaseTerminal(key), generation, PhaseDoc(key, intent, all)));
      }
      var refs := PublishFiles(journal, key, state, generation);
      if refs.None? {
        return false;
      }
      ghost var o := store.objects;
      var commit := Create(PhaseTerminal(key), PhaseDoc(key, intent, refs.value), generation);
      if commit.None? {
        return false;
      }
      assert Grows(o, store.objects);
      assert Pinned(o, intent);
      assert commit.value.raw == PhaseDoc(key, intent, refs.value);
      PublishedReadsBack(o, store.objects, key, intent, state, journal.files, refs.value, commit.value);
      return true;
    }

    function RunRef(after: Checkpoint, generation: nat): Ref
      reads this`sent
    {
      Ref(RunTerminal(dispatch.before), generation,
          RunDoc(dispatch.ack, dispatch.Document(), dispatch.binding, dispatch.before, after, |sent|, dispatch.parent))
    }

    /** `finish`: it acknowledges a run terminal only over a scan without unfinished phases. */
    method Finish(generation: nat) returns (ack: Option<Ref>)
      requires Valid()
      modifies this`references, store
      ensures Valid() && Grows(old(store.objects), store.objects)
      ensures ack.Some? ==>
                && started && sent != [] && RunTerminal(dispatch.before) !in old(store.objects)
                && Pinned(store.objects, ack.value) && ack.value.name == RunTerminal(dispatch.before)
                && ack.value.raw.RunDoc? && SeenOk(store.objects, ack.value.raw.after)
                && ack.value.raw == RunDoc(dispatch.ack, dispatch.Document(), dispatch.binding, dispatch.before,
                                           ack.value.raw.after, |sent|, dispatch.parent)
      ensures ack.Some? ==>
                forall key :: key in keys ==>
                  if key in ack.value.raw.after
                  then ReadPhase(store.objects, key).Captured?
                       && ReadPhase(store.objects, key).commit == ack.value.raw.after[key]
                  else PhaseIntent(key) !in old(store.objects)
      ensures store.alone ==>
                (ack.Some? <==>
                   && started && sent != [] && RunTerminal(dispatch.before) !in old(store.objects)
                   && Pinned(old(store.objects), dispatch.binding) && dispatch.binding.raw == configuration
                   && var view := ReadAll(old(store.objects), keys, |keys|);
                      && view.Some? && view.value.unknown == []
                      && Within(budget, RemoteTouch(old(store.objects), keys, dispatch.binding)[
                                          RunTerminal(dispatch.before) := RunRef(view.value.phases, generation)]))
      ensures store.alone && ack.Some? ==>
                ReadAll(old(store.objects), keys, |keys|).Some?
                && ReadAll(old(store.objects), keys, |keys|).value.unknown == []
                && ack.value.raw.after == ReadAll(old(store.objects), keys, |keys|).value.phases
    {
      hide Within, ReadAll, RemoteTouch, ViewOk, ReadPhase, SeenOk, Dispatch.Document;
      if !started {
        return None;
      }
      ghost var o0 := store.objects;
      if store.alone && Pinned(o0, dispatch.binding) && ReadAll(o0, keys, |keys|).Some?
         && RunTerminal(dispatch.before) !in o0 {
        RemoteTouchLess(o0, keys, |keys|, dispatch.binding);
        OneMore(budget, o0, RemoteTouch(o0, keys, dispatch.binding),
                RunRef(ReadAll(o0, keys, |keys|).value.phases, generation));
      }
      var view := Remote();
      if view.None? || view.value.unknown != [] || sent == [] {
        return None;
      }
      ghost var o := store.objects;
      ack := Create(RunTerminal(dispatch.before),
                    RunDoc(dispatch.ack, dispatch.Document(), dispatch.binding, dispatch.before,
                           view.value.phases, |sent|, dispatch.parent), generation);
      NothingUnknown(old(store.objects), o, store.objects, keys, view.value);
      SeenStays(o, store.objects, view.value.phases);
    }

    /** `stop`: on the channel's own journal the stop of its dispatch is recorded, once, and bars every
        later `begin` there; any other journal is left alone. */
    method Stop(journal: Journal)
      modifies journal`stops
      ensures journal == own ==> journal.stops == old(journal.stops) + {dispatch.Document()}
      ensures journal != own ==> journal.stops == old(journal.stops)
    {
      if journal != own {
        return;
      }
      if dispatch.Document() !in journal.stops {
        journal.stops := journal.stops + {dispatch.Document()};
      }
    }
  }

  /** A journal that a channel began with and stopped on admits no channel any more. */
  method StoppedJournalBars(first: Channel, second: Channel, journal: Journal, initialize: bool, maximumRequests: nat,
                            generation: nat)
    returns (ok: bool)
    requires first.own == journal && second.Valid()
    modifies second, second.store, journal`stops, journal`marker
    ensures !ok
  {
    first.Stop(journal);
    ok := second.Begin(journal, initialize, maximumRequests, generation);
  }

  // --- Proofs used by the methods ---

  lemma ReviewsStore(o: Objects, keys: seq<Key>, configuration: Content, d: Dispatch, local: map<Name, Content>,
                     blocked: Option<Content>, initialize: bool)
    ensures Reviews(o, keys, configuration, d, local, blocked, initialize) ==> StoreReviews(keys, o, d)
  {
  }

  /** An object that is not yet in the store costs no less than what was touched before it. */
  lemma OneMore(b: Budget, o: Objects, refs: Objects, ref: Ref)
    requires Grows(refs, o) && ref.name !in o
    ensures Within(b, refs[ref.name := ref]) ==> Within(b, refs)
  {
    hide Within;
    WithinLess(b, refs, refs[ref.name := ref]);
  }

  lemma OneAfterAnother(b: Budget, o: Objects, remote: Objects, ack: Ref, chain: Objects)
    requires Grows(remote, o) && Pinned(o, ack) && Grows(chain, o)
    ensures var more := remote[ack.name := ack];
            && remote + map[ack.name := ack] + chain == more + chain && Grows(more + chain, o) && more + map[] == more
            && (Within(b, more + chain) ==> Within(b, remote) && Within(b, more))
  {
    hide Within;
    var more := remote[ack.name := ack];
    Both(more, chain, o);
    WithinLess(b, remote, more + chain);
    WithinLess(b, more, more + chain);
  }

  lemma SeenStays(o: Objects, o': Objects, seen: Checkpoint)
    requires SeenOk(o, seen) && Grows(o, o')
    ensures SeenOk(o', seen)
  {
  }

  /** When one more link is accepted. */
  lemma NextLink(o: Objects, binding: Ref, ref: Ref, checkpoint: Checkpoint, seen: set<Name>, bound: nat)
    ensures var all := ParentChain(o, binding, Some(ref), checkpoint, seen, bound);
            if ref.name !in seen && |seen| < bound && Pinned(o, ref) && LinkShape(ref, binding, checkpoint)
               && Pinned(o, ref.raw.ack) && ref.raw.ack.raw == ref.raw.dispatched
            then all.Some? <==> ParentChain(o, binding, ref.raw.parent, ref.raw.before, seen + {ref.name}, bound).Some?
            else all.None?
  {
  }

  lemma LastLink(o: Objects, binding: Ref, checkpoint: Checkpoint, seen: set<Name>, bound: nat)
    ensures ParentChain(o, binding, None, checkpoint, seen, bound) == if checkpoint == map[] then Some([]) else None
  {
  }

  lemma HasFiles(key: Key, intent: Ref, raw: Content)
    requires CommitShape(key, intent, raw)
    ensures raw.PhaseDoc? && raw.files != []
  {
  }

  /** The reads of one phase in order: each touches part of the whole. */
  lemma PhaseSteps(b: Budget, o: Objects, key: Key, refs: Objects)
    requires Grows(refs, o)
    ensures var i, t := PhaseIntent(key), PhaseTerminal(key);
            ReadPhase(o, key).Denied? ||
            var all := refs + PhaseTouch(o, key);
            && (i in o ==> Within(b, all) ==> Within(b, refs[i := o[i]]))
            && (i in o && t in o ==> Within(b, all) ==> Within(b, refs[i := o[i]][t := o[t]]))
            && (i !in o ==> all == refs && PhaseTouch(o, key) == map[]) && (i in o ==> i in PhaseTouch(o, key))
            && (i in o && t !in o ==> all == refs[i := o[i]])
            && (i in o && t in o ==> o[t].raw.PhaseDoc? && all == refs[i := o[i]][t := o[t]] + RefMap(o[t].raw.files))
  {
    hide Within, RefMap, PhaseTouch, ReadPhase;
    var i, t := PhaseIntent(key), PhaseTerminal(key);
    if !ReadPhase(o, key).Denied? {
      var all := refs + PhaseTouch(o, key);
      PhaseTouchIs(o, key, refs);
      PhaseTouchIn(o, key);
      if i in o {
        WithinLess(b, refs[i := o[i]], all);
        if t in o {
          WithinLess(b, refs[i := o[i]][t := o[t]], all);
        }
      }
    }
  }

  lemma PhaseTouchIs(o: Objects, key: Key, refs: Objects)
    requires Grows(refs, o) && !ReadPhase(o, key).Denied?
    ensures var i, t, all := PhaseIntent(key), PhaseTerminal(key), refs + PhaseTouch(o, key);
            && (i !in o ==> t !in o && all == refs && PhaseTouch(o, key) == map[])
            && (i in o ==> i in PhaseTouch(o, key) && (t in o ==> t in PhaseTouch(o, key)))
            && (i in o && t !in o ==> all == refs[i := o[i]])
            && (i in o && t in o ==> o[t].raw.PhaseDoc? && all == refs[i := o[i]][t := o[t]] + RefMap(o[t].raw.files))
  {
    hide RefMap, FilesOf, CommitShape, CommitComplete, AllPinned;
    var i, t := PhaseIntent(key), PhaseTerminal(key);
    if i in o && t in o {
      ShapeIsPhase(key, o[i], o[t].raw);
    }
  }

  lemma ShapeIsPhase(key: Key, intent: Ref, raw: Content)
    ensures CommitShape(key, intent, raw) ==> raw.PhaseDoc?
  {
  }

  lemma NothingTouched(o: Objects, keys: seq<Key>, binding: Ref)
    ensures map[BindingName := binding] + AllTouch(o, keys, 0) == map[BindingName := binding]
  {
  }

  lemma NoChain(refs: Objects)
    ensures refs + ChainTouch([]) == refs
  {
  }

  lemma DeniedAt(o: Objects, keys: seq<Key>, n: nat)
    requires n < |keys| && ReadPhase(o, keys[n]).Denied?
    ensures ReadAll(o, keys, n + 1).None?
  {
  }

  /** Every file is in the journal, every name is free, and the budget covers them together. */
  ghost predicate CanPublishAll(b: Budget, o: Objects, refs: Objects, key: Key, state: ResultState,
                                files: map<Name, Content>, generation: nat) {
    && FileNames(key, state) <= files.Keys && FileNames(key, state) !! o.Keys
    && Within(b, refs + RefMap(Published(key, Kinds(key, state), files, generation)))
  }

  /** The first `n` files were created. */
  ghost predicate SoFar(b: Budget, o0: Objects, o: Objects, refs0: Objects, refs: Objects, key: Key, state: ResultState,
                        files: map<Name, Content>, generation: nat, n: nat, done: seq<Ref>) {
    var kinds := Kinds(key, state);
    var all := Published(key, kinds, files, generation);
    && n <= |kinds| && Grows(refs0, o0) && o.Keys == o0.Keys + FirstFiles(key, kinds, n)
    && FirstFiles(key, kinds, n) <= files.Keys && FirstFiles(key, kinds, n) !! o0.Keys
    && done == all[..n] && refs == refs0 + RefMap(all[..n]) && (n > 0 ==> Within(b, refs))
  }

  lemma SoFarStarts(b: Budget, o: Objects, refs: Objects, key: Key, state: ResultState, files: map<Name, Content>,
                    generation: nat)
    requires Grows(refs, o)
    ensures SoFar(b, o, o, refs, refs, key, state, files, generation, 0, [])
  {
    hide Within, Kinds, FileNames;
    NoRefs(refs);
    FilesSoFar(key, state, 0);
  }

  lemma SoFarBound(b: Budget, o0: Objects, o: Objects, refs0: Objects, refs: Objects, key: Key, state: ResultState,
                   files: map<Name, Content>, generation: nat, n: nat, done: seq<Ref>)
    requires SoFar(b, o0, o, refs0, refs, key, state, files, generation, n, done)
    ensures o.Keys <= o0.Keys + FileNames(key, state)
  {
    hide Within, Kinds, FileNames, FirstFiles, RefMap, Published;
    FilesSoFar(key, state, n);
  }

  /** A file that cannot be created is why not all can be published. */
  lemma SoFarStops(b: Budget, o0: Objects, o: Objects, refs0: Objects, refs: Objects, key: Key, state: ResultState,
                   files: map<Name, Content>, generation: nat, n: nat, done: seq<Ref>)
    requires SoFar(b, o0, o, refs0, refs, key, state, files, generation, n, done) && n < |Kinds(key, state)|
    requires var name := PhaseFile(key, Kinds(key, state)[n]);
             || name !in files || name in o || !Within(b, refs[name := Ref(name, generation, files[name])])
    ensures !CanPublishAll(b, o0, refs0, key, state, files, generation)
  {
    hide Within, Kinds, FileNames, FirstFiles, RefMap, Published;
    var kinds := Kinds(key, state);
    var all, name := Published(key, kinds, files, generation), PhaseFile(key, kinds[n]);
    FilesSoFar(key, state, n);
    if CanPublishAll(b, o0, refs0, key, state, files, generation) {
      PublishedAt(key, kinds, files, generation, n);
      RefMapNext(refs0, all, n);
      PublishedLess(o0, refs0, key, state, files, generation, n + 1);
      WithinLess(b, refs0 + RefMap(all[..n + 1]), refs0 + RefMap(all));
    }
  }

  lemma SoFarMore(b: Budget, o0: Objects, o: Objects, refs0: Objects, refs: Objects, key: Key, state: ResultState,
                  files: map<Name, Content>, generation: nat, n: nat, done: seq<Ref>)
    requires SoFar(b, o0, o, refs0, refs, key, state, files, generation, n, done) && n < |Kinds(key, state)|
    requires var name := PhaseFile(key, Kinds(key, state)[n]);
             name in files && name !in o && Within(b, refs[name := Ref(name, generation, files[name])])
    ensures var name := PhaseFile(key, Kinds(key, state)[n]);
            var ref := Ref(name, generation, files[name]);
            SoFar(b, o0, o[name := ref], refs0, refs[name := ref], key, state, files, generation, n + 1, done + [ref])
  {
    hide Within, Kinds, FileNames, FirstFiles, RefMap, Published;
    var kinds := Kinds(key, state);
    var all := Published(key, kinds, files, generation);
    FilesSoFar(key, state, n);
    PublishedAt(key, kinds, files, generation, n);
    RefMapNext(refs0, all, n);
    assert all[..n + 1] == all[..n] + [all[n]];
  }

  lemma PublishedAt(key: Key, kinds: seq<Kind>, files: map<Name, Content>, generation: nat, n: nat)
    requires n < |kinds| && PhaseFile(key, kinds[n]) in files
    ensures Published(key, kinds, files, generation)[n]
            == Ref(PhaseFile(key, kinds[n]), generation, files[PhaseFile(key, kinds[n])])
  {
  }

  lemma SoFarEnds(b: Budget, o0: Objects, o: Objects, refs0: Objects, refs: Objects, key: Key, state: ResultState,
                  files: map<Name, Content>, generation: nat, done: seq<Ref>)
    requires SoFar(b, o0, o, refs0, refs, key, state, files, generation, |Kinds(key, state)|, done)
    ensures CanPublishAll(b, o0, refs0, key, state, files, generation)
    ensures done == Published(key, Kinds(key, state), files, generation) && refs == refs0 + RefMap(done)
    ensures o.Keys == o0.Keys + FileNames(key, state)
  {
    hide Within, Kinds, FileNames, RefMap;
    var all := Published(key, Kinds(key, state), files, generation);
    HasKinds(key, state);
    FilesSoFar(key, state, |Kinds(key, state)|);
    assert all[..|all|] == all;
  }

  lemma ArePublished(o: Objects, key: Key, state: ResultState, files: map<Name, Content>, refs: seq<Ref>)
    requires |refs| == |Kinds(key, state)|
    requires forall j :: 0 <= j < |refs| ==>
               && Pinned(o, refs[j]) && refs[j].name == PhaseFile(key, Kinds(key, state)[j])
               && PhaseFile(key, Kinds(key, state)[j]) in files
               && refs[j].raw == files[PhaseFile(key, Kinds(key, state)[j])]
    ensures FilesPublished(o, key, state, files, refs)
  {
    hide Kinds;
  }

  lemma HasKinds(key: Key, state: ResultState)
    ensures Kinds(key, state) != []
  {
  }

  lemma {:induction false} RefMapNames(refs: seq<Ref>, name: Name)
    ensures name in RefMap(refs) ==> exists i :: 0 <= i < |refs| && refs[i].name == name
    decreases |refs|
  {
    if refs != [] {
      var n := |refs| - 1;
      RefMapNames(refs[..n], name);
      assert forall i | 0 <= i < n :: refs[..n][i] == refs[i];
    }
  }

  lemma {:induction false} RefMapGrows(base: Objects, refs: seq<Ref>, n: nat)
    requires n <= |refs| && forall i, j | 0 <= i < j < |refs| :: refs[i].name != refs[j].name
    requires forall i | 0 <= i < |refs| :: refs[i].name !in base
    ensures Grows(base + RefMap(refs[..n]), base + RefMap(refs))
    decreases |refs|
  {
    hide RefMap;
    if n == |refs| {
      assert refs[..n] == refs;
    } else {
      var shorter, last := refs[..|refs| - 1], refs[|refs| - 1];
      RefMapGrows(base, shorter, n);
      assert shorter[..n] == refs[..n];
      RefMapNext(base, refs, |refs| - 1);
      assert refs[..|refs|] == refs;
      RefMapNames(shorter, last.name);
    }
  }

  lemma PublishedLess(o: Objects, base: Objects, key: Key, state: ResultState, files: map<Name, Content>,
                      generation: nat, n: nat)
    requires Grows(base, o) && FileNames(key, state) !! o.Keys && n <= |Kinds(key, state)|
    ensures var all := Published(key, Kinds(key, state), files, generation);
            Grows(base + RefMap(all[..n]), base + RefMap(all))
  {
    hide RefMap;
    var all := Published(key, Kinds(key, state), files, generation);
    forall i | 0 <= i < |all|
      ensures all[i].name !in base
    {
      assert all[i].name in FileNames(key, state);
    }
    RefMapGrows(base, all, n);
  }

  lemma NotPublished(key: Key, state: ResultState, files: map<Name, Content>, generation: nat)
    ensures PhaseTerminal(key) !in RefMap(Published(key, Kinds(key, state), files, generation))
    ensures PhaseTerminal(key) !in FileNames(key, state)
  {
    hide RefMap;
    RefMapNames(Published(key, Kinds(key, state), files, generation), PhaseTerminal(key));
  }

  /** The references a publication ends with. */
  function Published(key: Key, kinds: seq<Kind>, files: map<Name, Content>, generation: nat): (refs: seq<Ref>)
    ensures |refs| == |kinds|
  {
    seq(|kinds|, n requires 0 <= n < |kinds| =>
      Ref(PhaseFile(key, kinds[n]), generation,
          if PhaseFile(key, kinds[n]) in files then files[PhaseFile(key, kinds[n])] else Bytes([])))
  }


  lemma FilesSoFar(key: Key, state: ResultState, n: nat)
    requires n <= |Kinds(key, state)|
    ensures var kinds := Kinds(key, state);
            && FirstFiles(key, kinds, 0) == {} && FirstFiles(key, kinds, |kinds|) == FileNames(key, state)
            && FirstFiles(key, kinds, n) <= FileNames(key, state)
            && (n < |kinds| ==>
                  && PhaseFile(key, kinds[n]) !in FirstFiles(key, kinds, n)
                  && PhaseFile(key, kinds[n]) in FileNames(key, state)
                  && FirstFiles(key, kinds, n + 1) == FirstFiles(key, kinds, n) + {PhaseFile(key, kinds[n])})
  {
  }

  lemma NothingUnknown(before: Objects, o: Objects, o': Objects, keys: seq<Key>, view: View)
    requires ViewOk(before, o, keys, |keys|, view) && view.unknown == [] && Grows(o, o')
    ensures forall key :: key in keys ==>
              if key in view.phases
              then ReadPhase(o', key).Captured? && ReadPhase(o', key).commit == view.phases[key]
              else PhaseIntent(key) !in before
  {
    hide ReadPhase;
    ViewGrows(before, o, o', keys, |keys|, view);
    forall key | key in keys
      ensures Shown(before, o', key, view)
    {
      var j :| 0 <= j < |keys| && keys[j] == key;
      assert Shown(before, o', keys[j], view);
    }
  }

  /** The names of the first `n` files a phase publishes. */
  ghost function FirstFiles(key: Key, kinds: seq<Kind>, n: nat): set<Name>
    requires n <= |kinds|
  {
    set j | 0 <= j < n :: PhaseFile(key, kinds[j])
  }

  lemma {:induction false} DeniedStays(o: Objects, keys: seq<Key>, n: nat)
    requires n <= |keys| && ReadAll(o, keys, n).None?
    ensures ReadAll(o, keys, |keys|).None?
    decreases |keys| - n
  {
    if n < |keys| {
      DeniedStays(o, keys, n + 1);
    }
  }

  /** From `base` on, the whole walk is accepted whenever the rest of it is. */
  ghost predicate WalkSound(base: Objects, binding: Ref, parent: Option<Ref>, tip: Checkpoint, reference: Option<Ref>,
                            checkpoint: Checkpoint, seen: set<Name>, bound: nat) {
    forall o ::
      Grows(base, o) ==>
      ParentChain(o, binding, reference, checkpoint, seen, bound).Some? ==>
      ParentChain(o, binding, parent, tip, {}, bound).Some?
  }

  lemma WalkStarts(base: Objects, binding: Ref, parent: Option<Ref>, tip: Checkpoint, bound: nat)
    ensures WalkSound(base, binding, parent, tip, parent, tip, {}, bound)
  {
  }

  lemma {:induction false} WalkExtends(base: Objects, base': Objects, binding: Ref, parent: Option<Ref>,
                                       tip: Checkpoint, ref: Ref, checkpoint: Checkpoint, seen: set<Name>,
                                       bound: nat)
    requires WalkSound(base, binding, parent, tip, Some(ref), checkpoint, seen, bound) && Grows(base, base')
    requires ref.name !in seen && |seen| < bound && Pinned(base', ref) && LinkShape(ref, binding, checkpoint)
    requires Pinned(base', ref.raw.ack) && ref.raw.ack.raw == ref.raw.dispatched
    ensures WalkSound(base', binding, parent, tip, ref.raw.parent, ref.raw.before, seen + {ref.name}, bound)
  {
  }

  lemma {:induction false} WalkEnds(base: Objects, binding: Ref, parent: Option<Ref>, tip: Checkpoint,
                                    checkpoint: Checkpoint, seen: set<Name>, bound: nat)
    requires WalkSound(base, binding, parent, tip, None, checkpoint, seen, bound)
    ensures checkpoint == map[] ==> ParentChain(base, binding, parent, tip, {}, bound).Some?
  {
    assert Grows(base, base);
  }

  /** Every file the result state calls for is stored with the journal's bytes. */
  ghost predicate FilesPublished(o: Objects, key: Key, state: ResultState, files: map<Name, Content>, refs: seq<Ref>) {
    && |refs| == |Kinds(key, state)|
    && forall j :: 0 <= j < |refs| ==>
         && Pinned(o, refs[j]) && refs[j].name == PhaseFile(key, Kinds(key, state)[j])
         && refs[j].name in files && refs[j].raw == files[refs[j].name]
  }

  /** `_phase` accepts the key and returns exactly the intent and the journal's files. */
  ghost predicate ReadsBack(o: Objects, key: Key, intent: Ref, files: map<Name, Content>) {
    && PhaseFile(key, ResultFile) in files && files[PhaseFile(key, ResultFile)].ResultDoc?
    && var view, state := ReadPhase(o, key), files[PhaseFile(key, ResultFile)].state;
       && view.Captured? && PhaseIntent(key) in view.files && view.files[PhaseIntent(key)] == intent.raw
       && InOrder(key, intent, view.commit.raw)
       && (forall name :: name in view.files <==> name == PhaseIntent(key) || FileOf(key, state, name))
       && forall name :: FileOf(key, state, name) ==> name in files && view.files[name] == files[name]
  }

  lemma {:induction false} PublishedReadsBack(o: Objects, o': Objects, key: Key, intent: Ref, state: ResultState,
                           files: map<Name, Content>, refs: seq<Ref>, commit: Ref)
    requires Pinned(o, intent) && intent.name == PhaseIntent(key)
    requires PhaseFile(key, ResultFile) in files && files[PhaseFile(key, ResultFile)] == ResultDoc(state)
    requires FilesPublished(o, key, state, files, refs)
    requires Grows(o, o') && Pinned(o', commit) && commit.name == PhaseTerminal(key)
    requires commit.raw == PhaseDoc(key, intent, refs)
    ensures ReadsBack(o', key, intent, files)
  {
    hide CommitShape, CommitComplete, InOrder, FilesOf, FilesPublished, Kinds, FileNames, FileOf;
    AcceptedCommits(key, intent, commit.raw);
    PublishedKinds(key, state);
    FilesCommit(o, key, intent, state, files, refs);
    PhaseFilesReadBack(o, key, intent, state, files, refs);
    CommitOkGrows([key], o, o', key, commit.raw);
  }

  lemma {:induction false} FilesCommit(o: Objects, key: Key, intent: Ref, state: ResultState,
                                       files: map<Name, Content>, refs: seq<Ref>)
    requires Pinned(o, intent) && intent.name == PhaseIntent(key)
    requires PhaseFile(key, ResultFile) in files && files[PhaseFile(key, ResultFile)] == ResultDoc(state)
    requires FilesPublished(o, key, state, files, refs)
    ensures CommitOk([key], o, key, PhaseDoc(key, intent, refs))
  {
    assert Kinds(key, state)[0] == ResultFile;
    CommitDocumentOk([key], o, key, intent, state, seq(|refs|, j requires 0 <= j < |refs| => refs[j].raw), refs);
  }

  lemma AllNamesDiffer(o: Objects, key: Key, intent: Ref, state: ResultState, files: map<Name, Content>,
                       refs: seq<Ref>)
    requires intent.name == PhaseIntent(key) && FilesPublished(o, key, state, files, refs)
    ensures var all := [intent] + refs; forall j, k | 0 <= j < k < |all| :: all[j].name != all[k].name
  {
    var all := [intent] + refs;
    forall j, k | 0 <= j < k < |all|
      ensures all[j].name != all[k].name
    {
      assert all[k] == refs[k - 1];
      if j > 0 {
        assert all[j] == refs[j - 1];
      }
    }
  }

  lemma {:induction false} PhaseFilesReadBack(o: Objects, key: Key, intent: Ref, state: ResultState,
                                              files: map<Name, Content>, refs: seq<Ref>)
    requires intent.name == PhaseIntent(key) && FilesPublished(o, key, state, files, refs)
    ensures var read := FilesOf([intent] + refs);
            && read.Keys == FileNames(key, state) + {PhaseIntent(key)} && read[PhaseIntent(key)] == intent.raw
            && forall name :: name in FileNames(key, state) ==> name in files && read[name] == files[name]
  {
    hide FilesOf, Kinds;
    var all, kinds := [intent] + refs, Kinds(key, state);
    AllNamesDiffer(o, key, intent, state, files, refs);
    forall name ensures name in FilesOf(all) <==> name in FileNames(key, state) + {PhaseIntent(key)} {
      FilesOfNames(all, name);
      if name in FileNames(key, state) {
        var j :| 0 <= j < |kinds| && name == PhaseFile(key, kinds[j]);
        assert all[j + 1].name == name;
      } else if name == PhaseIntent(key) {
        assert all[0].name == name;
      }
    }
    FilesOfValues(all, 0);
    forall name | name in FileNames(key, state) ensures name in files && FilesOf(all)[name] == files[name] {
      var j :| 0 <= j < |kinds| && name == PhaseFile(key, kinds[j]);
      FilesOfValues(all, j + 1);
      assert all[j + 1] == refs[j];
    }
  }
}
