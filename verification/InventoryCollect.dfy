/** The classification loop of `collect_retained_credentials`: every environment entry of every
    container of every resource is accounted for exactly once. */
module InventoryCollect {
  import opened Outcomes

  const MAX_DISTINCT := 128
  const MAX_ENTRIES := 1000

  datatype Category = Model | Database

  /** What the name of a variable makes of it. */
  datatype NameClass = Credential(category: Category) | Settlement | UnsupportedAlias | Unrelated

  /** A reference is pinned to one secret version, or the reason it is not. */
  datatype Source = Inline(value: string) | Reference(pinned: Result<string, string>) | Bare | Unsupported

  datatype Entry = Entry(name: string, nameValid: bool, source: Source)

  datatype Container = Container(imageOk: bool, env: seq<Entry>, mounted: bool)

  /** `bound` is whether the resource read back equals the one listed and its parent is known. */
  datatype Resource = Resource(kind: nat, name: string, uid: string, bound: bool, containers: seq<Container>)

  /** The slot is the entry's place in its container; the container's mounts have none. */
  datatype Origin = Origin(resource: string, uid: string, kind: nat, container: nat, name: string, slot: Option<nat>)

  datatype Secret = Unreadable | Value(text: string) | Unavailable(state: string)

  datatype Rules = Rules(
    nameClass: string -> NameClass, strip: string -> string, modelShape: string -> bool, databaseShape: string -> bool)

  datatype Item = Env(origin: Origin, entry: Entry) | Mounts(origin: Origin)

  type Key = (Category, string)

  datatype State = State(
    values: map<Key, seq<Origin>>, users: map<string, seq<Origin>>, cache: map<string, Secret>,
    unresolved: seq<(Origin, string)>)

  datatype Denial = ResourceMismatch | ContainerInvalid | SecretRefused | TooMany

  // --- What each entry amounts to ---

  datatype Fate = Ignored | Open(reason: string) | Blank | Held(key: Key)

  function Judge(rules: Rules, category: Category, value: string): Fate {
    var v := rules.strip(value);
    if v == "" then Blank
    else if category == Model && !rules.modelShape(v) then Open("model_credential_value_shape_unsupported")
    else if category == Database && !rules.databaseShape(v) then Open("database_credential_value_shape_unsupported")
    else Held((category, v))
  }

  /** The secret version an entry makes the collection read, if any. */
  function Needs(rules: Rules, entry: Entry): Option<string> {
    if rules.nameClass(entry.name).Credential? && entry.source.Reference? && entry.source.pinned.Ok?
    then Some(entry.source.pinned.value) else None
  }

  predicate Known(rules: Rules, cache: map<string, Secret>, item: Item) {
    item.Env? && Needs(rules, item.entry).Some? ==>
      Needs(rules, item.entry).value in cache && !cache[Needs(rules, item.entry).value].Unreadable?
  }

  function FateOf(rules: Rules, cache: map<string, Secret>, item: Item): Fate
    requires Known(rules, cache, item)
  {
    match item
    case Mounts(_) => Open("mounted_configuration_not_inspected")
    case Env(_, entry) =>
      match rules.nameClass(entry.name)
      case Settlement => Ignored
      case Unrelated => Ignored
      case UnsupportedAlias => Open("credential_alias_not_supported_by_source_contract")
      case Credential(category) =>
        match entry.source
        case Inline(value) => Judge(rules, category, value)
        case Bare => Judge(rules, category, "")
        case Unsupported => Ignored
        case Reference(pinned) =>
          if pinned.Refused? then Open(pinned.reason)
          else
            var secret := cache[pinned.value];
            if secret.Value? then Judge(rules, category, secret.text)
            else Open("referenced_secret_value_unavailable_" + secret.state)
  }

  predicate AllKnown(rules: Rules, cache: map<string, Secret>, items: seq<Item>) {
    forall i | 0 <= i < |items| :: Known(rules, cache, items[i])
  }

  function Holders(rules: Rules, cache: map<string, Secret>, items: seq<Item>, key: Key): seq<Origin>
    requires AllKnown(rules, cache, items)
  {
    if items == [] then []
    else
      var last := items[|items| - 1];
      Holders(rules, cache, items[..|items| - 1], key)
      + if FateOf(rules, cache, last) == Held(key) then [last.origin] else []
  }

  function Opens(rules: Rules, cache: map<string, Secret>, items: seq<Item>): seq<(Origin, string)>
    requires AllKnown(rules, cache, items)
  {
    if items == [] then []
    else
      var last := items[|items| - 1];
      Opens(rules, cache, items[..|items| - 1])
      + if FateOf(rules, cache, last).Open? then [(last.origin, FateOf(rules, cache, last).reason)] else []
  }

  function Users(rules: Rules, items: seq<Item>, pinned: string): seq<Origin> {
    if items == [] then []
    else
      var last := items[|items| - 1];
      Users(rules, items[..|items| - 1], pinned)
      + if last.Env? && Needs(rules, last.entry) == Some(pinned) then [last.origin] else []
  }

  /** `users` lists, for every secret version referred to, the origins that refer to it. */
  ghost predicate Uses(rules: Rules, items: seq<Item>, users: map<string, seq<Origin>>) {
    && (forall pinned :: pinned in users <==> Users(rules, items, pinned) != [])
    && (forall pinned | pinned in users :: users[pinned] == Users(rules, items, pinned))
  }

  /** The state holds exactly what the items read so far amount to. */
  ghost predicate Accounts(rules: Rules, items: seq<Item>, s: State) {
    && AllKnown(rules, s.cache, items)
    && s.unresolved == Opens(rules, s.cache, items)
    && (forall key :: key in s.values <==> Holders(rules, s.cache, items, key) != [])
    && (forall key | key in s.values :: s.values[key] == Holders(rules, s.cache, items, key))
    && s.users.Keys == s.cache.Keys
    && Uses(rules, items, s.users)
  }

  // --- How much is kept ---

  /** The secret versions the items refer to. */
  function Needed(rules: Rules, items: seq<Item>): set<string> {
    if items == [] then {}
    else
      var last := items[|items| - 1];
      Needed(rules, items[..|items| - 1])
      + if last.Env? && Needs(rules, last.entry).Some? then {Needs(rules, last.entry).value} else {}
  }

  /** The distinct credentials the items amount to. */
  function Kept(rules: Rules, cache: map<string, Secret>, items: seq<Item>): set<Key>
    requires AllKnown(rules, cache, items)
  {
    if items == [] then {}
    else
      var fate := FateOf(rules, cache, items[|items| - 1]);
      Kept(rules, cache, items[..|items| - 1]) + if fate.Held? then {fate.key} else {}
  }

  lemma {:induction false} NeededUsed(rules: Rules, items: seq<Item>)
    ensures forall pinned :: pinned in Needed(rules, items) <==> Users(rules, items, pinned) != []
  {
    hide Needs;
    if items != [] {
      NeededUsed(rules, items[..|items| - 1]);
    }
  }

  lemma {:induction false} KeptHeld(rules: Rules, cache: map<string, Secret>, items: seq<Item>)
    requires AllKnown(rules, cache, items)
    ensures forall key :: key in Kept(rules, cache, items) <==> Holders(rules, cache, items, key) != []
  {
    hide FateOf, Known;
    if items != [] {
      KeptHeld(rules, cache, items[..|items| - 1]);
    }
  }

  /** The sizes the collection tests are those of these two sets. */
  lemma SizesAre(rules: Rules, items: seq<Item>, s: State)
    requires Accounts(rules, items, s)
    ensures |s.users| == |Needed(rules, items)| && |s.values| == |Kept(rules, s.cache, items)|
  {
    hide Needed, Kept, Holders, Opens, Users, AllKnown;
    NeededUsed(rules, items);
    KeptHeld(rules, s.cache, items);
    assert s.users.Keys == Needed(rules, items) && s.values.Keys == Kept(rules, s.cache, items);
    assert |s.users| == |s.users.Keys| && |s.values| == |s.values.Keys|;
  }

  /** The items refer to too many secrets, or amount to too many credentials. */
  ghost predicate Overfull(rules: Rules, items: seq<Item>, s: State) {
    || |Needed(rules, items)| > 128
    || (AllKnown(rules, s.cache, items) && |Kept(rules, s.cache, items)| > 128)
  }

  predicate Within(s: State) {
    |s.users| <= MAX_DISTINCT && |s.values| <= MAX_DISTINCT
  }

  lemma NeededNext(rules: Rules, items: seq<Item>, s: State, origin: Origin, entry: Entry, pinned: string)
    requires Accounts(rules, items, s) && Needs(rules, entry) == Some(pinned)
    requires |s.users[pinned := Under(s.users, pinned) + [origin]]| > MAX_DISTINCT
    ensures |Needed(rules, items + [Env(origin, entry)])| > MAX_DISTINCT
  {
    hide Holders, Opens, Users, AllKnown, Needs;
    var item := Env(origin, entry);
    NeededUsed(rules, items);
    assert (items + [item])[..|items|] == items;
    var users := s.users[pinned := Under(s.users, pinned) + [origin]];
    assert users.Keys == Needed(rules, items + [item]) && |users| == |users.Keys|;
  }

  // --- The loop ---

  const EMPTY := State(map[], map[], map[], [])

  function Under<K, V>(m: map<K, seq<V>>, key: K): seq<V> {
    if key in m then m[key] else []
  }

  /** A larger cache does not change what was already decided. */
  lemma {:induction false} CacheGrows(rules: Rules, cache: map<string, Secret>, pinned: string, secret: Secret,
                                      items: seq<Item>)
    requires AllKnown(rules, cache, items) && pinned !in cache
    ensures AllKnown(rules, cache[pinned := secret], items)
    ensures Opens(rules, cache[pinned := secret], items) == Opens(rules, cache, items)
    ensures forall key :: Holders(rules, cache[pinned := secret], items, key) == Holders(rules, cache, items, key)
    decreases |items|
  {
    hide Judge;
    if items != [] {
      CacheGrows(rules, cache, pinned, secret, items[..|items| - 1]);
      var last := items[|items| - 1];
      assert Known(rules, cache, last);
      assert FateOf(rules, cache[pinned := secret], last) == FateOf(rules, cache, last);
    }
  }

  /** Reading the secret an entry needs, once per version. */
  method ReadSecret(rules: Rules, s: State, origin: Origin, pinned: string)
    returns (next: State, denied: Option<Denial>)
    requires s.users.Keys == s.cache.Keys
    ensures next.values == s.values && next.unresolved == s.unresolved
    ensures denied == None ==>
              && next.users == s.users[pinned := Under(s.users, pinned) + [origin]]
              && pinned in next.cache && !next.cache[pinned].Unreadable?
              && (if pinned in s.cache then next.cache == s.cache
                  else next.cache == s.cache[pinned := next.cache[pinned]])
    ensures denied == Some(TooMany) <==> |s.users[pinned := Under(s.users, pinned) + [origin]]| > MAX_DISTINCT
    ensures denied != Some(ResourceMismatch) && denied != Some(ContainerInvalid)
    ensures denied == Some(SecretRefused) ==> pinned in next.cache && next.cache[pinned].Unreadable?
    ensures forall known | known in s.cache :: known in next.cache && next.cache[known] == s.cache[known]
  {
    next := s.(users := s.users[pinned := Under(s.users, pinned) + [origin]]);
    if |next.users| > MAX_DISTINCT {
      return next, Some(TooMany);
    }
    if pinned !in next.cache {
      var answer: Secret := *;
      next := next.(cache := next.cache[pinned := answer]);
    }
    denied := if next.cache[pinned].Unreadable? then Some(SecretRefused) else None;
  }

  function Recorded(s: State, item: Item, fate: Fate): State {
    match fate
    case Open(reason) => s.(unresolved := s.unresolved + [(item.origin, reason)])
    case Held(key) => s.(values := s.values[key := Under(s.values, key) + [item.origin]])
    case _ => s
  }

  function Using(s: State, rules: Rules, item: Item): map<string, seq<Origin>> {
    if item.Env? && Needs(rules, item.entry).Some?
    then var pinned := Needs(rules, item.entry).value; s.users[pinned := Under(s.users, pinned) + [item.origin]]
    else s.users
  }

  lemma {:induction false} Appended(rules: Rules, cache: map<string, Secret>, items: seq<Item>, item: Item)
    requires AllKnown(rules, cache, items) && Known(rules, cache, item)
    ensures AllKnown(rules, cache, items + [item])
    ensures var fate := FateOf(rules, cache, item);
            && Opens(rules, cache, items + [item])
               == Opens(rules, cache, items) + (if fate.Open? then [(item.origin, fate.reason)] else [])
            && (forall key :: Holders(rules, cache, items + [item], key)
                              == Holders(rules, cache, items, key) + if fate == Held(key) then [item.origin] else [])
  {
    hide Judge, Known;
    assert (items + [item])[..|items|] == items;
  }

  lemma CountedUsers(rules: Rules, items: seq<Item>, s: State, item: Item)
    requires Uses(rules, items, s.users)
    ensures Uses(rules, items + [item], Using(s, rules, item))
  {
    hide Users, Needs;
    AppendedUsers(rules, items, item);
  }

  lemma AppendedUsers(rules: Rules, items: seq<Item>, item: Item)
    ensures forall pinned :: Users(rules, items + [item], pinned)
                             == Users(rules, items, pinned)
                                + if item.Env? && Needs(rules, item.entry) == Some(pinned) then [item.origin] else []
  {
    hide Needs;
    assert (items + [item])[..|items|] == items;
  }

  lemma CountedRows(rules: Rules, items: seq<Item>, t: State, item: Item)
    requires AllKnown(rules, t.cache, items) && Known(rules, t.cache, item)
    requires t.unresolved == Opens(rules, t.cache, items)
    ensures AllKnown(rules, t.cache, items + [item])
    ensures Recorded(t, item, FateOf(rules, t.cache, item)).unresolved == Opens(rules, t.cache, items + [item])
  {
    hide Judge, Known, Holders, Opens, FateOf, AllKnown;
    Appended(rules, t.cache, items, item);
  }

  lemma CountedValues(rules: Rules, items: seq<Item>, t: State, item: Item)
    requires AllKnown(rules, t.cache, items) && Known(rules, t.cache, item)
    requires forall key :: key in t.values <==> Holders(rules, t.cache, items, key) != []
    requires forall key | key in t.values :: t.values[key] == Holders(rules, t.cache, items, key)
    ensures AllKnown(rules, t.cache, items + [item])
    ensures var values := Recorded(t, item, FateOf(rules, t.cache, item)).values;
            && (forall key :: key in values <==> Holders(rules, t.cache, items + [item], key) != [])
            && (forall key | key in values :: values[key] == Holders(rules, t.cache, items + [item], key))
  {
    hide Judge, Known, Holders, Opens, FateOf, AllKnown;
    Appended(rules, t.cache, items, item);
  }

  /** One more item, its secret known: the state of the longer list. */
  lemma Counted(rules: Rules, items: seq<Item>, s: State, t: State, item: Item)
    requires Accounts(rules, items, s) && Known(rules, t.cache, item)
    requires AllKnown(rules, t.cache, items)
    requires Opens(rules, t.cache, items) == s.unresolved
    requires forall key :: Holders(rules, t.cache, items, key) == Holders(rules, s.cache, items, key)
    requires t.users == Using(s, rules, item) && t.users.Keys == t.cache.Keys
    requires t.values == s.values && t.unresolved == s.unresolved
    ensures Accounts(rules, items + [item], Recorded(t, item, FateOf(rules, t.cache, item)))
  {
    hide Judge, Known, Holders, Opens, FateOf, Uses, Using, AllKnown, Recorded;
    CountedRows(rules, items, t, item);
    CountedValues(rules, items, t, item);
    CountedUsers(rules, items, s, item);
    RecordedOnly(t, item, FateOf(rules, t.cache, item));
  }

  lemma ReadOnce(rules: Rules, items: seq<Item>, s: State, pinned: string, secret: Secret)
    requires Accounts(rules, items, s) && pinned !in s.cache
    ensures AllKnown(rules, s.cache[pinned := secret], items)
    ensures Opens(rules, s.cache[pinned := secret], items) == s.unresolved
    ensures forall key :: Holders(rules, s.cache[pinned := secret], items, key) == Holders(rules, s.cache, items, key)
  {
    hide Judge, Known, Holders, Opens, FateOf, Needs, AllKnown;
    CacheGrows(rules, s.cache, pinned, secret, items);
  }

  /** What reading for an entry leaves: a version already in the cache is not read again, and no other
      version is touched. */
  predicate ReadFor(rules: Rules, s: State, cache: map<string, Secret>, entry: Entry) {
    match Needs(rules, entry)
    case None => cache == s.cache
    case Some(pinned) =>
      pinned in cache && cache == if pinned in s.cache then s.cache else s.cache[pinned := cache[pinned]]
  }

  /** The entry's secret is read; its fate is recorded next. */
  lemma Entered(rules: Rules, items: seq<Item>, s: State, t: State, item: Item)
    requires Accounts(rules, items, s) && item.Env? && Known(rules, t.cache, item)
    requires ReadFor(rules, s, t.cache, item.entry) && t.users == Using(s, rules, item)
    requires t.values == s.values && t.unresolved == s.unresolved
    ensures Accounts(rules, items + [item], Recorded(t, item, FateOf(rules, t.cache, item)))
  {
    hide Known, Opens, Holders, Uses, Judge, Needs, FateOf, AllKnown;
    var needs := Needs(rules, item.entry);
    if needs.Some? && needs.value !in s.cache {
      ReadOnce(rules, items, s, needs.value, t.cache[needs.value]);
    }
    Counted(rules, items, s, t, item);
  }

  lemma NeedsKnown(rules: Rules, s: State, next: State, item: Item)
    requires item.Env? && s.users.Keys == s.cache.Keys
    requires match Needs(rules, item.entry)
             case None => next == s
             case Some(pinned) =>
               && next.users == s.users[pinned := Under(s.users, pinned) + [item.origin]]
               && pinned in next.cache && !next.cache[pinned].Unreadable?
    ensures Known(rules, next.cache, item) && next.users == Using(s, rules, item)
  {
    hide Needs;
  }

  lemma RecordedOnly(t: State, item: Item, fate: Fate)
    ensures var u := Recorded(t, item, fate);
            u.cache == t.cache && u.users == t.users && (!fate.Held? ==> u.values == t.values)
  {
  }

  lemma SizesNow(rules: Rules, items: seq<Item>, s: State)
    requires Accounts(rules, items, s)
    ensures |s.values| > MAX_DISTINCT ==> Overfull(rules, items, s)
  {
    hide Needed, Kept;
    SizesAre(rules, items, s);
  }

  /** The body of the entry loop, once the entry's shape is accepted. */
  method Enter(rules: Rules, s: State, origin: Origin, entry: Entry, ghost items: seq<Item>)
    returns (next: State, denied: Option<Denial>)
    requires Accounts(rules, items, s) && Within(s) && entry.source != Unsupported
    ensures denied == None ==> Accounts(rules, items + [Env(origin, entry)], next) && Within(next)
    ensures denied == Some(TooMany) ==> Overfull(rules, items + [Env(origin, entry)], next)
    ensures denied == Some(SecretRefused) ==> exists pinned | pinned in next.cache :: next.cache[pinned].Unreadable?
    ensures denied != Some(ResourceMismatch) && denied != Some(ContainerInvalid)
    ensures denied == None ==> ReadFor(rules, s, next.cache, entry)
    ensures forall pinned | pinned in s.cache :: pinned in next.cache && next.cache[pinned] == s.cache[pinned]
  {
    hide Accounts, Needs, Known, FateOf, Using, Overfull, Judge, Recorded;
    assert s.users.Keys == s.cache.Keys by { KeysAgree(rules, items, s); }
    var item := Env(origin, entry);
    next, denied := s, None;
    var needs := Needs(rules, entry);
    if needs.Some? {
      next, denied := ReadSecret(rules, s, origin, needs.value);
      if denied.Some? {
        if denied.value.TooMany? {
          TooManyNeeded(rules, items, s, next, origin, entry, needs.value);
        }
        return;
      }
    }
    NeedsKnown(rules, s, next, item);
    Entered(rules, items, s, next, item);
    var fate := FateOf(rules, next.cache, item);
    RecordedOnly(next, item, fate);
    next := Recorded(next, item, fate);
    SizesNow(rules, items + [item], next);
    denied := if fate.Held? && |next.values| > MAX_DISTINCT then Some(TooMany) else None;
  }

  lemma KeysAgree(rules: Rules, items: seq<Item>, s: State)
    requires Accounts(rules, items, s)
    ensures s.users.Keys == s.cache.Keys
  {
  }

  lemma TooManyNeeded(rules: Rules, items: seq<Item>, s: State, next: State, origin: Origin, entry: Entry,
                      pinned: string)
    requires Accounts(rules, items, s) && Needs(rules, entry) == Some(pinned)
    requires |s.users[pinned := Under(s.users, pinned) + [origin]]| > MAX_DISTINCT
    ensures Overfull(rules, items + [Env(origin, entry)], next)
  {
    hide Accounts, Needs, Needed, Kept, AllKnown;
    NeededNext(rules, items, s, origin, entry, pinned);
  }

  lemma AllOfThem(rules: Rules, items: seq<Item>, s: State)
    requires Accounts(rules, items, s)
    ensures AllKnown(rules, s.cache, items)
  {
  }

  // --- The nested loops ---

  function OriginOf(r: Resource, c: nat, e: nat): Origin
    requires c < |r.containers| && e < |r.containers[c].env|
  {
    Origin(r.name, r.uid, r.kind, c, r.containers[c].env[e].name, Some(e))
  }

  function EnvItems(r: Resource, c: nat, n: nat): seq<Item>
    requires c < |r.containers| && n <= |r.containers[c].env|
  {
    if n == 0 then [] else EnvItems(r, c, n - 1) + [Env(OriginOf(r, c, n - 1), r.containers[c].env[n - 1])]
  }

  function ContainerItems(r: Resource, c: nat): seq<Item>
    requires c < |r.containers|
  {
    EnvItems(r, c, |r.containers[c].env|)
    + if r.containers[c].mounted then [Mounts(Origin(r.name, r.uid, r.kind, c, "", None))] else []
  }

  function ResourceItems(r: Resource, n: nat): seq<Item>
    requires n <= |r.containers|
  {
    if n == 0 then [] else ResourceItems(r, n - 1) + ContainerItems(r, n - 1)
  }

  function AllItems(resources: seq<Resource>): seq<Item> {
    if resources == [] then []
    else
      var last := resources[|resources| - 1];
      AllItems(resources[..|resources| - 1]) + ResourceItems(last, |last.containers|)
  }

  predicate ContainerOk(c: Container) {
    && c.imageOk && |c.env| <= 1000
    && (forall i | 0 <= i < |c.env| :: c.env[i].nameValid && c.env[i].source != Unsupported)
    && (forall i, j | 0 <= i < j < |c.env| :: c.env[i].name != c.env[j].name)
  }

  predicate ResourceOk(r: Resource) {
    r.bound && forall c | 0 <= c < |r.containers| :: ContainerOk(r.containers[c])
  }

  /** What a denial means, whichever loop it came from. */
  ghost predicate Justified(rules: Rules, denied: Denial, resources: seq<Resource>, s: State) {
    match denied
    case ResourceMismatch => exists r | r in resources :: !r.bound
    case ContainerInvalid => exists r | r in resources :: !ResourceOk(r)
    case SecretRefused => exists pinned | pinned in s.cache :: s.cache[pinned].Unreadable?
    case TooMany => exists items | items <= AllItems(resources) :: Overfull(rules, items, s)
  }

  lemma {:induction false} EnvPrefix(r: Resource, c: nat, n: nat, m: nat)
    requires c < |r.containers| && n <= m <= |r.containers[c].env|
    ensures EnvItems(r, c, n) <= EnvItems(r, c, m)
    decreases m
  {
    if n < m {
      EnvPrefix(r, c, n, m - 1);
    }
  }

  lemma {:induction false} ResourcePrefix(r: Resource, n: nat, m: nat)
    requires n <= m <= |r.containers|
    ensures ResourceItems(r, n) <= ResourceItems(r, m)
    decreases m
  {
    if n < m {
      ResourcePrefix(r, n, m - 1);
    }
  }

  lemma {:induction false} AllPrefix(resources: seq<Resource>, n: nat)
    requires n <= |resources|
    ensures AllItems(resources[..n]) <= AllItems(resources)
    decreases |resources|
  {
    if n == |resources| {
      assert resources[..n] == resources;
    } else {
      var shorter := resources[..|resources| - 1];
      AllPrefix(shorter, n);
      assert shorter[..n] == resources[..n];
    }
  }

  lemma LongerPrefix(items: seq<Item>, a: seq<Item>, b: seq<Item>, all: seq<Item>)
    requires a <= b && items + b <= all
    ensures items + a <= all
  {
  }

  lemma NextContainer(r: Resource, items: seq<Item>, c: nat)
    requires c < |r.containers|
    ensures items + ResourceItems(r, c + 1) == items + ResourceItems(r, c) + ContainerItems(r, c)
  {
  }

  lemma NextResource(resources: seq<Resource>, i: nat)
    requires i < |resources|
    ensures AllItems(resources[..i + 1])
            == AllItems(resources[..i]) + ResourceItems(resources[i], |resources[i].containers|)
  {
    assert resources[..i + 1][..i] == resources[..i];
  }

  lemma ContainerPrefix(resources: seq<Resource>, i: nat, c: nat)
    requires i < |resources| && c < |resources[i].containers|
    ensures AllItems(resources[..i]) + ResourceItems(resources[i], c) + ContainerItems(resources[i], c)
            <= AllItems(resources)
  {
    hide AllItems, ResourceItems, ContainerItems;
    var r, items := resources[i], AllItems(resources[..i]);
    ResourcePrefix(r, c + 1, |r.containers|);
    AllPrefix(resources, i + 1);
    NextResource(resources, i);
    NextContainer(r, items, c);
    LongerPrefix(items, ResourceItems(r, c + 1), ResourceItems(r, |r.containers|), AllItems(resources));
  }

  lemma NoEntries(r: Resource, c: nat, items: seq<Item>)
    requires c < |r.containers|
    ensures items + EnvItems(r, c, 0) == items
  {
  }

  lemma NextEntry(r: Resource, c: nat, items: seq<Item>, e: nat)
    requires c < |r.containers| && e < |r.containers[c].env|
    ensures items + EnvItems(r, c, e + 1)
            == items + EnvItems(r, c, e) + [Env(OriginOf(r, c, e), r.containers[c].env[e])]
    ensures items + EnvItems(r, c, e + 1) <= items + ContainerItems(r, c)
  {
    EnvPrefix(r, c, e + 1, |r.containers[c].env|);
  }

  /** The first `e` entries are well formed, and these are their names. */
  ghost predicate Met(env: seq<Entry>, e: nat, names: set<string>) {
    && e <= |env|
    && (forall i | 0 <= i < e :: env[i].nameValid && env[i].source != Unsupported && env[i].name in names)
    && (forall i, j | 0 <= i < j < e :: env[i].name != env[j].name)
    && (forall name | name in names :: exists i | 0 <= i < e :: env[i].name == name)
  }

  lemma MetNext(env: seq<Entry>, e: nat, names: set<string>)
    requires Met(env, e, names) && e < |env|
    ensures var entry := env[e];
            if entry.nameValid && entry.name !in names && entry.source != Unsupported
            then Met(env, e + 1, names + {entry.name})
            else forall c: Container | c.env == env :: !ContainerOk(c)
  {
    var entry, more := env[e], names + {env[e].name};
    if entry.nameValid && entry.name !in names && entry.source != Unsupported {
      forall name | name in more
        ensures exists i | 0 <= i < e + 1 :: env[i].name == name
      {
        if name in names {
          var i :| 0 <= i < e && env[i].name == name;
        } else {
          assert env[e].name == name;
        }
      }
    } else if entry.name in names {
      var i :| 0 <= i < e && env[i].name == entry.name;
    }
  }

  lemma NoneMet(env: seq<Entry>)
    ensures Met(env, 0, {})
  {
  }

  lemma MetAll(c: Container, names: set<string>)
    requires Met(c.env, |c.env|, names) && c.imageOk && |c.env| <= 1000
    ensures ContainerOk(c)
  {
  }

  method CollectContainer(rules: Rules, s: State, r: Resource, c: nat, ghost items: seq<Item>)
    returns (next: State, denied: Option<Denial>, ghost upto: seq<Item>)
    requires Accounts(rules, items, s) && Within(s) && c < |r.containers|
    ensures denied == None ==>
              && ContainerOk(r.containers[c]) && Accounts(rules, items + ContainerItems(r, c), next) && Within(next)
    ensures denied.Some? ==> denied.value != ResourceMismatch
    ensures denied == Some(ContainerInvalid) ==> !ContainerOk(r.containers[c])
    ensures denied == Some(TooMany) ==> upto <= items + ContainerItems(r, c) && Overfull(rules, upto, next)
    ensures denied == Some(SecretRefused) ==> exists pinned | pinned in next.cache :: next.cache[pinned].Unreadable?
  {
    hide Accounts, Overfull, EnvItems, OriginOf, ContainerItems, Within, Recorded, FateOf, ContainerOk, Met, ReadFor;
    upto := items;
    var container := r.containers[c];
    next, denied := s, None;
    if !container.imageOk || |container.env| > MAX_ENTRIES {
      NotOk(container);
      return next, Some(ContainerInvalid), upto;
    }
    var names: set<string> := {};
    NoEntries(r, c, items);
    NoneMet(container.env);
    for e := 0 to |container.env|
      invariant denied == None && Accounts(rules, items + EnvItems(r, c, e), next) && Within(next)
      invariant Met(container.env, e, names)
    {
      var entry := container.env[e];
      MetNext(container.env, e, names);
      if !entry.nameValid || entry.name in names || entry.source == Unsupported {
        return next, Some(ContainerInvalid), upto;
      }
      names := names + {entry.name};
      ghost var done := items + EnvItems(r, c, e);
      upto := done + [Env(OriginOf(r, c, e), entry)];
      NextEntry(r, c, items, e);
      next, denied := Enter(rules, next, OriginOf(r, c, e), entry, done);
      if denied.Some? {
        return;
      }
    }
    ghost var done := items + EnvItems(r, c, |container.env|);
    MetAll(container, names);
    LastItems(r, c, items);
    if container.mounted {
      var item := Mounts(Origin(r.name, r.uid, r.kind, c, "", None));
      MountCounted(rules, done, next, item);
      next := Recorded(next, item, FateOf(rules, next.cache, item));
    }
  }

  lemma NotOk(c: Container)
    requires !c.imageOk || |c.env| > MAX_ENTRIES
    ensures !ContainerOk(c)
  {
  }

  lemma LastItems(r: Resource, c: nat, items: seq<Item>)
    requires c < |r.containers|
    ensures var done := items + EnvItems(r, c, |r.containers[c].env|);
            items + ContainerItems(r, c)
            == if r.containers[c].mounted then done + [Mounts(Origin(r.name, r.uid, r.kind, c, "", None))] else done
  {
  }

  lemma {:induction false} MountCounted(rules: Rules, items: seq<Item>, s: State, item: Item)
    requires Accounts(rules, items, s) && item.Mounts?
    ensures Accounts(rules, items + [item], Recorded(s, item, FateOf(rules, s.cache, item)))
    ensures Within(s) ==> Within(Recorded(s, item, FateOf(rules, s.cache, item)))
  {
    hide Judge, Holders, Opens, Users;
    Counted(rules, items, s, s, item);
  }

  lemma NoContainers(r: Resource, items: seq<Item>)
    ensures items + ResourceItems(r, 0) == items
  {
  }

  method Collect(rules: Rules, resources: seq<Resource>) returns (s: State, denied: Option<Denial>)
    ensures denied == None ==>
              && (forall r | r in resources :: ResourceOk(r)) && Accounts(rules, AllItems(resources), s)
              && |Needed(rules, AllItems(resources))| <= 128
              && AllKnown(rules, s.cache, AllItems(resources))
              && |Kept(rules, s.cache, AllItems(resources))| <= 128
    ensures denied.Some? ==> Justified(rules, denied.value, resources, s)
  {
    hide Accounts, Overfull, AllItems, ResourceItems, ContainerItems;
    s, denied := EMPTY, None;
    NothingCounted(rules);
    for i := 0 to |resources|
      invariant denied == None && Accounts(rules, AllItems(resources[..i]), s) && Within(s)
      invariant forall k | 0 <= k < i :: ResourceOk(resources[k])
    {
      var r := resources[i];
      if !r.bound {
        return s, Some(ResourceMismatch);
      }
      ghost var items := AllItems(resources[..i]);
      NoContainers(r, items);
      for c := 0 to |r.containers|
        invariant denied == None && Accounts(rules, items + ResourceItems(r, c), s) && Within(s)
        invariant forall k | 0 <= k < c :: ContainerOk(r.containers[k])
      {
        ghost var done := items + ResourceItems(r, c);
        ghost var upto;
        ContainerPrefix(resources, i, c);
        s, denied, upto := CollectContainer(rules, s, r, c, done);
        if denied.Some? {
          assert r in resources && (!ContainerOk(r.containers[c]) ==> !ResourceOk(r));
          return;
        }
        NextContainer(r, items, c);
      }
      NextResource(resources, i);
    }
    assert resources[..|resources|] == resources;
    SizesAre(rules, AllItems(resources), s);
    AllOfThem(rules, AllItems(resources), s);
  }

  lemma NothingCounted(rules: Rules)
    ensures Accounts(rules, AllItems([]), EMPTY)
  {
  }

  // --- Every entry ends in one place ---

  predicate DistinctOrigins(items: seq<Item>) {
    forall i, j | 0 <= i < j < |items| :: items[i].origin != items[j].origin
  }

  lemma {:induction false} EnvItemsAre(r: Resource, c: nat, n: nat)
    requires c < |r.containers| && n <= |r.containers[c].env|
    ensures |EnvItems(r, c, n)| == n
    ensures forall i | 0 <= i < n :: EnvItems(r, c, n)[i] == Env(OriginOf(r, c, i), r.containers[c].env[i])
  {
    if n > 0 {
      EnvItemsAre(r, c, n - 1);
    }
  }

  lemma ContainerItemsAre(r: Resource, c: nat)
    requires c < |r.containers|
    ensures DistinctOrigins(ContainerItems(r, c))
    ensures forall item | item in ContainerItems(r, c) :: item.origin.resource == r.name && item.origin.container == c
  {
    EnvItemsAre(r, c, |r.containers[c].env|);
  }

  /** Appending items of which none has an earlier origin. */
  lemma {:induction false} DistinctTogether(a: seq<Item>, b: seq<Item>)
    requires DistinctOrigins(a) && DistinctOrigins(b)
    requires forall x, y | x in a && y in b :: x.origin != y.origin
    ensures DistinctOrigins(a + b)
  {
  }

  lemma {:induction false} ResourceItemsAre(r: Resource, n: nat)
    requires n <= |r.containers|
    ensures DistinctOrigins(ResourceItems(r, n))
    ensures forall item | item in ResourceItems(r, n) :: item.origin.resource == r.name && item.origin.container < n
  {
    if n > 0 {
      ResourceItemsAre(r, n - 1);
      ContainerItemsAre(r, n - 1);
      DistinctTogether(ResourceItems(r, n - 1), ContainerItems(r, n - 1));
    }
  }

  lemma {:induction false} AllItemsAre(resources: seq<Resource>)
    requires forall i, j | 0 <= i < j < |resources| :: resources[i].name != resources[j].name
    ensures DistinctOrigins(AllItems(resources))
    ensures forall item | item in AllItems(resources) :: exists r | r in resources :: r.name == item.origin.resource
    decreases |resources|
  {
    if resources != [] {
      var n := |resources| - 1;
      AllItemsAre(resources[..n]);
      ResourceItemsAre(resources[n], |resources[n].containers|);
      assert forall r | r in resources[..n] :: r.name != resources[n].name;
      DistinctTogether(AllItems(resources[..n]), ResourceItems(resources[n], |resources[n].containers|));
    }
  }

  /** Every entry the traversal must meet is among its items. */
  lemma {:induction false} EveryEntryMet(resources: seq<Resource>, k: nat, c: nat, e: nat)
    requires k < |resources| && c < |resources[k].containers| && e < |resources[k].containers[c].env|
    ensures Env(OriginOf(resources[k], c, e), resources[k].containers[c].env[e]) in AllItems(resources)
    decreases |resources|
  {
    var n := |resources| - 1;
    if k < n {
      EveryEntryMet(resources[..n], k, c, e);
    } else {
      InResource(resources[k], |resources[k].containers|, c, e);
    }
  }

  lemma InContainer(r: Resource, c: nat, e: nat)
    requires c < |r.containers| && e < |r.containers[c].env|
    ensures Env(OriginOf(r, c, e), r.containers[c].env[e]) in ContainerItems(r, c)
  {
    hide EnvItems, OriginOf;
    var n := |r.containers[c].env|;
    EnvItemsAre(r, c, n);
    assert EnvItems(r, c, n)[e] in EnvItems(r, c, n);
  }

  lemma {:induction false} InResource(r: Resource, n: nat, c: nat, e: nat)
    requires c < n <= |r.containers| && e < |r.containers[c].env|
    ensures Env(OriginOf(r, c, e), r.containers[c].env[e]) in ResourceItems(r, n)
  {
    hide ContainerItems, OriginOf;
    if c < n - 1 {
      InResource(r, n - 1, c, e);
    } else {
      InContainer(r, c, e);
    }
  }

  /** How often an origin occurs among the holders of a value, and among the unresolved rows. */
  lemma {:induction false} HeldOnce(rules: Rules, cache: map<string, Secret>, items: seq<Item>, i: nat, key: Key)
    requires AllKnown(rules, cache, items) && DistinctOrigins(items) && i < |items|
    ensures multiset(Holders(rules, cache, items, key))[items[i].origin]
            == if FateOf(rules, cache, items[i]) == Held(key) then 1 else 0
    decreases |items|
  {
    hide FateOf, Known, Holders, AllKnown;
    var n := |items| - 1;
    var shorter := items[..n];
    HoldersLast(rules, cache, items, key);
    var before := Holders(rules, cache, shorter, key);
    CountLast(before, items[n].origin, items[i].origin);
    if i < n {
      HeldOnce(rules, cache, shorter, i, key);
    } else {
      NotHeld(rules, cache, shorter, items[n].origin, key);
    }
  }

  lemma HoldersLast(rules: Rules, cache: map<string, Secret>, items: seq<Item>, key: Key)
    requires AllKnown(rules, cache, items) && items != []
    ensures var n := |items| - 1;
            && AllKnown(rules, cache, items[..n]) && Known(rules, cache, items[n])
            && Holders(rules, cache, items, key)
               == Holders(rules, cache, items[..n], key)
                  + if FateOf(rules, cache, items[n]) == Held(key) then [items[n].origin] else []
  {
    hide FateOf, Known;
  }

  lemma CountLast(origins: seq<Origin>, last: Origin, origin: Origin)
    ensures multiset(origins + [last])[origin] == multiset(origins)[origin] + if last == origin then 1 else 0
    ensures origins + [] == origins
  {
  }

  lemma {:induction false} NotHeld(rules: Rules, cache: map<string, Secret>, items: seq<Item>, origin: Origin, key: Key)
    requires AllKnown(rules, cache, items) && forall item | item in items :: item.origin != origin
    ensures origin !in Holders(rules, cache, items, key)
    decreases |items|
  {
    hide FateOf, Known;
    if items != [] {
      assert items[|items| - 1] in items;
      NotHeld(rules, cache, items[..|items| - 1], origin, key);
    }
  }

  function OriginsOf(rows: seq<(Origin, string)>): seq<Origin> {
    if rows == [] then [] else OriginsOf(rows[..|rows| - 1]) + [rows[|rows| - 1].0]
  }

  lemma OpenStep(rules: Rules, cache: map<string, Secret>, items: seq<Item>)
    requires AllKnown(rules, cache, items) && items != []
    ensures var last, shorter := items[|items| - 1], items[..|items| - 1];
            OriginsOf(Opens(rules, cache, items))
            == OriginsOf(Opens(rules, cache, shorter)) + if FateOf(rules, cache, last).Open? then [last.origin] else []
  {
    hide FateOf, Known;
    var last, shorter := items[|items| - 1], items[..|items| - 1];
    var rows, fate := Opens(rules, cache, shorter), FateOf(rules, cache, last);
    if fate.Open? {
      assert (rows + [(last.origin, fate.reason)])[..|rows|] == rows;
    } else {
      assert rows + [] == rows;
    }
  }

  lemma {:induction false} OpenOnce(rules: Rules, cache: map<string, Secret>, items: seq<Item>, i: nat)
    requires AllKnown(rules, cache, items) && DistinctOrigins(items) && i < |items|
    ensures multiset(OriginsOf(Opens(rules, cache, items)))[items[i].origin]
            == if FateOf(rules, cache, items[i]).Open? then 1 else 0
    decreases |items|
  {
    hide FateOf, Known, Opens, OriginsOf;
    var n := |items| - 1;
    OpenStep(rules, cache, items);
    if i < n {
      OpenOnce(rules, cache, items[..n], i);
    } else {
      NotOpen(rules, cache, items[..n], items[n].origin);
    }
  }

  lemma {:induction false} NotOpen(rules: Rules, cache: map<string, Secret>, items: seq<Item>, origin: Origin)
    requires AllKnown(rules, cache, items) && forall item | item in items :: item.origin != origin
    ensures origin !in OriginsOf(Opens(rules, cache, items))
    decreases |items|
  {
    hide FateOf, Known;
    if items != [] {
      assert items[|items| - 1] in items;
      NotOpen(rules, cache, items[..|items| - 1], origin);
      OpenStep(rules, cache, items);
    }
  }

  function Times(s: State, origin: Origin, key: Key): nat {
    multiset(Under(s.values, key))[origin]
  }

  // --- What an entry amounts to, read off the entry and the secrets ---

  /** The text an entry stands for: its own value, nothing, or that of the secret version it is pinned to. */
  ghost predicate Reads(cache: map<string, Secret>, entry: Entry, text: string) {
    || entry.source == Inline(text)
    || (entry.source == Bare && text == "")
    || exists pinned :: entry.source == Reference(Ok(pinned)) && pinned in cache && cache[pinned] == Value(text)
  }

  /** It is kept under this credential: its stripped text, when that is not blank and has its category's shape. */
  ghost predicate IsKept(rules: Rules, cache: map<string, Secret>, entry: Entry, key: Key) {
    && rules.nameClass(entry.name) == Credential(key.0) && key.1 != ""
    && (key.0 == Model ==> rules.modelShape(key.1)) && (key.0 == Database ==> rules.databaseShape(key.1))
    && exists text :: Reads(cache, entry, text) && rules.strip(text) == key.1
  }

  ghost predicate IsBlank(rules: Rules, cache: map<string, Secret>, entry: Entry) {
    rules.nameClass(entry.name).Credential? && exists text :: Reads(cache, entry, text) && rules.strip(text) == ""
  }

  /** The secret version it is pinned to exists but has no value to read. */
  ghost predicate IsWithheld(cache: map<string, Secret>, entry: Entry, reason: string) {
    exists pinned, state ::
      && entry.source == Reference(Ok(pinned)) && pinned in cache && cache[pinned] == Unavailable(state)
      && reason == "referenced_secret_value_unavailable_" + state
  }

  /** Its stripped text is not blank and has not the shape of its category. */
  ghost predicate IsMisshapen(rules: Rules, cache: map<string, Secret>, entry: Entry, category: Category) {
    exists text ::
      && Reads(cache, entry, text) && rules.strip(text) != ""
      && match category
         case Model => !rules.modelShape(rules.strip(text))
         case Database => !rules.databaseShape(rules.strip(text))
  }

  /** It is left unresolved for this reason. */
  ghost predicate IsOpen(rules: Rules, cache: map<string, Secret>, entry: Entry, reason: string) {
    match rules.nameClass(entry.name)
    case Settlement => false
    case Unrelated => false
    case UnsupportedAlias => reason == "credential_alias_not_supported_by_source_contract"
    case Credential(category) =>
      || entry.source == Reference(Refused(reason))
      || IsWithheld(cache, entry, reason)
      || (IsMisshapen(rules, cache, entry, category)
          && reason == match category
                       case Model => "model_credential_value_shape_unsupported"
                       case Database => "database_credential_value_shape_unsupported")
  }

  lemma OneText(cache: map<string, Secret>, entry: Entry, text: string)
    requires Reads(cache, entry, text)
    ensures forall other :: Reads(cache, entry, other) <==> other == text
  {
  }

  /** The entry has this text, and no other. */
  ghost predicate HasText(cache: map<string, Secret>, entry: Entry, text: string) {
    && Reads(cache, entry, text)
    && (entry.source.Reference? ==> entry.source.pinned.Ok? && entry.source.pinned.value in cache
                                    && cache[entry.source.pinned.value] == Value(text))
  }

  lemma TextKept(rules: Rules, cache: map<string, Secret>, entry: Entry, category: Category, text: string)
    requires rules.nameClass(entry.name) == Credential(category) && HasText(cache, entry, text)
    ensures forall key :: Judge(rules, category, text) == Held(key) <==> IsKept(rules, cache, entry, key)
    ensures Judge(rules, category, text) == Blank <==> IsBlank(rules, cache, entry)
  {
    hide Reads;
    OneText(cache, entry, text);
  }

  lemma TextMisshapen(rules: Rules, cache: map<string, Secret>, entry: Entry, category: Category, text: string)
    requires HasText(cache, entry, text)
    ensures IsMisshapen(rules, cache, entry, category) <==>
              rules.strip(text) != ""
              && !if category.Model? then rules.modelShape(rules.strip(text))
                  else rules.databaseShape(rules.strip(text))
    ensures forall reason :: !IsWithheld(cache, entry, reason) && entry.source != Reference(Refused(reason))
  {
    hide Reads;
    OneText(cache, entry, text);
  }

  lemma TextOpen(rules: Rules, cache: map<string, Secret>, entry: Entry, category: Category, text: string)
    requires rules.nameClass(entry.name) == Credential(category) && HasText(cache, entry, text)
    ensures forall reason :: Judge(rules, category, text) == Open(reason) <==> IsOpen(rules, cache, entry, reason)
  {
    hide Reads, IsMisshapen, IsWithheld;
    TextMisshapen(rules, cache, entry, category, text);
  }

  lemma NoText(rules: Rules, cache: map<string, Secret>, entry: Entry, reason: string)
    requires rules.nameClass(entry.name).Credential? && forall text :: !Reads(cache, entry, text)
    requires entry.source == Reference(Refused(reason))
             || (entry.source.Reference? && entry.source.pinned.Ok? && entry.source.pinned.value in cache
                 && cache[entry.source.pinned.value].Unavailable?
                 && reason == "referenced_secret_value_unavailable_" + cache[entry.source.pinned.value].state)
    ensures forall key :: !IsKept(rules, cache, entry, key)
    ensures forall other :: IsOpen(rules, cache, entry, other) <==> other == reason
    ensures !IsBlank(rules, cache, entry)
  {
    hide Reads;
  }

  lemma OtherName(rules: Rules, cache: map<string, Secret>, entry: Entry)
    requires !rules.nameClass(entry.name).Credential?
    ensures forall key :: !IsKept(rules, cache, entry, key)
    ensures forall reason :: IsOpen(rules, cache, entry, reason) <==>
                               rules.nameClass(entry.name) == UnsupportedAlias
                               && reason == "credential_alias_not_supported_by_source_contract"
    ensures !IsBlank(rules, cache, entry)
  {
    hide Reads, IsWithheld, IsMisshapen;
  }

  lemma {:induction false} FateMeans(rules: Rules, cache: map<string, Secret>, item: Item)
    requires item.Env? && Known(rules, cache, item) && item.entry.source != Unsupported
    ensures var fate, entry := FateOf(rules, cache, item), item.entry;
            && (forall key :: fate == Held(key) <==> IsKept(rules, cache, entry, key))
            && (forall reason :: fate == Open(reason) <==> IsOpen(rules, cache, entry, reason))
            && (fate == Blank <==> IsBlank(rules, cache, entry))
            && (fate == Ignored <==> rules.nameClass(entry.name) in {Settlement, Unrelated})
  {
    hide Judge, IsKept, IsOpen, IsBlank;
    var entry, name := item.entry, rules.nameClass(item.entry.name);
    if !name.Credential? {
      OtherName(rules, cache, entry);
    } else {
      JudgeNever(rules, name.category);
      match entry.source
      case Inline(value) =>
        TextKept(rules, cache, entry, name.category, value);
        TextOpen(rules, cache, entry, name.category, value);
      case Bare =>
        TextKept(rules, cache, entry, name.category, "");
        TextOpen(rules, cache, entry, name.category, "");
      case Reference(pinned) =>
        if pinned.Refused? {
          NoText(rules, cache, entry, pinned.reason);
        } else if cache[pinned.value].Value? {
          TextKept(rules, cache, entry, name.category, cache[pinned.value].text);
          TextOpen(rules, cache, entry, name.category, cache[pinned.value].text);
        } else {
          NoText(rules, cache, entry, "referenced_secret_value_unavailable_" + cache[pinned.value].state);
        }
      case Unsupported =>
    }
  }

  lemma JudgeNever(rules: Rules, category: Category)
    ensures forall text :: Judge(rules, category, text) != Ignored
  {
  }

  // --- Where each entry is found in the result ---

  lemma {:induction false} OpenFor(rules: Rules, cache: map<string, Secret>, items: seq<Item>, i: nat, reason: string)
    requires AllKnown(rules, cache, items) && DistinctOrigins(items) && i < |items|
    ensures (items[i].origin, reason) in Opens(rules, cache, items) <==> FateOf(rules, cache, items[i]) == Open(reason)
    decreases |items|
  {
    hide FateOf, Known;
    var n := |items| - 1;
    if i < n {
      OpenFor(rules, cache, items[..n], i, reason);
    } else {
      NotOpen(rules, cache, items[..n], items[n].origin);
      if (items[n].origin, reason) in Opens(rules, cache, items[..n]) {
        OriginsAre(Opens(rules, cache, items[..n]), items[n].origin, reason);
      }
    }
  }

  lemma {:induction false} OriginsAre(rows: seq<(Origin, string)>, origin: Origin, reason: string)
    requires (origin, reason) in rows
    ensures origin in OriginsOf(rows)
  {
    if rows[|rows| - 1] != (origin, reason) {
      OriginsAre(rows[..|rows| - 1], origin, reason);
    }
  }

  lemma UsersLast(rules: Rules, items: seq<Item>, pinned: string)
    requires items != []
    ensures var last, shorter := items[|items| - 1], items[..|items| - 1];
            Users(rules, items, pinned)
            == Users(rules, shorter, pinned)
               + if last.Env? && Needs(rules, last.entry) == Some(pinned) then [last.origin] else []
  {
    hide Needs;
  }

  lemma {:induction false} UsedOnce(rules: Rules, items: seq<Item>, i: nat, pinned: string)
    requires DistinctOrigins(items) && i < |items|
    ensures multiset(Users(rules, items, pinned))[items[i].origin]
            == if items[i].Env? && Needs(rules, items[i].entry) == Some(pinned) then 1 else 0
    decreases |items|
  {
    hide Needs, Users;
    var n := |items| - 1;
    var before := Users(rules, items[..n], pinned);
    UsersLast(rules, items, pinned);
    CountLast(before, items[n].origin, items[i].origin);
    if i < n {
      UsedOnce(rules, items[..n], i, pinned);
    } else {
      NotUsed(rules, items[..n], items[n].origin, pinned);
    }
  }

  lemma {:induction false} NotUsed(rules: Rules, items: seq<Item>, origin: Origin, pinned: string)
    requires forall item | item in items :: item.origin != origin
    ensures origin !in Users(rules, items, pinned)
    decreases |items|
  {
    hide Needs;
    if items != [] {
      assert items[|items| - 1] in items;
      NotUsed(rules, items[..|items| - 1], origin, pinned);
    }
  }

  /** One item of the traversal: where its origin is found, and how often. */
  lemma ItemAccounted(rules: Rules, items: seq<Item>, s: State, i: nat)
    requires Accounts(rules, items, s) && DistinctOrigins(items) && i < |items|
    ensures Known(rules, s.cache, items[i])
    ensures var fate, origin := FateOf(rules, s.cache, items[i]), items[i].origin;
            && multiset(OriginsOf(s.unresolved))[origin] == (if fate.Open? then 1 else 0)
            && (forall reason :: (origin, reason) in s.unresolved <==> fate == Open(reason))
            && (forall key :: Times(s, origin, key) == if fate == Held(key) then 1 else 0)
            && (forall pinned :: multiset(Under(s.users, pinned))[origin]
                                 == if items[i].Env? && Needs(rules, items[i].entry) == Some(pinned) then 1 else 0)
  {
    hide Judge, Needs, Known, FateOf, Holders, Opens, Users, DistinctOrigins, OriginsOf;
    OpenOnce(rules, s.cache, items, i);
    forall reason
      ensures (items[i].origin, reason) in s.unresolved <==> FateOf(rules, s.cache, items[i]) == Open(reason)
    {
      OpenFor(rules, s.cache, items, i, reason);
    }
    forall key
      ensures Times(s, items[i].origin, key) == if FateOf(rules, s.cache, items[i]) == Held(key) then 1 else 0
    {
      HeldOnce(rules, s.cache, items, i, key);
    }
    forall pinned
      ensures multiset(Under(s.users, pinned))[items[i].origin]
              == if items[i].Env? && Needs(rules, items[i].entry) == Some(pinned) then 1 else 0
    {
      UsedOnce(rules, items, i, pinned);
    }
  }

  /** Accounting: in what `Collect` returns, the origin of a model or database entry is found exactly once under the
      one credential its text makes, or exactly once among the unresolved rows for its one reason, or nowhere
      because its text is blank; an entry of another name is nowhere, or unresolved as an alias; and a pinned
      secret version lists the entries that refer to it, once each. */
  lemma {:induction false} EntryAccounted(rules: Rules, resources: seq<Resource>, s: State, k: nat, c: nat, e: nat)
    requires forall i, j | 0 <= i < j < |resources| :: resources[i].name != resources[j].name
    requires Accounts(rules, AllItems(resources), s) && forall r | r in resources :: ResourceOk(r)
    requires k < |resources| && c < |resources[k].containers| && e < |resources[k].containers[c].env|
    ensures var r, entry := resources[k], resources[k].containers[c].env[e];
            var origin := Origin(r.name, r.uid, r.kind, c, entry.name, Some(e));
            && (forall key :: Times(s, origin, key) == if IsKept(rules, s.cache, entry, key) then 1 else 0)
            && (forall reason :: (origin, reason) in s.unresolved <==> IsOpen(rules, s.cache, entry, reason))
            && multiset(OriginsOf(s.unresolved))[origin]
               == (if exists reason :: IsOpen(rules, s.cache, entry, reason) then 1 else 0)
            && (forall pinned ::
                  multiset(Under(s.users, pinned))[origin]
                  == if rules.nameClass(entry.name).Credential? && entry.source == Reference(Ok(pinned)) then 1 else 0)
    ensures var entry := resources[k].containers[c].env[e];
            if rules.nameClass(entry.name) in {Settlement, Unrelated} then
              !IsBlank(rules, s.cache, entry) && (forall key :: !IsKept(rules, s.cache, entry, key))
              && forall reason :: !IsOpen(rules, s.cache, entry, reason)
            else
              IsBlank(rules, s.cache, entry) || (exists key :: IsKept(rules, s.cache, entry, key))
              || exists reason :: IsOpen(rules, s.cache, entry, reason)
  {
    hide Judge, Known, FateOf, Accounts, AllItems, DistinctOrigins, OriginsOf, IsKept, IsOpen, IsBlank;
    assert ResourceOk(resources[k]) && ContainerOk(resources[k].containers[c]);
    var items, r, entry := AllItems(resources), resources[k], resources[k].containers[c].env[e];
    var item := Env(Origin(r.name, r.uid, r.kind, c, entry.name, Some(e)), entry);
    AllItemsAre(resources);
    EveryEntryMet(resources, k, c, e);
    var i :| 0 <= i < |items| && items[i] == item;
    ItemAccounted(rules, items, s, i);
    FateMeans(rules, s.cache, item);
    match FateOf(rules, s.cache, item)
    case Open(reason) => assert IsOpen(rules, s.cache, entry, reason);
    case Held(key) => assert IsKept(rules, s.cache, entry, key);
    case _ =>
  }

  lemma InMounts(resources: seq<Resource>, k: nat, c: nat)
    requires k < |resources| && c < |resources[k].containers| && resources[k].containers[c].mounted
    ensures var r := resources[k]; Mounts(Origin(r.name, r.uid, r.kind, c, "", None)) in AllItems(resources)
    decreases |resources|
  {
    var n, r := |resources| - 1, resources[k];
    if k < n {
      InMounts(resources[..n], k, c);
    } else {
      var m := Mounts(Origin(r.name, r.uid, r.kind, c, "", None));
      assert ContainerItems(r, c)[|ContainerItems(r, c)| - 1] == m;
      assert m in ResourceItems(r, c + 1);
      ResourcePrefix(r, c + 1, |r.containers|);
      assert m in ResourceItems(r, |r.containers|)[..|ResourceItems(r, c + 1)|];
    }
  }

  /** And a container with mounts leaves exactly one unresolved row of its own. */
  lemma {:induction false} MountsAccounted(rules: Rules, resources: seq<Resource>, s: State, k: nat, c: nat)
    requires forall i, j | 0 <= i < j < |resources| :: resources[i].name != resources[j].name
    requires Accounts(rules, AllItems(resources), s)
    requires k < |resources| && c < |resources[k].containers| && resources[k].containers[c].mounted
    ensures var r := resources[k];
            var origin := Origin(r.name, r.uid, r.kind, c, "", None);
            && (origin, "mounted_configuration_not_inspected") in s.unresolved
            && multiset(OriginsOf(s.unresolved))[origin] == 1 && forall key :: Times(s, origin, key) == 0
  {
    hide Judge, Accounts, AllItems, DistinctOrigins, OriginsOf;
    var items, r := AllItems(resources), resources[k];
    AllItemsAre(resources);
    InMounts(resources, k, c);
    var i :| 0 <= i < |items| && items[i] == Mounts(Origin(r.name, r.uid, r.kind, c, "", None));
    ItemAccounted(rules, items, s, i);
  }
}
