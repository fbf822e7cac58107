/** The rows `historical_holds` reads, the checks it makes on each of them, and what those checks come to. */
module HoldChecks {
  import opened Outcomes

  // --- Rows, as the database returns them ---

  /** A timestamp column: not a datetime, naive, or aware at some offset. */
  datatype Stamp = NotAStamp | Naive(at: int) | Aware(at: int, offset: int)

  datatype Price = Price(
    provider: string, model: string, apiBase: string, terms: nat, validFrom: int, expiresAt: int,
    maxInput: int, maxOutput: int)

  datatype Policy = Policy(
    version: string, expenseVersion: Option<string>, funding: Option<string>, prices: seq<Price>,
    limits: map<string, int>)

  /** A JSON column that must validate: absent, present but invalid, or valid. */
  datatype Column<T> = Absent | Invalid | Valid(value: T)

  datatype Quote = Quote(
    version: string, inputRate: nat, outputRate: nat, maxInput: nat, maxOutput: nat, limitParameter: string,
    estimator: string, operationVersion: string, admissionVersion: string, authorizedCeiling: int,
    expenseVersion: Option<string>, funding: Option<string>, pool: Option<string>)

  /** An event's own quote: its price, its pool, and its fields as a liability quote would have them. */
  datatype Attempt = Attempt(price: Price, pool: Option<string>, terms: Quote)

  datatype Run = Run(
    id: string, oversized: bool, status: string, usageState: string, committedUnits: Option<int>,
    estimatedUnits: Option<int>, attemptCount: Option<int>, generationAttempts: Option<int>, settled: Option<int>,
    reserved: Option<int>, ceiling: Option<int>, costState: string, userId: Option<int>, groupId: Option<string>,
    quote: Column<Policy>, model: string, provider: string, operation: string, createdAt: Stamp, completedAt: Stamp)

  datatype Event = Event(
    id: string, oversized: bool, liabilityId: Option<string>, runId: Option<string>, userId: Option<int>,
    status: string,
    costState: string, attemptNumber: Option<int>, usageProvenance: Option<string>, settled: Option<int>,
    settledAt: Option<int>, tokensEstimated: bool, inputTokens: Option<int>, outputTokens: Option<int>,
    outputLimit: Option<int>, estimateProvenance: Option<string>, reserved: Option<int>, estimated: Option<int>,
    model: string, provider: string, quote: Column<Attempt>, createdAt: Stamp)

  datatype Liability = Liability(
    id: string, oversized: bool, groupId: Option<string>, attemptNumber: Option<int>, costState: string,
    inputTokens: Option<int>, outputTokens: Option<int>, usageProvenance: Option<string>, settled: Option<int>,
    settledAt: Option<int>, quote: Column<Quote>, inputEstimate: Option<int>, reserved: Option<int>, currency: string,
    endpointOf: string, model: string, provider: string, createdAt: Stamp)

  datatype Denial =
    | HistoryBound | HistoryDuplicate | LengthMismatch | HoldBinding | HoldState | HoldQuote | OtherRun | OtherEvent

  // --- The checks on one row ---

  predicate IdentifierChar(c: char) {
    'A' <= c <= 'Z' || 'a' <= c <= 'z' || '0' <= c <= '9' || c == '_' || c == ':' || c == '-'
  }

  predicate Identifier(s: string) {
    1 <= |s| <= 64 && forall i | 0 <= i < |s| :: IdentifierChar(s[i])
  }

  function Utc(s: Stamp): Option<int> {
    match s
    case NotAStamp => None
    case Naive(at) => Some(at)
    case Aware(at, offset) => if offset == 0 then Some(at) else None
  }

  function QuotedCost(q: Quote, input: int, output: int): int {
    (input * q.inputRate + output * q.outputRate + 999_999) / 1_000_000
  }

  /** The policy's price for the attempt's provider, model and endpoint: the first that fits. */
  function SavedPrice(prices: seq<Price>, p: Price): Option<Price> {
    if prices == [] then None
    else if (prices[0].provider, prices[0].model, prices[0].apiBase) == (p.provider, p.model, p.apiBase) then
      Some(prices[0])
    else SavedPrice(prices[1..], p)
  }

  /** The rows that satisfy `p`, in order. */
  function Where<T>(rows: seq<T>, p: T -> bool): seq<T> {
    if rows == [] then [] else (if p(rows[0]) then [rows[0]] else []) + Where(rows[1..], p)
  }

  function LinkedTo(liability: string): Event -> bool {
    (e: Event) => e.liabilityId == Some(liability)
  }

  function AttemptOf(run: string): Event -> bool {
    (e: Event) => e.runId == Some(run)
  }

  function InGroup(group: Option<string>): Liability -> bool {
    (l: Liability) => l.groupId == group
  }

  function RunNamed(runs: seq<Run>, id: Option<string>): Option<Run> {
    if runs == [] then None else if Some(runs[0].id) == id then Some(runs[0]) else RunNamed(runs[1..], id)
  }

  predicate StateOk(run: Run, event: Event, liability: Liability, events: seq<Event>) {
    && run.status == "failed" && run.usageState == "waived" && run.committedUnits == Some(0)
    && run.estimatedUnits.Some? && run.estimatedUnits.value > 0
    && run.attemptCount == run.generationAttempts == Some(1)
    && run.reserved.Some? && run.ceiling.Some?
    && run.costState == "active" && run.settled == Some(0)
    && run.userId.Some? && run.userId.value > 0 && event.userId == run.userId
    && run.groupId.Some? && Identifier(run.groupId.value) && run.groupId == liability.groupId
    && event.status == "failed" && event.costState == "outcome_unknown" && liability.costState == "outcome_unknown"
    && event.attemptNumber == liability.attemptNumber == Some(1)
    && |Where(events, AttemptOf(run.id))| == 1
    && liability.inputTokens == None && liability.outputTokens == None && liability.usageProvenance == None
    && liability.settled == None && liability.settledAt == None
    && event.usageProvenance == None && event.settled == None && event.settledAt == None
    && event.tokensEstimated && event.outputTokens == Some(0)
  }

  predicate QuoteOk(run: Run, event: Event, liability: Liability) {
    && liability.quote.Valid? && run.quote.Valid? && event.quote.Valid?
    && var quote, frozen, attempt := liability.quote.value, run.quote.value, event.quote.value;
       var price := attempt.price;
       var saved := SavedPrice(frozen.prices, price);
       && saved.Some? && quote == attempt.terms.(pool := Some("failed_work"))
       && quote.operationVersion == frozen.version && quote.expenseVersion == frozen.expenseVersion
       && quote.funding == frozen.funding && (attempt.pool == quote.funding || attempt.pool == Some("failed_work"))
       && price.model == event.model == liability.model == run.model
       && price.provider == event.provider == liability.provider == run.provider
       && liability.currency == "USD" && liability.endpointOf == price.apiBase
       && price.(maxInput := 0, maxOutput := 0) == saved.value.(maxInput := 0, maxOutput := 0)
       && price.maxInput <= saved.value.maxInput && price.maxOutput <= saved.value.maxOutput
       && liability.inputEstimate.Some? && 0 < liability.inputEstimate.value <= quote.maxInput
       && event.inputTokens == liability.inputEstimate && event.estimateProvenance == Some(quote.estimator)
       && event.outputLimit == Some(quote.maxOutput)
       && liability.reserved == Some(QuotedCost(quote, liability.inputEstimate.value, quote.maxOutput))
       && liability.reserved == event.reserved == event.estimated == run.reserved
       && run.ceiling.Some? && 0 < liability.reserved.value <= quote.authorizedCeiling <= run.ceiling.value
       && run.operation in frozen.limits && run.ceiling.value <= frozen.limits[run.operation]
       && Utc(run.createdAt).Some? && Utc(event.createdAt).Some? && Utc(run.completedAt).Some?
       && Utc(liability.createdAt).Some?
       && Utc(run.createdAt).value <= Utc(liability.createdAt).value <= Utc(event.createdAt).value
          <= Utc(run.completedAt).value
       && price.validFrom <= Utc(liability.createdAt).value < price.expiresAt
  }

  predicate OtherRunOk(run: Run) {
    && run.reserved == Some(0) && run.settled.Some? && run.settled.value >= 0
    && (run.costState == "unquoted" || run.costState == "active")
    && (run.costState == "unquoted" ==> run.quote.Absent? && run.settled.value == 0)
    && (run.costState == "active" ==>
          !run.quote.Absent? && run.ceiling.Some? && 0 < run.ceiling.value && run.settled.value <= run.ceiling.value)
  }

  predicate OtherEventOk(event: Event, liabilities: seq<Liability>) {
    && (event.costState == "unavailable" || event.costState == "settled")
    && (event.costState == "settled" ==>
          && (exists l | l in liabilities :: event.liabilityId == Some(l.id))
          && event.settledAt.Some? && event.settled.Some? && event.settled.value >= 0)
    && (event.costState == "unavailable" ==>
          && event.liabilityId == None && event.quote.Absent? && event.reserved == None && event.settled == None
          && event.settledAt == None && event.estimateProvenance == None && event.usageProvenance == None
          && event.outputLimit == None)
  }

  // --- What acceptance means for the three tables ---

  /** A row's identity columns, all that `indexed` looks at. */
  datatype Key = Key(id: string, oversized: bool)

  function RunKeys(rows: seq<Run>): (keys: seq<Key>)
    ensures |keys| == |rows|
    ensures forall i | 0 <= i < |rows| :: keys[i].id == rows[i].id && keys[i].oversized == rows[i].oversized
  {
    seq(|rows|, i requires 0 <= i < |rows| => Key(rows[i].id, rows[i].oversized))
  }

  function EventKeys(rows: seq<Event>): (keys: seq<Key>)
    ensures |keys| == |rows|
    ensures forall i | 0 <= i < |rows| :: keys[i].id == rows[i].id && keys[i].oversized == rows[i].oversized
  {
    seq(|rows|, i requires 0 <= i < |rows| => Key(rows[i].id, rows[i].oversized))
  }

  function LiabilityKeys(rows: seq<Liability>): (keys: seq<Key>)
    ensures |keys| == |rows|
    ensures forall i | 0 <= i < |rows| :: keys[i].id == rows[i].id && keys[i].oversized == rows[i].oversized
  {
    seq(|rows|, i requires 0 <= i < |rows| => Key(rows[i].id, rows[i].oversized))
  }

  predicate Bounded(keys: seq<Key>) {
    |keys| <= 256 && forall key | key in keys :: Identifier(key.id) && !key.oversized
  }

  predicate Distinct(keys: seq<Key>) {
    forall i, j | 0 <= i < j < |keys| :: keys[i].id != keys[j].id
  }

  predicate Indexed(keys: seq<Key>) {
    Bounded(keys) && Distinct(keys)
  }

  /** The run and event held by one unresolved liability, when all its checks pass. */
  function Hold(runs: seq<Run>, events: seq<Event>, liabilities: seq<Liability>, l: Liability)
    : Result<(Run, Event), Denial>
  {
    var linked := Where(events, LinkedTo(l.id));
    if |linked| != 1 || |Where(liabilities, InGroup(l.groupId))| != 1 then Refused(HoldBinding)
    else
      var run := RunNamed(runs, linked[0].runId);
      if run == None then Refused(HoldBinding)
      else if !StateOk(run.value, linked[0], l, events) then Refused(HoldState)
      else if !QuoteOk(run.value, linked[0], l) then Refused(HoldQuote)
      else Ok((run.value, linked[0]))
  }

  // --- What the checks on one hold come to ---

  /** The run failed in its one attempt; its quota was waived, nothing was charged, and its money is still reserved. */
  ghost predicate FailedOnce(run: Run) {
    && run.status == "failed" && run.usageState == "waived" && run.costState == "active"
    && run.attemptCount == Some(1) && run.generationAttempts == Some(1)
    && run.committedUnits == Some(0) && run.settled == Some(0)
    && run.estimatedUnits.Some? && 1 <= run.estimatedUnits.value
    && run.reserved.Some? && run.ceiling.Some?
  }

  /** The event is a failed first attempt whose outcome nobody knows. */
  ghost predicate OutcomeUnknown(event: Event) {
    && event.status == "failed" && event.costState == "outcome_unknown" && event.attemptNumber == Some(1)
    && event.usageProvenance == None && event.settled == None && event.settledAt == None
    && event.tokensEstimated && event.outputTokens == Some(0)
  }

  /** So is the liability: no usage and no settlement was ever reported. */
  ghost predicate NeverSettled(liability: Liability) {
    && liability.costState == "outcome_unknown" && liability.attemptNumber == Some(1)
    && liability.inputTokens == None && liability.outputTokens == None && liability.usageProvenance == None
    && liability.settled == None && liability.settledAt == None
  }

  /** One to 64 letters, digits, underscores, colons or hyphens. */
  ghost predicate IsIdentifier(s: string) {
    && 1 <= |s| <= 64
    && forall i | 0 <= i < |s| ::
         var n := s[i] as int; 65 <= n <= 90 || 97 <= n <= 122 || 48 <= n <= 58 || n == 95 || n == 45
  }

  /** Run and event belong to one user, run and liability to one group. */
  ghost predicate SameOwner(run: Run, event: Event, liability: Liability) {
    && run.userId.Some? && 1 <= run.userId.value && event.userId == Some(run.userId.value)
    && run.groupId.Some? && liability.groupId == Some(run.groupId.value) && IsIdentifier(run.groupId.value)
  }

  ghost predicate OnlyLinked(events: seq<Event>, event: Event, liability: string) {
    exists i | 0 <= i < |events| ::
      && events[i] == event && event.liabilityId == Some(liability)
      && forall j | 0 <= j < |events| && j != i :: events[j].liabilityId != Some(liability)
  }

  ghost predicate OnlyAttempt(events: seq<Event>, event: Event, run: string) {
    exists i | 0 <= i < |events| ::
      && events[i] == event && event.runId == Some(run)
      && forall j | 0 <= j < |events| && j != i :: events[j].runId != Some(run)
  }

  ghost predicate OnlyInGroup(liabilities: seq<Liability>, group: Option<string>) {
    exists i | 0 <= i < |liabilities| ::
      && liabilities[i].groupId == group
      && forall j | 0 <= j < |liabilities| && j != i :: liabilities[j].groupId != group
  }

  /** The liability's one event and that event's run; no second event of the run, no second liability of the group. */
  ghost predicate BoundTogether(runs: seq<Run>, events: seq<Event>, liabilities: seq<Liability>, l: Liability,
                                run: Run, event: Event) {
    && OnlyLinked(events, event, l.id) && OnlyInGroup(liabilities, l.groupId)
    && run in runs && event.runId == Some(run.id)
  }

  ghost predicate StateProven(run: Run, event: Event, liability: Liability, events: seq<Event>) {
    && FailedOnce(run) && OutcomeUnknown(event) && NeverSettled(liability) && SameOwner(run, event, liability)
    && OnlyAttempt(events, event, run.id)
  }

  ghost predicate SameService(a: Price, b: Price) {
    a.provider == b.provider && a.model == b.model && a.apiBase == b.apiBase
  }

  /** The first price the policy saved for that service. */
  ghost predicate FirstSaved(prices: seq<Price>, price: Price, saved: Price) {
    exists i | 0 <= i < |prices| ::
      prices[i] == saved && SameService(saved, price) && forall j | 0 <= j < i :: !SameService(prices[j], price)
  }

  /** The price is the saved one, except that it may allow fewer tokens. */
  ghost predicate PricedAs(price: Price, saved: Price) {
    && SameService(saved, price) && price.terms == saved.terms
    && price.validFrom == saved.validFrom && price.expiresAt == saved.expiresAt
    && price.maxInput <= saved.maxInput && price.maxOutput <= saved.maxOutput
  }

  /** The liability's quote is the attempt's, moved to the failed-work pool, and names the run's policy. */
  ghost predicate QuotedAs(quote: Quote, attempt: Attempt, frozen: Policy) {
    var t := attempt.terms;
    && quote.version == t.version && quote.limitParameter == t.limitParameter && quote.estimator == t.estimator
    && quote.inputRate == t.inputRate && quote.outputRate == t.outputRate
    && quote.maxInput == t.maxInput && quote.maxOutput == t.maxOutput
    && quote.authorizedCeiling == t.authorizedCeiling && quote.admissionVersion == t.admissionVersion
    && quote.operationVersion == t.operationVersion == frozen.version
    && quote.expenseVersion == t.expenseVersion == frozen.expenseVersion
    && quote.funding == t.funding == frozen.funding
    && quote.pool == Some("failed_work") && attempt.pool in {frozen.funding, Some("failed_work")}
  }

  /** All rows name the price's model and provider, and the liability its endpoint, in dollars. */
  ghost predicate SameParties(run: Run, event: Event, liability: Liability, price: Price) {
    && run.model == price.model && event.model == price.model && liability.model == price.model
    && run.provider == price.provider && event.provider == price.provider && liability.provider == price.provider
    && liability.endpointOf == price.apiBase && liability.currency == "USD"
  }

  /** The event repeats the liability's estimate, which the quote allows, and the quote's output limit. */
  ghost predicate EstimatedAs(event: Event, liability: Liability, quote: Quote) {
    && liability.inputEstimate.Some? && 1 <= liability.inputEstimate.value <= quote.maxInput
    && event.inputTokens == liability.inputEstimate && event.outputLimit == Some(quote.maxOutput)
    && event.estimateProvenance == Some(quote.estimator)
  }

  /** The reserve is the whole cost of the estimate and the full output, at rates per million, rounded up. */
  ghost predicate CoversCost(quote: Quote, estimate: int, reserved: int) {
    (reserved - 1) * 1_000_000 < estimate * quote.inputRate + quote.maxOutput * quote.outputRate
      <= reserved * 1_000_000
  }

  /** One amount on all three rows, covering the quoted cost, and under each ceiling in turn. */
  ghost predicate ReservedAs(run: Run, event: Event, liability: Liability, quote: Quote, frozen: Policy) {
    && liability.reserved.Some? && liability.inputEstimate.Some? && run.ceiling.Some?
    && var reserved := liability.reserved.value;
       && run.reserved == Some(reserved) && event.reserved == Some(reserved) && event.estimated == Some(reserved)
       && CoversCost(quote, liability.inputEstimate.value, reserved)
       && 1 <= reserved && reserved <= quote.authorizedCeiling && quote.authorizedCeiling <= run.ceiling.value
       && run.operation in frozen.limits && run.ceiling.value <= frozen.limits[run.operation]
  }

  /** A stamp of that moment: without a zone, or in UTC. */
  ghost predicate At(s: Stamp, moment: int) {
    s == Naive(moment) || s == Aware(moment, 0)
  }

  /** Run, liability and event were made in that order, before the run completed and while the price was valid. */
  ghost predicate MadeInOrder(run: Run, event: Event, liability: Liability, price: Price) {
    exists created, held, seen, completed ::
      && At(run.createdAt, created) && At(liability.createdAt, held) && At(event.createdAt, seen)
      && At(run.completedAt, completed)
      && created <= held && held <= seen && seen <= completed
      && price.validFrom <= held && held < price.expiresAt
  }

  ghost predicate QuoteProven(run: Run, event: Event, liability: Liability) {
    && run.quote.Valid? && event.quote.Valid? && liability.quote.Valid?
    && var quote, frozen, price := liability.quote.value, run.quote.value, event.quote.value.price;
       && QuotedAs(quote, event.quote.value, frozen) && SameParties(run, event, liability, price)
       && (exists saved :: FirstSaved(frozen.prices, price, saved) && PricedAs(price, saved))
       && EstimatedAs(event, liability, quote) && ReservedAs(run, event, liability, quote, frozen)
       && MadeInOrder(run, event, liability, price)
  }

  /** Everything demanded of one unresolved liability, its run and its event. */
  ghost predicate GoodHold(runs: seq<Run>, events: seq<Event>, liabilities: seq<Liability>, l: Liability, run: Run,
                           event: Event) {
    && BoundTogether(runs, events, liabilities, l, run, event)
    && StateProven(run, event, l, events) && QuoteProven(run, event, l)
  }

  // --- And the checks on every other row ---

  /** A run outside every hold reserves nothing; it was never quoted and cost nothing, or it is quoted and cost no
      more than its ceiling. */
  ghost predicate SettledRun(run: Run) {
    && run.reserved == Some(0) && run.settled.Some?
    && (|| (run.costState == "unquoted" && run.quote.Absent? && run.settled.value == 0)
        || (run.costState == "active" && !run.quote.Absent? && 0 <= run.settled.value
            && run.ceiling.Some? && 1 <= run.ceiling.value && run.settled.value <= run.ceiling.value))
  }

  /** An event outside every hold is settled against one of the liabilities, or carries nothing of a cost at all. */
  ghost predicate SettledEvent(event: Event, liabilities: seq<Liability>) {
    || (event.costState == "settled" && event.settledAt.Some? && event.settled.Some? && 0 <= event.settled.value
        && exists i | 0 <= i < |liabilities| :: event.liabilityId == Some(liabilities[i].id))
    || (event.costState == "unavailable" && event.liabilityId.None? && event.quote.Absent? && event.reserved.None?
        && event.settled.None? && event.settledAt.None? && event.estimateProvenance.None?
        && event.usageProvenance.None? && event.outputLimit.None?)
  }

  /** At most 256 rows of bounded size, under different well-formed identifiers. */
  ghost predicate GoodTable(keys: seq<Key>) {
    && |keys| <= 256 && (forall i | 0 <= i < |keys| :: IsIdentifier(keys[i].id) && !keys[i].oversized)
    && forall i, j | 0 <= i < |keys| && 0 <= j < |keys| && keys[i].id == keys[j].id :: i == j
  }

  // --- The checks are exactly that ---

  lemma {:induction false} IdentifierMeans(s: string)
    ensures Identifier(s) <==> IsIdentifier(s)
  {
  }

  ghost predicate Only<T>(rows: seq<T>, row: T, p: T -> bool) {
    exists i | 0 <= i < |rows| :: rows[i] == row && p(row) && forall j | 0 <= j < |rows| && j != i :: !p(rows[j])
  }

  lemma {:induction false} WhereIs<T>(rows: seq<T>, p: T -> bool)
    ensures forall row :: row in Where(rows, p) <==> row in rows && p(row)
  {
    if rows != [] {
      WhereIs(rows[1..], p);
    }
  }

  lemma {:induction false} NoneWhere<T>(rows: seq<T>, p: T -> bool)
    ensures Where(rows, p) == [] <==> forall i | 0 <= i < |rows| :: !p(rows[i])
  {
    if rows != [] {
      var rest := rows[1..];
      NoneWhere(rest, p);
      assert forall i | 0 <= i < |rest| :: rest[i] == rows[i + 1];
      assert forall i | 0 < i < |rows| :: rows[i] == rest[i - 1];
    }
  }

  lemma OnlyFirst<T>(rows: seq<T>, row: T, p: T -> bool)
    requires rows != []
    ensures Only(rows, row, p) <==>
              if p(rows[0]) then row == rows[0] && forall i | 0 <= i < |rows[1..]| :: !p(rows[1..][i])
              else Only(rows[1..], row, p)
  {
    var rest := rows[1..];
    assert forall i | 0 <= i < |rest| :: rest[i] == rows[i + 1];
    if Only(rows, row, p) {
      var i :| 0 <= i < |rows| && rows[i] == row && p(row) && forall j | 0 <= j < |rows| && j != i :: !p(rows[j]);
      if i > 0 {
        assert rest[i - 1] == row;
      }
    }
    if !p(rows[0]) && Only(rest, row, p) {
      var i :| 0 <= i < |rest| && rest[i] == row && p(row) && forall j | 0 <= j < |rest| && j != i :: !p(rest[j]);
      assert rows[i + 1] == row;
    }
  }

  lemma {:induction false} OneWhere<T>(rows: seq<T>, row: T, p: T -> bool)
    ensures Where(rows, p) == [row] <==> Only(rows, row, p)
  {
    hide Only;
    if rows == [] {
      assert !Only(rows, row, p) by { OnlyOfNone(rows, row, p); }
    } else {
      OneWhere(rows[1..], row, p);
      OnlyFirst(rows, row, p);
      NoneWhere(rows[1..], p);
    }
  }

  lemma OnlyOfNone<T>(rows: seq<T>, row: T, p: T -> bool)
    requires rows == []
    ensures !Only(rows, row, p)
  {
  }

  lemma OneLinked(events: seq<Event>, event: Event, liability: string)
    ensures Where(events, LinkedTo(liability)) == [event] <==> OnlyLinked(events, event, liability)
  {
    OneWhere(events, event, LinkedTo(liability));
  }

  lemma OneAttempt(events: seq<Event>, event: Event, run: string)
    ensures Where(events, AttemptOf(run)) == [event] <==> OnlyAttempt(events, event, run)
  {
    OneWhere(events, event, AttemptOf(run));
  }

  lemma OneInGroup(liabilities: seq<Liability>, group: Option<string>)
    ensures |Where(liabilities, InGroup(group))| == 1 <==> OnlyInGroup(liabilities, group)
  {
    var found := Where(liabilities, InGroup(group));
    if |found| == 1 {
      OneWhere(liabilities, found[0], InGroup(group));
    }
    if OnlyInGroup(liabilities, group) {
      var i :| 0 <= i < |liabilities| && liabilities[i].groupId == group
               && forall j | 0 <= j < |liabilities| && j != i :: liabilities[j].groupId != group;
      OneWhere(liabilities, liabilities[i], InGroup(group));
    }
  }

  lemma {:induction false} NamedIs(runs: seq<Run>, id: Option<string>)
    ensures RunNamed(runs, id).Some? ==> RunNamed(runs, id).value in runs && Some(RunNamed(runs, id).value.id) == id
    ensures RunNamed(runs, id).None? ==> forall run | run in runs :: Some(run.id) != id
  {
    if runs != [] {
      NamedIs(runs[1..], id);
    }
  }

  lemma {:induction false} StateMeans(run: Run, event: Event, liability: Liability, events: seq<Event>)
    requires event in events && event.runId == Some(run.id)
    ensures StateOk(run, event, liability, events) <==> StateProven(run, event, liability, events)
  {
    hide Identifier, IsIdentifier, Where, OnlyAttempt;
    if run.groupId.Some? {
      IdentifierMeans(run.groupId.value);
    }
    var attempts := Where(events, AttemptOf(run.id));
    WhereIs(events, AttemptOf(run.id));
    OneAttempt(events, event, run.id);
    assert event in attempts;
    assert |attempts| == 1 ==> attempts == [event] by {
      assert |attempts| == 1 ==> attempts == [attempts[0]];
    }
  }

  lemma {:induction false} SavedMeans(prices: seq<Price>, price: Price, saved: Price)
    ensures SavedPrice(prices, price) == Some(saved) <==> FirstSaved(prices, price, saved)
  {
    if prices != [] {
      var rest := prices[1..];
      SavedMeans(rest, price, saved);
      assert forall i | 0 <= i < |rest| :: rest[i] == prices[i + 1];
      if SameService(prices[0], price) {
      } else {
        if FirstSaved(rest, price, saved) {
          var i :| 0 <= i < |rest| && rest[i] == saved && SameService(saved, price)
                   && forall j | 0 <= j < i :: !SameService(rest[j], price);
          assert forall j | 0 <= j < i + 1 :: j > 0 ==> prices[j] == rest[j - 1];
          assert prices[i + 1] == saved;
        }
        if FirstSaved(prices, price, saved) {
          var i :| 0 <= i < |prices| && prices[i] == saved && SameService(saved, price)
                   && forall j | 0 <= j < i :: !SameService(prices[j], price);
          assert rest[i - 1] == saved;
        }
      }
    }
  }

  /** The quoted cost is the only amount that covers the cost and would not if it were one less. */
  lemma {:induction false} CostMeans(quote: Quote, estimate: int, reserved: int)
    ensures reserved == QuotedCost(quote, estimate, quote.maxOutput) <==> CoversCost(quote, estimate, reserved)
  {
  }

  lemma {:induction false} UtcMeans(s: Stamp)
    ensures forall moment :: Utc(s) == Some(moment) <==> At(s, moment)
  {
  }

  lemma StampsInOrder(run: Run, event: Event, liability: Liability, price: Price)
    ensures MadeInOrder(run, event, liability, price) <==>
              && Utc(run.createdAt).Some? && Utc(event.createdAt).Some? && Utc(run.completedAt).Some?
              && Utc(liability.createdAt).Some?
              && Utc(run.createdAt).value <= Utc(liability.createdAt).value <= Utc(event.createdAt).value
                 <= Utc(run.completedAt).value
              && price.validFrom <= Utc(liability.createdAt).value < price.expiresAt
  {
    hide Utc, At;
    UtcMeans(run.createdAt);
    UtcMeans(liability.createdAt);
    UtcMeans(event.createdAt);
    UtcMeans(run.completedAt);
  }

  lemma {:induction false} QuoteMeans(run: Run, event: Event, liability: Liability)
    ensures QuoteOk(run, event, liability) <==> QuoteProven(run, event, liability)
  {
    hide Utc, MadeInOrder, SavedPrice, FirstSaved, QuotedCost, CoversCost;
    if run.quote.Valid? && event.quote.Valid? && liability.quote.Valid? {
      var quote, frozen, price := liability.quote.value, run.quote.value, event.quote.value.price;
      StampsInOrder(run, event, liability, price);
      forall saved
        ensures SavedPrice(frozen.prices, price) == Some(saved) <==> FirstSaved(frozen.prices, price, saved)
      {
        SavedMeans(frozen.prices, price, saved);
      }
      forall estimate: int, reserved: int
        ensures reserved == QuotedCost(quote, estimate, quote.maxOutput) <==> CoversCost(quote, estimate, reserved)
      {
        CostMeans(quote, estimate, reserved);
      }
    }
  }

  /** A liability's hold is found exactly when some run and event prove it, and then it is those. */
  lemma {:induction false} HoldMeans(runs: seq<Run>, events: seq<Event>, liabilities: seq<Liability>, l: Liability,
                                     run: Run, event: Event)
    requires forall i, j | 0 <= i < j < |runs| :: runs[i].id != runs[j].id
    ensures Hold(runs, events, liabilities, l) == Ok((run, event)) <==>
              GoodHold(runs, events, liabilities, l, run, event)
  {
    hide StateOk, StateProven, QuoteOk, QuoteProven, Where, OnlyLinked, OnlyInGroup;
    var linked := Where(events, LinkedTo(l.id));
    OneLinked(events, event, l.id);
    OneInGroup(liabilities, l.groupId);
    NamedIs(runs, event.runId);
    WhereIs(events, LinkedTo(l.id));
    assert |linked| == 1 ==> linked == [linked[0]];
    if linked == [event] {
      assert event in linked;
    }
    if event in events && event.runId == Some(run.id) {
      StateMeans(run, event, l, events);
    }
    QuoteMeans(run, event, l);
  }

  lemma {:induction false} OtherRunMeans(run: Run)
    ensures OtherRunOk(run) <==> SettledRun(run)
  {
  }

  lemma {:induction false} OtherEventMeans(event: Event, liabilities: seq<Liability>)
    ensures OtherEventOk(event, liabilities) <==> SettledEvent(event, liabilities)
  {
  }

  lemma {:induction false} TableMeans(keys: seq<Key>)
    ensures Indexed(keys) <==> GoodTable(keys)
  {
    hide Identifier, IsIdentifier;
    forall i | 0 <= i < |keys|
      ensures Identifier(keys[i].id) <==> IsIdentifier(keys[i].id)
    {
      IdentifierMeans(keys[i].id);
    }
  }
}
