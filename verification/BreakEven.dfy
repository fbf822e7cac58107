/** `forecasts`: the break-even count of each pack and the worst mix of use it is reckoned on, in the
    exact fractions of the source. */
module BreakEven {
  import opened Outcomes

  datatype Pack = Pack(
    sku: string, gross: nat, serviceCredits: nat, analysisUnits: nat, maxDiscount: nat, maxBonusCredits: nat,
    maxBonusUnits: nat)

  datatype Policy = Policy(
    contingencyBps: nat, saleTaxBps: nat, gatewayFeeBps: nat, gatewayFeeTaxBps: nat, riskBps: nat, gatewayFixed: nat,
    settlementFx: nat, adverseFxPerUsd: nat, platformOperations: nat, marketingOperations: nat, searchCost: nat,
    applicationCost: nat, overheadPerUnit: nat, modelCeilingMicros: nat, searchCredits: nat, applyCredits: nat,
    packs: seq<Pack>)
  {
    /** The validated policy's positive amounts that the arithmetic relies on. */
    predicate Valid() {
      platformOperations > 0 && marketingOperations > 0 && searchCredits > 0 && applyCredits > 0
    }
  }

  // --- The arithmetic ---

  function Ceil(x: real): (n: int)
    ensures n as real - 1.0 < x <= n as real
  {
    -((-x).Floor)
  }

  function Max(a: real, b: real): real {
    if a < b then b else a
  }

  function Share(amount: int, bps: nat, of: nat): int
    requires of > 0
  {
    Ceil((amount * bps) as real / of as real)
  }

  function NetReceipts(p: Policy, gross: int): int {
    var fee := Share(gross, p.gatewayFeeBps, 10_000);
    gross - Share(gross, p.saleTaxBps, 10_000 + p.saleTaxBps) - fee - Share(fee, p.gatewayFeeTaxBps, 10_000)
    - Share(gross, p.riskBps, 10_000) - p.gatewayFixed - p.settlementFx
  }

  function Buffer(p: Policy): real {
    (10_000 + p.contingencyBps) as real / 10_000.0
  }

  function PerUnit(p: Policy): int {
    Share(p.modelCeilingMicros, p.adverseFxPerUsd, 1_000_000) + p.overheadPerUnit
  }

  /** The dearer of the two uses of one service credit. */
  function WorstRate(p: Policy): real
    requires p.Valid()
  {
    Max(p.searchCost as real / p.searchCredits as real, p.applicationCost as real / p.applyCredits as real)
  }

  function Credits(pack: Pack): nat { pack.serviceCredits + pack.maxBonusCredits }

  function Units(pack: Pack): nat { pack.analysisUnits + pack.maxBonusUnits }

  function Variable(p: Policy, pack: Pack): real
    requires p.Valid()
  {
    Credits(pack) as real * WorstRate(p) + (Units(pack) * PerUnit(p)) as real
  }

  function Contribution(p: Policy, pack: Pack): int
    requires p.Valid()
  {
    NetReceipts(p, pack.gross - pack.maxDiscount) - Ceil(Variable(p, pack) * Buffer(p))
  }

  function FixedBuffered(p: Policy): int {
    Ceil((p.platformOperations + p.marketingOperations) as real * Buffer(p))
  }

  function Forecast(p: Policy, pack: Pack, count: int): int
    requires p.Valid()
  {
    count * Contribution(p, pack) - FixedBuffered(p)
  }

  datatype Row = Row(sku: string, breakEven: Option<int>, monthly: seq<(int, int)>)

  function RowOf(p: Policy, pack: Pack): Row
    requires p.Valid()
  {
    var contribution := Contribution(p, pack);
    Row(pack.sku,
        if contribution > 0 then Some(Ceil(FixedBuffered(p) as real / contribution as real)) else None,
        [(10, Forecast(p, pack, 10)), (50, Forecast(p, pack, 50)), (100, Forecast(p, pack, 100))])
  }

  method Forecasts(p: Policy) returns (rows: seq<Row>)
    requires p.Valid()
    ensures |rows| == |p.packs|
    ensures forall i | 0 <= i < |rows| ::
              && rows[i].sku == p.packs[i].sku
              && (forall n | n >= 0 ::
                    (rows[i].breakEven.Some? && rows[i].breakEven.value <= n) <==> Forecast(p, p.packs[i], n) >= 0)
              && |rows[i].monthly| == 3
              && forall k | 0 <= k < 3 ::
                   rows[i].monthly[k] == ([10, 50, 100][k], Forecast(p, p.packs[i], [10, 50, 100][k]))
  {
    hide Forecast;
    rows := [];
    for i := 0 to |p.packs|
      invariant |rows| == i && forall k | 0 <= k < i :: rows[k] == RowOf(p, p.packs[k])
    {
      rows := rows + [RowOf(p, p.packs[i])];
    }
    forall i, n | 0 <= i < |rows| && n >= 0
      ensures (rows[i].breakEven.Some? && rows[i].breakEven.value <= n) <==> Forecast(p, p.packs[i], n) >= 0
    {
      BreakEvenIsLeast(p, p.packs[i], n);
    }
  }

  // --- Break-even ---

  lemma CeilQuotient(fixed: int, contribution: int, n: int)
    requires contribution > 0
    ensures Ceil(fixed as real / contribution as real) <= n <==> n * contribution >= fixed
  {
    var q := fixed as real / contribution as real;
    assert q * contribution as real == fixed as real;
    if n as real >= q {
      assert n as real * contribution as real >= q * contribution as real;
      assert (n * contribution) as real >= fixed as real;
    } else {
      assert n as real * contribution as real < q * contribution as real;
      assert (n * contribution) as real < fixed as real;
    }
  }

  lemma FixedIsPositive(p: Policy)
    requires p.Valid()
    ensures FixedBuffered(p) > 0
  {
    var fixed := (p.platformOperations + p.marketingOperations) as real;
    assert Buffer(p) >= 1.0;
    assert fixed * Buffer(p) >= fixed;
  }

  /** The count is the least whose forecast is nonnegative; without one, no count ever breaks even. */
  lemma {:induction false} BreakEvenIsLeast(p: Policy, pack: Pack, n: int)
    requires p.Valid() && n >= 0
    ensures var breakEven := RowOf(p, pack).breakEven;
            (breakEven.Some? && breakEven.value <= n) <==> Forecast(p, pack, n) >= 0
  {
    hide FixedBuffered, Contribution;
    var contribution, fixed := Contribution(p, pack), FixedBuffered(p);
    FixedIsPositive(p);
    if contribution > 0 {
      CeilQuotient(fixed, contribution, n);
    } else {
      assert n * contribution <= 0;
    }
  }

  // --- The worst mix ---

  /** What one buyer does with a pack: searches, applications and analysis units. */
  datatype Mix = Mix(searches: nat, applications: nat, units: nat)

  predicate Affordable(p: Policy, pack: Pack, m: Mix) {
    && m.searches * p.searchCredits + m.applications * p.applyCredits <= pack.serviceCredits + pack.maxBonusCredits
    && m.units <= pack.analysisUnits + pack.maxBonusUnits
  }

  lemma AffordableWithin(p: Policy, pack: Pack, m: Mix)
    ensures Affordable(p, pack, m) <==>
              m.searches * p.searchCredits + m.applications * p.applyCredits <= Credits(pack) && m.units <= Units(pack)
  {
  }

  function Cost(p: Policy, m: Mix): int {
    m.searches * p.searchCost + m.applications * p.applicationCost + m.units * PerUnit(p)
  }

  lemma MulReal(a: int, b: int)
    ensures (a * b) as real == a as real * b as real
  {
  }

  /** Spending `x` credits on a use whose rate is at most `rate`. */
  lemma {:induction false} RateBounds(uses: nat, cost: nat, credits: nat, rate: real)
    requires credits > 0 && cost as real / credits as real <= rate
    ensures (uses * cost) as real <= rate * (uses * credits) as real
  {
    var u, k, c := uses as real, credits as real, cost as real;
    MulReal(uses, cost);
    MulReal(uses, credits);
    var q := c / k;
    assert q * k == c;
    Grows(q, rate, k);
    Grows(c, rate * k, u);
    Regroup(u, rate, k);
  }

  lemma Grows(a: real, b: real, f: real)
    requires a <= b && f >= 0.0
    ensures f * a <= f * b && a * f <= b * f
  {
  }

  lemma GrowsStrictly(a: real, b: real, f: real)
    requires a < b && f > 0.0
    ensures a * f < b * f
  {
  }

  lemma Regroup(u: real, rate: real, k: real)
    ensures u * (rate * k) == rate * (u * k)
  {
  }

  lemma {:induction false} TwoUses(rate: real, x: real, y: real, credits: real, sc: real, ac: real)
    requires sc <= rate * x && ac <= rate * y && x + y <= credits && rate >= 0.0
    ensures sc + ac <= credits * rate
  {
    Grows(x + y, credits, rate);
    assert rate * (x + y) == rate * x + rate * y;
  }

  lemma {:induction false} PerUnitIsNat(p: Policy)
    ensures PerUnit(p) >= 0
  {
    var x := (p.modelCeilingMicros * p.adverseFxPerUsd) as real / 1_000_000.0;
    assert x >= 0.0;
  }

  lemma MoreUnits(units: nat, most: nat, per: int)
    requires units <= most && per >= 0
    ensures units * per <= most * per
  {
  }

  /** No split of the credits between searches and applications costs more than the bound used. */
  lemma {:induction false} WorstMix(p: Policy, pack: Pack, m: Mix)
    requires p.Valid() && Affordable(p, pack, m)
    ensures Cost(p, m) as real <= Variable(p, pack)
    ensures Ceil(Cost(p, m) as real * Buffer(p)) <= Ceil(Variable(p, pack) * Buffer(p))
  {
    hide PerUnit, Credits, Units, Buffer, Ceil, WorstRate, Affordable;
    SplitBound(p, pack, m);
    AffordableWithin(p, pack, m);
    PerUnitIsNat(p);
    MoreUnits(m.units, Units(pack), PerUnit(p));
    BufferIsNatural(p);
    Buffered(Cost(p, m) as real, Variable(p, pack), Buffer(p));
  }

  lemma BufferIsNatural(p: Policy)
    ensures Buffer(p) >= 0.0
  {
  }

  lemma SplitBound(p: Policy, pack: Pack, m: Mix)
    requires p.Valid() && Affordable(p, pack, m)
    ensures (m.searches * p.searchCost + m.applications * p.applicationCost) as real
            <= Credits(pack) as real * WorstRate(p)
  {
    hide WorstRate, Credits, Affordable;
    AffordableWithin(p, pack, m);
    var rate := WorstRate(p);
    var x, y := m.searches * p.searchCredits, m.applications * p.applyCredits;
    var sc, ac := m.searches * p.searchCost, m.applications * p.applicationCost;
    RateIsNatural(p);
    RateBounds(m.searches, p.searchCost, p.searchCredits, rate);
    RateBounds(m.applications, p.applicationCost, p.applyCredits, rate);
    TwoUses(rate, x as real, y as real, Credits(pack) as real, sc as real, ac as real);
  }

  lemma {:induction false} RateIsNatural(p: Policy)
    requires p.Valid()
    ensures WorstRate(p) >= 0.0
    ensures p.searchCost as real / p.searchCredits as real <= WorstRate(p)
    ensures p.applicationCost as real / p.applyCredits as real <= WorstRate(p)
  {
    assert p.searchCost as real / p.searchCredits as real >= 0.0;
  }

  lemma {:induction false} Buffered(cost: real, bound: real, buffer: real)
    requires cost <= bound && buffer >= 0.0
    ensures Ceil(cost * buffer) <= Ceil(bound * buffer)
  {
    assert cost * buffer <= bound * buffer;
  }

  /** And the bound is reached: by spending everything on the dearer use, when it divides evenly. */
  lemma {:induction false} WorstMixIsReached(p: Policy, pack: Pack)
    requires p.Valid() && Credits(pack) % p.searchCredits == 0 && Credits(pack) % p.applyCredits == 0
    ensures exists m :: Affordable(p, pack, m) && Cost(p, m) as real == Variable(p, pack)
  {
    hide PerUnit, Credits, Units, Affordable;
    var credits := Credits(pack);
    var rateS := p.searchCost as real / p.searchCredits as real;
    var rateA := p.applicationCost as real / p.applyCredits as real;
    var s, a := credits / p.searchCredits, credits / p.applyCredits;
    AllOnOne(credits, p.searchCredits, p.searchCost);
    AllOnOne(credits, p.applyCredits, p.applicationCost);
    var m := if rateS < rateA then Mix(0, a, Units(pack)) else Mix(s, 0, Units(pack));
    AffordableWithin(p, pack, m);
    assert Affordable(p, pack, m);
    assert Cost(p, m) as real == Variable(p, pack);
  }

  lemma {:induction false} AllOnOne(credits: nat, each: nat, cost: nat)
    requires each > 0 && credits % each == 0
    ensures (credits / each) * each == credits
    ensures ((credits / each) * cost) as real == credits as real * (cost as real / each as real)
  {
    var n := credits / each;
    var q := cost as real / each as real;
    assert n * each == credits;
    assert q * each as real == cost as real;
    assert n as real * (q * each as real) == (n as real * each as real) * q;
  }

  // --- Both together ---

  function BufferedCosts(p: Policy, mixes: seq<Mix>): int {
    if mixes == [] then 0 else Ceil(Cost(p, mixes[0]) as real * Buffer(p)) + BufferedCosts(p, mixes[1..])
  }

  /** Selling the break-even count covers the fixed expenses whatever each buyer does with the pack. */
  lemma {:induction false} BreakEvenForEveryMix(p: Policy, pack: Pack, mixes: seq<Mix>)
    requires p.Valid() && forall m | m in mixes :: Affordable(p, pack, m)
    ensures var breakEven := RowOf(p, pack).breakEven;
            breakEven.Some? && breakEven.value <= |mixes| ==>
              |mixes| * NetReceipts(p, pack.gross - pack.maxDiscount) - BufferedCosts(p, mixes) - FixedBuffered(p) >= 0
  {
    hide NetReceipts, FixedBuffered, Variable, Affordable, Cost, Buffer, RowOf, Ceil, Contribution;
    var n := |mixes|;
    BreakEvenIsLeast(p, pack, n);
    CostsBounded(p, pack, mixes);
    ContributionIs(p, pack);
    if Forecast(p, pack, n) >= 0 {
      Covers(n, Contribution(p, pack), NetReceipts(p, pack.gross - pack.maxDiscount),
             Ceil(Variable(p, pack) * Buffer(p)), BufferedCosts(p, mixes), FixedBuffered(p));
    }
  }

  lemma {:induction false} ContributionIs(p: Policy, pack: Pack)
    requires p.Valid()
    ensures Contribution(p, pack) == NetReceipts(p, pack.gross - pack.maxDiscount) - Ceil(Variable(p, pack) * Buffer(p))
  {
    hide NetReceipts, Variable, Buffer, Ceil;
  }

  lemma {:induction false} Covers(n: int, contribution: int, net: int, bound: int, costs: int, fixed: int)
    requires contribution == net - bound && n * contribution - fixed >= 0 && costs <= n * bound
    ensures n * net - costs - fixed >= 0
  {
    assert n * contribution == n * net - n * bound;
  }

  lemma {:induction false} CostsBounded(p: Policy, pack: Pack, mixes: seq<Mix>)
    requires p.Valid() && forall m | m in mixes :: Affordable(p, pack, m)
    ensures BufferedCosts(p, mixes) <= |mixes| * Ceil(Variable(p, pack) * Buffer(p))
    decreases |mixes|
  {
    hide Variable, Affordable, Cost, Buffer;
    if mixes != [] {
      var bound := Ceil(Variable(p, pack) * Buffer(p));
      WorstMix(p, pack, mixes[0]);
      CostsBounded(p, pack, mixes[1..]);
      assert |mixes| * bound == bound + |mixes[1..]| * bound;
    }
  }

  // --- The same amounts in whole numbers ---

  /** `n` is `amount` over `of`, rounded up. */
  ghost predicate RoundedUp(n: int, amount: int, of: int) {
    (n - 1) * of < amount <= n * of
  }

  lemma SameOrder(a: int, b: int, x: real, y: real)
    requires a as real == x && b as real == y
    ensures (x < y <==> a < b) && (x <= y <==> a <= b)
  {
  }

  lemma Scaled(low: real, q: real, high: real, of: real, amount: real)
    requires low < q <= high && of > 0.0 && q * of == amount
    ensures low * of < amount <= high * of
  {
    Grows(q, high, of);
    GrowsStrictly(low, q, of);
  }

  lemma {:induction false} CeilRoundsUp(amount: int, of: int)
    requires of > 0
    ensures RoundedUp(Ceil(amount as real / of as real), amount, of)
  {
    hide Ceil;
    var n := Ceil(amount as real / of as real);
    Scaled((n - 1) as real, amount as real / of as real, n as real, of as real, amount as real);
    MulReal(n, of);
    MulReal(n - 1, of);
    SameOrder(amount, n * of, amount as real, n as real * of as real);
    SameOrder((n - 1) * of, amount, (n - 1) as real * of as real, amount as real);
  }

  /** The proportional charges on a sale: each rounded up on its own, the sales tax as included in the total, and the
      tax on the gateway's fee taken of the rounded fee. */
  ghost predicate Charges(p: Policy, gross: int, tax: int, fee: int, feeTax: int, risk: int) {
    && RoundedUp(tax, gross * p.saleTaxBps, 10_000 + p.saleTaxBps)
    && RoundedUp(fee, gross * p.gatewayFeeBps, 10_000)
    && RoundedUp(feeTax, fee * p.gatewayFeeTaxBps, 10_000)
    && RoundedUp(risk, gross * p.riskBps, 10_000)
  }

  /** What a buyer paid is accounted for to the last unit: net receipts, proportional charges, fixed charges. */
  lemma {:induction false} ReceiptsAccountedFor(p: Policy, gross: int)
    ensures exists tax, fee, feeTax, risk ::
              && Charges(p, gross, tax, fee, feeTax, risk)
              && NetReceipts(p, gross) + tax + fee + feeTax + risk + p.gatewayFixed + p.settlementFx == gross
  {
    hide Ceil, RoundedUp;
    var tax, fee := Share(gross, p.saleTaxBps, 10_000 + p.saleTaxBps), Share(gross, p.gatewayFeeBps, 10_000);
    var feeTax, risk := Share(fee, p.gatewayFeeTaxBps, 10_000), Share(gross, p.riskBps, 10_000);
    CeilRoundsUp(gross * p.saleTaxBps, 10_000 + p.saleTaxBps);
    CeilRoundsUp(gross * p.gatewayFeeBps, 10_000);
    CeilRoundsUp(fee * p.gatewayFeeTaxBps, 10_000);
    CeilRoundsUp(gross * p.riskBps, 10_000);
    assert Charges(p, gross, tax, fee, feeTax, risk);
    assert NetReceipts(p, gross) + tax + fee + feeTax + risk + p.gatewayFixed + p.settlementFx == gross;
  }

  /** An analysis unit costs its overhead and its model ceiling, in the adverse rate per million, rounded up. */
  lemma {:induction false} UnitCost(p: Policy)
    ensures RoundedUp(PerUnit(p) - p.overheadPerUnit, p.modelCeilingMicros * p.adverseFxPerUsd, 1_000_000)
  {
    CeilRoundsUp(p.modelCeilingMicros * p.adverseFxPerUsd, 1_000_000);
  }

  /** The fixed expenses with the contingency on top, rounded up once. */
  lemma {:induction false} FixedExpenses(p: Policy)
    ensures RoundedUp(FixedBuffered(p), (p.platformOperations + p.marketingOperations) * (10_000 + p.contingencyBps),
                      10_000)
  {
    var fixed, buffer := p.platformOperations + p.marketingOperations, 10_000 + p.contingencyBps;
    MulReal(fixed, buffer);
    assert fixed as real * (buffer as real / 10_000.0) == fixed as real * buffer as real / 10_000.0;
    CeilRoundsUp(fixed * buffer, 10_000);
  }

  lemma Quotient(x: real, n: real, d: real)
    requires d != 0.0 && x * d == n
    ensures x == n / d
  {
  }

  lemma Rescale(v: real, each: real, t: real)
    ensures (v * (t / 10_000.0)) * (each * 10_000.0) == (v * each) * t
  {
    var b := t / 10_000.0;
    assert b * 10_000.0 == t;
    assert (v * b) * (each * 10_000.0) == (v * each) * (b * 10_000.0);
  }

  lemma SpentOn(credits: real, r: real, u: real, each: real, cost: real)
    requires r * each == cost
    ensures (credits * r + u) * each == credits * cost + u * each
  {
    assert (credits * r) * each == credits * (r * each);
  }

  /** One use's whole cost with the buffer, as a fraction of whole numbers. */
  lemma UseBuffered(credits: int, units: int, cost: int, each: int, buffer: int)
    requires each > 0
    ensures (credits as real * (cost as real / each as real) + units as real) * (buffer as real / 10_000.0)
            == ((credits * cost + units * each) * buffer) as real / (each * 10_000) as real
  {
    var r, e, t := cost as real / each as real, each as real, buffer as real;
    var v := credits as real * r + units as real;
    assert r * e == cost as real;
    SpentOn(credits as real, r, units as real, e, cost as real);
    Rescale(v, e, t);
    MulReal(credits, cost);
    MulReal(units, each);
    MulReal(credits * cost + units * each, buffer);
    MulReal(each, 10_000);
    Quotient(v * (t / 10_000.0), ((credits * cost + units * each) * buffer) as real, (each * 10_000) as real);
  }

  /** A pack with its largest bonus spent on one use alone, over that use's credits: every credit on the use, and
      every analysis unit. */
  ghost function WholePack(p: Policy, pack: Pack, cost: int, each: int): int {
    (pack.serviceCredits + pack.maxBonusCredits) * cost
    + (pack.analysisUnits + pack.maxBonusUnits) * PerUnit(p) * each
  }

  lemma RateOrder(credits: real, x: real, y: real, u: real, buffer: real)
    requires x <= y && credits >= 0.0 && buffer >= 0.0
    ensures (credits * x + u) * buffer <= (credits * y + u) * buffer
  {
    Grows(x, y, credits);
    Grows(credits * x + u, credits * y + u, buffer);
  }

  /** With the reserve `n` for the dearer use, it is also enough for the other. */
  lemma {:induction false} EnoughForBoth(dearer: real, other: real, n: int, amount: int, of: int)
    requires other <= dearer && n == Ceil(dearer) && of > 0 && other == amount as real / of as real
    ensures amount <= n * of
  {
    CeilRoundsUp(amount, of);
    var k := Ceil(other);
    assert k <= n;
    assert k * of <= n * of;
  }

  /** The same, buffered, as the model's fractions have it. */
  ghost function Spent(p: Policy, pack: Pack, cost: int, each: int): real
    requires each > 0
  {
    (Credits(pack) as real * (cost as real / each as real) + (Units(pack) * PerUnit(p)) as real) * Buffer(p)
  }

  lemma SpentIs(p: Policy, pack: Pack, cost: int, each: int)
    requires each > 0
    ensures Spent(p, pack, cost, each)
            == (WholePack(p, pack, cost, each) * (10_000 + p.contingencyBps)) as real / (each * 10_000) as real
  {
    hide PerUnit;
    UseBuffered(Credits(pack), Units(pack) * PerUnit(p), cost, each, 10_000 + p.contingencyBps);
  }

  lemma DearerSpent(p: Policy, pack: Pack)
    requires p.Valid()
    ensures Variable(p, pack) * Buffer(p)
            == Max(Spent(p, pack, p.searchCost, p.searchCredits), Spent(p, pack, p.applicationCost, p.applyCredits))
  {
    hide PerUnit, Buffer;
    var rateS := p.searchCost as real / p.searchCredits as real;
    var rateA := p.applicationCost as real / p.applyCredits as real;
    BufferIsNatural(p);
    if rateS < rateA {
      RateOrder(Credits(pack) as real, rateS, rateA, (Units(pack) * PerUnit(p)) as real, Buffer(p));
    } else {
      RateOrder(Credits(pack) as real, rateA, rateS, (Units(pack) * PerUnit(p)) as real, Buffer(p));
    }
  }

  lemma LeastForBoth(x: real, y: real, n: int, a: int, b: int, c: int, d: int)
    requires n == Ceil(Max(x, y)) && b > 0 && d > 0 && x == a as real / b as real && y == c as real / d as real
    ensures a <= n * b && c <= n * d && (RoundedUp(n, a, b) || RoundedUp(n, c, d))
  {
    hide RoundedUp;
    CeilRoundsUp(a, b);
    CeilRoundsUp(c, d);
    EnoughForBoth(Max(x, y), x, n, a, b);
    EnoughForBoth(Max(x, y), y, n, c, d);
  }

  /** What a pack contributes is what the discounted sale leaves after a reserve: the least whole amount that covers,
      with the contingency, the pack spent on searches alone and the pack spent on applications alone. */
  lemma {:induction false} PackReserve(p: Policy, pack: Pack)
    requires p.Valid()
    ensures var reserve := NetReceipts(p, pack.gross - pack.maxDiscount) - Contribution(p, pack);
            var searching := WholePack(p, pack, p.searchCost, p.searchCredits) * (10_000 + p.contingencyBps);
            var applying := WholePack(p, pack, p.applicationCost, p.applyCredits) * (10_000 + p.contingencyBps);
            && searching <= reserve * (p.searchCredits * 10_000) && applying <= reserve * (p.applyCredits * 10_000)
            && (|| RoundedUp(reserve, searching, p.searchCredits * 10_000)
                || RoundedUp(reserve, applying, p.applyCredits * 10_000))
  {
    hide NetReceipts, Contribution, Variable, Buffer, Ceil, Max, WholePack, Spent, RoundedUp;
    ContributionIs(p, pack);
    DearerSpent(p, pack);
    SpentIs(p, pack, p.searchCost, p.searchCredits);
    SpentIs(p, pack, p.applicationCost, p.applyCredits);
    LeastForBoth(Spent(p, pack, p.searchCost, p.searchCredits), Spent(p, pack, p.applicationCost, p.applyCredits),
                 Ceil(Variable(p, pack) * Buffer(p)),
                 WholePack(p, pack, p.searchCost, p.searchCredits) * (10_000 + p.contingencyBps),
                 p.searchCredits * 10_000,
                 WholePack(p, pack, p.applicationCost, p.applyCredits) * (10_000 + p.contingencyBps),
                 p.applyCredits * 10_000);
  }
}
