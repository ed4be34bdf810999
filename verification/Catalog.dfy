/**
 The plan catalog: which raw prices become plans, and which promotion a plan is shown and sold with.
 Amounts are integers in minor units; a percentage is an exact rational, rounded half away from zero.
 */
module Catalog {
  import opened Wrappers
  import opened Licence

  datatype PlanData = PlanData(priceId: string, productId: string, name: string, level: Option<nat>,
                               entitlement: Option<Entitlement>, amount: int, currency: string, interval: string)

  datatype Plan = Plan(priceId: string, productId: string, name: string, level: nat,
                       entitlement: Entitlement, amount: int, currency: string, interval: string)

  datatype Promo = Promo(couponId: string, name: string, percentOff: Option<real>, amountOff: Option<int>,
                         currency: Option<string>, products: seq<string>, start: Option<Time>, redeemBy: Option<Time>)

  datatype Snapshot = Snapshot(plans: seq<Plan>, promos: seq<Promo>)

  // ----- Validation

  predicate WellFormed(p: PlanData) { p.level.Some? && p.entitlement.Some? }

  function Parse(p: PlanData): Plan
    requires WellFormed(p)
  {
    Plan(p.priceId, p.productId, p.name, p.level.value, p.entitlement.value, p.amount, p.currency, p.interval)
  }

  /** The well-formed prices, in order. */
  function Parsed(raw: seq<PlanData>): seq<Plan> {
    if raw == [] then []
    else
      var m := |raw| - 1;
      Parsed(raw[..m]) + if WellFormed(raw[m]) then [Parse(raw[m])] else []
  }

  /** Index `i` holds the only plan with level `l`. */
  ghost predicate OnlyAt(plans: seq<Plan>, l: nat, i: nat) {
    && i < |plans| && plans[i].level == l
    && forall j | 0 <= j < |plans| && j != i :: plans[j].level != l
  }

  /** Exactly one of `plans` has level `l`. */
  ghost predicate Unambiguous(plans: seq<Plan>, l: nat) {
    exists i: nat :: OnlyAt(plans, l, i)
  }

  /** Those of `plans` whose level is unambiguous among `all`, in order. */
  ghost function Kept(plans: seq<Plan>, all: seq<Plan>): seq<Plan> {
    if plans == [] then []
    else
      var m := |plans| - 1;
      Kept(plans[..m], all) + if Unambiguous(all, plans[m].level) then [plans[m]] else []
  }

  ghost function Valid(raw: seq<PlanData>): seq<Plan> {
    Kept(Parsed(raw), Parsed(raw))
  }

  function Count(plans: seq<Plan>, l: nat): nat {
    if plans == [] then 0
    else
      var m := |plans| - 1;
      Count(plans[..m], l) + if plans[m].level == l then 1 else 0
  }

  lemma {:induction false} CountZero(plans: seq<Plan>, l: nat)
    ensures Count(plans, l) == 0 <==> forall i | 0 <= i < |plans| :: plans[i].level != l
  {
    if plans == [] {
    } else {
      var m := |plans| - 1;
      CountZero(plans[..m], l);
      assert forall i | 0 <= i < m :: plans[..m][i] == plans[i];
    }
  }

  lemma {:induction false} OnlyCountsOne(plans: seq<Plan>, l: nat, i: nat)
    requires OnlyAt(plans, l, i)
    ensures Count(plans, l) == 1
  {
    var m := |plans| - 1;
    if i == m {
      CountZero(plans[..m], l);
    } else {
      OnlyCountsOne(plans[..m], l, i);
    }
  }

  lemma {:induction false} OneIsOnly(plans: seq<Plan>, l: nat) returns (i: nat)
    requires Count(plans, l) == 1
    ensures OnlyAt(plans, l, i)
  {
    var m := |plans| - 1;
    if plans[m].level == l {
      CountZero(plans[..m], l);
      assert forall j | 0 <= j < m :: plans[..m][j] == plans[j];
      i := m;
    } else {
      i := OneIsOnly(plans[..m], l);
      assert forall j | 0 <= j < m :: plans[..m][j] == plans[j];
    }
  }

  /** Counting to one is finding exactly one. */
  lemma CountOne(plans: seq<Plan>, l: nat)
    ensures Count(plans, l) == 1 <==> Unambiguous(plans, l)
  {
    if Count(plans, l) == 1 {
      var i := OneIsOnly(plans, l);
    }
    if i: nat :| OnlyAt(plans, l, i) {
      OnlyCountsOne(plans, l, i);
    }
  }

  method CountLevels(plans: seq<Plan>) returns (byLevel: map<nat, nat>)
    ensures forall l: nat :: Count(plans, l) == if l in byLevel then byLevel[l] else 0
  {
    byLevel := map[];
    for i := 0 to |plans|
      invariant forall l: nat :: Count(plans[..i], l) == if l in byLevel then byLevel[l] else 0
    {
      assert plans[..i + 1][..i] == plans[..i];
      var l := plans[i].level;
      byLevel := byLevel[l := (if l in byLevel then byLevel[l] else 0) + 1];
    }
    assert plans[..|plans|] == plans;
  }

  method ParseAll(raw: seq<PlanData>) returns (plans: seq<Plan>)
    ensures plans == Parsed(raw)
  {
    plans := [];
    for i := 0 to |raw|
      invariant plans == Parsed(raw[..i])
    {
      assert raw[..i + 1][..i] == raw[..i];
      if WellFormed(raw[i]) { plans := plans + [Parse(raw[i])]; }
    }
    assert raw[..|raw|] == raw;
  }

  /** Keep the well-formed plans whose level no other well-formed plan shares. */
  method ValidatePlans(raw: seq<PlanData>) returns (plans: seq<Plan>)
    ensures plans == Valid(raw)
  {
    var all := ParseAll(raw);
    var byLevel := CountLevels(all);
    plans := [];
    for i := 0 to |all|
      invariant plans == Kept(all[..i], all)
    {
      assert all[..i + 1][..i] == all[..i];
      CountOne(all, all[i].level);
      if all[i].level in byLevel && byLevel[all[i].level] == 1 {
        plans := plans + [all[i]];
      }
    }
    assert all[..|all|] == all;
  }

  lemma {:induction false} ParsedAppend(a: seq<PlanData>, b: seq<PlanData>)
    ensures Parsed(a + b) == Parsed(a) + Parsed(b)
  {
    if b == [] {
      assert a + b == a;
    } else {
      var m := |b| - 1;
      ParsedAppend(a, b[..m]);
      assert (a + b)[..|a + b| - 1] == a + b[..m];
    }
  }

  /** A malformed price inserted anywhere changes nothing, even if it shares a valid plan's level. */
  lemma MalformedIsHarmless(a: seq<PlanData>, bad: PlanData, b: seq<PlanData>)
    requires !WellFormed(bad)
    ensures Valid(a + [bad] + b) == Valid(a + b)
  {
    calc {
      Parsed(a + [bad] + b);
    ==  { ParsedAppend(a + [bad], b); }
      Parsed(a + [bad]) + Parsed(b);
    ==  { assert (a + [bad])[..|a|] == a; }
      Parsed(a) + Parsed(b);
    ==  { ParsedAppend(a, b); }
      Parsed(a + b);
    }
  }

  lemma {:induction false} KeptSound(plans: seq<Plan>, all: seq<Plan>, k: nat)
    requires k < |Kept(plans, all)|
    ensures Kept(plans, all)[k] in plans && Unambiguous(all, Kept(plans, all)[k].level)
  {
    var m := |plans| - 1;
    if k < |Kept(plans[..m], all)| {
      KeptSound(plans[..m], all, k);
    }
  }

  lemma {:induction false} KeptComplete(plans: seq<Plan>, all: seq<Plan>, i: nat)
    requires i < |plans| && Unambiguous(all, plans[i].level)
    ensures plans[i] in Kept(plans, all)
  {
    var m := |plans| - 1;
    if i < m {
      KeptComplete(plans[..m], all, i);
      assert plans[..m][i] == plans[i];
    }
  }

  /** A plan is in the catalog exactly if it is well-formed and its level is unique among the well-formed. */
  lemma ValidExactly(raw: seq<PlanData>, p: Plan)
    ensures p in Valid(raw) <==> p in Parsed(raw) && Unambiguous(Parsed(raw), p.level)
  {
    var all := Parsed(raw);
    if p in Valid(raw) {
      var k :| 0 <= k < |Valid(raw)| && Valid(raw)[k] == p;
      KeptSound(all, all, k);
    }
    if p in all && Unambiguous(all, p.level) {
      var i :| 0 <= i < |all| && all[i] == p;
      KeptComplete(all, all, i);
    }
  }

  /** So two catalog plans with the same level are the same plan. */
  lemma LevelIdentifiesPlan(raw: seq<PlanData>, p: Plan, q: Plan)
    requires p in Valid(raw) && q in Valid(raw)
    ensures p.level == q.level <==> p == q
  {
    ValidExactly(raw, p);
    ValidExactly(raw, q);
  }

  // ----- Promotions

  function Max0(x: int): int { if x < 0 then 0 else x }

  /** Round half away from zero. */
  function Round(x: real): int {
    if x >= 0.0 then (x + 0.5).Floor else -((-x + 0.5).Floor)
  }

  function Discounted(plan: Plan, c: Promo): int {
    match c.percentOff
    case Some(pct) => Max0(plan.amount - Round(plan.amount as real * pct / 100.0))
    case None =>
      if c.amountOff.Some? && c.currency == Some(plan.currency) then Max0(plan.amount - c.amountOff.value)
      else plan.amount
  }

  predicate IsLive(c: Promo, plan: Plan, now: Time) {
    && (c.start.None? || c.start.value <= now)
    && c.redeemBy.Some? && now <= c.redeemBy.value
    && (c.products == [] || plan.productId in c.products)
  }

  /** The live promotion a plan is sold with, if any. */
  function BestLive(plan: Plan, promos: seq<Promo>, now: Time): Option<Promo> {
    if promos == [] then None
    else
      var m := |promos| - 1;
      var best := BestLive(plan, promos[..m], now);
      if IsLive(promos[m], plan, now) && (best.None? || Discounted(plan, promos[m]) < Discounted(plan, best.value))
      then Some(promos[m]) else best
  }

  /** Promotion `k` is live, no live promotion is cheaper, and every earlier live one is dearer. */
  ghost predicate FirstCheapest(plan: Plan, promos: seq<Promo>, now: Time, k: nat) {
    && k < |promos| && IsLive(promos[k], plan, now)
    && (forall i | 0 <= i < |promos| && IsLive(promos[i], plan, now) ::
          Discounted(plan, promos[k]) <= Discounted(plan, promos[i]))
    && (forall i | 0 <= i < k && IsLive(promos[i], plan, now) ::
          Discounted(plan, promos[k]) < Discounted(plan, promos[i]))
  }

  /** There is a best promotion exactly if one is live, and it is the first cheapest. */
  lemma {:induction false} BestIsFirstCheapest(plan: Plan, promos: seq<Promo>, now: Time) returns (k: nat)
    ensures BestLive(plan, promos, now).None? <==> forall i | 0 <= i < |promos| :: !IsLive(promos[i], plan, now)
    ensures BestLive(plan, promos, now).Some? ==>
      FirstCheapest(plan, promos, now, k) && BestLive(plan, promos, now).value == promos[k]
  {
    hide Discounted, IsLive;
    k := 0;
    if promos == [] {
    } else {
      var m := |promos| - 1;
      k := BestIsFirstCheapest(plan, promos[..m], now);
      assert forall i | 0 <= i < m :: promos[..m][i] == promos[i];
      var best := BestLive(plan, promos[..m], now);
      if IsLive(promos[m], plan, now) && (best.None? || Discounted(plan, promos[m]) < Discounted(plan, best.value)) {
        k := m;
      }
    }
  }

  /** The promotional price a plan is displayed with, if any. */
  function DisplayedPrice(plan: Plan, promos: seq<Promo>, now: Time): Option<int> {
    match BestLive(plan, promos, now)
    case Some(c) => Some(Discounted(plan, c))
    case None => None
  }

  function FindPlan(plans: seq<Plan>, priceId: string): (p: Option<Plan>)
    ensures p.Some? ==> p.value in plans && p.value.priceId == priceId
    ensures p.None? <==> forall i | 0 <= i < |plans| :: plans[i].priceId != priceId
  {
    if plans == [] then None
    else if plans[0].priceId == priceId then Some(plans[0])
    else FindPlan(plans[1..], priceId)
  }

  /** The coupon applied at checkout or upgrade. */
  function LiveCoupon(s: Snapshot, priceId: string, now: Time): Option<string> {
    match FindPlan(s.plans, priceId)
    case None => None
    case Some(plan) =>
      match BestLive(plan, s.promos, now)
      case Some(c) => Some(c.couponId)
      case None => None
  }

  /** Primary keys of the projection tables. */
  ghost predicate Keyed(s: Snapshot) {
    && (forall i, j | 0 <= i < j < |s.plans| :: s.plans[i].priceId != s.plans[j].priceId)
    && (forall i, j | 0 <= i < j < |s.promos| :: s.promos[i].couponId != s.promos[j].couponId)
  }

  /** What is charged is what is shown: at one instant the chosen coupon yields exactly the displayed price. */
  lemma ChargedAsDisplayed(s: Snapshot, plan: Plan, now: Time)
    requires Keyed(s) && plan in s.plans
    ensures LiveCoupon(s, plan.priceId, now).Some? <==> DisplayedPrice(plan, s.promos, now).Some?
    ensures forall i | 0 <= i < |s.promos| && LiveCoupon(s, plan.priceId, now) == Some(s.promos[i].couponId) ::
      && IsLive(s.promos[i], plan, now)
      && DisplayedPrice(plan, s.promos, now) == Some(Discounted(plan, s.promos[i]))
  {
    assert FindPlan(s.plans, plan.priceId) == Some(plan);
    var k := BestIsFirstCheapest(plan, s.promos, now);
  }

  /** A discount never raises the price and never takes it below zero. */
  lemma DiscountInRange(plan: Plan, c: Promo)
    requires plan.amount >= 0 && Genuine(c)
    ensures 0 <= Discounted(plan, c) <= plan.amount
  {
    if c.percentOff.Some? {
      ShareIsNonNegative(plan.amount as real, c.percentOff.value);
    }
  }

  lemma ShareIsNonNegative(a: real, pct: real)
    requires a >= 0.0 && pct >= 0.0
    ensures Round(a * pct / 100.0) >= 0
  {
    assert a * pct >= 0.0;
  }

  /** Neither a negative percentage nor a negative amount. */
  predicate Genuine(c: Promo) {
    && (c.percentOff.Some? ==> c.percentOff.value >= 0.0)
    && (c.amountOff.Some? ==> c.amountOff.value >= 0)
  }

  /** The displayed price is the minimum over all live promotions, and between zero and the list price. */
  lemma DisplayedIsMinimum(plan: Plan, promos: seq<Promo>, now: Time, price: int)
    requires DisplayedPrice(plan, promos, now) == Some(price)
    ensures exists i :: 0 <= i < |promos| && IsLive(promos[i], plan, now) && Discounted(plan, promos[i]) == price
    ensures forall i | 0 <= i < |promos| && IsLive(promos[i], plan, now) :: price <= Discounted(plan, promos[i])
    ensures plan.amount >= 0 && (forall i | 0 <= i < |promos| :: Genuine(promos[i])) ==> 0 <= price <= plan.amount
  {
    var k := BestIsFirstCheapest(plan, promos, now);
    if plan.amount >= 0 && forall i | 0 <= i < |promos| :: Genuine(promos[i]) {
      DiscountInRange(plan, promos[k]);
    }
  }

  // ----- What a promotion takes off

  lemma RoundIsNearest(x: real)
    requires x >= 0.0
    ensures -0.5 <= x - Round(x) as real < 0.5
  {
  }

  lemma Remainder(a: real, pct: real)
    requires a >= 0.0 && 0.0 <= pct <= 100.0
    ensures 0.0 <= a * pct / 100.0 <= a
    ensures a * (100.0 - pct) / 100.0 == a - a * pct / 100.0
  {
    assert a * (100.0 - pct) == a * 100.0 - a * pct;
    assert 0.0 <= a * pct && 0.0 <= a * (100.0 - pct);
  }

  lemma RestIsNearest(amount: int, share: real)
    requires 0.0 <= share <= amount as real
    ensures Round(share) <= amount && -0.5 <= (amount - Round(share)) as real - (amount as real - share) < 0.5
  {
    RoundIsNearest(share);
  }

  /** A percentage leaves the rest of the price, to the nearest minor unit with a half in the buyer's favour. */
  lemma PercentageTakenOff(plan: Plan, c: Promo)
    requires plan.amount >= 0 && c.percentOff.Some? && 0.0 <= c.percentOff.value <= 100.0
    ensures var rest := plan.amount as real * (100.0 - c.percentOff.value) / 100.0;
      -0.5 <= Discounted(plan, c) as real - rest < 0.5
  {
    var a, pct := plan.amount as real, c.percentOff.value;
    Remainder(a, pct);
    RestIsNearest(plan.amount, a * pct / 100.0);
  }

  /** Without a percentage, an amount in the plan's currency is taken off as far as it goes, any other is not. */
  lemma AmountTakenOff(plan: Plan, c: Promo)
    requires c.percentOff.None?
    ensures c.amountOff.Some? && c.currency == Some(plan.currency) ==>
      Discounted(plan, c) == if c.amountOff.value <= plan.amount then plan.amount - c.amountOff.value else 0
    ensures c.amountOff.None? || c.currency != Some(plan.currency) ==> Discounted(plan, c) == plan.amount
  {
  }

  /** With a percentage, whatever amount there is makes no difference. */
  lemma PercentageWins(plan: Plan, c: Promo, amountOff: Option<int>, currency: Option<string>)
    requires c.percentOff.Some?
    ensures Discounted(plan, c) == Discounted(plan, c.(amountOff := amountOff, currency := currency))
  {
  }

  /** A promotional price is displayed exactly if a promotion has begun, ends but not yet, and covers the plan. */
  lemma DisplayedExactlyInWindow(plan: Plan, promos: seq<Promo>, now: Time)
    ensures DisplayedPrice(plan, promos, now).Some? <==>
      exists i :: 0 <= i < |promos|
        && (promos[i].start.Some? ==> promos[i].start.value <= now)
        && promos[i].redeemBy.Some? && now <= promos[i].redeemBy.value
        && (promos[i].products == [] || plan.productId in promos[i].products)
  {
    var k := BestIsFirstCheapest(plan, promos, now);
    if BestLive(plan, promos, now).Some? {
      assert IsLive(promos[k], plan, now);
    }
  }

  // ----- The catalog in terms of the raw prices

  /** Price `i` gives exactly this plan. */
  ghost predicate Gives(raw: PlanData, p: Plan) {
    && raw.level == Some(p.level) && raw.entitlement == Some(p.entitlement)
    && raw.priceId == p.priceId && raw.productId == p.productId && raw.name == p.name
    && raw.amount == p.amount && raw.currency == p.currency && raw.interval == p.interval
  }

  ghost predicate Increasing(idx: seq<nat>, bound: nat) {
    && (forall i, j | 0 <= i < j < |idx| :: idx[i] < idx[j])
    && (forall i | 0 <= i < |idx| :: idx[i] < bound)
  }

  /** The positions of the well-formed prices. */
  ghost function Positions(raw: seq<PlanData>): seq<nat> {
    if raw == [] then []
    else
      var m := |raw| - 1;
      Positions(raw[..m]) + if WellFormed(raw[m]) then [m] else []
  }

  lemma IncreasingMore(idx: seq<nat>, bound: nat)
    requires Increasing(idx, bound)
    ensures Increasing(idx, bound + 1) && Increasing(idx + [bound], bound + 1)
  {
  }

  lemma {:induction false} PositionsIncrease(raw: seq<PlanData>)
    ensures |Positions(raw)| == |Parsed(raw)| && Increasing(Positions(raw), |raw|)
  {
    if raw == [] {
    } else {
      hide Increasing, WellFormed, Parse;
      var m := |raw| - 1;
      PositionsIncrease(raw[..m]);
      IncreasingMore(Positions(raw[..m]), m);
    }
  }

  lemma {:induction false} PositionGives(raw: seq<PlanData>, k: nat)
    requires k < |Positions(raw)|
    ensures Positions(raw)[k] < |raw| && k < |Parsed(raw)|
    ensures Gives(raw[Positions(raw)[k]], Parsed(raw)[k])
  {
    var m := |raw| - 1;
    PositionsIncrease(raw[..m]);
    if k < |Positions(raw[..m])| {
      PositionGives(raw[..m], k);
      assert raw[..m][Positions(raw[..m])[k]] == raw[Positions(raw[..m])[k]];
    }
  }

  lemma {:induction false} PositionOf(raw: seq<PlanData>, i: nat) returns (k: nat)
    requires i < |raw| && WellFormed(raw[i])
    ensures k < |Positions(raw)| && Positions(raw)[k] == i
  {
    var m := |raw| - 1;
    if i == m {
      k := |Positions(raw)| - 1;
    } else {
      assert raw[..m][i] == raw[i];
      k := PositionOf(raw[..m], i);
    }
  }

  lemma {:induction false} KeptIndices(plans: seq<Plan>, all: seq<Plan>) returns (idx: seq<nat>)
    ensures |idx| == |Kept(plans, all)| && Increasing(idx, |plans|)
    ensures forall k | 0 <= k < |idx| :: Kept(plans, all)[k] == plans[idx[k]]
  {
    if plans == [] {
      idx := [];
    } else {
      var m := |plans| - 1;
      var before := KeptIndices(plans[..m], all);
      IncreasingMore(before, m);
      assert forall k | 0 <= k < |before| :: plans[..m][before[k]] == plans[before[k]];
      hide Unambiguous, Increasing;
      if Unambiguous(all, plans[m].level) {
        idx := before + [m];
        assert Kept(plans, all) == Kept(plans[..m], all) + [plans[m]];
      } else {
        idx := before;
        assert Kept(plans, all) == Kept(plans[..m], all);
      }
    }
  }

  /** The catalog holds, in the order of the price list and each with its own fields, prices of that list. */
  lemma CatalogInOrder(raw: seq<PlanData>) returns (idx: seq<nat>)
    ensures |idx| == |Valid(raw)| && Increasing(idx, |raw|)
    ensures forall k | 0 <= k < |idx| :: Gives(raw[idx[k]], Valid(raw)[k])
  {
    var all := Parsed(raw);
    var parsed := Positions(raw);
    PositionsIncrease(raw);
    forall k | 0 <= k < |parsed| ensures Gives(raw[parsed[k]], all[k]) { PositionGives(raw, k); }
    var kept := KeptIndices(all, all);
    idx := seq(|kept|, k requires 0 <= k < |kept| => parsed[kept[k]]);
  }

  /** Some other price with an entitlement has the level of price `i`. */
  ghost predicate LevelShared(raw: seq<PlanData>, i: nat)
    requires i < |raw|
  {
    exists j :: 0 <= j < |raw| && j != i && raw[j].entitlement.Some? && raw[j].level == raw[i].level
  }

  lemma InCatalogIsAlone(raw: seq<PlanData>, i: nat, p: Plan)
    requires i < |raw| && p in Valid(raw) && Gives(raw[i], p)
    ensures !LevelShared(raw, i)
  {
    var all := Parsed(raw);
    ValidExactly(raw, p);
    var a: nat :| OnlyAt(all, p.level, a);
    var x := PositionOf(raw, i);
    PositionGives(raw, x);
    forall j | 0 <= j < |raw| && j != i && raw[j].entitlement.Some? ensures raw[j].level != raw[i].level {
      if raw[j].level.Some? {
        var y := PositionOf(raw, j);
        PositionGives(raw, y);
      }
    }
  }

  lemma AloneIsInCatalog(raw: seq<PlanData>, i: nat) returns (p: Plan)
    requires i < |raw| && raw[i].level.Some? && raw[i].entitlement.Some? && !LevelShared(raw, i)
    ensures p in Valid(raw) && Gives(raw[i], p)
  {
    var all := Parsed(raw);
    PositionsIncrease(raw);
    var x := PositionOf(raw, i);
    PositionGives(raw, x);
    p := all[x];
    forall y | 0 <= y < |all| && y != x ensures all[y].level != p.level {
      PositionGives(raw, y);
      assert Positions(raw)[y] != i;
    }
    assert OnlyAt(all, p.level, x);
    ValidExactly(raw, p);
  }

  /** Namely exactly those with a level and an entitlement whose level no other price with an entitlement has. */
  lemma CatalogExactly(raw: seq<PlanData>, i: nat)
    requires i < |raw|
    ensures (exists p :: p in Valid(raw) && Gives(raw[i], p)) <==>
      raw[i].level.Some? && raw[i].entitlement.Some? && !LevelShared(raw, i)
  {
    if p :| p in Valid(raw) && Gives(raw[i], p) {
      InCatalogIsAlone(raw, i, p);
    }
    if raw[i].level.Some? && raw[i].entitlement.Some? && !LevelShared(raw, i) {
      var p := AloneIsInCatalog(raw, i);
    }
  }
}
