/**
 Changing a paid plan: one subscription at the payment provider, mutated by calls each of which may
 fail. A pending downgrade is a schedule attached to the subscription; it is released before acting,
 and put back if the act fails. Creating a schedule is two calls: attach one, then set its phases. The
 provider refuses to attach a second one.
 */
module ChangePlan {
  import opened Wrappers
  import opened Licence
  import opened Catalog

  datatype Answer = Done | Failed | CouponRejected

  datatype Phase = Phase(price: string, start: Time)

  datatype ScheduledChange = ScheduledChange(price: string, at: Time)

  datatype Effect = Upgraded | DowngradeScheduled | DowngradeCanceled

  datatype BillingError = InvalidRequest | Internal | PromoUnavailable(amount: int, currency: string)

  datatype Response = Ok(effect: Effect, effectiveAt: Option<Time>, currentPrice: string) | Err(error: BillingError)

  function At(tape: seq<Answer>, i: nat): Answer {
    if i < |tape| then tape[i] else Failed
  }

  /** The first phase that starts at or after the cutoff. */
  function FuturePhase(phases: seq<Phase>, cutoff: Time): Option<ScheduledChange> {
    if phases == [] then None
    else if phases[0].start >= cutoff then Some(ScheduledChange(phases[0].price, phases[0].start))
    else FuturePhase(phases[1..], cutoff)
  }

  /** Nothing is pending exactly if every phase has begun; otherwise the first one yet to begin is. */
  lemma {:induction false} FuturePhaseIsFirst(phases: seq<Phase>, cutoff: Time)
    ensures FuturePhase(phases, cutoff).None? <==> forall i | 0 <= i < |phases| :: phases[i].start < cutoff
    ensures FuturePhase(phases, cutoff).Some? ==> exists i ::
      && 0 <= i < |phases| && cutoff <= phases[i].start && (forall j | 0 <= j < i :: phases[j].start < cutoff)
      && FuturePhase(phases, cutoff) == Some(ScheduledChange(phases[i].price, phases[i].start))
  {
    if phases == [] {
    } else if phases[0].start >= cutoff {
    } else {
      FuturePhaseIsFirst(phases[1..], cutoff);
      assert phases == [phases[0]] + phases[1..];
      if FuturePhase(phases[1..], cutoff).Some? {
        var i :| 0 <= i < |phases[1..]| && cutoff <= phases[1..][i].start
                 && (forall j | 0 <= j < i :: phases[1..][j].start < cutoff)
                 && FuturePhase(phases[1..], cutoff) ==
                    Some(ScheduledChange(phases[1..][i].price, phases[1..][i].start));
        assert phases[i + 1] == phases[1..][i];
        assert forall j | 0 < j < i + 1 :: phases[j] == phases[1..][j - 1];
      }
    }
  }

  /** How far the calls get: all of the first `k` succeed. */
  ghost predicate Reaches(tape: seq<Answer>, k: nat) {
    forall i: nat | i < k :: At(tape, i) == Done
  }

  /** The change fails at its first call or, once the schedule is attached, at its second; so does the restore. */
  predicate FailsTwice(first: Answer, second: Answer, third: Answer, upgrade: bool) {
    if upgrade || first != Done then
      first != Done && (second != Done || third != Done)
    else
      // the schedule got attached but not its phases: the restore is refused
      second != Done
  }

  /** With a downgrade pending and the reads and the release done (calls 0 to 4), change and restore both fail. */
  ghost predicate RestoreFails(tape: seq<Answer>, upgrade: bool) {
    Reaches(tape, 5) && FailsTwice(At(tape, 5), At(tape, 6), At(tape, 7), upgrade)
  }

  /** A request that nothing but a failing call stands in the way of. */
  predicate Sensible(hasSubscription: bool, plans: seq<Plan>, current: string, target: string, hadSchedule: bool) {
    && hasSubscription
    && FindPlan(plans, target).Some? && FindPlan(plans, current).Some?
    && (FindPlan(plans, target).value.level != FindPlan(plans, current).value.level || hadSchedule)
  }

  /** A request that is refused, rather than failed by a call: the reads before the refusal go through. */
  predicate Refused(tape: seq<Answer>, hasSubscription: bool, plans: seq<Plan>, current: string, target: string,
                    hadSchedule: bool) {
    && At(tape, 0) == Done
    && (hasSubscription ==>
          && At(tape, 1) == Done
          && (FindPlan(plans, target).Some? ==>
                && At(tape, 2) == Done
                && (FindPlan(plans, current).Some? ==>
                      FindPlan(plans, target).value.level == FindPlan(plans, current).value.level && !hadSchedule)))
  }

  /** The effect follows the order of the levels. */
  function EffectOf(plans: seq<Plan>, current: string, target: string): (effect: Effect)
    requires FindPlan(plans, target).Some? && FindPlan(plans, current).Some?
  {
    var t, c := FindPlan(plans, target).value.level, FindPlan(plans, current).value.level;
    if t > c then Upgraded else if t < c then DowngradeScheduled else DowngradeCanceled
  }

  /** Three reads, the schedule's read and release, and the change itself. */
  function CallsNeeded(effect: Effect, hadSchedule: bool): nat {
    3 + (if hadSchedule then 2 else 0) +
    match effect
    case Upgraded => 1
    case DowngradeScheduled => 2
    case DowngradeCanceled => 0
  }

  /** Among validated plans, cancelling is asked for exactly by naming the current plan. */
  lemma CancelNamesCurrent(raw: seq<PlanData>, current: string, target: string)
    requires FindPlan(Valid(raw), target).Some? && FindPlan(Valid(raw), current).Some?
    ensures EffectOf(Valid(raw), current, target) == DowngradeCanceled <==> current == target
  {
    LevelIdentifiesPlan(raw, FindPlan(Valid(raw), target).value, FindPlan(Valid(raw), current).value);
  }

  class PlanChanger {
    var price: string
    var schedule: Option<seq<Phase>>
    var trialing: bool
    var discount: Option<string>
    var tape: seq<Answer>
    const periodStart: Time
    const periodEnd: Time
    const hasSubscription: bool

    constructor (price: string, schedule: Option<seq<Phase>>, trialing: bool, discount: Option<string>,
                 tape: seq<Answer>, periodStart: Time, periodEnd: Time, hasSubscription: bool)
      ensures this.price == price && this.schedule == schedule && this.trialing == trialing
      ensures this.discount == discount && this.tape == tape
      ensures this.periodStart == periodStart && this.periodEnd == periodEnd && this.hasSubscription == hasSubscription
    {
      this.price, this.schedule, this.trialing, this.discount, this.tape := price, schedule, trialing, discount, tape;
      this.periodStart, this.periodEnd, this.hasSubscription := periodStart, periodEnd, hasSubscription;
    }

    /** The change the provider will make at a later time, as a reader of the schedule sees it. */
    function Pending(): Option<ScheduledChange>
      reads this`schedule
    {
      match schedule
      case None => None
      case Some(phases) => FuturePhase(phases, periodEnd)
    }

    /** A pending change takes effect at the end of the period, as every change scheduled here does. */
    ghost predicate WellTimed()
      reads this`schedule
    {
      periodStart < periodEnd && (Pending().Some? ==> Pending().value.at == periodEnd)
    }

    method Call() returns (answer: Answer)
      modifies this`tape
      ensures answer == At(old(tape), 0)
      ensures forall i: nat :: At(tape, i) == At(old(tape), i + 1)
    {
      if tape == [] {
        answer := Failed;
      } else {
        answer := tape[0];
        tape := tape[1..];
      }
    }

    /** Attach a schedule seeded with the current phase, then replace its phases. */
    method ScheduleDowngrade(current: string, target: string) returns (done: bool)
      requires periodStart < periodEnd
      modifies this`schedule, this`tape
      ensures done <==> old(schedule).None? && At(old(tape), 0) == Done && At(old(tape), 1) == Done
      ensures done ==> Pending() == Some(ScheduledChange(target, periodEnd))
      ensures !done && old(schedule).None? ==> Pending() == None
      ensures !done ==> (schedule.None? <==> old(schedule).None? && At(old(tape), 0) != Done)
      ensures old(schedule).Some? ==> schedule == old(schedule)
      ensures forall i: nat ::
        At(tape, i) == At(old(tape), i + if old(schedule).None? && At(old(tape), 0) == Done then 2 else 1)
    {
      done := false;
      var created := Call();
      if created == Done && schedule.None? {
        var seed := [Phase(price, periodStart)];
        schedule := Some(seed);
        assert seed[1..] == [] && FuturePhase(seed, periodEnd) == None;
        var updated := Call();
        if updated == Done {
          var phases := [Phase(current, periodStart), Phase(target, periodEnd)];
          schedule := Some(phases);
          done := true;
          assert FuturePhase(phases, periodEnd) == FuturePhase(phases[1..], periodEnd);
        }
        assert updated == At(old(tape), 1);
      }
    }

    /** Put the released change back; a failure is only logged. */
    method RestorePending(prior: Option<ScheduledChange>) returns (done: bool)
      requires periodStart < periodEnd && Pending().None?
      modifies this`schedule, this`tape
      ensures done <==> prior.None? || (old(schedule).None? && At(old(tape), 0) == Done && At(old(tape), 1) == Done)
      ensures Pending() == if done && prior.Some? then Some(ScheduledChange(prior.value.price, periodEnd)) else None
    {
      done := true;
      if prior.Some? {
        done := ScheduleDowngrade(price, prior.value.price);
      }
    }

    /** Upgrade now, ending a trial, unless the call fails. */
    method Upgrade(target: string, coupon: Option<string>, endTrial: bool) returns (answer: Answer)
      modifies this`price, this`trialing, this`discount, this`tape
      ensures answer == Done <==> At(old(tape), 0) == Done
      ensures answer == CouponRejected <==> At(old(tape), 0) == CouponRejected && coupon.Some?
      ensures answer == Done ==> price == target && trialing == (old(trialing) && !endTrial)
      ensures discount == if answer == Done && coupon.Some? then coupon else old(discount)
      ensures answer != Done ==> price == old(price) && trialing == old(trialing)
      ensures forall i: nat :: At(tape, i) == At(old(tape), i + 1)
    {
      answer := Call();
      if answer == CouponRejected && coupon.None? {
        answer := Failed;
      }
      if answer == Done {
        price, trialing := target, trialing && !endTrial;
        discount := if coupon.Some? then coupon else discount;
      }
    }

    /** What a successful change promises about the subscription. */
    ghost predicate Kept(r: Response, target: string, oldPrice: string, oldTrialing: bool)
      requires r.Ok?
      reads this
    {
      && r.currentPrice == price
      && match r.effect
         case Upgraded => price == target && !trialing && Pending() == None && r.effectiveAt == None
         case DowngradeScheduled =>
           && price == oldPrice && trialing == oldTrialing
           && r.effectiveAt == Some(periodEnd) && Pending() == Some(ScheduledChange(target, periodEnd))
         case DowngradeCanceled =>
           && price == oldPrice && trialing == oldTrialing
           && Pending() == None && r.effectiveAt == None
    }

    /** Release the attached schedule, if any, and report the change it held. */
    method ReleaseSchedule() returns (released: bool, prior: Option<ScheduledChange>)
      modifies this`schedule, this`tape
      ensures released <==> old(schedule).None? || (At(old(tape), 0) == Done && At(old(tape), 1) == Done)
      ensures released ==> schedule.None? && prior == old(Pending())
      ensures !released ==> schedule == old(schedule)
      ensures released ==> forall i: nat :: At(tape, i) == At(old(tape), i + if old(schedule).Some? then 2 else 0)
    {
      prior := None;
      if schedule.None? { return true, None; }
      var read := Call();
      if read != Done { return false, None; }
      prior := Pending();
      var release := Call();
      assert release == At(old(tape), 1);
      released := release == Done;
      if released { schedule := None; }
    }

    /** Upgrade or schedule a downgrade, depending on the levels; on a failure, put back what was pending. */
    method Act(plan: Plan, current: Plan, coupon: Option<string>, prior: Option<ScheduledChange>) returns (r: Response)
      requires periodStart < periodEnd && schedule.None? && plan.level != current.level
      modifies this`price, this`schedule, this`trialing, this`discount, this`tape
      ensures r.Ok? <==> At(old(tape), 0) == Done && (plan.level < current.level ==> At(old(tape), 1) == Done)
      ensures r.Ok? ==> r.effect == if plan.level > current.level then Upgraded else DowngradeScheduled
      ensures r.Ok? ==> Kept(r, plan.priceId, old(price), old(trialing))
      ensures discount == if r.Ok? && r.effect == Upgraded && coupon.Some? then coupon else old(discount)
      ensures r.Err? ==> price == old(price) && trialing == old(trialing)
      ensures r.Err? ==>
        var lost := FailsTwice(At(old(tape), 0), At(old(tape), 1), At(old(tape), 2), plan.level > current.level);
        Pending() == if prior.None? || lost then None else Some(ScheduledChange(prior.value.price, periodEnd))
      // the offer is reported gone exactly if the upgrade was turned down for its coupon; other failures are internal
      ensures r.Err? ==>
        if plan.level > current.level && coupon.Some? && At(old(tape), 0) == CouponRejected
        then r.error == PromoUnavailable(plan.amount, plan.currency) else r.error == Internal
    {
      hide FuturePhase;
      if plan.level > current.level {
        var answer := Upgrade(plan.priceId, coupon, trialing);
        if answer == Done { return Ok(Upgraded, None, plan.priceId); }
        var _ := RestorePending(prior);
        return Err(if answer == CouponRejected then PromoUnavailable(plan.amount, plan.currency) else Internal);
      } else {
        var scheduled := ScheduleDowngrade(price, plan.priceId);
        if scheduled { return Ok(DowngradeScheduled, Some(periodEnd), price); }
        var _ := RestorePending(prior);
        return Err(Internal);
      }
    }

    /** Look up the reference, the catalog and the subscription; a plan that is not in the catalog is refused. */
    method Resolve(plans: seq<Plan>, target: string)
      returns (error: Option<BillingError>, plan: Option<Plan>, current: Option<Plan>)
      modifies this`tape
      ensures error.None? <==>
        Reaches(old(tape), 3) && hasSubscription && FindPlan(plans, target).Some? && FindPlan(plans, price).Some?
      ensures error.None? ==> plan == FindPlan(plans, target) && current == FindPlan(plans, price)
      ensures error.None? ==> forall i: nat :: At(tape, i) == At(old(tape), i + 3)
      ensures error.Some? ==> error.value.InvalidRequest? || error.value.Internal?
      ensures error.Some? ==>
        (error.value.InvalidRequest? <==> Refused(old(tape), hasSubscription, plans, price, target, true))
    {
      plan, current := None, None;
      var refRead := Call();
      if refRead != Done { return Some(Internal), plan, current; }
      if !hasSubscription { return Some(InvalidRequest), plan, current; }
      var catalogRead := Call();
      assert catalogRead == At(old(tape), 1);
      if catalogRead != Done { return Some(Internal), plan, current; }
      plan := FindPlan(plans, target);
      if plan.None? { return Some(InvalidRequest), plan, current; }
      var subscriptionRead := Call();
      assert subscriptionRead == At(old(tape), 2);
      if subscriptionRead != Done { return Some(Internal), plan, current; }
      current := FindPlan(plans, price);
      return if current.None? then Some(InvalidRequest) else None, plan, current;
    }

    /**
     Move to the plan sold at `target`. A failure never changes what is billed, and drops a pending
     downgrade exactly if the change was under way and the attempt to restore it failed as well.
     */
    method Change(snapshot: Snapshot, target: string, acceptFullPrice: bool, now: Time) returns (r: Response)
      requires periodStart < periodEnd
      modifies this`price, this`schedule, this`trialing, this`discount, this`tape
      // a sensible request succeeds exactly if none of its calls fails
      ensures r.Ok? <==>
        && Sensible(hasSubscription, snapshot.plans, old(price), target, old(schedule).Some?)
        && Reaches(old(tape), CallsNeeded(EffectOf(snapshot.plans, old(price), target), old(schedule).Some?))
      // success tells the truth
      ensures r.Ok? ==>
        var t, c := FindPlan(snapshot.plans, target).value.level, FindPlan(snapshot.plans, old(price)).value.level;
        (r.effect == Upgraded <==> t > c) && (r.effect == DowngradeScheduled <==> t < c)
      ensures r.Ok? ==> Kept(r, target, old(price), old(trialing))
      ensures discount ==
        if r.Ok? && r.effect == Upgraded && !acceptFullPrice && LiveCoupon(snapshot, target, now).Some?
        then LiveCoupon(snapshot, target, now) else old(discount)
      // failure leaves the bill alone
      ensures r.Err? ==> price == old(price) && trialing == old(trialing)
      ensures r.Err? && old(Pending()).None? ==> Pending().None?
      ensures r.Err? && old(Pending()).Some? ==> (Pending().None? <==>
        && Sensible(hasSubscription, snapshot.plans, old(price), target, true)
        && EffectOf(snapshot.plans, old(price), target) != DowngradeCanceled
        && RestoreFails(old(tape), EffectOf(snapshot.plans, old(price), target) == Upgraded))
      ensures r.Err? && old(Pending()).Some? && Pending().Some? ==>
        || Pending() == old(Pending())
        || Pending() == Some(ScheduledChange(old(Pending()).value.price, periodEnd))
      // each kind of failure, exactly
      ensures r == Err(InvalidRequest) <==>
        Refused(old(tape), hasSubscription, snapshot.plans, old(price), target, old(schedule).Some?)
      ensures r.Err? && r.error.PromoUnavailable? <==>
        && Sensible(hasSubscription, snapshot.plans, old(price), target, old(schedule).Some?)
        && FindPlan(snapshot.plans, target).value.level > FindPlan(snapshot.plans, old(price)).value.level
        && !acceptFullPrice && LiveCoupon(snapshot, target, now).Some?
        && Reaches(old(tape), if old(schedule).Some? then 5 else 3)
        && At(old(tape), if old(schedule).Some? then 5 else 3) == CouponRejected
      ensures r.Err? && r.error.PromoUnavailable? ==>
        var plan := FindPlan(snapshot.plans, target).value; r.error == PromoUnavailable(plan.amount, plan.currency)
      ensures old(WellTimed()) ==> WellTimed()
    {
      hide LiveCoupon, FindPlan, FuturePhase;
      var error, plan, current := Resolve(snapshot.plans, target);
      if error.Some? { return Err(error.value); }
      var hadPending := schedule.Some?;
      var released, prior := ReleaseSchedule();
      if !released { return Err(Internal); }
      if plan.value.level == current.value.level {
        return if hadPending then Ok(DowngradeCanceled, None, price) else Err(InvalidRequest);
      }
      var coupon := if acceptFullPrice then None else LiveCoupon(snapshot, target, now);
      r := Act(plan.value, current.value, coupon, prior);
    }
  }

  /**
   A pending downgrade does get lost by one failing call: with one pending, ask for another, and let the
   call that sets the new schedule's phases fail. The restore then cannot attach its schedule.
   */
  method OneFailureLosesDowngrade(a: Plan, b: Plan, c: Plan)
    returns (before: Option<ScheduledChange>, r: Response, later: Option<ScheduledChange>)
    requires a.level < b.level < c.level
    requires a.priceId != b.priceId && a.priceId != c.priceId && b.priceId != c.priceId
    ensures before == Some(ScheduledChange(a.priceId, 30)) && r.Err? && later == None
  {
    var phases := [Phase(c.priceId, 0), Phase(a.priceId, 30)];
    var tape := [Done, Done, Done, Done, Done, Done, Failed, Done, Done];
    var changer := new PlanChanger(c.priceId, Some(phases), false, None, tape, 0, 30, true);
    assert FuturePhase(phases, 30) == FuturePhase(phases[1..], 30);
    before := changer.Pending();
    var plans := [a, b, c];
    assert plans[1..] == [b, c] && plans[1..][1..] == [c];
    assert FindPlan(plans, b.priceId) == Some(b);
    assert FindPlan(plans, c.priceId) == Some(c) by {
      assert FindPlan(plans, c.priceId) == FindPlan([b, c], c.priceId) == FindPlan([c], c.priceId);
    }
    assert At(tape, 6) == Failed;
    r := changer.Change(Snapshot(plans, []), b.priceId, true, 0);
    later := changer.Pending();
  }
}
