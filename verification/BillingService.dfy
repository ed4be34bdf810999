/** `BillingService::apply_event` over the tables it writes, proved against the attempts of `Webhooks`. */
module BillingService {
  import opened Wrappers
  import opened Licence
  import opened Subscriptions
  import opened Webhooks

  ghost predicate Ended(rows: Table, rows': Table, t: Tenant) {
    FindCurrent(rows, t).Some? && FindCurrent(rows', t).None?
  }

  /** What the writes of an event, as far as they get, publish. */
  ghost function Published(b: Books, kind: Kind, stop: Stop): seq<DomainEvent> {
    var plan := Decide(b, kind);
    if plan.CancelLicence? && stop != BeforeWrites && stop != AfterRef && FindCurrent(b.rows, plan.t).Some?
    then [SubscriptionDeactivated(plan.t)] else []
  }

  /** A licence is ended by an attempt exactly if its writes publish so. */
  lemma EndedExactly(b: Books, e: Event, stop: Stop, t: Tenant)
    requires Consistent(b)
    ensures Ended(b.rows, Attempt(b, e, stop).rows, t) <==>
      e.id !in b.processed && Published(b, e.kind, stop) == [SubscriptionDeactivated(t)]
  {
    var plan, kind := Decide(b, e.kind), e.kind;
    assert kind.Upsert? && (plan.UpdateLicence? || plan.ConvertLicence?) ==> kind.data.status() != Canceled;
    assert plan.UpdateLicence? || plan.ConvertLicence? ==> kind.Upsert?;
    hide Decide, FindCurrent, HasHistory, CancelCurrent, MarkPastDue, UpdateCurrent, Convert, Consistent;
    match plan
    case Nothing =>
    case CancelLicence(u) => CurrentAfterCancel(b.rows, u, t);
    case MarkLicence(u) => CurrentAfterMark(b.rows, u, t);
    case UpdateLicence(u, x) => CurrentAfterUpdate(b.rows, u, kind.data.status(), x, kind.data.periodEnd, t);
    case ConvertLicence(u, x) => CurrentAfterConvert(b.rows, Paid(u, kind.data.status(), x, kind.data.periodEnd), t);
  }

  lemma SameTail(es: seq<DomainEvent>, a: seq<DomainEvent>, b: seq<DomainEvent>)
    ensures es + a == es + b <==> a == b
  {
    assert (es + a)[|es|..] == a && (es + b)[|es|..] == b;
  }

  class BillingService {
    /** `billing_customers` and `processed_stripe_events`. */
    var refs: map<Tenant, Ref>
    var processed: set<string>
    /** The licence aggregate behind its ports. */
    const subscriptions: SubscriptionService

    constructor (subscriptions: SubscriptionService)
      ensures this.subscriptions == subscriptions && refs == map[] && processed == {}
    {
      this.subscriptions, refs, processed := subscriptions, map[], {};
    }

    ghost function State(): Books
      reads this, subscriptions
    {
      Books(refs, processed, subscriptions.rows)
    }

    method TenantForSubscription(sub: string) returns (t: Option<Tenant>)
      requires OneOwner(refs)
      ensures t == Owner(refs, sub)
    {
      if u :| u in refs && Owns(refs, u, sub) {
        OwnerIs(refs, u, sub);
        t := Some(u);
      } else {
        t := None;
      }
    }

    /** One delivery of an event; `stop` is where this attempt fails. Reports whether it succeeded. */
    method ApplyEvent(e: Event, stop: Stop) returns (ok: bool)
      requires Consistent(State())
      modifies this, subscriptions
      ensures State() == Attempt(old(State()), e, stop) && Consistent(State())
      ensures ok == (e.id in old(processed) || stop == Never)
      ensures ok ==> e.id in processed
      // a deactivation is published exactly for a licence the delivery has ended
      ensures forall t :: Ended(old(subscriptions.rows), subscriptions.rows, t) <==>
        subscriptions.events == old(subscriptions.events) + [SubscriptionDeactivated(t)]
      ensures (forall t :: !Ended(old(subscriptions.rows), subscriptions.rows, t)) ==>
        subscriptions.events == old(subscriptions.events)
    {
      AttemptConsistent(State(), e, stop);
      ghost var published := if e.id in processed then [] else Published(State(), e.kind, stop);
      forall t ensures Ended(subscriptions.rows, Attempt(State(), e, stop).rows, t) <==>
          subscriptions.events + published == subscriptions.events + [SubscriptionDeactivated(t)]
      {
        EndedExactly(State(), e, stop, t);
        SameTail(subscriptions.events, published, [SubscriptionDeactivated(t)]);
      }
      hide Ended, Consistent;
      if e.id in processed { return true; }
      if stop == BeforeWrites { return false; }
      ok := ApplyEventKind(e.kind, stop);
      if ok { processed := processed + {e.id}; }
    }

    method ApplyEventKind(kind: Kind, stop: Stop) returns (ok: bool)
      requires Consistent(State()) && stop != BeforeWrites
      modifies this, subscriptions
      ensures ok == (stop == Never)
      ensures subscriptions.events == old(subscriptions.events) + Published(old(State()), kind, stop)
      ensures var b := old(State());
        var b1 := Referenced(b, Decide(b, kind), kind);
        State() == if stop == AfterRef then b1 else Commanded(b1, Decide(b, kind), kind)
    {
      match kind {
      case Upsert(d) =>
        ApplyUpsert(d, stop);
      case Deleted(sub) =>
        var t := TenantForSubscription(sub);
        if t.Some? && stop != AfterRef { subscriptions.Cancel(t.value); }
      case PaymentFailed(sub) =>
        var t := TenantForSubscription(sub);
        if t.Some? && stop != AfterRef { var _ := subscriptions.MarkPastDueNow(t.value); }
      case Other =>
      }
      return stop == Never;
    }

    method ApplyUpsert(d: SubscriptionData, stop: Stop)
      requires Consistent(State()) && stop != BeforeWrites
      modifies this, subscriptions
      ensures subscriptions.events == old(subscriptions.events) + Published(old(State()), Upsert(d), stop)
      ensures var b, kind := old(State()), Upsert(d);
        var b1 := Referenced(b, Decide(b, kind), kind);
        State() == if stop == AfterRef then b1 else Commanded(b1, Decide(b, kind), kind)
    {
      hide FindCurrent, CancelCurrent, UpdateCurrent, Convert, OneLive, OneOwner, Owner;
      var known := TenantForSubscription(d.sub);
      var tenant := if known.Some? then known else d.tenant;
      if tenant.None? { return; }
      var t := tenant.value;
      if d.status() == Canceled {
        if known.Some? && stop != AfterRef { subscriptions.Cancel(known.value); }
        return;
      }
      var current := FindCurrent(subscriptions.rows, t);
      if IsPaid(current) {
        var entitlement := if d.entitlement.Some? then d.entitlement.value else current.value.entitlement;
        refs := RecordRef(refs, t, d);
        if stop != AfterRef {
          var _ := subscriptions.UpdatePaid(t, d.status(), entitlement, d.periodEnd);
        }
      } else {
        if d.entitlement.None? { return; }
        refs := RecordRef(refs, t, d);
        if stop != AfterRef {
          subscriptions.ConvertTrialToPaid(t, d.status(), d.entitlement.value, d.periodEnd);
        }
      }
    }
  }
}
