/**
 Stripe webhooks driving the licence table. Events are delivered at least once and an attempt may stop
 after any of its writes; the event id is recorded last.
 */
module Webhooks {
  import opened Wrappers
  import opened Licence
  import opened Subscriptions

  // ----- What Stripe sends

  /** Stripe's subscription status; anything unknown is safe-closed to `Canceled`. */
  function MapStatus(status: string): (s: Status)
    ensures s == Active <==> status in {"active", "trialing"}
    ensures s == PastDue <==> status in {"past_due", "unpaid"}
    ensures s != Trialing
  {
    if status == "active" || status == "trialing" then Active
    else if status == "past_due" || status == "unpaid" then PastDue
    else Canceled
  }

  datatype SubscriptionData = SubscriptionData(
    tenant: Option<Tenant>,
    sub: string,
    customer: string,
    price: Option<string>,
    entitlement: Option<Entitlement>,
    stripeStatus: string,
    periodEnd: Option<Time>)
  {
    function status(): Status { MapStatus(stripeStatus) }
  }

  datatype Kind = Upsert(data: SubscriptionData) | Deleted(sub: string) | PaymentFailed(sub: string) | Other

  datatype Event = Event(id: string, kind: Kind)

  // ----- The books: provider references, processed event ids, licence rows

  datatype Ref = Ref(customer: Option<string>, sub: Option<string>, price: Option<string>)

  datatype Books = Books(refs: map<Tenant, Ref>, processed: set<string>, rows: Table)

  predicate Owns(refs: map<Tenant, Ref>, t: Tenant, sub: string) {
    t in refs && refs[t].sub == Some(sub)
  }

  /** `tenant_for_subscription`. */
  ghost function Owner(refs: map<Tenant, Ref>, sub: string): (t: Option<Tenant>)
    ensures t.Some? ==> Owns(refs, t.value, sub)
    ensures t.None? ==> forall u :: !Owns(refs, u, sub)
  {
    if exists t :: Owns(refs, t, sub) then
      var t :| Owns(refs, t, sub);
      Some(t)
    else None
  }

  ghost predicate OneOwner(refs: map<Tenant, Ref>) {
    forall t, u, sub | Owns(refs, t, sub) && Owns(refs, u, sub) :: t == u
  }

  function RecordRef(refs: map<Tenant, Ref>, t: Tenant, d: SubscriptionData): map<Tenant, Ref> {
    refs[t := Ref(Some(d.customer), Some(d.sub), d.price)]
  }

  // ----- Applying an event

  /** What an event asks of the licence, decided from the current state. */
  datatype Plan =
    | Nothing
    | CancelLicence(t: Tenant)
    | MarkLicence(t: Tenant)
    | UpdateLicence(t: Tenant, entitlement: Entitlement)
    | ConvertLicence(t: Tenant, entitlement: Entitlement)

  predicate IsPaid(current: Option<Subscription>) {
    current.Some? && (current.value.status == Active || current.value.status == PastDue)
  }

  ghost function DecideUpsert(b: Books, d: SubscriptionData): Plan {
    var known := Owner(b.refs, d.sub);
    var tenant := if known.Some? then known else d.tenant;
    if tenant.None? then Nothing
    else if d.status() == Canceled then (if known.Some? then CancelLicence(known.value) else Nothing)
    else
      var t := tenant.value;
      var current := FindCurrent(b.rows, t);
      if IsPaid(current) then
        UpdateLicence(t, if d.entitlement.Some? then d.entitlement.value else current.value.entitlement)
      else if d.entitlement.Some? then ConvertLicence(t, d.entitlement.value)
      else Nothing
  }

  ghost function Decide(b: Books, kind: Kind): Plan {
    match kind
    case Upsert(d) => DecideUpsert(b, d)
    case Deleted(sub) => (match Owner(b.refs, sub) case Some(t) => CancelLicence(t) case None => Nothing)
    case PaymentFailed(sub) => (match Owner(b.refs, sub) case Some(t) => MarkLicence(t) case None => Nothing)
    case Other => Nothing
  }

  function Referenced(b: Books, plan: Plan, kind: Kind): Books {
    if kind.Upsert? && (plan.UpdateLicence? || plan.ConvertLicence?)
    then b.(refs := RecordRef(b.refs, plan.t, kind.data)) else b
  }

  function Commanded(b: Books, plan: Plan, kind: Kind): Books {
    match plan
    case CancelLicence(t) => b.(rows := CancelCurrent(b.rows, t))
    case MarkLicence(t) => b.(rows := MarkPastDue(b.rows, t))
    case UpdateLicence(t, e) =>
      if kind.Upsert? then b.(rows := UpdateCurrent(b.rows, t, kind.data.status(), e, kind.data.periodEnd)) else b
    case ConvertLicence(t, e) =>
      if kind.Upsert? then b.(rows := Convert(b.rows, Paid(t, kind.data.status(), e, kind.data.periodEnd))) else b
    case Nothing => b
  }

  /** How far an attempt gets: which of its writes land before something fails. */
  datatype Stop = BeforeWrites | AfterRef | AfterLicence | Never

  ghost function Attempt(b: Books, e: Event, stop: Stop): Books {
    if e.id in b.processed || stop == BeforeWrites then b
    else
      var plan := Decide(b, e.kind);
      var b1 := Referenced(b, plan, e.kind);
      if stop == AfterRef then b1
      else
        var b2 := Commanded(b1, plan, e.kind);
        if stop == AfterLicence then b2 else b2.(processed := b2.processed + {e.id})
  }

  ghost function Attempts(b: Books, e: Event, stops: seq<Stop>): Books
    decreases |stops|
  {
    if stops == [] then b else Attempts(Attempt(b, e, stops[0]), e, stops[1..])
  }

  // ----- The invariants of the tables

  ghost predicate Consistent(b: Books) {
    OneLive(b.rows) && OneOwner(b.refs)
  }

  lemma OwnerIs(refs: map<Tenant, Ref>, t: Tenant, sub: string)
    requires OneOwner(refs) && Owns(refs, t, sub)
    ensures Owner(refs, sub) == Some(t)
  {
  }

  /** Recording a reference to a subscription nobody else owns keeps the owner unique. */
  lemma RecordKeepsOneOwner(refs: map<Tenant, Ref>, t: Tenant, d: SubscriptionData)
    requires OneOwner(refs) && forall u | Owns(refs, u, d.sub) :: u == t
    ensures OneOwner(RecordRef(refs, t, d)) && Owner(RecordRef(refs, t, d), d.sub) == Some(t)
  {
    var refs' := RecordRef(refs, t, d);
    assert Owns(refs', t, d.sub);
    forall u, v, sub | Owns(refs', u, sub) && Owns(refs', v, sub) ensures u == v {
      assert u != t ==> Owns(refs, u, sub);
      assert v != t ==> Owns(refs, v, sub);
    }
  }

  lemma ReferencedConsistent(b: Books, kind: Kind)
    requires Consistent(b)
    ensures Consistent(Referenced(b, Decide(b, kind), kind))
    ensures kind.Upsert? && Decide(b, kind) != Nothing && !Decide(b, kind).CancelLicence? ==>
              Owner(Referenced(b, Decide(b, kind), kind).refs, kind.data.sub) == Some(Decide(b, kind).t)
  {
    var plan := Decide(b, kind);
    if kind.Upsert? && (plan.UpdateLicence? || plan.ConvertLicence?) {
      assert forall u | Owns(b.refs, u, kind.data.sub) :: u == plan.t;
      RecordKeepsOneOwner(b.refs, plan.t, kind.data);
    }
  }

  lemma CommandedConsistent(b: Books, plan: Plan, kind: Kind)
    requires Consistent(b)
    ensures Consistent(Commanded(b, plan, kind)) && Evolves(b.rows, Commanded(b, plan, kind).rows)
  {
    match plan
    case CancelLicence(t) => CancelKeeps(b.rows, t);
    case MarkLicence(t) => MarkPastDueKeeps(b.rows, t);
    case UpdateLicence(t, e) =>
      if kind.Upsert? { UpdateKeeps(b.rows, t, kind.data.status(), e, kind.data.periodEnd); }
    case ConvertLicence(t, e) =>
      if kind.Upsert? { ConvertKeeps(b.rows, Paid(t, kind.data.status(), e, kind.data.periodEnd)); }
    case Nothing =>
  }

  lemma AttemptConsistent(b: Books, e: Event, stop: Stop)
    requires Consistent(b)
    ensures Consistent(Attempt(b, e, stop)) && Evolves(b.rows, Attempt(b, e, stop).rows)
  {
    ReferencedConsistent(b, e.kind);
    CommandedConsistent(Referenced(b, Decide(b, e.kind), e.kind), Decide(b, e.kind), e.kind);
  }

  // ----- At least once is as good as once

  /** Equal but for row positions: same references, same processed ids, same current licences. */
  ghost predicate SameView(a: Books, b: Books) {
    && a.refs == b.refs
    && a.processed == b.processed
    && forall t ::
         && FindCurrent(a.rows, t) == FindCurrent(b.rows, t)
         && (HasHistory(a.rows, t) <==> HasHistory(b.rows, t))
  }

  /** A retry after the reference was recorded decides the same thing. */
  lemma DecideAfterRef(b: Books, kind: Kind)
    requires Consistent(b)
    ensures var b1 := Referenced(b, Decide(b, kind), kind); Decide(b1, kind) == Decide(b, kind)
  {
    ReferencedConsistent(b, kind);
  }

  /** The plan a retry follows once the licence command has landed: a conversion has become an update. */
  function Retried(plan: Plan): Plan {
    if plan.ConvertLicence? then UpdateLicence(plan.t, plan.entitlement) else plan
  }

  lemma DecideAfterCommand(b: Books, kind: Kind)
    requires Consistent(b)
    ensures var plan := Decide(b, kind);
      Decide(Commanded(Referenced(b, plan, kind), plan, kind), kind) == Retried(plan)
  {
    var plan := Decide(b, kind);
    var b1 := Referenced(b, plan, kind);
    ReferencedConsistent(b, kind);
    match plan
    case UpdateLicence(t, e) =>
      CurrentAfterUpdate(b1.rows, t, kind.data.status(), e, kind.data.periodEnd, t);
    case ConvertLicence(t, e) =>
      CurrentAfterConvert(b1.rows, Paid(t, kind.data.status(), e, kind.data.periodEnd), t);
    case _ =>
  }

  /** Doing the licence command twice, the second time as the retry does it, changes no current licence. */
  lemma CommandTwice(b: Books, kind: Kind)
    requires Consistent(b)
    ensures var plan := Decide(b, kind);
      var b2 := Commanded(Referenced(b, plan, kind), plan, kind);
      SameView(Commanded(Referenced(b2, Retried(plan), kind), Retried(plan), kind), b2)
  {
    var plan := Decide(b, kind);
    var b1 := Referenced(b, plan, kind);
    var b2 := Commanded(b1, plan, kind);
    ReferencedConsistent(b, kind);
    CommandedConsistent(b1, plan, kind);
    assert Referenced(b2, Retried(plan), kind) == b2;
    hide FindCurrent, HasHistory, Commanded, Decide;
    var b3 := Commanded(b2, Retried(plan), kind);
    forall u
      ensures FindCurrent(b3.rows, u) == FindCurrent(b2.rows, u) && (HasHistory(b3.rows, u) <==> HasHistory(b2.rows, u))
    {
      RowsTwice(b1, plan, kind, u);
    }
  }

  lemma RowsTwice(b: Books, plan: Plan, kind: Kind, u: Tenant)
    requires Consistent(b)
    requires kind.Upsert? && (plan.UpdateLicence? || plan.ConvertLicence?) ==> kind.data.status() != Canceled
    ensures var rows := Commanded(b, plan, kind).rows;
      var rows' := Commanded(Commanded(b, plan, kind), Retried(plan), kind).rows;
      FindCurrent(rows', u) == FindCurrent(rows, u) && (HasHistory(rows', u) <==> HasHistory(rows, u))
  {
    hide FindCurrent, HasHistory, OneLive, OneOwner, CancelCurrent, MarkPastDue, UpdateCurrent, Convert;
    var b2 := Commanded(b, plan, kind);
    CommandedConsistent(b, plan, kind);
    match plan
    case CancelLicence(t) =>
      CurrentAfterCancel(b.rows, t, u);
      CurrentAfterCancel(b2.rows, t, u);
    case MarkLicence(t) =>
      CurrentAfterMark(b.rows, t, u);
      CurrentAfterMark(b2.rows, t, u);
    case UpdateLicence(t, e) =>
      if kind.Upsert? {
        CurrentAfterUpdate(b.rows, t, kind.data.status(), e, kind.data.periodEnd, u);
        CurrentAfterUpdate(b2.rows, t, kind.data.status(), e, kind.data.periodEnd, u);
      }
    case ConvertLicence(t, e) =>
      if kind.Upsert? {
        CurrentAfterConvert(b.rows, Paid(t, kind.data.status(), e, kind.data.periodEnd), u);
        CurrentAfterUpdate(b2.rows, t, kind.data.status(), e, kind.data.periodEnd, u);
      }
    case Nothing =>
  }

  /** One failed attempt followed by a success is one success. */
  lemma RetryEqualsOnce(b: Books, e: Event, stop: Stop)
    requires Consistent(b)
    ensures SameView(Attempt(Attempt(b, e, stop), e, Never), Attempt(b, e, Never))
  {
    hide Decide, FindCurrent, HasHistory;
    var plan := Decide(b, e.kind);
    if e.id !in b.processed {
      match stop
      case BeforeWrites =>
      case AfterRef =>
        DecideAfterRef(b, e.kind);
        assert Referenced(Referenced(b, plan, e.kind), plan, e.kind) == Referenced(b, plan, e.kind);
      case AfterLicence =>
        DecideAfterCommand(b, e.kind);
        CommandTwice(b, e.kind);
      case Never =>
    }
  }

  lemma ViewTransitive(a: Books, b: Books, c: Books)
    requires SameView(a, b) && SameView(b, c)
    ensures SameView(a, c)
  {
  }

  /**
   At least once equals once: any number of attempts that stop anywhere, followed by a success, leave
   the same references, processed ids and current licences as a single success.
   */
  lemma {:induction false} RetriesEqualOnce(b: Books, e: Event, stops: seq<Stop>)
    requires Consistent(b)
    ensures SameView(Attempt(Attempts(b, e, stops), e, Never), Attempt(b, e, Never))
    decreases |stops|
  {
    hide Attempt, SameView, Consistent;
    if stops == [] {
      RetryEqualsOnce(b, e, BeforeWrites);
      StopsBefore(b, e);
    } else {
      var b1 := Attempt(b, e, stops[0]);
      AttemptConsistent(b, e, stops[0]);
      RetriesEqualOnce(b1, e, stops[1..]);
      RetryEqualsOnce(b, e, stops[0]);
      ViewTransitive(Attempt(Attempts(b, e, stops), e, Never), Attempt(b1, e, Never), Attempt(b, e, Never));
    }
  }

  lemma StopsBefore(b: Books, e: Event)
    ensures Attempt(b, e, BeforeWrites) == b
  {
  }

  // ----- References and trials

  /**
   A recorded subscription belongs to a tenant with licence history and no running trial, so events
   that name it can only hit a paid (or ended) licence.
   */
  ghost predicate Sound(b: Books) {
    && Consistent(b)
    && forall t | t in b.refs && b.refs[t].sub.Some? :: HasHistory(b.rows, t) && !OnTrial(b.rows, t)
  }

  /** The dangerous stop: the reference is on record and the trial has not been converted yet. */
  ghost predicate StrandsTrial(b: Books, e: Event, stop: Stop) {
    && stop == AfterRef
    && e.id !in b.processed
    && e.kind.Upsert?
    && var plan := Decide(b, e.kind);
       plan.ConvertLicence? && (OnTrial(b.rows, plan.t) || !HasHistory(b.rows, plan.t))
  }

  lemma CommandSettles(b: Books, kind: Kind)
    requires Consistent(b) && kind.Upsert?
    ensures var plan := Decide(b, kind);
      plan.ConvertLicence? || plan.UpdateLicence? ==>
        var rows := Commanded(Referenced(b, plan, kind), plan, kind).rows;
        HasHistory(rows, plan.t) && !OnTrial(rows, plan.t)
  {
    var plan := Decide(b, kind);
    ReferencedConsistent(b, kind);
    if plan.ConvertLicence? {
      var paid := Paid(plan.t, kind.data.status(), plan.entitlement, kind.data.periodEnd);
      ConvertKeeps(b.rows, paid);
      NotOnTrial(Convert(b.rows, paid), plan.t);
    } else if plan.UpdateLicence? {
      UpdateKeeps(b.rows, plan.t, kind.data.status(), plan.entitlement, kind.data.periodEnd);
      CurrentAfterUpdate(b.rows, plan.t, kind.data.status(), plan.entitlement, kind.data.periodEnd, plan.t);
      NotOnTrial(UpdateCurrent(b.rows, plan.t, kind.data.status(), plan.entitlement, kind.data.periodEnd), plan.t);
    }
  }

  lemma NotOnTrial(rows: Table, t: Tenant)
    requires OneLive(rows) && FindCurrent(rows, t).Some? && FindCurrent(rows, t).value.status != Trialing
    ensures HasHistory(rows, t) && !OnTrial(rows, t)
  {
  }

  /** An attempt keeps the books sound exactly when it does not strand a trial. */
  lemma SoundUnlessStranded(b: Books, e: Event, stop: Stop)
    requires Sound(b)
    ensures Sound(Attempt(b, e, stop)) <==> !StrandsTrial(b, e, stop)
  {
    hide FindCurrent, OneLive, OneOwner;
    var b' := Attempt(b, e, stop);
    var plan := Decide(b, e.kind);
    AttemptConsistent(b, e, stop);
    if e.kind.Upsert? { CommandSettles(b, e.kind); }
    if StrandsTrial(b, e, stop) {
      assert plan.t in b'.refs && b'.refs[plan.t].sub.Some?;
    } else {
      forall t | t in b'.refs && b'.refs[t].sub.Some?
        ensures HasHistory(b'.rows, t) && !OnTrial(b'.rows, t)
      {
        if t in b.refs && b.refs[t].sub.Some? {
          HistoryKept(b.rows, b'.rows, t);
          TrialIsOver(b.rows, b'.rows, t);
        } else if stop == AfterRef {
          NotStranded(b, e.kind, t);
        }
      }
    }
  }

  lemma NotStranded(b: Books, kind: Kind, t: Tenant)
    requires Consistent(b) && kind.Upsert?
    requires var plan := Decide(b, kind);
      && (plan.UpdateLicence? || plan.ConvertLicence?) && plan.t == t
      && (plan.ConvertLicence? ==> !OnTrial(b.rows, t) && HasHistory(b.rows, t))
    ensures HasHistory(b.rows, t) && !OnTrial(b.rows, t)
  {
    if Decide(b, kind).UpdateLicence? { NotOnTrial(b.rows, t); }
  }

  /** While the books are sound, a deletion, a failed payment or a reported cancellation never touches a trial. */
  lemma TrialsUntouched(b: Books, e: Event, stop: Stop, t: Tenant)
    requires Sound(b) && OnTrial(b.rows, t)
    requires e.kind.Upsert? ==> e.kind.data.status() == Canceled
    ensures FindCurrent(Attempt(b, e, stop).rows, t) == FindCurrent(b.rows, t)
    ensures OnTrial(Attempt(b, e, stop).rows, t)
  {
    hide Decide, OnTrial, HasHistory, FindCurrent, CancelCurrent, MarkPastDue, OneLive, OneOwner, Evolves;
    var plan := Decide(b, e.kind);
    PlanIsOwned(b, e.kind);
    if plan.CancelLicence? || plan.MarkLicence? {
      CurrentAfterCancel(b.rows, plan.t, t);
      CurrentAfterMark(b.rows, plan.t, t);
    }
    TrialIsCurrent(b.rows, t);
    AttemptConsistent(b, e, stop);
    TrialFromCurrent(Attempt(b, e, stop).rows, t);
  }

  /** Events that end or mark a licence name a recorded subscription. */
  lemma PlanIsOwned(b: Books, kind: Kind)
    requires kind.Upsert? ==> kind.data.status() == Canceled
    ensures var plan := Decide(b, kind);
      && (plan.Nothing? || plan.CancelLicence? || plan.MarkLicence?)
      && (!plan.Nothing? ==> plan.t in b.refs && b.refs[plan.t].sub.Some?)
  {
  }

  lemma TrialIsCurrent(rows: Table, t: Tenant)
    requires OneLive(rows) && OnTrial(rows, t)
    ensures FindCurrent(rows, t).Some? && FindCurrent(rows, t).value.status == Trialing
  {
    var i :| 0 <= i < |rows| && Live(rows[i], t) && rows[i].status == Trialing;
    CurrentIs(rows, t, i);
  }

  lemma TrialFromCurrent(rows: Table, t: Tenant)
    requires FindCurrent(rows, t).Some? && FindCurrent(rows, t).value.status == Trialing
    ensures OnTrial(rows, t)
  {
  }

  /**
   Without that it does happen: an attempt that strands a running trial, followed by the deletion of
   the same provider subscription, cancels the trial.
   */
  lemma StrandedTrialIsCancelled(b: Books, e: Event, deletion: Event)
    requires Sound(b) && StrandsTrial(b, e, AfterRef) && OnTrial(b.rows, Decide(b, e.kind).t)
    requires deletion.kind == Deleted(e.kind.data.sub) && deletion.id !in b.processed
    ensures var t := Decide(b, e.kind).t;
      var b1 := Attempt(b, e, AfterRef);
      && OnTrial(b1.rows, t)
      && FindCurrent(Attempt(b1, deletion, Never).rows, t) == None
  {
    ReferencedConsistent(b, e.kind);
    CurrentAfterCancel(b.rows, Decide(b, e.kind).t, Decide(b, e.kind).t);
  }

  // ----- Whole runs

  datatype Op =
    | Webhook(event: Event, stop: Stop)
    | OpenTrial(tenant: Tenant, expires: Time)
    | CancelOp(tenant: Tenant)
    | Expire(policy: Policy, now: Time)
    | Customer(tenant: Tenant, customer: string)

  /** `upsert_customer` stamps the customer id and leaves the recorded subscription alone. */
  function UpsertCustomer(refs: map<Tenant, Ref>, t: Tenant, customer: string): (refs': map<Tenant, Ref>)
    ensures t in refs' && refs'[t].customer == Some(customer)
    ensures forall u, sub :: Owns(refs', u, sub) <==> Owns(refs, u, sub)
    ensures forall u | u in refs && u != t :: u in refs' && refs'[u] == refs[u]
  {
    refs[t := if t in refs then refs[t].(customer := Some(customer)) else Ref(Some(customer), None, None)]
  }

  ghost function Apply(b: Books, op: Op): Books {
    match op
    case Webhook(e, stop) => Attempt(b, e, stop)
    case OpenTrial(t, expires) => b.(rows := InsertTrial(b.rows, t, expires))
    case CancelOp(t) => b.(rows := CancelCurrent(b.rows, t))
    case Expire(p, now) => b.(rows := Expired(b.rows, now - p.trialGraceDays * DAY, now - p.paymentGraceDays * DAY))
    case Customer(t, c) => b.(refs := UpsertCustomer(b.refs, t, c))
  }

  ghost predicate Run(books: seq<Books>, ops: seq<Op>) {
    && |books| == |ops| + 1
    && forall i | 0 <= i < |ops| :: books[i + 1] == Apply(books[i], ops[i])
  }

  /** No attempt in the run stops between recording a reference and converting the trial. */
  ghost predicate NeverStrands(books: seq<Books>, ops: seq<Op>)
    requires |books| == |ops| + 1
  {
    forall i | 0 <= i < |ops| :: ops[i].Webhook? ==> !StrandsTrial(books[i], ops[i].event, ops[i].stop)
  }

  lemma ExpiredKeeps(rows: Table, trialCutoff: Time, paymentCutoff: Time)
    requires OneLive(rows)
    ensures var rows' := Expired(rows, trialCutoff, paymentCutoff); OneLive(rows') && Evolves(rows, rows')
  {
  }

  lemma RowsEvolveSound(b: Books, rows': Table)
    requires Sound(b) && Evolves(b.rows, rows') && OneLive(rows')
    ensures Sound(b.(rows := rows'))
  {
    forall t | t in b.refs && b.refs[t].sub.Some? ensures HasHistory(rows', t) && !OnTrial(rows', t) {
      HistoryKept(b.rows, rows', t);
      TrialIsOver(b.rows, rows', t);
    }
  }

  lemma CustomerSound(b: Books, t: Tenant, c: string)
    requires Sound(b)
    ensures Sound(b.(refs := UpsertCustomer(b.refs, t, c)))
  {
    var refs' := UpsertCustomer(b.refs, t, c);
    assert forall u, sub :: Owns(refs', u, sub) <==> Owns(b.refs, u, sub);
  }

  lemma ApplySound(b: Books, op: Op)
    requires Sound(b) && (op.Webhook? ==> !StrandsTrial(b, op.event, op.stop))
    ensures Sound(Apply(b, op)) && Evolves(b.rows, Apply(b, op).rows)
  {
    hide StrandsTrial, Attempt;
    match op
    case Webhook(e, stop) =>
      SoundUnlessStranded(b, e, stop);
      AttemptConsistent(b, e, stop);
    case OpenTrial(t, expires) =>
      InsertTrialKeeps(b.rows, t, expires);
      RowsEvolveSound(b, InsertTrial(b.rows, t, expires));
    case CancelOp(t) =>
      CancelKeeps(b.rows, t);
      RowsEvolveSound(b, CancelCurrent(b.rows, t));
    case Expire(p, now) =>
      ExpiredKeeps(b.rows, now - p.trialGraceDays * DAY, now - p.paymentGraceDays * DAY);
      RowsEvolveSound(b, Expired(b.rows, now - p.trialGraceDays * DAY, now - p.paymentGraceDays * DAY));
    case Customer(t, c) => CustomerSound(b, t, c);
  }

  /**
   In every such run of webhooks, trial openings, cancellations, reaper passes and checkouts, recorded
   subscriptions have one owner, and their tenants have history and are not on trial.
   */
  lemma {:induction false} AlwaysSound(books: seq<Books>, ops: seq<Op>, i: nat)
    requires Run(books, ops) && Sound(books[0]) && NeverStrands(books, ops) && i <= |ops|
    ensures Sound(books[i])
  {
    hide Sound, Apply, StrandsTrial;
    if i == 0 {
    } else {
      AlwaysSound(books, ops, i - 1);
      ApplySound(books[i - 1], ops[i - 1]);
    }
  }

  /** So no deletion, failed payment or reported cancellation in the run ever hits a running trial. */
  lemma NoTrialIsHit(books: seq<Books>, ops: seq<Op>, i: nat, t: Tenant)
    requires Run(books, ops) && Sound(books[0]) && NeverStrands(books, ops)
    requires i < |ops| && ops[i].Webhook? && OnTrial(books[i].rows, t)
    requires ops[i].event.kind.Upsert? ==> ops[i].event.kind.data.status() == Canceled
    ensures FindCurrent(books[i + 1].rows, t) == FindCurrent(books[i].rows, t)
  {
    AlwaysSound(books, ops, i);
    TrialsUntouched(books[i], ops[i].event, ops[i].stop, t);
  }
}
