/**
 Deliveries of one event that overlap. Each looks up the ledger and the owner, reads the licence,
 records the reference, commands the licence and records the event, one call per step and any of them
 failing; a conversion takes its snapshot in one step and commits in a later one. Any number of
 deliveries interleave. Once one has recorded the event, and ever after, the books show what a single
 delivery would have left.
 */
module WebhookRaces {
  import opened Wrappers
  import opened Licence
  import opened Webhooks

  datatype Delivery =
    | Arrived
    | Checked
    | Looked(known: Option<Tenant>)
    | Planned(plan: Plan)
    | Recorded(plan: Plan)
    | Snapped(plan: Plan, snapshot: set<nat>)
    | Applied
    | Over

  datatype State = State(b: Books, deliveries: map<nat, Delivery>)

  datatype Move = Move(id: nat, ok: bool)

  ghost function LookUp(b: Books, kind: Kind): Option<Tenant> {
    match kind
    case Upsert(d) => Owner(b.refs, d.sub)
    case Deleted(sub) => Owner(b.refs, sub)
    case PaymentFailed(sub) => Owner(b.refs, sub)
    case Other => None
  }

  /** The decision, from an owner looked up earlier and the licences as they are now. */
  function PlanFor(known: Option<Tenant>, rows: Table, kind: Kind): Plan {
    match kind
    case Upsert(d) =>
      var tenant := if known.Some? then known else d.tenant;
      if tenant.None? then Nothing
      else if d.status() == Canceled then (if known.Some? then CancelLicence(known.value) else Nothing)
      else
        var current := FindCurrent(rows, tenant.value);
        if IsPaid(current) then
          UpdateLicence(tenant.value, if d.entitlement.Some? then d.entitlement.value else current.value.entitlement)
        else if d.entitlement.Some? then ConvertLicence(tenant.value, d.entitlement.value)
        else Nothing
    case Deleted(_) => if known.Some? then CancelLicence(known.value) else Nothing
    case PaymentFailed(_) => if known.Some? then MarkLicence(known.value) else Nothing
    case Other => Nothing
  }

  predicate Converts(plan: Plan, kind: Kind) { plan.ConvertLicence? && kind.Upsert? }

  /** The licence a conversion grants. */
  function PaidBy(plan: Plan, kind: Kind): Subscription
    requires Converts(plan, kind)
  {
    Paid(plan.t, kind.data.status(), plan.entitlement, kind.data.periodEnd)
  }

  /** The commit of a conversion that took its snapshot earlier. */
  function Committed(b: Books, plan: Plan, snapshot: set<nat>, kind: Kind): Books {
    if Converts(plan, kind) then b.(rows := CommitPaid(b.rows, snapshot, PaidBy(plan, kind))) else b
  }

  /** One call of a delivery of `e`. */
  ghost function Step(b: Books, e: Event, d: Delivery): (Books, Delivery) {
    match d
    case Arrived => (b, if e.id in b.processed then Over else Checked)
    case Checked => (b, Looked(LookUp(b, e.kind)))
    case Looked(known) => (b, Planned(PlanFor(known, b.rows, e.kind)))
    case Planned(plan) => (Referenced(b, plan, e.kind), Recorded(plan))
    case Recorded(plan) =>
      if Converts(plan, e.kind) then (b, Snapped(plan, LiveRows(b.rows, plan.t)))
      else (Commanded(b, plan, e.kind), Applied)
    case Snapped(plan, snapshot) => (Committed(b, plan, snapshot, e.kind), Applied)
    case Applied => (b.(processed := b.processed + {e.id}), Over)
    case Over => (b, Over)
  }

  ghost predicate Next(s: State, e: Event, m: Move, s': State) {
    && m.id in s.deliveries
    && if m.ok then
         var (b, d) := Step(s.b, e, s.deliveries[m.id]);
         s' == State(b, s.deliveries[m.id := d])
       else
         s' == s.(deliveries := s.deliveries[m.id := Over])
  }

  ghost predicate Run(states: seq<State>, e: Event, moves: seq<Move>) {
    && |states| == |moves| + 1
    && forall i | 0 <= i < |moves| :: Next(states[i], e, moves[i], states[i + 1])
  }

  /** The decision of a delivery nothing comes between. */
  lemma AloneDecides(b: Books, kind: Kind)
    ensures PlanFor(LookUp(b, kind), b.rows, kind) == Decide(b, kind)
  {
  }

  /** A delivery that makes its next `k` calls with nothing in between. */
  ghost function Alone(b: Books, e: Event, d: Delivery, k: nat): (Books, Delivery)
    decreases k
  {
    if k == 0 then (b, d) else var (b', d') := Step(b, e, d); Alone(b', e, d', k - 1)
  }

  /** Which stop of an attempt it is to fail after `k` calls; a conversion takes one call more. */
  function StopAfter(k: nat, converts: bool): Stop {
    var command := if converts then 6 else 5;
    if k < 4 then BeforeWrites else if k < command then Stop.AfterRef else if k == command then AfterLicence else Never
  }

  lemma {:induction false} OverIsOver(b: Books, e: Event, k: nat)
    ensures Alone(b, e, Over, k) == (b, Over)
  {
    if k == 0 {
    } else {
      OverIsOver(b, e, k - 1);
    }
  }

  /** Nothing in between, a delivery that fails after `k` calls, or makes all of them, is an attempt. */
  lemma AloneIsAttempt(b: Books, e: Event, k: nat)
    ensures Alone(b, e, Arrived, k).0 == Attempt(b, e, StopAfter(k, Converts(Decide(b, e.kind), e.kind)))
  {
    hide Decide, PlanFor, LookUp, Referenced, Commanded, Committed;
    AloneDecides(b, e.kind);
    if k == 0 {
    } else if e.id in b.processed {
      OverIsOver(b, e, k - 1);
    } else if k >= 2 {
      assert Alone(b, e, Arrived, k) == Alone(b, e, Checked, k - 1);
      AloneWrites(b, e, k - 2);
    }
  }

  lemma AloneWrites(b: Books, e: Event, k: nat)
    ensures Alone(b, e, Looked(LookUp(b, e.kind)), k).0 ==
      var plan := PlanFor(LookUp(b, e.kind), b.rows, e.kind);
      var b1 := Referenced(b, plan, e.kind);
      var b2 := Commanded(b1, plan, e.kind);
      var command := if Converts(plan, e.kind) then 4 else 3;
      if k < 2 then b else if k < command then b1 else if k == command then b2
      else b2.(processed := b2.processed + {e.id})
  {
    hide PlanFor, LookUp, Referenced;
    var plan := PlanFor(LookUp(b, e.kind), b.rows, e.kind);
    var b1 := Referenced(b, plan, e.kind);
    if k >= 1 {
      assert Alone(b, e, Looked(LookUp(b, e.kind)), k) == Alone(b, e, Planned(plan), k - 1);
    }
    if k >= 2 {
      assert Alone(b, e, Planned(plan), k - 1) == Alone(b1, e, Recorded(plan), k - 2);
      AloneCommands(b1, e, plan, k - 2);
    }
  }

  lemma AloneCommands(b: Books, e: Event, plan: Plan, k: nat)
    ensures Alone(b, e, Recorded(plan), k).0 ==
      var b2 := Commanded(b, plan, e.kind);
      var command := if Converts(plan, e.kind) then 2 else 1;
      if k < command then b else if k == command then b2 else b2.(processed := b2.processed + {e.id})
  {
    var b2 := Commanded(b, plan, e.kind);
    var b3 := b2.(processed := b2.processed + {e.id});
    if Converts(plan, e.kind) {
      var snapshot := LiveRows(b.rows, plan.t);
      CommitUndisturbed(b.rows, PaidBy(plan, e.kind));
      assert Committed(b, plan, snapshot, e.kind) == b2;
      hide Commanded, Committed, LiveRows;
      if k >= 1 { assert Alone(b, e, Recorded(plan), k) == Alone(b, e, Snapped(plan, snapshot), k - 1); }
      if k >= 2 { assert Alone(b, e, Snapped(plan, snapshot), k - 1) == Alone(b2, e, Applied, k - 2); }
      if k >= 3 { OverIsOver(b3, e, k - 3); }
    } else {
      hide Commanded, Committed, LiveRows;
      if k >= 1 { assert Alone(b, e, Recorded(plan), k) == Alone(b2, e, Applied, k - 1); }
      if k >= 2 { OverIsOver(b3, e, k - 2); }
    }
  }

  // ----- The three shapes the books can have, starting from `b`

  ghost function AfterRef(b: Books, kind: Kind): Books { Referenced(b, Decide(b, kind), kind) }

  ghost function AfterCommand(b: Books, kind: Kind): Books {
    Commanded(AfterRef(b, kind), Decide(b, kind), kind)
  }

  /** The licence command has landed, possibly several times. */
  ghost predicate Landed(b: Books, kind: Kind, c: Books) {
    && Consistent(c)
    && c.refs == AfterCommand(b, kind).refs
    && forall t ::
         && FindCurrent(c.rows, t) == FindCurrent(AfterCommand(b, kind).rows, t)
         && (HasHistory(c.rows, t) <==> HasHistory(AfterCommand(b, kind).rows, t))
  }

  ghost predicate Fits(b: Books, e: Event, c: Books, d: Delivery) {
    var plan := Decide(b, e.kind);
    match d
    case Arrived => true
    case Checked => true
    case Looked(known) => known == LookUp(b, e.kind) || known == LookUp(AfterRef(b, e.kind), e.kind)
    case Planned(p) => p == plan || (p == Retried(plan) && Landed(b, e.kind, c))
    case Recorded(p) =>
      || (p == plan && (c == AfterRef(b, e.kind) || Landed(b, e.kind, c)))
      || (p == Retried(plan) && Landed(b, e.kind, c))
    case Snapped(p, _) => p == plan && Converts(p, e.kind) && (c == AfterRef(b, e.kind) || Landed(b, e.kind, c))
    case Applied => Landed(b, e.kind, c)
    case Over => true
  }

  ghost predicate BooksFit(b: Books, e: Event, c: Books) {
    || c == b
    || c == AfterRef(b, e.kind)
    || (Landed(b, e.kind, c) && (c.processed == b.processed || c.processed == b.processed + {e.id}))
  }

  ghost predicate Inv(b: Books, e: Event, s: State) {
    BooksFit(b, e, s.b) && forall q | q in s.deliveries :: Fits(b, e, s.b, s.deliveries[q])
  }

  // ----- Steps

  lemma AfterCommandConsistent(b: Books, kind: Kind)
    requires Consistent(b)
    ensures Consistent(AfterRef(b, kind)) && Consistent(AfterCommand(b, kind))
    ensures Landed(b, kind, AfterCommand(b, kind))
  {
    ReferencedConsistent(b, kind);
    CommandedConsistent(AfterRef(b, kind), Decide(b, kind), kind);
  }

  /** Whether the owner was looked up before or after the reference was recorded makes no difference. */
  lemma EitherLookUp(b: Books, kind: Kind, rows: Table)
    requires Consistent(b)
    ensures PlanFor(LookUp(b, kind), rows, kind) == PlanFor(LookUp(AfterRef(b, kind), kind), rows, kind)
  {
    ReferencedConsistent(b, kind);
    hide FindCurrent, Consistent;
  }

  /** A decision depends on the current licences only. */
  lemma PlanForSame(known: Option<Tenant>, rows: Table, rows': Table, kind: Kind)
    requires forall t :: FindCurrent(rows, t) == FindCurrent(rows', t)
    ensures PlanFor(known, rows, kind) == PlanFor(known, rows', kind)
  {
    hide FindCurrent;
  }

  /** Before the command the licences are as they were: the decision is the original one. */
  lemma PlansEarly(b: Books, kind: Kind, known: Option<Tenant>)
    requires Consistent(b)
    requires known == LookUp(b, kind) || known == LookUp(AfterRef(b, kind), kind)
    ensures PlanFor(known, b.rows, kind) == Decide(b, kind)
  {
    hide PlanFor, LookUp, Decide, Consistent;
    EitherLookUp(b, kind, b.rows);
    AloneDecides(b, kind);
  }

  lemma CommandKeepsRefs(b: Books, plan: Plan, kind: Kind)
    ensures Commanded(b, plan, kind).refs == b.refs
  {
  }

  lemma SameLookUp(b: Books, c: Books, kind: Kind)
    requires b.refs == c.refs
    ensures LookUp(b, kind) == LookUp(c, kind)
  {
  }

  /** After it the decision is that of a retry. */
  lemma PlansLate(b: Books, kind: Kind, known: Option<Tenant>, c: Books)
    requires Consistent(b) && Landed(b, kind, c)
    requires known == LookUp(b, kind) || known == LookUp(AfterRef(b, kind), kind)
    ensures PlanFor(known, c.rows, kind) == Retried(Decide(b, kind))
  {
    hide PlanFor, LookUp, Decide, Consistent, FindCurrent, HasHistory, Referenced, Commanded;
    var b2 := AfterCommand(b, kind);
    PlanForSame(known, c.rows, b2.rows, kind);
    EitherLookUp(b, kind, b2.rows);
    CommandKeepsRefs(AfterRef(b, kind), Decide(b, kind), kind);
    SameLookUp(AfterRef(b, kind), b2, kind);
    AloneDecides(b2, kind);
    DecideAfterCommand(b, kind);
  }

  /** Recording the reference again changes nothing. */
  lemma RefTwice(b: Books, kind: Kind, plan: Plan, c: Books)
    requires plan == Decide(b, kind) || plan == Retried(Decide(b, kind))
    requires c.refs == AfterCommand(b, kind).refs
    ensures Referenced(c, plan, kind) == c
  {
    assert AfterCommand(b, kind).refs == AfterRef(b, kind).refs;
  }

  /** Commanding the licence again, as decided before or after the first time, changes no current licence. */
  lemma CommandAgain(b: Books, kind: Kind, plan: Plan, c: Books)
    requires Consistent(b) && Landed(b, kind, c)
    requires plan == Decide(b, kind) || plan == Retried(Decide(b, kind))
    ensures Landed(b, kind, Commanded(c, plan, kind)) && Commanded(c, plan, kind).processed == c.processed
  {
    CommandedConsistent(c, plan, kind);
    ReferencedConsistent(b, kind);
    var c' := Commanded(c, plan, kind);
    assert c'.refs == c.refs;
    forall t
      ensures FindCurrent(c'.rows, t) == FindCurrent(c.rows, t) && (HasHistory(c'.rows, t) <==> HasHistory(c.rows, t))
    {
      RowsAgain(AfterRef(b, kind), kind, Decide(b, kind), plan, c, t);
    }
  }

  lemma CommitSame(first: Table, rows: Table, snapshot: set<nat>, paid: Subscription, t: Tenant)
    requires OneLive(rows) && paid.status != Trialing && paid.status != Canceled
    requires rows == first || forall u ::
      && FindCurrent(rows, u) == FindCurrent(Convert(first, paid), u)
      && (HasHistory(rows, u) <==> HasHistory(Convert(first, paid), u))
    ensures FindCurrent(CommitPaid(rows, snapshot, paid), t) == FindCurrent(Convert(first, paid), t)
    ensures HasHistory(CommitPaid(rows, snapshot, paid), t) <==> HasHistory(Convert(first, paid), t)
  {
    hide FindCurrent, HasHistory, CommitPaid, Convert, OneLive;
    CurrentAfterCommit(rows, snapshot, paid, t);
    CurrentAfterConvert(first, paid, t);
  }

  lemma ConversionFacts(b: Books, kind: Kind)
    requires Consistent(b) && Converts(Decide(b, kind), kind)
    ensures var paid := PaidBy(Decide(b, kind), kind);
      && paid.status != Canceled && paid.status != Trialing
      && AfterCommand(b, kind) == AfterRef(b, kind).(rows := Convert(AfterRef(b, kind).rows, paid))
      && Consistent(AfterRef(b, kind))
  {
    ReferencedConsistent(b, kind);
    hide FindCurrent, Convert;
  }

  /** So does a commit, whatever its snapshot saw and however often the command has landed before. */
  lemma CommitLands(b: Books, kind: Kind, snapshot: set<nat>, c: Books)
    requires Consistent(b) && Converts(Decide(b, kind), kind) && (c == AfterRef(b, kind) || Landed(b, kind, c))
    ensures Landed(b, kind, Committed(c, Decide(b, kind), snapshot, kind))
    ensures Committed(c, Decide(b, kind), snapshot, kind).processed == c.processed
  {
    ConversionFacts(b, kind);
    hide Decide, FindCurrent, HasHistory, CommitPaid, Convert, OneLive, OneOwner, Referenced, Commanded, AfterRef,
      AfterCommand, PaidBy;
    var paid := PaidBy(Decide(b, kind), kind);
    CommitIs(c, Decide(b, kind), snapshot, kind);
    CurrentAfterCommit(c.rows, snapshot, paid, paid.tenant);
    forall t
      ensures FindCurrent(CommitPaid(c.rows, snapshot, paid), t) == FindCurrent(AfterCommand(b, kind).rows, t)
      ensures HasHistory(CommitPaid(c.rows, snapshot, paid), t) <==> HasHistory(AfterCommand(b, kind).rows, t)
    {
      CommitSame(AfterRef(b, kind).rows, c.rows, snapshot, paid, t);
    }
  }

  lemma CommitIs(c: Books, plan: Plan, snapshot: set<nat>, kind: Kind)
    requires Converts(plan, kind)
    ensures Committed(c, plan, snapshot, kind) == c.(rows := CommitPaid(c.rows, snapshot, PaidBy(plan, kind)))
  {
  }

  lemma RowsAgain(b: Books, kind: Kind, first: Plan, again: Plan, c: Books, t: Tenant)
    requires again == first || again == Retried(first)
    requires kind.Upsert? && (first.UpdateLicence? || first.ConvertLicence?) ==> kind.data.status() != Canceled
    requires forall u ::
      && FindCurrent(c.rows, u) == FindCurrent(Commanded(b, first, kind).rows, u)
      && (HasHistory(c.rows, u) <==> HasHistory(Commanded(b, first, kind).rows, u))
    ensures var c' := Commanded(c, again, kind);
      FindCurrent(c'.rows, t) == FindCurrent(c.rows, t) && (HasHistory(c'.rows, t) <==> HasHistory(c.rows, t))
  {
    hide FindCurrent, HasHistory, CancelCurrent, MarkPastDue, UpdateCurrent, Convert;
    match first
    case CancelLicence(u) =>
      CurrentAfterCancel(b.rows, u, t);
      CurrentAfterCancel(c.rows, u, t);
    case MarkLicence(u) =>
      CurrentAfterMark(b.rows, u, t);
      CurrentAfterMark(c.rows, u, t);
    case UpdateLicence(u, e) =>
      if kind.Upsert? {
        CurrentAfterUpdate(b.rows, u, kind.data.status(), e, kind.data.periodEnd, t);
        CurrentAfterUpdate(c.rows, u, kind.data.status(), e, kind.data.periodEnd, t);
      }
    case ConvertLicence(u, e) =>
      if kind.Upsert? {
        var paid := Paid(u, kind.data.status(), e, kind.data.periodEnd);
        CurrentAfterConvert(b.rows, paid, t);
        CurrentAfterConvert(c.rows, paid, t);
        CurrentAfterUpdate(c.rows, u, kind.data.status(), e, kind.data.periodEnd, t);
      }
    case Nothing =>
  }

  /** How far the books can move under a step: what other deliveries know stays right. */
  ghost predicate Forward(b: Books, e: Event, c: Books, c': Books) {
    && BooksFit(b, e, c')
    && (c == AfterRef(b, e.kind) ==> c' == AfterRef(b, e.kind) || Landed(b, e.kind, c'))
    && (Landed(b, e.kind, c) ==> Landed(b, e.kind, c'))
  }

  lemma StepForward(b: Books, e: Event, c: Books, d: Delivery)
    requires Consistent(b) && e.id !in b.processed && BooksFit(b, e, c) && Fits(b, e, c, d)
    ensures var (c', d') := Step(c, e, d); Forward(b, e, c, c') && Fits(b, e, c', d')
  {
    AfterCommandConsistent(b, e.kind);
    var plan := Decide(b, e.kind);
    hide Decide, Consistent, FindCurrent, Commanded, Committed, Referenced, LiveRows;
    match d
    case Arrived =>
    case Checked => LookUpFits(b, e, c);
    case Looked(known) =>
      if Landed(b, e.kind, c) {
        PlansLate(b, e.kind, known, c);
      } else {
        PlansEarly(b, e.kind, known);
        RefKeepsRows(b, plan, e.kind);
      }
    case Planned(p) =>
      if Landed(b, e.kind, c) {
        RefTwice(b, e.kind, p, c);
      } else {
        RefIdempotent(b, plan, e.kind);
      }
    case Recorded(p) =>
      if Landed(b, e.kind, c) {
        CommandAgain(b, e.kind, p, c);
      }
    case Snapped(p, snapshot) =>
      CommitLands(b, e.kind, snapshot, c);
    case Applied =>
      Processed(b, e, c);
    case Over =>
  }

  lemma RefKeepsRows(b: Books, plan: Plan, kind: Kind)
    ensures Referenced(b, plan, kind).rows == b.rows && Referenced(b, plan, kind).processed == b.processed
  {
  }

  lemma RefIdempotent(b: Books, plan: Plan, kind: Kind)
    ensures Referenced(Referenced(b, plan, kind), plan, kind) == Referenced(b, plan, kind)
  {
  }

  lemma LookUpFits(b: Books, e: Event, c: Books)
    requires BooksFit(b, e, c)
    ensures LookUp(c, e.kind) == LookUp(b, e.kind) || LookUp(c, e.kind) == LookUp(AfterRef(b, e.kind), e.kind)
  {
    assert AfterCommand(b, e.kind).refs == AfterRef(b, e.kind).refs;
  }

  lemma Processed(b: Books, e: Event, c: Books)
    requires BooksFit(b, e, c) && Landed(b, e.kind, c)
    ensures Landed(b, e.kind, c.(processed := c.processed + {e.id}))
    ensures BooksFit(b, e, c.(processed := c.processed + {e.id}))
  {
    assert AfterRef(b, e.kind).processed == b.processed;
    assert (b.processed + {e.id}) + {e.id} == b.processed + {e.id};
  }

  lemma OthersFit(b: Books, e: Event, c: Books, c': Books, d: Delivery)
    requires Fits(b, e, c, d) && Forward(b, e, c, c')
    ensures Fits(b, e, c', d)
  {
  }

  lemma NextInv(b: Books, s: State, e: Event, m: Move, s': State)
    requires Consistent(b) && e.id !in b.processed && Inv(b, e, s) && Next(s, e, m, s')
    ensures Inv(b, e, s')
  {
    hide Fits, BooksFit, Step, Forward;
    if m.ok {
      StepForward(b, e, s.b, s.deliveries[m.id]);
      StillFits(b, e, s.b, s'.b);
      forall q | q in s'.deliveries ensures Fits(b, e, s'.b, s'.deliveries[q]) {
        if q != m.id { OthersFit(b, e, s.b, s'.b, s.deliveries[q]); }
      }
    } else {
      OverFits(b, e, s.b);
    }
  }

  lemma StillFits(b: Books, e: Event, c: Books, c': Books)
    requires Forward(b, e, c, c')
    ensures BooksFit(b, e, c')
  {
  }

  lemma OverFits(b: Books, e: Event, c: Books)
    ensures Fits(b, e, c, Over)
  {
  }

  ghost predicate AllArrived(s: State) {
    forall q | q in s.deliveries :: s.deliveries[q] == Arrived
  }

  lemma {:induction false} RunInv(states: seq<State>, e: Event, moves: seq<Move>, i: nat)
    requires Run(states, e, moves) && i <= |moves|
    requires AllArrived(states[0]) && Consistent(states[0].b) && e.id !in states[0].b.processed
    ensures Inv(states[0].b, e, states[i])
  {
    if i == 0 {
    } else {
      hide Next, Inv;
      RunInv(states, e, moves, i - 1);
      NextInv(states[0].b, states[i - 1], e, moves[i - 1], states[i]);
    }
  }

  /** Overlapping at least once equals once: with the event on record, the books are those of one success. */
  lemma OverlapEqualsOnce(states: seq<State>, e: Event, moves: seq<Move>, i: nat)
    requires Run(states, e, moves) && i <= |moves|
    requires AllArrived(states[0]) && Consistent(states[0].b) && e.id !in states[0].b.processed
    requires e.id in states[i].b.processed
    ensures SameView(states[i].b, Attempt(states[0].b, e, Never))
  {
    RunInv(states, e, moves, i);
    hide Run, Decide, FindCurrent, HasHistory, Consistent;
    var b := states[0].b;
    assert AfterRef(b, e.kind).processed == b.processed;
  }

  /** And in every state at all, the current licences are those from before or those of one success. */
  lemma NothingInBetween(states: seq<State>, e: Event, moves: seq<Move>, i: nat)
    requires Run(states, e, moves) && i <= |moves|
    requires AllArrived(states[0]) && Consistent(states[0].b) && e.id !in states[0].b.processed
    ensures
      || states[i].b.rows == states[0].b.rows
      || forall t :: FindCurrent(states[i].b.rows, t) == FindCurrent(Attempt(states[0].b, e, Never).rows, t)
  {
    RunInv(states, e, moves, i);
    hide Run, Decide, FindCurrent, HasHistory, Consistent;
    var b := states[0].b;
    assert AfterRef(b, e.kind).rows == b.rows;
  }
}
