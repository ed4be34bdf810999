/**
 Deliveries of different events that overlap, call by call and with any call failing, together with
 every other writer of the books. Between recording a reference and converting, a running trial is open
 to the events that end a licence; everywhere else it is not, in any run.
 */
module EventRaces {
  import opened Wrappers
  import opened Licence
  import opened Subscriptions
  import opened Webhooks
  import WebhookRaces

  type Delivery = WebhookRaces.Delivery

  datatype Flight = Flight(event: Event, at: Delivery)

  /** `stranded` collects the tenants whose conversion failed after the reference was recorded. */
  datatype State = State(b: Books, flights: map<nat, Flight>, stranded: set<Tenant>)

  datatype Move = Call(id: nat, ok: bool) | Other(op: Op)

  /** About to convert the licence of `t`, whose reference is on record. */
  predicate Converting(f: Flight, t: Tenant) {
    (f.at.Recorded? || f.at.Snapped?) && f.at.plan.ConvertLicence? && f.at.plan.t == t
  }

  ghost predicate Next(s: State, m: Move, s': State) {
    match m
    case Call(id, ok) =>
      && id in s.flights
      && var f := s.flights[id];
      if ok then
        var (b, at) := WebhookRaces.Step(s.b, f.event, f.at);
        s' == s.(b := b, flights := s.flights[id := f.(at := at)])
      else
        s' == s.(flights := s.flights[id := f.(at := WebhookRaces.Over)],
                 stranded := s.stranded +
                   if (f.at.Recorded? || f.at.Snapped?) && f.at.plan.ConvertLicence? then {f.at.plan.t} else {})
    case Other(op) => !op.Webhook? && s' == s.(b := Apply(s.b, op))
  }

  ghost predicate Run(states: seq<State>, moves: seq<Move>) {
    && |states| == |moves| + 1
    && forall i | 0 <= i < |moves| :: Next(states[i], moves[i], states[i + 1])
  }

  // ----- What every call guarantees to the others

  predicate HasSub(b: Books, t: Tenant) { t in b.refs && b.refs[t].sub.Some? }

  /** Has had a licence and is not on trial, for good. */
  ghost predicate PastTrial(b: Books, t: Tenant) { HasHistory(b.rows, t) && !OnTrial(b.rows, t) }

  ghost predicate Grows(b: Books, b': Books) {
    && OneLive(b'.rows) && Evolves(b.rows, b'.rows)
    && forall t | HasSub(b, t) :: HasSub(b', t)
  }

  lemma PastTrialStays(b: Books, b': Books, t: Tenant)
    requires Grows(b, b') && PastTrial(b, t)
    ensures PastTrial(b', t)
  {
    HistoryKept(b.rows, b'.rows, t);
    TrialIsOver(b.rows, b'.rows, t);
  }

  /** What a delivery with this plan may rely on. */
  ghost predicate PlanFits(b: Books, kind: Kind, plan: Plan) {
    match plan
    case Nothing => true
    case CancelLicence(t) => HasSub(b, t)
    case MarkLicence(t) => HasSub(b, t)
    case UpdateLicence(t, _) => kind.Upsert? && kind.data.status() != Canceled && PastTrial(b, t)
    case ConvertLicence(_, _) => kind.Upsert? && kind.data.status() != Canceled
  }

  ghost predicate Fits(b: Books, f: Flight) {
    match f.at
    case Looked(known) => known.Some? ==> HasSub(b, known.value)
    case Planned(plan) => PlanFits(b, f.event.kind, plan)
    case Recorded(plan) => PlanFits(b, f.event.kind, plan)
    case Snapped(plan, _) => PlanFits(b, f.event.kind, plan) && plan.ConvertLicence?
    case _ => true
  }

  lemma FitsStays(b: Books, b': Books, f: Flight)
    requires Grows(b, b') && Fits(b, f)
    ensures Fits(b', f)
  {
    if (f.at.Planned? || f.at.Recorded?) && f.at.plan.UpdateLicence? {
      PastTrialStays(b, b', f.at.plan.t);
    }
  }

  lemma EvolvesSame(rows: Table)
    ensures Evolves(rows, rows)
  {
  }

  lemma CommandGrows(b: Books, kind: Kind, plan: Plan)
    requires OneLive(b.rows) && PlanFits(b, kind, plan) && !plan.ConvertLicence?
    ensures Grows(b, Commanded(b, plan, kind))
  {
    EvolvesSame(b.rows);
    hide Evolves, OneLive, CancelCurrent, MarkPastDue, UpdateCurrent, FindCurrent;
    match plan
    case Nothing =>
    case CancelLicence(t) => CancelKeeps(b.rows, t);
    case MarkLicence(t) => MarkPastDueKeeps(b.rows, t);
    case UpdateLicence(t, e) => UpdateKeeps(b.rows, t, kind.data.status(), e, kind.data.periodEnd);
  }

  /** A conversion that lands takes its tenant past its trial. */
  lemma CommitGrows(b: Books, kind: Kind, plan: Plan, snapshot: set<nat>)
    requires OneLive(b.rows) && PlanFits(b, kind, plan) && plan.ConvertLicence?
    ensures Grows(b, WebhookRaces.Committed(b, plan, snapshot, kind))
    ensures PastTrial(WebhookRaces.Committed(b, plan, snapshot, kind), plan.t)
  {
    var paid := WebhookRaces.PaidBy(plan, kind);
    hide Evolves, OneLive, CommitPaid, FindCurrent, HasHistory, OnTrial;
    CurrentAfterCommit(b.rows, snapshot, paid, plan.t);
    NotOnTrial(CommitPaid(b.rows, snapshot, paid), plan.t);
  }

  lemma PlanForFits(b: Books, kind: Kind, known: Option<Tenant>)
    requires OneLive(b.rows) && (known.Some? ==> HasSub(b, known.value))
    ensures PlanFits(b, kind, WebhookRaces.PlanFor(known, b.rows, kind))
  {
    var plan := WebhookRaces.PlanFor(known, b.rows, kind);
    if plan.UpdateLicence? { NotOnTrial(b.rows, plan.t); }
  }

  lemma LookUpFits(b: Books, kind: Kind)
    ensures var known := WebhookRaces.LookUp(b, kind); known.Some? ==> HasSub(b, known.value)
  {
  }

  lemma StepGrows(b: Books, f: Flight)
    requires OneLive(b.rows) && Fits(b, f)
    ensures var (b', at) := WebhookRaces.Step(b, f.event, f.at); Grows(b, b') && Fits(b', f.(at := at))
  {
    EvolvesSame(b.rows);
    hide Evolves, OneLive, FindCurrent, HasHistory, OnTrial, Commanded, LiveRows, WebhookRaces.Committed,
      WebhookRaces.PlanFor, WebhookRaces.LookUp;
    match f.at
    case Checked => LookUpFits(b, f.event.kind);
    case Looked(known) => PlanForFits(b, f.event.kind, known);
    case Recorded(plan) => if !plan.ConvertLicence? { CommandGrows(b, f.event.kind, plan); }
    case Snapped(plan, snapshot) => CommitGrows(b, f.event.kind, plan, snapshot);
    case _ =>
  }

  lemma OtherGrows(b: Books, op: Op)
    requires OneLive(b.rows) && !op.Webhook?
    ensures Grows(b, Apply(b, op))
    ensures forall t :: HasSub(Apply(b, op), t) <==> HasSub(b, t)
  {
    EvolvesSame(b.rows);
    hide Evolves, OneLive, Expired, CancelCurrent, InsertTrial;
    match op
    case OpenTrial(t, expires) => InsertTrialKeeps(b.rows, t, expires);
    case CancelOp(t) => CancelKeeps(b.rows, t);
    case Expire(p, now) => ExpiredKeeps(b.rows, now - p.trialGraceDays * DAY, now - p.paymentGraceDays * DAY);
    case Customer(_, _) =>
  }

  // ----- The invariant

  /** Somebody has recorded a reference for `t` and has yet to convert, or failed to. */
  ghost predicate Exposed(s: State, t: Tenant) {
    t in s.stranded || exists q :: q in s.flights && Converting(s.flights[q], t)
  }

  ghost predicate Inv(s: State) {
    && OneLive(s.b.rows)
    && (forall q | q in s.flights :: Fits(s.b, s.flights[q]))
    && (forall t | HasSub(s.b, t) :: PastTrial(s.b, t) || Exposed(s, t))
  }

  /** A new reference comes with a tenant past its trial or with a conversion to follow. */
  lemma NewRef(b: Books, f: Flight, t: Tenant)
    requires OneLive(b.rows) && Fits(b, f)
    requires var (b', at) := WebhookRaces.Step(b, f.event, f.at); HasSub(b', t) && !HasSub(b, t)
    ensures var (b', at) := WebhookRaces.Step(b, f.event, f.at); PastTrial(b', t) || Converting(f.(at := at), t)
  {
    hide FindCurrent, HasHistory, OnTrial;
  }

  lemma NextCallInv(s: State, m: Move, s': State, t: Tenant)
    requires Inv(s) && Next(s, m, s') && m.Call? && m.ok && HasSub(s'.b, t)
    ensures PastTrial(s'.b, t) || Exposed(s', t)
  {
    var f := s.flights[m.id];
    StepGrows(s.b, f);
    if !HasSub(s.b, t) {
      NewRef(s.b, f, t);
      assert m.id in s'.flights;
    } else if PastTrial(s.b, t) {
      PastTrialStays(s.b, s'.b, t);
    } else if Converting(f, t) && f.at.Snapped? {
      CommitGrows(s.b, f.event.kind, f.at.plan, f.at.snapshot);
    } else if Converting(f, t) {
      assert m.id in s'.flights && Converting(s'.flights[m.id], t);
    } else if t !in s.stranded {
      hide PastTrial, HasSub, Fits, WebhookRaces.Step;
      var q :| q in s.flights && Converting(s.flights[q], t);
      assert q in s'.flights && s'.flights[q] == s.flights[q];
    }
  }

  lemma NextFits(s: State, m: Move, s': State)
    requires Inv(s) && Next(s, m, s')
    ensures OneLive(s'.b.rows) && forall q | q in s'.flights :: Fits(s'.b, s'.flights[q])
    ensures Grows(s.b, s'.b)
  {
    EvolvesSame(s.b.rows);
    hide Evolves, OneLive, HasSub, WebhookRaces.Step;
    if m.Other? {
      OtherGrows(s.b, m.op);
    } else if m.ok {
      StepGrows(s.b, s.flights[m.id]);
    }
    hide Grows, Fits, Apply;
    GrowsOneLive(s.b, s'.b);
    forall q | q in s'.flights ensures Fits(s'.b, s'.flights[q]) {
      if m.Other? || q != m.id {
        FitsStays(s.b, s'.b, s.flights[q]);
      } else if !m.ok {
        OverFits(s'.b, s'.flights[q]);
      }
    }
  }

  lemma GrowsOneLive(b: Books, b': Books)
    requires Grows(b, b')
    ensures OneLive(b'.rows)
  {
  }

  lemma OverFits(b: Books, f: Flight)
    requires f.at == WebhookRaces.Over
    ensures Fits(b, f)
  {
  }

  lemma NextInv(s: State, m: Move, s': State)
    requires Inv(s) && Next(s, m, s')
    ensures Inv(s')
  {
    NextFits(s, m, s');
    forall t | HasSub(s'.b, t) ensures PastTrial(s'.b, t) || Exposed(s', t) {
      if m.Call? && m.ok {
        NextCallInv(s, m, s', t);
      } else {
        StaysExposed(s, m, s', t);
      }
    }
  }

  lemma StaysExposed(s: State, m: Move, s': State, t: Tenant)
    requires Inv(s) && Next(s, m, s') && !(m.Call? && m.ok) && HasSub(s'.b, t)
    ensures PastTrial(s'.b, t) || Exposed(s', t)
  {
    if m.Other? { OtherGrows(s.b, m.op); }
    hide Apply, Evolves, OneLive, Fits;
    if PastTrial(s.b, t) {
      if m.Other? { PastTrialStays(s.b, s'.b, t); }
    } else if t !in s.stranded {
      var q :| q in s.flights && Converting(s.flights[q], t);
      assert q in s'.flights;
      assert s'.flights[q] == s.flights[q] || t in s'.stranded;
    }
  }

  /** Where runs begin: sound books, and every delivery about to make its first call. */
  ghost predicate Initial(s: State) {
    Sound(s.b) && s.stranded == {} && forall q | q in s.flights :: s.flights[q].at == WebhookRaces.Arrived
  }

  lemma {:induction false} RunInv(states: seq<State>, moves: seq<Move>, i: nat)
    requires Run(states, moves) && Initial(states[0]) && i <= |moves|
    ensures Inv(states[i])
  {
    if i == 0 {
    } else {
      hide Next, Inv;
      RunInv(states, moves, i - 1);
      NextInv(states[i - 1], moves[i - 1], states[i]);
    }
  }

  // ----- Running trials

  /** The call ends or marks the licence of `t`. */
  predicate Ends(f: Flight, t: Tenant) {
    f.at.Recorded? && (f.at.plan == CancelLicence(t) || f.at.plan == MarkLicence(t))
  }

  /**
   In every run, a call that ends or marks the licence of a tenant meets a running trial only if a
   delivery has recorded a reference for that tenant and has yet to convert, or failed to.
   */
  lemma TrialHitOnlyIfExposed(states: seq<State>, moves: seq<Move>, i: nat, t: Tenant)
    requires Run(states, moves) && Initial(states[0]) && i < |moves|
    requires moves[i].Call? && moves[i].ok && moves[i].id in states[i].flights
    requires Ends(states[i].flights[moves[i].id], t) && OnTrial(states[i].b.rows, t)
    ensures Exposed(states[i], t)
  {
    RunInv(states, moves, i);
    assert Fits(states[i].b, states[i].flights[moves[i].id]);
  }

  /** And no other call of a delivery ends or marks any running trial, but for converting it. */
  lemma OnlyEndingCallsHit(s: State, m: Move, s': State, t: Tenant)
    requires Inv(s) && Next(s, m, s') && m.Call? && OnTrial(s.b.rows, t)
    requires m.ok ==> !Ends(s.flights[m.id], t) && !Converting(s.flights[m.id], t)
    ensures FindCurrent(s'.b.rows, t) == FindCurrent(s.b.rows, t)
  {
    var f := s.flights[m.id];
    if m.ok && f.at.Recorded? {
      assert Fits(s.b, f);
      hide FindCurrent, CancelCurrent, MarkPastDue, UpdateCurrent, Convert;
      match f.at.plan
      case Nothing =>
      case CancelLicence(u) => CurrentAfterCancel(s.b.rows, u, t);
      case MarkLicence(u) => CurrentAfterMark(s.b.rows, u, t);
      case UpdateLicence(u, e) =>
        CurrentAfterUpdate(s.b.rows, u, f.event.kind.data.status(), e, f.event.kind.data.periodEnd, t);
      case ConvertLicence(_, _) =>
    } else if m.ok && f.at.Snapped? {
      assert Fits(s.b, f);
      hide FindCurrent, CommitPaid;
      CurrentAfterCommit(s.b.rows, f.at.snapshot, WebhookRaces.PaidBy(f.at.plan, f.event.kind), t);
    }
  }

  // ----- An exposed trial is hit, with no failing call

  ghost predicate NoneFails(moves: seq<Move>) {
    forall i | 0 <= i < |moves| :: moves[i].Call? && moves[i].ok
  }

  /** Let delivery `id` make its next `k` calls. */
  lemma {:induction false} Continue(states: seq<State>, moves: seq<Move>, id: nat, k: nat)
    returns (states': seq<State>, moves': seq<Move>)
    requires Run(states, moves) && id in states[|moves|].flights
    ensures Run(states', moves') && |moves'| == |moves| + k
    ensures forall i | 0 <= i < |states| :: states'[i] == states[i]
    ensures NoneFails(moves) ==> NoneFails(moves')
    ensures var s := states[|moves|];
      var (b, at) := WebhookRaces.Alone(s.b, s.flights[id].event, s.flights[id].at, k);
      states'[|moves'|] == s.(b := b, flights := s.flights[id := s.flights[id].(at := at)])
    decreases k
  {
    var s := states[|moves|];
    var f := s.flights[id];
    if k == 0 {
      states', moves' := states, moves;
      assert s.flights[id := f] == s.flights;
    } else {
      hide WebhookRaces.Step;
      var (b, at) := WebhookRaces.Step(s.b, f.event, f.at);
      var s1 := s.(b := b, flights := s.flights[id := f.(at := at)]);
      assert Run(states + [s1], moves + [Call(id, true)]);
      states', moves' := Continue(states + [s1], moves + [Call(id, true)], id, k - 1);
      assert forall i | 0 <= i < |states| :: (states + [s1])[i] == states[i];
      assert s1.flights[id := f.(at := at)] == s1.flights;
    }
  }

  /** Two deliveries: `k` calls of the first, then `k'` of the second, then `k''` more of the first. */
  lemma ThreeParts(b: Books, e: Event, e': Event, k: nat, k': nat, k'': nat)
    returns (states: seq<State>, moves: seq<Move>)
    requires Sound(b)
    ensures Run(states, moves) && Initial(states[0]) && states[0].b == b && NoneFails(moves) && |moves| == k + k' + k''
    ensures var (b1, d1) := WebhookRaces.Alone(b, e, WebhookRaces.Arrived, k);
      var b2 := WebhookRaces.Alone(b1, e', WebhookRaces.Arrived, k').0;
      && states[k].b == b1 && states[k + k'].b == b2
      && states[k + k' + k''].b == WebhookRaces.Alone(b2, e, d1, k'').0
  {
    var f, f' := Flight(e, WebhookRaces.Arrived), Flight(e', WebhookRaces.Arrived);
    var s0 := State(b, map[0 := f, 1 := f'], {});
    assert Initial(s0) && Run([s0], []) && NoneFails([]);
    hide Sound, WebhookRaces.Alone, Initial, NoneFails;
    states, moves := Continue([s0], [], 0, k);
    states, moves := Continue(states, moves, 1, k');
    states, moves := Continue(states, moves, 0, k'');
  }

  lemma FourCalls(b: Books, up: Event, plan: Plan)
    requires up.id !in b.processed && WebhookRaces.PlanFor(WebhookRaces.LookUp(b, up.kind), b.rows, up.kind) == plan
    ensures WebhookRaces.Alone(b, up, WebhookRaces.Arrived, 3) == (b, WebhookRaces.Planned(plan))
    ensures WebhookRaces.Alone(b, up, WebhookRaces.Arrived, 4) ==
      (Referenced(b, plan, up.kind), WebhookRaces.Recorded(plan))
  {
    hide WebhookRaces.PlanFor, WebhookRaces.LookUp, Referenced;
    var known := WebhookRaces.LookUp(b, up.kind);
    forall k: nat
      ensures WebhookRaces.Alone(b, up, WebhookRaces.Arrived, k + 3) ==
        WebhookRaces.Alone(b, up, WebhookRaces.Planned(plan), k)
    {
      assert WebhookRaces.Alone(b, up, WebhookRaces.Arrived, k + 3) ==
        WebhookRaces.Alone(b, up, WebhookRaces.Checked, k + 2);
      assert WebhookRaces.Alone(b, up, WebhookRaces.Checked, k + 2) ==
        WebhookRaces.Alone(b, up, WebhookRaces.Looked(known), k + 1);
    }
    assert WebhookRaces.Alone(b, up, WebhookRaces.Arrived, 0 + 3) == (b, WebhookRaces.Planned(plan));
    assert WebhookRaces.Alone(b, up, WebhookRaces.Arrived, 1 + 3) ==
      (Referenced(b, plan, up.kind), WebhookRaces.Recorded(plan));
  }

  /** What the three parts of such a run do to the books. */
  lemma HitsExposed(b: Books, up: Event, del: Event, t: Tenant)
    requires Sound(b) && OnTrial(b.rows, t) && up.id !in b.processed && del.id !in b.processed
    requires up.kind.Upsert? && del.kind == Deleted(up.kind.data.sub) && Owner(b.refs, up.kind.data.sub) == None
    requires var d := up.kind.data; d.tenant == Some(t) && d.status() != Canceled && d.entitlement.Some?
    ensures var plan := ConvertLicence(t, up.kind.data.entitlement.value);
      var b1 := Referenced(b, plan, up.kind);
      var b2 := Attempt(b1, del, Never);
      && WebhookRaces.Alone(b, up, WebhookRaces.Arrived, 4) == (b1, WebhookRaces.Recorded(plan))
      && OnTrial(b1.rows, t)
      && FindCurrent(b2.rows, t) == None
      && FindCurrent(Commanded(b2, plan, up.kind).rows, t).Some?
  {
    var d := up.kind.data;
    var plan := ConvertLicence(t, d.entitlement.value);
    TrialIsCurrent(b.rows, t);
    assert WebhookRaces.PlanFor(None, b.rows, up.kind) == plan;
    assert WebhookRaces.LookUp(b, up.kind) == None;
    var b1 := Referenced(b, plan, up.kind);
    RecordKeepsOneOwner(b.refs, t, d);
    var b2 := Attempt(b1, del, Never);
    hide FindCurrent, Sound, OnTrial, WebhookRaces.PlanFor, WebhookRaces.LookUp;
    FourCalls(b, up, plan);
    assert Decide(b1, del.kind) == CancelLicence(t);
    CurrentAfterCancel(b1.rows, t, t);
    CurrentAfterConvert(b2.rows, Paid(t, d.status(), d.entitlement.value, d.periodEnd), t);
  }

  /**
   A deletion delivered while the first event of the same subscription is between reference and
   conversion: every call succeeds, the running trial is cancelled, and the conversion then grants a
   licence for a subscription that is gone.
   */
  lemma DeletedWhileConverting(b: Books, up: Event, del: Event, t: Tenant)
    returns (states: seq<State>, moves: seq<Move>)
    requires Sound(b) && OnTrial(b.rows, t) && up.id !in b.processed && del.id !in b.processed
    requires up.kind.Upsert? && del.kind == Deleted(up.kind.data.sub) && Owner(b.refs, up.kind.data.sub) == None
    requires var d := up.kind.data; d.tenant == Some(t) && d.status() != Canceled && d.entitlement.Some?
    ensures Run(states, moves) && Initial(states[0]) && states[0].b == b && |moves| == 12
    ensures NoneFails(moves)
    ensures OnTrial(states[4].b.rows, t) && FindCurrent(states[10].b.rows, t) == None
    ensures FindCurrent(states[12].b.rows, t).Some?
  {
    HitsExposed(b, up, del, t);
    hide Sound, OnTrial, FindCurrent, Attempt, Referenced, Commanded, WebhookRaces.Alone, Run, Initial, NoneFails;
    states, moves := ThreeParts(b, up, del, 4, 6, 2);
    WebhookRaces.AloneIsAttempt(states[4].b, del, 6);
    DeletionConvertsNothing(states[4].b, del);
    WebhookRaces.AloneCommands(states[10].b, up, ConvertLicence(t, up.kind.data.entitlement.value), 2);
  }

  lemma DeletionConvertsNothing(b: Books, del: Event)
    requires del.kind.Deleted?
    ensures !WebhookRaces.Converts(Decide(b, del.kind), del.kind)
  {
  }

  // ----- One owner per subscription

  /** A call gives a subscription a second owner exactly if it records it for another tenant than its owner. */
  lemma SecondOwnerExactly(b: Books, f: Flight)
    requires OneOwner(b.refs)
    ensures !OneOwner(WebhookRaces.Step(b, f.event, f.at).0.refs) <==>
      && f.at.Planned? && f.event.kind.Upsert? && (f.at.plan.UpdateLicence? || f.at.plan.ConvertLicence?)
      && exists u :: u != f.at.plan.t && Owns(b.refs, u, f.event.kind.data.sub)
  {
    if f.at.Planned? && f.event.kind.Upsert? && (f.at.plan.UpdateLicence? || f.at.plan.ConvertLicence?) {
      var d, t := f.event.kind.data, f.at.plan.t;
      var refs' := RecordRef(b.refs, t, d);
      if u :| u != t && Owns(b.refs, u, d.sub) {
        assert Owns(refs', u, d.sub) && Owns(refs', t, d.sub);
      } else {
        RecordKeepsOneOwner(b.refs, t, d);
      }
    }
  }

  function SubOf(kind: Kind): Option<string> {
    match kind
    case Upsert(d) => Some(d.sub)
    case Deleted(sub) => Some(sub)
    case PaymentFailed(sub) => Some(sub)
    case Other => None
  }

  /** Every reference, and every event in flight that names a tenant, puts a subscription with its home. */
  ghost predicate Agreed(s: State, home: string -> Tenant) {
    && (forall u, sub | Owns(s.b.refs, u, sub) :: u == home(sub))
    && forall q | q in s.flights :: FlightAgrees(s.flights[q], home)
  }

  ghost predicate FlightAgrees(f: Flight, home: string -> Tenant) {
    && (f.event.kind.Upsert? && f.event.kind.data.tenant.Some? ==>
          f.event.kind.data.tenant.value == home(f.event.kind.data.sub))
    && match f.at
       case Looked(known) => known.Some? && SubOf(f.event.kind).Some? ==> known.value == home(SubOf(f.event.kind).value)
       case Planned(plan) => f.event.kind.Upsert? && (plan.UpdateLicence? || plan.ConvertLicence?) ==>
         plan.t == home(f.event.kind.data.sub)
       case _ => true
  }

  lemma StepAgrees(b: Books, f: Flight, home: string -> Tenant)
    requires (forall u, sub | Owns(b.refs, u, sub) :: u == home(sub)) && FlightAgrees(f, home)
    ensures var (b', at) := WebhookRaces.Step(b, f.event, f.at);
      (forall u, sub | Owns(b'.refs, u, sub) :: u == home(sub)) && FlightAgrees(f.(at := at), home)
  {
    var (b', at) := WebhookRaces.Step(b, f.event, f.at);
    if f.at.Planned? && f.event.kind.Upsert? && (f.at.plan.UpdateLicence? || f.at.plan.ConvertLicence?) {
      var d, t := f.event.kind.data, f.at.plan.t;
      assert b'.refs == RecordRef(b.refs, t, d);
      forall u, sub | Owns(b'.refs, u, sub) ensures u == home(sub) {
        assert (u == t && sub == d.sub) || Owns(b.refs, u, sub);
      }
    } else {
      RefsStay(b, f);
    }
    PlanAgrees(b, f, home);
  }

  lemma RefsStay(b: Books, f: Flight)
    requires !(f.at.Planned? && f.event.kind.Upsert? && (f.at.plan.UpdateLicence? || f.at.plan.ConvertLicence?))
    ensures WebhookRaces.Step(b, f.event, f.at).0.refs == b.refs
  {
  }

  lemma PlanAgrees(b: Books, f: Flight, home: string -> Tenant)
    requires (forall u, sub | Owns(b.refs, u, sub) :: u == home(sub)) && FlightAgrees(f, home)
    ensures FlightAgrees(f.(at := WebhookRaces.Step(b, f.event, f.at).1), home)
  {
    hide FindCurrent;
  }

  lemma NextAgrees(s: State, m: Move, s': State, home: string -> Tenant)
    requires Agreed(s, home) && Next(s, m, s')
    ensures Agreed(s', home)
  {
    if m.Other? {
      assert forall u, sub :: Owns(s'.b.refs, u, sub) <==> Owns(s.b.refs, u, sub);
    } else if m.ok {
      StepAgrees(s.b, s.flights[m.id], home);
    }
  }

  /** In every run, if no two references or events disagree on a subscription's tenant, it has one owner. */
  lemma {:induction false} AgreedOneOwner(states: seq<State>, moves: seq<Move>, home: string -> Tenant, i: nat)
    requires Run(states, moves) && Agreed(states[0], home) && i <= |moves|
    ensures Agreed(states[i], home) && OneOwner(states[i].b.refs)
  {
    if i == 0 {
    } else {
      AgreedOneOwner(states, moves, home, i - 1);
      assert Next(states[i - 1], moves[i - 1], states[i]);
      NextAgrees(states[i - 1], moves[i - 1], states[i], home);
    }
  }

  lemma PlansToGrant(b: Books, e: Event, t: Tenant) returns (plan: Plan)
    requires e.kind.Upsert? && Owner(b.refs, e.kind.data.sub) == None && e.kind.data.tenant == Some(t)
    requires e.kind.data.status() != Canceled && e.kind.data.entitlement.Some?
    ensures plan == WebhookRaces.PlanFor(WebhookRaces.LookUp(b, e.kind), b.rows, e.kind)
    ensures (plan.UpdateLicence? || plan.ConvertLicence?) && plan.t == t
  {
    plan := WebhookRaces.PlanFor(WebhookRaces.LookUp(b, e.kind), b.rows, e.kind);
  }

  /** If they do disagree, two first events of one subscription that overlap are both recorded. */
  lemma TwoOwners(b: Books, e: Event, e': Event, t: Tenant, t': Tenant) returns (states: seq<State>, moves: seq<Move>)
    requires Sound(b) && e.id !in b.processed && e'.id !in b.processed && t != t'
    requires e.kind.Upsert? && e'.kind.Upsert? && e.kind.data.sub == e'.kind.data.sub
    requires Owner(b.refs, e.kind.data.sub) == None && e.kind.data.tenant == Some(t) && e'.kind.data.tenant == Some(t')
    requires e.kind.data.status() != Canceled && e.kind.data.entitlement.Some?
    requires e'.kind.data.status() != Canceled && e'.kind.data.entitlement.Some?
    ensures Run(states, moves) && Initial(states[0]) && states[0].b == b && |moves| == 8
    ensures Owns(states[8].b.refs, t, e.kind.data.sub) && Owns(states[8].b.refs, t', e.kind.data.sub)
  {
    var plan := PlansToGrant(b, e, t);
    var plan' := PlansToGrant(b, e', t');
    FourCalls(b, e, plan);
    FourCalls(b, e', plan');
    hide Sound, WebhookRaces.Alone, WebhookRaces.PlanFor, WebhookRaces.LookUp, Owner, Run, Initial, NoneFails;
    states, moves := ThreeParts(b, e, e', 3, 4, 1);
    Records(states[7].b, e, plan);
  }

  lemma Records(b: Books, e: Event, plan: Plan)
    ensures WebhookRaces.Alone(b, e, WebhookRaces.Planned(plan), 1).0 == Referenced(b, plan, e.kind)
  {
  }
}
