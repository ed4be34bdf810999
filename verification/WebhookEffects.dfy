/**
 What a delivery leaves in the books, event by event: the current licence of every tenant, field by
 field, the recorded references and the ledger.
 */
module WebhookEffects {
  import opened Wrappers
  import opened Licence
  import opened Webhooks

  /** The licences and references of every tenant but `t` are as before. */
  ghost predicate OthersKept(b: Books, b': Books, t: Tenant) {
    && (forall u | u != t :: FindCurrent(b'.rows, u) == FindCurrent(b.rows, u))
    && (forall u | u != t :: (u in b'.refs <==> u in b.refs) && (u in b.refs ==> b'.refs[u] == b.refs[u]))
  }

  /** Nothing but the ledger changed. */
  ghost predicate OnlyRecorded(b: Books, b': Books, e: Event) {
    b' == b.(processed := b.processed + {e.id})
  }

  /** A redelivery of a processed event changes nothing at all, however far it gets. */
  lemma RedeliveryIsIdle(b: Books, e: Event, stop: Stop)
    requires e.id in b.processed
    ensures Attempt(b, e, stop) == b
  {
  }

  /** An attempt that goes through makes the decided writes and records the event. */
  lemma Through(b: Books, e: Event, plan: Plan)
    requires e.id !in b.processed && Decide(b, e.kind) == plan
    ensures var b2 := Commanded(Referenced(b, plan, e.kind), plan, e.kind);
      Attempt(b, e, Never) == b2.(processed := b.processed + {e.id})
  {
    hide Decide;
  }

  /** A failed payment marks the licence of the owner past due and keeps its terms. */
  lemma FailedPaymentTakesEffect(b: Books, e: Event, t: Tenant)
    requires Consistent(b) && e.id !in b.processed && e.kind.PaymentFailed? && Owns(b.refs, t, e.kind.sub)
    ensures var b' := Attempt(b, e, Never);
      var before := FindCurrent(b.rows, t);
      && (before.None? ==> FindCurrent(b'.rows, t) == None)
      && (before.Some? ==> var r := before.value;
            FindCurrent(b'.rows, t) ==
              Some(Subscription(t, PastDue, r.entitlement, r.trialExpiresAt, r.currentPeriodEnd)))
      && OthersKept(b, b', t) && b'.refs == b.refs && b'.processed == b.processed + {e.id}
  {
    OwnerIs(b.refs, t, e.kind.sub);
    Through(b, e, MarkLicence(t));
    hide FindCurrent, MarkPastDue, HasHistory, Attempt, Decide, Consistent;
    CurrentIsOwn(b.rows, t);
    forall u { CurrentAfterMark(b.rows, t, u); }
  }

  lemma CurrentIsOwn(rows: Table, t: Tenant)
    ensures FindCurrent(rows, t).Some? ==> FindCurrent(rows, t).value.tenant == t
  {
  }

  /** A deletion ends the licence of the owner. */
  lemma DeletionTakesEffect(b: Books, e: Event, t: Tenant)
    requires Consistent(b) && e.id !in b.processed && e.kind.Deleted? && Owns(b.refs, t, e.kind.sub)
    ensures var b' := Attempt(b, e, Never);
      && FindCurrent(b'.rows, t) == None
      && OthersKept(b, b', t) && b'.refs == b.refs && b'.processed == b.processed + {e.id}
  {
    OwnerIs(b.refs, t, e.kind.sub);
    Through(b, e, CancelLicence(t));
    hide FindCurrent, CancelCurrent, HasHistory, Attempt, Decide, Consistent;
    forall u { CurrentAfterCancel(b.rows, t, u); }
  }

  /** Either, for a subscription nobody owns, and every other event, is only recorded. */
  lemma UnownedIsOnlyRecorded(b: Books, e: Event)
    requires e.id !in b.processed && !e.kind.Upsert?
    requires e.kind.Deleted? || e.kind.PaymentFailed? ==> forall u :: !Owns(b.refs, u, e.kind.sub)
    ensures OnlyRecorded(b, Attempt(b, e, Never), e)
  {
  }

  /** The tenant an upsert is about: the owner of the subscription or, if there is none, the one it names. */
  ghost predicate About(b: Books, d: SubscriptionData, t: Tenant) {
    Owns(b.refs, t, d.sub) || (d.tenant == Some(t) && forall u :: !Owns(b.refs, u, d.sub))
  }

  ghost predicate HasPaid(b: Books, t: Tenant) {
    FindCurrent(b.rows, t).Some? && FindCurrent(b.rows, t).value.status in {Active, PastDue}
  }

  lemma OwnerOfAbout(b: Books, d: SubscriptionData, t: Tenant)
    requires Consistent(b) && About(b, d, t)
    ensures Owner(b.refs, d.sub) == if Owns(b.refs, t, d.sub) then Some(t) else None
  {
    if Owns(b.refs, t, d.sub) { OwnerIs(b.refs, t, d.sub); }
  }

  /** The licence of `t` has these terms, its references are those of `d`, and nobody else is touched. */
  ghost predicate Granted(b: Books, b': Books, d: SubscriptionData, t: Tenant, entitlement: Entitlement,
                          trialExpiresAt: Option<Time>)
  {
    && FindCurrent(b'.rows, t) == Some(Subscription(t, d.status(), entitlement, trialExpiresAt, d.periodEnd))
    && t in b'.refs && b'.refs[t].customer == Some(d.customer) && b'.refs[t].sub == Some(d.sub)
    && b'.refs[t].price == d.price
    && OthersKept(b, b', t)
  }

  lemma ThroughGrant(b: Books, e: Event, plan: Plan, rows': Table)
    requires e.id !in b.processed && e.kind.Upsert? && Decide(b, e.kind) == plan
    requires plan.UpdateLicence? || plan.ConvertLicence?
    requires Commanded(b, plan, e.kind).rows == rows'
    ensures Attempt(b, e, Never) == Books(RecordRef(b.refs, plan.t, e.kind.data), b.processed + {e.id}, rows')
  {
    Through(b, e, plan);
    hide Decide, Attempt, UpdateCurrent, Convert;
  }

  lemma UpdateGrants(b: Books, e: Event, t: Tenant, entitlement: Entitlement)
    requires e.id !in b.processed && e.kind.Upsert? && e.kind.data.status() != Canceled
    requires Decide(b, e.kind) == UpdateLicence(t, entitlement) && FindCurrent(b.rows, t).Some?
    ensures Granted(b, Attempt(b, e, Never), e.kind.data, t, entitlement, FindCurrent(b.rows, t).value.trialExpiresAt)
    ensures Attempt(b, e, Never).processed == b.processed + {e.id}
  {
    CurrentIsOwn(b.rows, t);
    var d, rows' := e.kind.data, UpdateCurrent(b.rows, t, e.kind.data.status(), entitlement, e.kind.data.periodEnd);
    ThroughGrant(b, e, UpdateLicence(t, entitlement), rows');
    hide FindCurrent, UpdateCurrent, HasHistory, Attempt, Decide, Commanded;
    CurrentAfterUpdate(b.rows, t, d.status(), entitlement, d.periodEnd, t);
    forall u | u != t ensures FindCurrent(rows', u) == FindCurrent(b.rows, u) {
      CurrentAfterUpdate(b.rows, t, d.status(), entitlement, d.periodEnd, u);
    }
  }

  lemma ConversionGrants(b: Books, e: Event, t: Tenant, entitlement: Entitlement)
    requires e.id !in b.processed && e.kind.Upsert? && e.kind.data.status() != Canceled
    requires Decide(b, e.kind) == ConvertLicence(t, entitlement)
    ensures Granted(b, Attempt(b, e, Never), e.kind.data, t, entitlement, None)
    ensures Attempt(b, e, Never).processed == b.processed + {e.id}
  {
    var paid := Paid(t, e.kind.data.status(), entitlement, e.kind.data.periodEnd);
    var rows' := Convert(b.rows, paid);
    ThroughGrant(b, e, ConvertLicence(t, entitlement), rows');
    hide FindCurrent, Convert, HasHistory, Attempt, Decide, Commanded;
    CurrentAfterConvert(b.rows, paid, t);
    forall u | u != t ensures FindCurrent(rows', u) == FindCurrent(b.rows, u) {
      CurrentAfterConvert(b.rows, paid, u);
    }
  }

  /**
   A subscription that is created or changed, with a status that is not canceled, gives its tenant a
   licence with the reported status and period end and the reported entitlement, or the current one if
   none is reported; its references are recorded. Nobody else is touched.
   */
  lemma UpsertTakesEffect(b: Books, e: Event, t: Tenant)
    requires Consistent(b) && e.id !in b.processed && e.kind.Upsert? && About(b, e.kind.data, t)
    requires e.kind.data.status() != Canceled && (HasPaid(b, t) || e.kind.data.entitlement.Some?)
    ensures var d := e.kind.data;
      var entitlement :=
        if d.entitlement.Some? then d.entitlement.value else FindCurrent(b.rows, t).value.entitlement;
      Granted(b, Attempt(b, e, Never), d, t, entitlement,
              if HasPaid(b, t) then FindCurrent(b.rows, t).value.trialExpiresAt else None)
    ensures Attempt(b, e, Never).processed == b.processed + {e.id}
  {
    var d := e.kind.data;
    OwnerOfAbout(b, d, t);
    hide FindCurrent, Owner, Attempt, Granted, Consistent;
    if HasPaid(b, t) {
      var current := FindCurrent(b.rows, t).value.entitlement;
      UpdateGrants(b, e, t, if d.entitlement.Some? then d.entitlement.value else current);
    } else {
      ConversionGrants(b, e, t, d.entitlement.value);
    }
  }

  /** One that reports canceled ends the licence of its owner. */
  lemma CanceledUpsertTakesEffect(b: Books, e: Event, t: Tenant)
    requires Consistent(b) && e.id !in b.processed && e.kind.Upsert? && e.kind.data.status() == Canceled
    requires Owns(b.refs, t, e.kind.data.sub)
    ensures var b' := Attempt(b, e, Never);
      && FindCurrent(b'.rows, t) == None
      && OthersKept(b, b', t) && b'.refs == b.refs && b'.processed == b.processed + {e.id}
  {
    OwnerIs(b.refs, t, e.kind.data.sub);
    Through(b, e, CancelLicence(t));
    hide FindCurrent, CancelCurrent, HasHistory, Attempt, Decide, Consistent;
    forall u { CurrentAfterCancel(b.rows, t, u); }
  }

  /**
   An upsert is only recorded if it is about nobody, reports canceled for a subscription nobody owns, or
   would grant a licence without saying what it entitles to.
   */
  lemma DeclinedIsOnlyRecorded(b: Books, e: Event)
    requires Consistent(b) && e.id !in b.processed && e.kind.Upsert?
    requires var d := e.kind.data;
      || (forall t :: !About(b, d, t))
      || (d.status() == Canceled && forall u :: !Owns(b.refs, u, d.sub))
      || (d.status() != Canceled && d.entitlement.None? && forall t | About(b, d, t) :: !HasPaid(b, t))
    ensures OnlyRecorded(b, Attempt(b, e, Never), e)
  {
    var d := e.kind.data;
    var known := Owner(b.refs, d.sub);
    hide FindCurrent;
    if known.Some? {
      assert About(b, d, known.value);
    } else if d.tenant.Some? {
      assert About(b, d, d.tenant.value);
    }
  }
}
