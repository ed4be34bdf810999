/**
 `SubscriptionService`: the licence rules over the table, the grace-aware entitlement check and the
 reaper of overdue licences, publishing a deactivation for every licence it ends.
 */
module Subscriptions {
  import opened Wrappers
  import opened Licence

  const DAY: Time := 86400

  datatype Policy = Policy(trialDays: int, trialGraceDays: int, paymentGraceDays: int)

  datatype DomainEvent =
    | TenantCreated(tenant: Tenant)
    | TenantDeregistered(tenant: Tenant)
    | SubscriptionDeactivated(tenant: Tenant)

  predicate IsActive(p: Policy, r: Subscription, now: Time) {
    match r.status
    case Active => true
    case Trialing => r.trialExpiresAt.Some? && now < r.trialExpiresAt.value + p.trialGraceDays * DAY
    case PastDue => r.currentPeriodEnd.Some? && now < r.currentPeriodEnd.value + p.paymentGraceDays * DAY
    case Canceled => false
  }

  /** The `WHERE` of `list_overdue`; a missing date never compares. */
  predicate Overdue(r: Subscription, trialCutoff: Time, paymentCutoff: Time) {
    || (r.status == Trialing && r.trialExpiresAt.Some? && r.trialExpiresAt.value < trialCutoff)
    || (r.status == PastDue && r.currentPeriodEnd.Some? && r.currentPeriodEnd.value < paymentCutoff)
  }

  predicate OverdueAt(p: Policy, r: Subscription, now: Time) {
    Overdue(r, now - p.trialGraceDays * DAY, now - p.paymentGraceDays * DAY)
  }

  /** The date, grace included, until which a row that is not simply active keeps service. */
  function Deadline(p: Policy, r: Subscription): Option<Time> {
    match r.status
    case Trialing => (match r.trialExpiresAt case Some(t) => Some(t + p.trialGraceDays * DAY) case None => None)
    case PastDue => (match r.currentPeriodEnd case Some(c) => Some(c + p.paymentGraceDays * DAY) case None => None)
    case _ => None
  }

  /**
   The two checks meet but leave a gap: an overdue row is never active, and a live row is neither
   exactly when it has no date to go by or sits precisely on its deadline.
   */
  lemma GapBetweenChecks(p: Policy, r: Subscription, now: Time)
    ensures OverdueAt(p, r, now) ==> !IsActive(p, r, now)
    ensures r.status != Canceled && !IsActive(p, r, now) && !OverdueAt(p, r, now) <==>
            (r.status == Trialing || r.status == PastDue) && (Deadline(p, r) == None || Deadline(p, r) == Some(now))
  {
  }

  function OverdueTenants(rows: Table, trialCutoff: Time, paymentCutoff: Time): (ts: seq<Tenant>)
    ensures forall k | 0 <= k < |ts| ::
      exists i :: 0 <= i < |rows| && Overdue(rows[i], trialCutoff, paymentCutoff) && rows[i].tenant == ts[k]
    ensures forall i | 0 <= i < |rows| && Overdue(rows[i], trialCutoff, paymentCutoff) :: rows[i].tenant in ts
  {
    if rows == [] then []
    else
      var m := |rows| - 1;
      var rest := OverdueTenants(rows[..m], trialCutoff, paymentCutoff);
      if Overdue(rows[m], trialCutoff, paymentCutoff) then rest + [rows[m].tenant] else rest
  }

  ghost predicate Distinct(ts: seq<Tenant>) {
    forall i, j | 0 <= i < j < |ts| :: ts[i] != ts[j]
  }

  lemma NotListedBefore(rows: Table, trialCutoff: Time, paymentCutoff: Time)
    requires OneLive(rows) && rows != [] && Overdue(rows[|rows| - 1], trialCutoff, paymentCutoff)
    ensures rows[|rows| - 1].tenant !in OverdueTenants(rows[..|rows| - 1], trialCutoff, paymentCutoff)
  {
    var before := rows[..|rows| - 1];
    var ts := OverdueTenants(before, trialCutoff, paymentCutoff);
    forall k | 0 <= k < |ts| ensures ts[k] != rows[|rows| - 1].tenant {
      var i :| 0 <= i < |before| && Overdue(before[i], trialCutoff, paymentCutoff) && before[i].tenant == ts[k];
      assert rows[i] == before[i];
    }
  }

  /** Thanks to the one-live-row index no tenant is listed twice. */
  lemma {:induction false} ListedOnce(rows: Table, trialCutoff: Time, paymentCutoff: Time)
    requires OneLive(rows)
    ensures Distinct(OverdueTenants(rows, trialCutoff, paymentCutoff))
  {
    if rows == [] {
    } else {
      var m := |rows| - 1;
      ListedOnce(rows[..m], trialCutoff, paymentCutoff);
      if Overdue(rows[m], trialCutoff, paymentCutoff) { NotListedBefore(rows, trialCutoff, paymentCutoff); }
    }
  }

  /** The number of rows that differ between two versions of the table. */
  function Changed(rows: Table, rows': Table): nat
    requires |rows| == |rows'|
  {
    if rows == [] then 0
    else
      var m := |rows| - 1;
      Changed(rows[..m], rows'[..m]) + if rows[m] == rows'[m] then 0 else 1
  }

  function Expired(rows: Table, trialCutoff: Time, paymentCutoff: Time): (rows': Table)
    ensures |rows'| == |rows|
  {
    seq(|rows|, i requires 0 <= i < |rows| =>
      if Overdue(rows[i], trialCutoff, paymentCutoff) then rows[i].(status := Canceled) else rows[i])
  }

  /** The table after the overdue licences of the tenants in `done` have been canceled. */
  ghost function ExpiredFor(rows: Table, done: set<Tenant>, trialCutoff: Time, paymentCutoff: Time): (rows': Table)
    ensures |rows'| == |rows|
  {
    seq(|rows|, i requires 0 <= i < |rows| =>
      if Overdue(rows[i], trialCutoff, paymentCutoff) && rows[i].tenant in done then rows[i].(status := Canceled)
      else rows[i])
  }

  /** Cancelling one more listed tenant ends its overdue row and no other, since it has one live row. */
  lemma CancelNext(rows: Table, done: set<Tenant>, t: Tenant, trialCutoff: Time, paymentCutoff: Time)
    requires OneLive(rows) && t !in done && t in OverdueTenants(rows, trialCutoff, paymentCutoff)
    ensures var now := ExpiredFor(rows, done, trialCutoff, paymentCutoff);
      && FindCurrent(now, t).Some?
      && CancelCurrent(now, t) == ExpiredFor(rows, done + {t}, trialCutoff, paymentCutoff)
  {
    hide OverdueTenants;
    var now := ExpiredFor(rows, done, trialCutoff, paymentCutoff);
    var ts := OverdueTenants(rows, trialCutoff, paymentCutoff);
    var k :| 0 <= k < |ts| && ts[k] == t;
    var j :| 0 <= j < |rows| && Overdue(rows[j], trialCutoff, paymentCutoff) && rows[j].tenant == t;
    assert now[j] == rows[j];
    forall i | 0 <= i < |rows|
      ensures CancelCurrent(now, t)[i] == ExpiredFor(rows, done + {t}, trialCutoff, paymentCutoff)[i]
    {
      if rows[i].tenant == t && i != j { assert rows[i].status == Canceled; }
    }
  }

  lemma NoneListed(rows: Table, trialCutoff: Time, paymentCutoff: Time)
    ensures ExpiredFor(rows, {}, trialCutoff, paymentCutoff) == rows
  {
  }

  /** All tenants listed: that is the fully expired table. */
  lemma AllListed(rows: Table, done: set<Tenant>, trialCutoff: Time, paymentCutoff: Time)
    requires forall t | t in OverdueTenants(rows, trialCutoff, paymentCutoff) :: t in done
    ensures ExpiredFor(rows, done, trialCutoff, paymentCutoff) == Expired(rows, trialCutoff, paymentCutoff)
  {
  }

  lemma {:induction false} ChangedCounts(rows: Table, trialCutoff: Time, paymentCutoff: Time)
    ensures Changed(rows, Expired(rows, trialCutoff, paymentCutoff))
         == |OverdueTenants(rows, trialCutoff, paymentCutoff)|
  {
    if rows == [] {
    } else {
      var m := |rows| - 1;
      ChangedCounts(rows[..m], trialCutoff, paymentCutoff);
      assert Expired(rows, trialCutoff, paymentCutoff)[..m] == Expired(rows[..m], trialCutoff, paymentCutoff);
    }
  }

  function Deactivations(ts: seq<Tenant>): (es: seq<DomainEvent>)
    ensures |es| == |ts|
  {
    seq(|ts|, i requires 0 <= i < |ts| => SubscriptionDeactivated(ts[i]))
  }

  class SubscriptionService {
    var rows: Table
    /** Everything published so far. */
    var events: seq<DomainEvent>
    const policy: Policy

    constructor (rows: Table, policy: Policy)
      ensures this.rows == rows && this.policy == policy && events == []
    {
      this.rows, this.policy, this.events := rows, policy, [];
    }

    /** Open the free trial unless the tenant has any history. */
    method CreateTrial(t: Tenant, now: Time) returns (created: bool)
      modifies this`rows
      ensures created == !HasHistory(old(rows), t)
      ensures rows == InsertTrial(old(rows), t, now + policy.trialDays * DAY)
      ensures |rows| == |old(rows)| + (if created then 1 else 0) && rows[..|old(rows)|] == old(rows)
      ensures created ==> FindCurrent(rows, t).Some?
      ensures created ==>
        var r := FindCurrent(rows, t).value;
        var end := now + (policy.trialDays + policy.trialGraceDays) * 86400;
        && r.status == Trialing && r.entitlement == Entitlement(1, 1)
        && forall u: Time ::
             && (IsActive(policy, r, u) <==> u < end)
             && (OverdueAt(policy, r, u) <==> u > end)
    {
      created := !Known(rows, t);
      rows := InsertTrial(rows, t, now + policy.trialDays * DAY);
    }

    /** The single cancel path: publish exactly when a licence was actually ended. */
    method Cancel(t: Tenant)
      modifies this
      ensures rows == CancelCurrent(old(rows), t)
      ensures events == old(events) + if FindCurrent(old(rows), t).Some? then [SubscriptionDeactivated(t)] else []
      ensures FindCurrent(rows, t) == None
    {
      var live := FindCurrent(rows, t).Some?;
      rows := CancelCurrent(rows, t);
      if live { events := events + [SubscriptionDeactivated(t)]; }
      assert forall i | 0 <= i < |rows| :: !Live(rows[i], t);
    }

    /** Cancel every overdue licence and nothing else; the count is that of rows ended and events published. */
    method ExpireOverdue(now: Time) returns (n: nat)
      requires OneLive(rows)
      modifies this
      ensures OneLive(rows) && |rows| == |old(rows)|
      ensures forall i | 0 <= i < |rows| ::
        rows[i] == if OverdueAt(policy, old(rows)[i], now) then old(rows)[i].(status := Canceled) else old(rows)[i]
      ensures forall i | 0 <= i < |rows| && IsActive(policy, old(rows)[i], now) :: rows[i] == old(rows)[i]
      ensures forall i | 0 <= i < |rows| && rows[i].status != Canceled && !IsActive(policy, rows[i], now) ::
        Deadline(policy, rows[i]) == None || Deadline(policy, rows[i]) == Some(now)
      ensures n == Changed(old(rows), rows) && |events| == |old(events)| + n
      ensures events[..|old(events)|] == old(events)
      ensures forall k | |old(events)| <= k < |events| ::
        && events[k].SubscriptionDeactivated?
        && exists i :: 0 <= i < |rows| && rows[i] != old(rows)[i] && rows[i].tenant == events[k].tenant
    {
      var trialCutoff, paymentCutoff := now - policy.trialGraceDays * DAY, now - policy.paymentGraceDays * DAY;
      var ts := OverdueTenants(rows, trialCutoff, paymentCutoff);
      ListedOnce(rows, trialCutoff, paymentCutoff);
      ChangedCounts(rows, trialCutoff, paymentCutoff);
      n := |ts|;
      CancelAll(ts, trialCutoff, paymentCutoff);
      assert rows == Expired(old(rows), trialCutoff, paymentCutoff);
      forall i | 0 <= i < |rows| { GapBetweenChecks(policy, old(rows)[i], now); }
    }

    /** The loop of `expire_overdue`. */
    method CancelAll(ts: seq<Tenant>, trialCutoff: Time, paymentCutoff: Time)
      requires OneLive(rows) && Distinct(ts) && ts == OverdueTenants(rows, trialCutoff, paymentCutoff)
      modifies this
      ensures OneLive(rows) && rows == Expired(old(rows), trialCutoff, paymentCutoff)
      ensures events == old(events) + Deactivations(ts)
    {
      hide OneLive, Expired, ExpiredFor, OverdueTenants;
      ghost var done: set<Tenant> := {};
      NoneListed(rows, trialCutoff, paymentCutoff);
      for k := 0 to |ts|
        invariant rows == ExpiredFor(old(rows), done, trialCutoff, paymentCutoff) && OneLive(rows)
        invariant forall i | 0 <= i < |ts| :: ts[i] in done <==> i < k
        invariant events == old(events) + Deactivations(ts[..k])
      {
        CancelNext(old(rows), done, ts[k], trialCutoff, paymentCutoff);
        CancelKeeps(rows, ts[k]);
        Cancel(ts[k]);
        done := done + {ts[k]};
        assert Deactivations(ts[..k + 1]) == Deactivations(ts[..k]) + [SubscriptionDeactivated(ts[k])];
      }
      assert ts[..|ts|] == ts;
      AllListed(old(rows), done, trialCutoff, paymentCutoff);
    }

    // ----- The commands Billing drives

    method ConvertTrialToPaid(t: Tenant, status: Status, entitlement: Entitlement, periodEnd: Option<Time>)
      requires OneLive(rows) && status != Trialing
      modifies this`rows
      ensures rows == Convert(old(rows), Paid(t, status, entitlement, periodEnd)) && OneLive(rows)
      ensures status != Canceled ==> FindCurrent(rows, t) == Some(Subscription(t, status, entitlement, None, periodEnd))
      ensures forall u | u != t :: FindCurrent(rows, u) == FindCurrent(old(rows), u)
    {
      forall u { CurrentAfterConvert(rows, Paid(t, status, entitlement, periodEnd), u); }
      var paid := Paid(t, status, entitlement, periodEnd);
      ConvertKeeps(rows, paid);
      rows := CancelCurrent(rows, t);
      rows := InsertOrFold(rows, paid);
    }

    /** The current licence takes the reported values, or ends with them; without one there is nothing to update. */
    method UpdatePaid(t: Tenant, status: Status, entitlement: Entitlement, periodEnd: Option<Time>)
      returns (applied: bool)
      modifies this`rows
      ensures rows == UpdateCurrent(old(rows), t, status, entitlement, periodEnd)
      ensures applied <==> FindCurrent(old(rows), t).Some?
      ensures FindCurrent(rows, t) ==
        if applied && status != Canceled
        then Some(Subscription(t, status, entitlement, FindCurrent(old(rows), t).value.trialExpiresAt, periodEnd))
        else None
      ensures forall u | u != t :: FindCurrent(rows, u) == FindCurrent(old(rows), u)
      ensures OneLive(old(rows)) ==> OneLive(rows)
    {
      applied := FindCurrent(rows, t).Some?;
      UpdateOneLive(rows, t, status, entitlement, periodEnd);
      hide FindCurrent, UpdateCurrent, OneLive;
      forall u { CurrentAfterUpdate(rows, t, status, entitlement, periodEnd, u); }
      rows := UpdateCurrent(rows, t, status, entitlement, periodEnd);
    }

    /** The current licence keeps its terms and becomes past due; without one there is nothing to mark. */
    method MarkPastDueNow(t: Tenant) returns (applied: bool)
      modifies this`rows
      ensures rows == MarkPastDue(old(rows), t)
      ensures applied <==> FindCurrent(old(rows), t).Some?
      ensures FindCurrent(rows, t) ==
        if applied then Some(FindCurrent(old(rows), t).value.(status := PastDue)) else None
      ensures applied && FindCurrent(old(rows), t).value.currentPeriodEnd.Some? ==>
        var r := FindCurrent(rows, t).value;
        var end := r.currentPeriodEnd.value + policy.paymentGraceDays * 86400;
        forall u: Time ::
          && (IsActive(policy, r, u) <==> u < end)
          && (OverdueAt(policy, r, u) <==> u > end)
      ensures forall u | u != t :: FindCurrent(rows, u) == FindCurrent(old(rows), u)
      ensures OneLive(old(rows)) ==> OneLive(rows)
    {
      applied := FindCurrent(rows, t).Some?;
      forall u { CurrentAfterMark(rows, t, u); }
      rows := MarkPastDue(rows, t);
    }
  }
}
