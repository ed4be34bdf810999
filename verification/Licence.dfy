/**
 The `subscriptions` table: the licence rows of all tenants, oldest first, with at most one live
 (non-canceled) row per tenant. A row is identified by its position; row ids and timestamps that no
 decision reads are left out.
 */
module Licence {
  import opened Wrappers

  type Tenant = string
  type Time = int

  datatype Status = Trialing | Active | PastDue | Canceled

  datatype Entitlement = Entitlement(maxNetworks: nat, maxDaemons: nat)

  const DEFAULT := Entitlement(1, 1)

  datatype Subscription = Subscription(
    tenant: Tenant,
    status: Status,
    entitlement: Entitlement,
    trialExpiresAt: Option<Time>,
    currentPeriodEnd: Option<Time>)

  type Table = seq<Subscription>

  predicate Live(r: Subscription, t: Tenant) { r.tenant == t && r.status != Canceled }

  /** The partial unique index `uq_subscriptions_live`. */
  ghost predicate OneLive(rows: Table) {
    forall i, j | 0 <= i < j < |rows| && rows[i].tenant == rows[j].tenant ::
      rows[i].status == Canceled || rows[j].status == Canceled
  }

  ghost predicate HasHistory(rows: Table, t: Tenant) {
    exists i :: 0 <= i < |rows| && rows[i].tenant == t
  }

  predicate Known(rows: Table, t: Tenant)
    ensures Known(rows, t) <==> HasHistory(rows, t)
  {
    rows != [] && (rows[|rows| - 1].tenant == t || Known(rows[..|rows| - 1], t))
  }

  /** The tenant's current subscription, if any. */
  function FindCurrent(rows: Table, t: Tenant): (current: Option<Subscription>)
    ensures current.Some? ==> exists i :: 0 <= i < |rows| && rows[i] == current.value && Live(rows[i], t)
    ensures current.None? ==> forall i | 0 <= i < |rows| :: !Live(rows[i], t)
  {
    if rows == [] then None
    else if Live(rows[|rows| - 1], t) then Some(rows[|rows| - 1])
    else FindCurrent(rows[..|rows| - 1], t)
  }

  ghost predicate OnTrial(rows: Table, t: Tenant) {
    exists i :: 0 <= i < |rows| && Live(rows[i], t) && rows[i].status == Trialing
  }

  /** With one live row, the current subscription is that row. */
  lemma CurrentIs(rows: Table, t: Tenant, i: nat)
    requires OneLive(rows) && i < |rows| && Live(rows[i], t)
    ensures FindCurrent(rows, t) == Some(rows[i])
  {
  }

  // ----- The statements of the repository

  function Patched(r: Subscription, status: Status, entitlement: Entitlement, periodEnd: Option<Time>): Subscription {
    r.(status := status, entitlement := entitlement, currentPeriodEnd := periodEnd)
  }

  function Paid(t: Tenant, status: Status, entitlement: Entitlement, periodEnd: Option<Time>): Subscription {
    Subscription(t, status, entitlement, None, periodEnd)
  }

  function CancelCurrent(rows: Table, t: Tenant): (rows': Table)
    ensures |rows'| == |rows|
  {
    seq(|rows|, i requires 0 <= i < |rows| => if Live(rows[i], t) then rows[i].(status := Canceled) else rows[i])
  }

  function UpdateCurrent(rows: Table, t: Tenant, status: Status, entitlement: Entitlement, periodEnd: Option<Time>)
    : (rows': Table)
    ensures |rows'| == |rows|
  {
    seq(|rows|, i requires 0 <= i < |rows| =>
      if Live(rows[i], t) then Patched(rows[i], status, entitlement, periodEnd) else rows[i])
  }

  function MarkPastDue(rows: Table, t: Tenant): (rows': Table)
    ensures |rows'| == |rows|
  {
    seq(|rows|, i requires 0 <= i < |rows| => if Live(rows[i], t) then rows[i].(status := PastDue) else rows[i])
  }

  function InsertTrial(rows: Table, t: Tenant, expires: Time): Table {
    if Known(rows, t) then rows
    else rows + [Subscription(t, Trialing, DEFAULT, Some(expires), None)]
  }

  /** The first statement of a conversion: cancel the live rows among those its snapshot saw. */
  function CancelSnapshot(rows: Table, t: Tenant, snapshot: set<nat>): (rows': Table)
    ensures |rows'| == |rows|
  {
    seq(|rows|, i requires 0 <= i < |rows| =>
      if i in snapshot && Live(rows[i], t) then rows[i].(status := Canceled) else rows[i])
  }

  /** The second: insert the paid row, or fold it into a live row that appeared meanwhile. */
  function InsertOrFold(rows: Table, paid: Subscription): Table {
    if paid.status != Canceled && FindCurrent(rows, paid.tenant).Some?
    then seq(|rows|, i requires 0 <= i < |rows| => if Live(rows[i], paid.tenant) then paid else rows[i])
    else rows + [paid]
  }

  /** What the snapshot of a conversion sees. */
  function LiveRows(rows: Table, t: Tenant): set<nat> {
    set i: nat | i < |rows| && Live(rows[i], t)
  }

  /** A conversion that took its snapshot earlier. */
  function CommitPaid(rows: Table, snapshot: set<nat>, paid: Subscription): Table {
    InsertOrFold(CancelSnapshot(rows, paid.tenant, snapshot), paid)
  }

  /** A conversion that nothing interleaves with. */
  function Convert(rows: Table, paid: Subscription): Table {
    InsertOrFold(CancelCurrent(rows, paid.tenant), paid)
  }

  // ----- What every statement keeps

  /**
   How the table may change: rows are only appended, a canceled row is final, a row never turns
   (back) into a trial, and a trial is appended only for a tenant without history.
   */
  ghost predicate Evolves(rows: Table, rows': Table) {
    && |rows| <= |rows'|
    && (forall i | 0 <= i < |rows| ::
          && rows'[i].tenant == rows[i].tenant
          && (rows[i].status == Canceled ==> rows'[i] == rows[i])
          && (rows'[i].status == Trialing ==> rows[i] == rows'[i]))
    && (forall k | |rows| <= k < |rows'| && rows'[k].status == Trialing :: !HasHistory(rows, rows'[k].tenant))
  }

  lemma EvolvesTransitive(a: Table, b: Table, c: Table)
    requires Evolves(a, b) && Evolves(b, c)
    ensures Evolves(a, c)
  {
    forall t | HasHistory(a, t) ensures HasHistory(b, t) { HistoryKept(a, b, t); }
  }

  lemma HistoryKept(rows: Table, rows': Table, t: Tenant)
    requires Evolves(rows, rows') && HasHistory(rows, t)
    ensures HasHistory(rows', t)
  {
    var i :| 0 <= i < |rows| && rows[i].tenant == t;
    assert rows'[i].tenant == t;
  }

  /** A tenant that has history and is not on trial never is on trial again. */
  lemma TrialIsOver(rows: Table, rows': Table, t: Tenant)
    requires Evolves(rows, rows') && HasHistory(rows, t) && !OnTrial(rows, t)
    ensures !OnTrial(rows', t)
  {
  }

  lemma CancelKeeps(rows: Table, t: Tenant)
    requires OneLive(rows)
    ensures OneLive(CancelCurrent(rows, t)) && Evolves(rows, CancelCurrent(rows, t))
  {
  }

  lemma MarkPastDueKeeps(rows: Table, t: Tenant)
    requires OneLive(rows)
    ensures OneLive(MarkPastDue(rows, t)) && Evolves(rows, MarkPastDue(rows, t))
  {
  }

  lemma UpdateOneLive(rows: Table, t: Tenant, status: Status, entitlement: Entitlement, periodEnd: Option<Time>)
    ensures OneLive(rows) ==> OneLive(UpdateCurrent(rows, t, status, entitlement, periodEnd))
  {
  }

  lemma UpdateKeeps(rows: Table, t: Tenant, status: Status, entitlement: Entitlement, periodEnd: Option<Time>)
    requires OneLive(rows) && status != Trialing
    ensures OneLive(UpdateCurrent(rows, t, status, entitlement, periodEnd))
    ensures Evolves(rows, UpdateCurrent(rows, t, status, entitlement, periodEnd))
  {
  }

  lemma InsertTrialKeeps(rows: Table, t: Tenant, expires: Time)
    requires OneLive(rows)
    ensures OneLive(InsertTrial(rows, t, expires)) && Evolves(rows, InsertTrial(rows, t, expires))
  {
    var rows' := InsertTrial(rows, t, expires);
    assert forall k | 0 <= k < |rows| :: rows'[k] == rows[k];
    if !Known(rows, t) {
      assert forall i | 0 <= i < |rows| :: rows[i].tenant != t;
    }
  }

  lemma FoldKeeps(rows: Table, paid: Subscription, i: nat)
    requires OneLive(rows) && paid.status != Trialing && paid.status != Canceled
    requires i < |rows| && Live(rows[i], paid.tenant)
    ensures var rows' := InsertOrFold(rows, paid);
      OneLive(rows') && Evolves(rows, rows') && |rows'| == |rows| && rows'[i] == paid
  {
  }

  lemma InsertKeeps(rows: Table, paid: Subscription)
    requires OneLive(rows) && paid.status != Trialing
    requires paid.status == Canceled || FindCurrent(rows, paid.tenant).None?
    ensures OneLive(rows + [paid]) && Evolves(rows, rows + [paid])
  {
  }

  /** The fold keeps one live row whatever live row it meets; afterwards the paid row is the current one. */
  lemma InsertOrFoldKeeps(rows: Table, paid: Subscription)
    requires OneLive(rows) && paid.status != Trialing
    ensures OneLive(InsertOrFold(rows, paid)) && Evolves(rows, InsertOrFold(rows, paid))
    ensures paid.status != Canceled ==> FindCurrent(InsertOrFold(rows, paid), paid.tenant) == Some(paid)
    ensures HasHistory(InsertOrFold(rows, paid), paid.tenant)
  {
    hide OneLive, Evolves;
    var rows' := InsertOrFold(rows, paid);
    if paid.status != Canceled && FindCurrent(rows, paid.tenant).Some? {
      var i :| 0 <= i < |rows| && Live(rows[i], paid.tenant);
      FoldKeeps(rows, paid, i);
      CurrentIs(rows', paid.tenant, i);
    } else {
      InsertKeeps(rows, paid);
      assert rows'[|rows|] == paid;
      if paid.status != Canceled { CurrentIs(rows', paid.tenant, |rows|); }
    }
  }

  lemma CancelSnapshotKeeps(rows: Table, t: Tenant, snapshot: set<nat>)
    requires OneLive(rows)
    ensures OneLive(CancelSnapshot(rows, t, snapshot)) && Evolves(rows, CancelSnapshot(rows, t, snapshot))
  {
  }

  lemma ConvertKeeps(rows: Table, paid: Subscription)
    requires OneLive(rows) && paid.status != Trialing
    ensures OneLive(Convert(rows, paid)) && Evolves(rows, Convert(rows, paid))
    ensures paid.status != Canceled ==> FindCurrent(Convert(rows, paid), paid.tenant) == Some(paid)
    ensures HasHistory(Convert(rows, paid), paid.tenant)
  {
    var mid := CancelCurrent(rows, paid.tenant);
    CancelKeeps(rows, paid.tenant);
    InsertOrFoldKeeps(mid, paid);
    EvolvesTransitive(rows, mid, InsertOrFold(mid, paid));
  }

  // ----- What every statement does to the current subscription of every tenant

  ghost predicate LastLive(rows: Table, t: Tenant, i: nat) {
    i < |rows| && Live(rows[i], t) && forall j | i < j < |rows| :: !Live(rows[j], t)
  }

  lemma {:induction false} CurrentIsLast(rows: Table, t: Tenant, i: nat)
    requires LastLive(rows, t, i)
    ensures FindCurrent(rows, t) == Some(rows[i])
  {
    var m := |rows| - 1;
    if i == m {
    } else {
      assert rows[..m][i] == rows[i];
      CurrentIsLast(rows[..m], t, i);
    }
  }

  lemma {:induction false} FindLast(rows: Table, t: Tenant) returns (i: nat)
    requires FindCurrent(rows, t).Some?
    ensures LastLive(rows, t, i)
  {
    var m := |rows| - 1;
    if Live(rows[m], t) {
      i := m;
    } else {
      i := FindLast(rows[..m], t);
    }
  }

  /** A table with the same live rows of `u` has its current row at the same place. */
  lemma SameLast(rows: Table, rows': Table, u: Tenant) returns (i: nat)
    requires |rows| == |rows'| && forall k | 0 <= k < |rows| :: Live(rows[k], u) <==> Live(rows'[k], u)
    ensures FindCurrent(rows, u).Some? <==> FindCurrent(rows', u).Some?
    ensures FindCurrent(rows, u).Some? ==> LastLive(rows, u, i)
    ensures FindCurrent(rows, u).Some? ==>
      FindCurrent(rows, u) == Some(rows[i]) && FindCurrent(rows', u) == Some(rows'[i])
  {
    i := 0;
    if FindCurrent(rows, u).Some? {
      i := FindLast(rows, u);
      hide FindCurrent;
      CurrentIsLast(rows, u, i);
      CurrentIsLast(rows', u, i);
    }
  }

  /** After a cancellation the tenant has none. */
  lemma CurrentAfterCancel(rows: Table, t: Tenant, u: Tenant)
    ensures FindCurrent(CancelCurrent(rows, t), u) == if u == t then None else FindCurrent(rows, u)
    ensures HasHistory(CancelCurrent(rows, t), u) <==> HasHistory(rows, u)
  {
    HistorySame(rows, CancelCurrent(rows, t), u);
    if u != t {
      var i := SameLast(rows, CancelCurrent(rows, t), u);
    }
  }

  /** After marking past due only the status of the tenant's differs. */
  lemma CurrentAfterMark(rows: Table, t: Tenant, u: Tenant)
    ensures var c := FindCurrent(rows, u);
      FindCurrent(MarkPastDue(rows, t), u) == if u == t && c.Some? then Some(c.value.(status := PastDue)) else c
    ensures HasHistory(MarkPastDue(rows, t), u) <==> HasHistory(rows, u)
  {
    HistorySame(rows, MarkPastDue(rows, t), u);
    var i := SameLast(rows, MarkPastDue(rows, t), u);
  }

  /** After an update the tenant's has the new values, or is gone if the new status says so. */
  lemma CurrentAfterUpdate(rows: Table, t: Tenant, status: Status, e: Entitlement, end: Option<Time>, u: Tenant)
    ensures var c := FindCurrent(rows, u);
      FindCurrent(UpdateCurrent(rows, t, status, e, end), u) ==
        if u != t || c.None? then c
        else if status == Canceled then None
        else Some(Subscription(c.value.tenant, status, e, c.value.trialExpiresAt, end))
    ensures HasHistory(UpdateCurrent(rows, t, status, e, end), u) <==> HasHistory(rows, u)
  {
    var rows' := UpdateCurrent(rows, t, status, e, end);
    HistorySame(rows, rows', u);
    if u != t || status != Canceled {
      var i := SameLast(rows, rows', u);
    }
  }

  /** After a conversion the tenant's is the paid row, unless that is canceled. */
  lemma CurrentAfterConvert(rows: Table, paid: Subscription, u: Tenant)
    ensures FindCurrent(Convert(rows, paid), u) ==
      if u != paid.tenant then FindCurrent(rows, u) else if paid.status == Canceled then None else Some(paid)
    ensures HasHistory(Convert(rows, paid), u) <==> u == paid.tenant || HasHistory(rows, u)
  {
    var mid := CancelCurrent(rows, paid.tenant);
    CurrentAfterCancel(rows, paid.tenant, paid.tenant);
    CurrentAfterCancel(rows, paid.tenant, u);
    assert Convert(rows, paid) == mid + [paid] && (mid + [paid])[..|mid|] == mid;
    if u != paid.tenant { AppendOther(mid, paid, u); }
  }

  /** The same whatever the snapshot of the conversion saw. */
  lemma CurrentAfterCommit(rows: Table, snapshot: set<nat>, paid: Subscription, u: Tenant)
    requires OneLive(rows) && paid.status != Trialing && paid.status != Canceled
    ensures FindCurrent(CommitPaid(rows, snapshot, paid), u) ==
      if u != paid.tenant then FindCurrent(rows, u) else Some(paid)
    ensures HasHistory(CommitPaid(rows, snapshot, paid), u) <==> u == paid.tenant || HasHistory(rows, u)
    ensures OneLive(CommitPaid(rows, snapshot, paid)) && Evolves(rows, CommitPaid(rows, snapshot, paid))
  {
    var mid := CancelSnapshot(rows, paid.tenant, snapshot);
    CancelSnapshotKeeps(rows, paid.tenant, snapshot);
    InsertOrFoldKeeps(mid, paid);
    EvolvesTransitive(rows, mid, CommitPaid(rows, snapshot, paid));
    if u != paid.tenant {
      HistorySame(rows, mid, u);
      var _ := SameLast(rows, mid, u);
      InsertOrFoldOthers(mid, paid, u);
      if FindCurrent(rows, u).None? {
        assert FindCurrent(mid, u).None?;
      }
    }
  }

  lemma InsertOrFoldOthers(rows: Table, paid: Subscription, u: Tenant)
    requires u != paid.tenant
    ensures FindCurrent(InsertOrFold(rows, paid), u) == FindCurrent(rows, u)
    ensures HasHistory(InsertOrFold(rows, paid), u) <==> HasHistory(rows, u)
  {
    var rows' := InsertOrFold(rows, paid);
    if |rows'| == |rows| {
      HistorySame(rows, rows', u);
      var _ := SameLast(rows, rows', u);
    } else {
      AppendOther(rows, paid, u);
    }
  }

  /** A snapshot nothing came after makes it an undisturbed conversion. */
  lemma CommitUndisturbed(rows: Table, paid: Subscription)
    ensures CommitPaid(rows, LiveRows(rows, paid.tenant), paid) == Convert(rows, paid)
  {
    assert CancelSnapshot(rows, paid.tenant, LiveRows(rows, paid.tenant)) == CancelCurrent(rows, paid.tenant);
  }

  lemma AppendOther(rows: Table, r: Subscription, u: Tenant)
    requires r.tenant != u
    ensures FindCurrent(rows + [r], u) == FindCurrent(rows, u)
    ensures HasHistory(rows + [r], u) <==> HasHistory(rows, u)
  {
    assert (rows + [r])[..|rows|] == rows;
    assert forall i | 0 <= i < |rows| :: (rows + [r])[i] == rows[i];
  }

  lemma HistorySame(rows: Table, rows': Table, u: Tenant)
    requires |rows| == |rows'| && forall i | 0 <= i < |rows| :: rows'[i].tenant == rows[i].tenant
    ensures HasHistory(rows', u) <==> HasHistory(rows, u)
  {
    if i :| 0 <= i < |rows| && rows[i].tenant == u { assert rows'[i].tenant == u; }
  }
}
