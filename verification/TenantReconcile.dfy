/**
 The cross-aggregate safety net: one pass over the live tenants opens a missing trial or deprovisions
 the networks of a tenant that has no licence, whatever domain events were lost before.
 */
module TenantReconcile {
  import opened Wrappers
  import opened Licence
  import opened Subscriptions

  type NetId = nat

  datatype Provisioning = Requested | Up | Deprovisioning

  datatype Network = Network(tenant: Tenant, state: Provisioning)

  type Networks = map<NetId, Network>

  /** Cascade `{active, provisioning} -> deprovisioning` for a tenant's networks. */
  function Deprovision(ns: Networks, t: Tenant): (ns': Networks)
    ensures ns'.Keys == ns.Keys
  {
    map n | n in ns :: if ns[n].tenant == t then ns[n].(state := Deprovisioning) else ns[n]
  }

  ghost predicate AllDown(ns: Networks, t: Tenant) {
    forall n | n in ns && ns[n].tenant == t :: ns[n].state == Deprovisioning
  }

  /** What the pass works on: the networks and the licence table. */
  datatype Plane = Plane(networks: Networks, rows: Table)

  /** Licensed, or with nothing left in provisioning or active. */
  ghost predicate Settled(p: Plane, t: Tenant) {
    FindCurrent(p.rows, t).Some? || AllDown(p.networks, t)
  }

  /** What a tenant should reach: settled while it is live; no licence and nothing up once it is tombstoned. */
  ghost predicate Due(p: Plane, t: Tenant, live: bool) {
    if live then Settled(p, t) else FindCurrent(p.rows, t).None? && AllDown(p.networks, t)
  }

  /** Settled for good: a further visit has nothing to do. */
  ghost predicate Quiet(p: Plane, t: Tenant) {
    FindCurrent(p.rows, t).Some? || (HasHistory(p.rows, t) && AllDown(p.networks, t))
  }

  function VisitOne(p: Plane, t: Tenant, expires: Time): Plane {
    if FindCurrent(p.rows, t).Some? then p
    else if Known(p.rows, t) then p.(networks := Deprovision(p.networks, t))
    else p.(rows := InsertTrial(p.rows, t, expires))
  }

  function Visit(p: Plane, ids: seq<Tenant>, expires: Time): Plane {
    if ids == [] then p
    else VisitOne(Visit(p, ids[..|ids| - 1], expires), ids[|ids| - 1], expires)
  }

  lemma VisitOneQuiets(p: Plane, t: Tenant, expires: Time)
    ensures Quiet(VisitOne(p, t, expires), t)
  {
    var p' := VisitOne(p, t, expires);
    if !FindCurrent(p.rows, t).Some? && !Known(p.rows, t) {
      assert Live(p'.rows[|p.rows|], t);
    }
  }

  lemma QuietVisitIsIdle(p: Plane, t: Tenant, expires: Time)
    requires Quiet(p, t)
    ensures VisitOne(p, t, expires) == p
  {
    if !FindCurrent(p.rows, t).Some? {
      assert Deprovision(p.networks, t) == p.networks;
    }
  }

  /** A visit to `u` leaves the licence and the networks of every other tenant alone. */
  lemma VisitOneOthers(p: Plane, u: Tenant, expires: Time, t: Tenant)
    requires t != u
    ensures var p' := VisitOne(p, u, expires);
      && FindCurrent(p'.rows, t) == FindCurrent(p.rows, t)
      && (HasHistory(p'.rows, t) <==> HasHistory(p.rows, t))
      && p'.networks.Keys == p.networks.Keys
      && (forall n | n in p.networks && p.networks[n].tenant == t :: p'.networks[n] == p.networks[n])
      && (forall n | n in p.networks :: p'.networks[n].tenant == p.networks[n].tenant)
  {
    hide FindCurrent, HasHistory, Known;
    var trial := Subscription(u, Trialing, DEFAULT, Some(expires), None);
    AppendOther(p.rows, trial, t);
  }

  lemma VisitOneKeepsQuiet(p: Plane, u: Tenant, expires: Time, t: Tenant)
    requires Quiet(p, t)
    ensures Quiet(VisitOne(p, u, expires), t)
  {
    if t == u {
      QuietVisitIsIdle(p, t, expires);
    } else {
      VisitOneOthers(p, u, expires, t);
    }
  }

  /** After one pass every visited tenant is licensed or down, whatever state the pass started from. */
  lemma {:induction false} PassQuiets(p: Plane, ids: seq<Tenant>, expires: Time, i: nat)
    requires i < |ids|
    ensures Quiet(Visit(p, ids, expires), ids[i])
  {
    var m := |ids| - 1;
    if i == m {
      VisitOneQuiets(Visit(p, ids[..m], expires), ids[m], expires);
    } else {
      PassQuiets(p, ids[..m], expires, i);
      VisitOneKeepsQuiet(Visit(p, ids[..m], expires), ids[m], expires, ids[i]);
    }
  }

  lemma {:induction false} QuietPassIsIdle(p: Plane, ids: seq<Tenant>, expires: Time)
    requires forall i | 0 <= i < |ids| :: Quiet(p, ids[i])
    ensures Visit(p, ids, expires) == p
  {
    if ids == [] {
    } else {
      var m := |ids| - 1;
      QuietPassIsIdle(p, ids[..m], expires);
      QuietVisitIsIdle(p, ids[m], expires);
    }
  }

  /** A second pass over the same tenants, in any order and at any later time, changes nothing. */
  lemma SecondPassIsIdle(p: Plane, ids: seq<Tenant>, expires: Time, again: seq<Tenant>, expires': Time)
    requires forall i | 0 <= i < |again| :: again[i] in ids
    ensures Visit(Visit(p, ids, expires), again, expires') == Visit(p, ids, expires)
  {
    var p' := Visit(p, ids, expires);
    forall i | 0 <= i < |again| ensures Quiet(p', again[i]) {
      var j :| 0 <= j < |ids| && ids[j] == again[i];
      PassQuiets(p, ids, expires, j);
    }
    QuietPassIsIdle(p', again, expires');
  }

  /** The state of `t` is left exactly as it was. */
  ghost predicate Untouched(p: Plane, p': Plane, t: Tenant) {
    && FindCurrent(p'.rows, t) == FindCurrent(p.rows, t)
    && p'.networks.Keys == p.networks.Keys
    && (forall n | n in p.networks :: p'.networks[n].tenant == p.networks[n].tenant)
    && (forall n | n in p.networks && p.networks[n].tenant == t :: p'.networks[n] == p.networks[n])
  }

  lemma {:induction false} PassLeavesOthers(p: Plane, ids: seq<Tenant>, expires: Time, t: Tenant)
    requires t !in ids
    ensures Untouched(p, Visit(p, ids, expires), t)
  {
    if ids == [] {
    } else {
      var m := |ids| - 1;
      PassLeavesOthers(p, ids[..m], expires, t);
      VisitOneOthers(Visit(p, ids[..m], expires), ids[m], expires, t);
    }
  }

  /** After the pass a tenant is where it should be exactly if it is live or was there before. */
  lemma ReachedExactlyIfLive(p: Plane, ids: seq<Tenant>, expires: Time, t: Tenant)
    ensures Due(Visit(p, ids, expires), t, t in ids) <==> t in ids || Due(p, t, false)
  {
    if t in ids {
      var i :| 0 <= i < |ids| && ids[i] == t;
      PassQuiets(p, ids, expires, i);
    } else {
      PassLeavesOthers(p, ids, expires, t);
    }
  }

  // ----- What a pass does to one tenant and to one network

  /** A visit takes the networks of its tenant down exactly if that has history and no licence. */
  lemma VisitOneNetworks(p: Plane, t: Tenant, expires: Time, n: NetId)
    requires n in p.networks
    ensures var p' := VisitOne(p, t, expires);
      && n in p'.networks && p'.networks[n].tenant == p.networks[n].tenant
      && p'.networks[n].state ==
           if p.networks[n].tenant == t && HasHistory(p.rows, t) && FindCurrent(p.rows, t).None? then Deprovisioning
           else p.networks[n].state
  {
  }

  /** Whether a tenant has lapsed: it had a licence once and has none now. */
  ghost predicate Lapsed(p: Plane, t: Tenant) {
    HasHistory(p.rows, t) && FindCurrent(p.rows, t).None?
  }

  /** Reconciling neither licenses a lapsed tenant nor lets one lapse. */
  lemma VisitOneLapsed(p: Plane, u: Tenant, expires: Time, t: Tenant)
    ensures Lapsed(VisitOne(p, u, expires), t) <==> Lapsed(p, t)
  {
    if t == u {
      TrialGivesLicence(p.rows, t, expires);
    } else {
      VisitOneOthers(p, u, expires, t);
    }
  }

  lemma {:induction false} PassLapsed(p: Plane, ids: seq<Tenant>, expires: Time, t: Tenant)
    ensures Lapsed(Visit(p, ids, expires), t) <==> Lapsed(p, t)
  {
    hide Lapsed;
    if ids == [] {
    } else {
      PassLapsed(p, ids[..|ids| - 1], expires, t);
      VisitOneLapsed(Visit(p, ids[..|ids| - 1], expires), ids[|ids| - 1], expires, t);
    }
  }

  /** A pass takes a network down exactly if its tenant is visited and has lapsed, and does nothing else to any. */
  lemma {:induction false} NetworksDownExactly(p: Plane, ids: seq<Tenant>, expires: Time, n: NetId)
    requires n in p.networks
    ensures var p' := Visit(p, ids, expires);
      && n in p'.networks && p'.networks[n].tenant == p.networks[n].tenant
      && p'.networks[n].state ==
           if p.networks[n].tenant in ids && Lapsed(p, p.networks[n].tenant) then Deprovisioning
           else p.networks[n].state
  {
    if ids == [] {
    } else {
      var m := |ids| - 1;
      NetworksDownExactly(p, ids[..m], expires, n);
      PassLapsed(p, ids[..m], expires, p.networks[n].tenant);
      VisitOneNetworks(Visit(p, ids[..m], expires), ids[m], expires, n);
      assert p.networks[n].tenant in ids <==> p.networks[n].tenant in ids[..m] || p.networks[n].tenant == ids[m];
      hide Visit, VisitOne;
    }
  }

  /** So a network changes exactly if its tenant is visited and has lapsed and it was not on its way down already. */
  lemma NetworkChangesExactly(p: Plane, ids: seq<Tenant>, expires: Time, n: NetId)
    requires n in p.networks
    ensures n in Visit(p, ids, expires).networks
    ensures Visit(p, ids, expires).networks[n] != p.networks[n] <==>
      && p.networks[n].tenant in ids
      && HasHistory(p.rows, p.networks[n].tenant) && FindCurrent(p.rows, p.networks[n].tenant).None?
      && p.networks[n].state != Deprovisioning
  {
    NetworksDownExactly(p, ids, expires, n);
  }

  lemma {:induction false} SameNetworks(p: Plane, ids: seq<Tenant>, expires: Time)
    ensures Visit(p, ids, expires).networks.Keys == p.networks.Keys
  {
    if ids == [] {
    } else {
      SameNetworks(p, ids[..|ids| - 1], expires);
    }
  }

  /** What a visited tenant without history ends with: a trial that runs out at `expires`. */
  ghost predicate NewTrial(rows: Table, t: Tenant, expires: Time) {
    FindCurrent(rows, t) == Some(Subscription(t, Trialing, Entitlement(1, 1), Some(expires), None))
  }

  lemma VisitOneLicence(p: Plane, t: Tenant, expires: Time)
    ensures var p' := VisitOne(p, t, expires);
      && HasHistory(p'.rows, t)
      && if HasHistory(p.rows, t) then FindCurrent(p'.rows, t) == FindCurrent(p.rows, t)
         else NewTrial(p'.rows, t, expires)
  {
    if !HasHistory(p.rows, t) {
      var rows' := VisitOne(p, t, expires).rows;
      assert FindCurrent(p.rows, t).None?;
      assert rows'[|p.rows|].tenant == t && Live(rows'[|p.rows|], t);
    }
  }

  /** A pass opens a trial for each visited tenant without history, and changes no other licence. */
  lemma {:induction false} LicencesAfterPass(p: Plane, ids: seq<Tenant>, expires: Time, t: Tenant)
    ensures var p' := Visit(p, ids, expires);
      if t in ids && !HasHistory(p.rows, t) then NewTrial(p'.rows, t, expires) && HasHistory(p'.rows, t)
      else FindCurrent(p'.rows, t) == FindCurrent(p.rows, t) && (HasHistory(p'.rows, t) <==> HasHistory(p.rows, t))
  {
    if ids == [] {
    } else {
      var m := |ids| - 1;
      var mid := Visit(p, ids[..m], expires);
      LicencesAfterPass(p, ids[..m], expires, t);
      assert t in ids <==> t in ids[..m] || t == ids[m];
      assert Visit(p, ids, expires) == VisitOne(mid, ids[m], expires);
      hide FindCurrent, HasHistory, VisitOne, Visit, NewTrial;
      if t == ids[m] {
        VisitOneLicence(mid, t, expires);
      } else {
        VisitOneOthers(mid, ids[m], expires, t);
      }
    }
  }

  // ----- The services

  class TenantsService {
    /** Known tenants; false marks a tombstoned one. */
    var tenants: map<Tenant, bool>
    var networks: Networks

    constructor (tenants: map<Tenant, bool>, networks: Networks)
      ensures this.tenants == tenants && this.networks == networks
    {
      this.tenants, this.networks := tenants, networks;
    }

    method DeprovisionNetworksFor(t: Tenant)
      modifies this`networks
      ensures networks == Deprovision(old(networks), t) && AllDown(networks, t)
    {
      networks := Deprovision(networks, t);
    }

    /** All live tenants, each once. */
    method ListLiveTenantIds() returns (ids: seq<Tenant>)
      ensures forall t :: t in ids <==> t in tenants && tenants[t]
      ensures forall i, j | 0 <= i < j < |ids| :: ids[i] != ids[j]
    {
      ids := [];
      var left := tenants.Keys;
      while left != {}
        invariant left <= tenants.Keys
        invariant forall t :: t in ids <==> t in tenants && tenants[t] && t !in left
        invariant forall i, j | 0 <= i < j < |ids| :: ids[i] != ids[j]
        decreases left
      {
        var t :| t in left;
        left := left - {t};
        if tenants[t] { ids := ids + [t]; }
      }
    }

    /** Tombstone a tenant; only the event published the first time will cancel its licence. */
    method DeregisterTenant(t: Tenant) returns (found: bool, event: Option<DomainEvent>)
      modifies this`tenants
      ensures found <==> t in old(tenants)
      ensures tenants.Keys == old(tenants).Keys && (found ==> !tenants[t])
      ensures forall u | u in tenants && u != t :: tenants[u] == old(tenants)[u]
      ensures event == if found && old(tenants)[t] then Some(TenantDeregistered(t)) else None
    {
      found, event := t in tenants, None;
      if found && tenants[t] {
        tenants := tenants[t := false];
        event := Some(TenantDeregistered(t));
      }
    }
  }

  ghost function PlaneOf(service: TenantsService, subscriptions: SubscriptionService): Plane
    reads service, subscriptions
  {
    Plane(service.networks, subscriptions.rows)
  }

  /** The two reactors on one delivered event, and what is published in turn. */
  method React(service: TenantsService, subscriptions: SubscriptionService, event: DomainEvent, now: Time)
    modifies service`networks, subscriptions
    ensures match event
      case TenantCreated(t) =>
        && service.networks == old(service.networks) && subscriptions.events == old(subscriptions.events)
        && (FindCurrent(subscriptions.rows, t).Some? <==>
              FindCurrent(old(subscriptions.rows), t).Some? || !HasHistory(old(subscriptions.rows), t))
        && subscriptions.rows == InsertTrial(old(subscriptions.rows), t, now + subscriptions.policy.trialDays * DAY)
      case TenantDeregistered(t) =>
        && service.networks == old(service.networks)
        && FindCurrent(subscriptions.rows, t) == None
        && subscriptions.rows == CancelCurrent(old(subscriptions.rows), t)
        && subscriptions.events == old(subscriptions.events) +
             if FindCurrent(old(subscriptions.rows), t).Some? then [SubscriptionDeactivated(t)] else []
      case SubscriptionDeactivated(t) =>
        && AllDown(service.networks, t)
        && service.networks == Deprovision(old(service.networks), t)
        && subscriptions.rows == old(subscriptions.rows) && subscriptions.events == old(subscriptions.events)
  {
    match event
    case TenantCreated(t) =>
      TrialGivesLicence(subscriptions.rows, t, now + subscriptions.policy.trialDays * DAY);
      var _ := subscriptions.CreateTrial(t, now);
    case TenantDeregistered(t) => subscriptions.Cancel(t);
    case SubscriptionDeactivated(t) => service.DeprovisionNetworksFor(t);
  }

  lemma TrialGivesLicence(rows: Table, t: Tenant, expires: Time)
    ensures FindCurrent(InsertTrial(rows, t, expires), t).Some? <==> FindCurrent(rows, t).Some? || !HasHistory(rows, t)
  {
  }

  lemma VisitNone(p: Plane, expires: Time)
    ensures Visit(p, [], expires) == p
  {
  }

  lemma VisitNext(p: Plane, ids: seq<Tenant>, k: nat, expires: Time)
    requires k < |ids|
    ensures Visit(p, ids[..k + 1], expires) == VisitOne(Visit(p, ids[..k], expires), ids[k], expires)
  {
    assert ids[..k + 1][..k] == ids[..k];
  }

  /** What a pass over the live tenants leaves, tenant by tenant and network by network. */
  lemma PassLeaves(p: Plane, ids: seq<Tenant>, expires: Time, tenants: map<Tenant, bool>)
    requires forall t :: t in ids <==> t in tenants && tenants[t]
    ensures forall t | t in tenants :: Due(Visit(p, ids, expires), t, tenants[t]) <==> tenants[t] || Due(p, t, false)
    ensures Visit(p, ids, expires).networks.Keys == p.networks.Keys
    ensures forall n | n in p.networks ::
      Visit(p, ids, expires).networks[n] != p.networks[n] <==>
        && p.networks[n].tenant in ids
        && HasHistory(p.rows, p.networks[n].tenant) && FindCurrent(p.rows, p.networks[n].tenant).None?
        && p.networks[n].state != Deprovisioning
  {
    hide Due, Visit;
    SameNetworks(p, ids, expires);
    forall n | n in p.networks { NetworkChangesExactly(p, ids, expires, n); }
    forall t | t in tenants { ReachedExactlyIfLive(p, ids, expires, t); }
  }

  /** One reconcile pass: afterwards a tenant is where it should be exactly if it is live or was there before. */
  method Reconcile(service: TenantsService, subscriptions: SubscriptionService, now: Time) returns (ids: seq<Tenant>)
    modifies service`networks, subscriptions`rows
    ensures forall t :: t in ids <==> t in service.tenants && service.tenants[t]
    ensures PlaneOf(service, subscriptions) ==
      Visit(old(PlaneOf(service, subscriptions)), ids, now + subscriptions.policy.trialDays * DAY)
    ensures forall t | t in service.tenants ::
      Due(PlaneOf(service, subscriptions), t, service.tenants[t]) <==>
      service.tenants[t] || Due(old(PlaneOf(service, subscriptions)), t, false)
    ensures service.networks.Keys == old(service.networks).Keys
    ensures forall n | n in service.networks ::
      var before := old(service.networks)[n];
      service.networks[n] != before <==>
        && before.tenant in service.tenants && service.tenants[before.tenant]
        && HasHistory(old(subscriptions.rows), before.tenant)
        && FindCurrent(old(subscriptions.rows), before.tenant).None?
        && before.state != Deprovisioning
  {
    hide Due, Visit;
    ghost var p := PlaneOf(service, subscriptions);
    ghost var expires := now + subscriptions.policy.trialDays * DAY;
    ids := service.ListLiveTenantIds();
    VisitNone(p, expires);
    for k := 0 to |ids|
      invariant PlaneOf(service, subscriptions) == Visit(p, ids[..k], expires)
      invariant service.tenants == old(service.tenants)
    {
      VisitNext(p, ids, k, expires);
      if FindCurrent(subscriptions.rows, ids[k]).None? {
        var created := subscriptions.CreateTrial(ids[k], now);
        if !created {
          service.DeprovisionNetworksFor(ids[k]);
        }
      }
    }
    assert ids[..|ids|] == ids;
    PassLeaves(p, ids, expires, service.tenants);
  }

  // ----- A deregistration, delivered and lost

  /**
   With its events delivered, a deregistration takes the tenant down exactly if it had a licence or
   nothing up: without a licence no deactivation is published, and nobody looks at its networks again.
   */
  method DeliverDeregistration(service: TenantsService, subscriptions: SubscriptionService, t: Tenant, now: Time)
    requires t in service.tenants && service.tenants[t]
    modifies service, subscriptions
    ensures t in service.tenants && !service.tenants[t]
    ensures Due(PlaneOf(service, subscriptions), t, false) <==>
      FindCurrent(old(subscriptions.rows), t).Some? || AllDown(old(service.networks), t)
  {
    ghost var published := |subscriptions.events|;
    var licensed := FindCurrent(subscriptions.rows, t).Some?;
    var _, event := service.DeregisterTenant(t);
    React(service, subscriptions, event.value, now);
    if licensed {
      assert subscriptions.events[published] == SubscriptionDeactivated(t);
      React(service, subscriptions, SubscriptionDeactivated(t), now);
    }
  }

  /** If the event is dropped, a reconcile pass leaves licence and networks of the tenant exactly as they were. */
  method LoseDeregistration(service: TenantsService, subscriptions: SubscriptionService, t: Tenant, now: Time)
    requires t in service.tenants && service.tenants[t]
    modifies service, subscriptions`rows
    ensures t in service.tenants && !service.tenants[t]
    ensures Untouched(old(PlaneOf(service, subscriptions)), PlaneOf(service, subscriptions), t)
    ensures Due(PlaneOf(service, subscriptions), t, false) <==> Due(old(PlaneOf(service, subscriptions)), t, false)
  {
    hide Visit, Untouched, Due;
    ghost var p := PlaneOf(service, subscriptions);
    var _, _ := service.DeregisterTenant(t);
    var ids := Reconcile(service, subscriptions, now);
    PassLeavesOthers(p, ids, now + subscriptions.policy.trialDays * DAY, t);
  }

  /** So a paying tenant that is deregistered can keep its licence and its network. */
  method LostDeregistration(t: Tenant, policy: Policy, now: Time)
    returns (current: Option<Subscription>, network: Network)
    ensures current.Some? && network == Network(t, Up)
  {
    var service := new TenantsService(map[t := true], map[0 := Network(t, Up)]);
    var rows := [Paid(t, Active, DEFAULT, None)];
    var subscriptions := new SubscriptionService(rows, policy);
    assert FindCurrent(rows, t) == Some(rows[0]);
    LoseDeregistration(service, subscriptions, t, now);
    current, network := FindCurrent(subscriptions.rows, t), service.networks[0];
  }
}
