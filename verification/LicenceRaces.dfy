/**
 Statements on the table that race. A conversion takes its snapshot in one step and commits — cancelling
 what its snapshot saw and inserting or folding the paid row — in a later one. A trial opening tests for
 history in one step and inserts in a later one. A reaper pass lists the overdue tenants in one step and
 cancels them one by one in later ones. Any number of all these, for any tenants, interleave with each
 other and with every other statement.
 */
module LicenceRaces {
  import opened Wrappers
  import opened Licence
  import opened Subscriptions

  datatype Conversion = Conversion(tenant: Tenant, snapshot: set<nat>)

  /** A trial opening whose test found no history, or did. */
  datatype Opening = Opening(tenant: Tenant, unseen: bool)

  /** A reaper pass: the table its list was read from, and the listed tenants still to be canceled. */
  datatype Pass = Pass(policy: Policy, now: Time, seen: Table, left: set<Tenant>)

  datatype State = State(rows: Table, open: map<nat, Conversion>, openings: map<nat, Opening>, passes: map<nat, Pass>)

  function Start(rows: Table): State { State(rows, map[], map[], map[]) }

  /** Statuses come from `map_status`, which never yields a trial. */
  datatype Op =
    | OpenTrial(tenant: Tenant, expires: Time)
    | TestTrial(tx: nat, tenant: Tenant)
    | InsertTested(tx: nat, expires: Time)
    | Cancel(tenant: Tenant)
    | PastDueOp(tenant: Tenant)
    | Update(tenant: Tenant, status: Status, entitlement: Entitlement, periodEnd: Option<Time>)
    | Begin(tx: nat, tenant: Tenant)
    | Commit(tx: nat, status: Status, entitlement: Entitlement, periodEnd: Option<Time>)
    | ListOverdue(pass: nat, policy: Policy, now: Time)
    | CancelListed(pass: nat, tenant: Tenant)

  predicate Enabled(s: State, op: Op) {
    match op
    case InsertTested(tx, _) => tx in s.openings
    case Update(_, status, _, _) => status != Trialing
    case Commit(tx, status, _, _) => tx in s.open && status != Trialing
    case CancelListed(pass, t) => pass in s.passes && t in s.passes[pass].left
    case _ => true
  }

  /** The insert of a tested opening; a live row makes it do nothing. */
  function InsertAfterTest(rows: Table, o: Opening, expires: Time): Table {
    if o.unseen && FindCurrent(rows, o.tenant).None?
    then rows + [Subscription(o.tenant, Trialing, DEFAULT, Some(expires), None)] else rows
  }

  function Listed(rows: Table, policy: Policy, now: Time): seq<Tenant> {
    OverdueTenants(rows, now - policy.trialGraceDays * DAY, now - policy.paymentGraceDays * DAY)
  }

  function Apply(s: State, op: Op): State
    requires Enabled(s, op)
  {
    match op
    case OpenTrial(t, expires) => s.(rows := InsertTrial(s.rows, t, expires))
    case TestTrial(tx, t) => s.(openings := s.openings[tx := Opening(t, !Known(s.rows, t))])
    case InsertTested(tx, expires) =>
      s.(rows := InsertAfterTest(s.rows, s.openings[tx], expires), openings := s.openings - {tx})
    case Cancel(t) => s.(rows := CancelCurrent(s.rows, t))
    case PastDueOp(t) => s.(rows := MarkPastDue(s.rows, t))
    case Update(t, status, e, end) => s.(rows := UpdateCurrent(s.rows, t, status, e, end))
    case Begin(tx, t) => s.(open := s.open[tx := Conversion(t, LiveRows(s.rows, t))])
    case Commit(tx, status, e, end) =>
      var c := s.open[tx];
      s.(rows := CommitPaid(s.rows, c.snapshot, Paid(c.tenant, status, e, end)), open := s.open - {tx})
    case ListOverdue(pass, policy, now) =>
      s.(passes := s.passes[pass := Pass(policy, now, s.rows, set t | t in Listed(s.rows, policy, now))])
    case CancelListed(pass, t) =>
      var p := s.passes[pass];
      s.(rows := CancelCurrent(s.rows, t), passes := s.passes[pass := p.(left := p.left - {t})])
  }

  ghost predicate Run(states: seq<State>, ops: seq<Op>) {
    && |states| == |ops| + 1
    && forall i | 0 <= i < |ops| :: Enabled(states[i], ops[i]) && states[i + 1] == Apply(states[i], ops[i])
  }

  lemma CommitKeeps(s: State, op: Op)
    requires OneLive(s.rows) && Enabled(s, op) && op.Commit?
    ensures var s' := Apply(s, op); OneLive(s'.rows) && Evolves(s.rows, s'.rows)
    ensures op.status != Canceled ==>
      var t := s.open[op.tx].tenant;
      FindCurrent(Apply(s, op).rows, t) == Some(Paid(t, op.status, op.entitlement, op.periodEnd))
  {
    var c := s.open[op.tx];
    var paid := Paid(c.tenant, op.status, op.entitlement, op.periodEnd);
    var mid := CancelSnapshot(s.rows, c.tenant, c.snapshot);
    CancelSnapshotKeeps(s.rows, c.tenant, c.snapshot);
    InsertOrFoldKeeps(mid, paid);
    EvolvesTransitive(s.rows, mid, InsertOrFold(mid, paid));
  }

  /** A commit adds no row, and folds into an existing one instead, exactly when a live row escaped its snapshot. */
  lemma FoldsExactlyOnEscapedRow(s: State, op: Op)
    requires OneLive(s.rows) && Enabled(s, op) && op.Commit? && op.status != Canceled
    ensures var c := s.open[op.tx];
      |Apply(s, op).rows| == |s.rows| <==>
      exists i :: 0 <= i < |s.rows| && i !in c.snapshot && Live(s.rows[i], c.tenant)
  {
    var c := s.open[op.tx];
    var mid := CancelSnapshot(s.rows, c.tenant, c.snapshot);
    if i :| 0 <= i < |s.rows| && i !in c.snapshot && Live(s.rows[i], c.tenant) {
      assert Live(mid[i], c.tenant);
    }
  }

  /** A paid row of the tenant is overwritten in place by the commit exactly if it escaped the snapshot. */
  lemma PaidRowOverwrittenExactly(s: State, op: Op, i: nat)
    requires OneLive(s.rows) && Enabled(s, op) && op.Commit? && op.status != Canceled
    requires i < |s.rows| && Live(s.rows[i], s.open[op.tx].tenant) && s.rows[i].status != Trialing
    ensures i < |Apply(s, op).rows|
    ensures var c := s.open[op.tx];
      Apply(s, op).rows[i] ==
        if i in c.snapshot then s.rows[i].(status := Canceled)
        else Paid(c.tenant, op.status, op.entitlement, op.periodEnd)
  {
    var c := s.open[op.tx];
    var mid := CancelSnapshot(s.rows, c.tenant, c.snapshot);
    if i !in c.snapshot {
      assert Live(mid[i], c.tenant);
    }
  }

  /** Two conversions of one trial: the second to commit overwrites the paid row of the first. */
  lemma SecondCommitOverwrites(t: Tenant, expires: Time, a: Entitlement, b: Entitlement)
    returns (states: seq<State>, ops: seq<Op>)
    ensures Run(states, ops) && |ops| == 4
    ensures states[0] == Start([Subscription(t, Trialing, DEFAULT, Some(expires), None)])
    ensures |states[3].rows| == |states[4].rows| == 2
    ensures states[3].rows[1] == Paid(t, Active, a, None) && states[4].rows[1] == Paid(t, Active, b, None)
  {
    hide Run;
    var trial := Subscription(t, Trialing, DEFAULT, Some(expires), None);
    ops := [Begin(1, t), Begin(2, t), Commit(1, Active, a, None), Commit(2, Active, b, None)];
    var s0 := Start([trial]);
    var s1 := Apply(s0, ops[0]);
    var s2 := Apply(s1, ops[1]);
    assert LiveRows(s0.rows, t) == {0};
    var s3 := Apply(s2, ops[2]);
    assert s3.rows == [trial.(status := Canceled), Paid(t, Active, a, None)];
    var s4 := Apply(s3, ops[3]);
    assert CancelSnapshot(s3.rows, t, {0}) == s3.rows;
    assert Live(s3.rows[1], t);
    assert s4.rows == [trial.(status := Canceled), Paid(t, Active, b, None)];
    states := [s0, s1, s2, s3, s4];
    FourSteps(states, ops);
  }

  // ----- What holds in every run

  /** The test of an opening has been overtaken: the tenant has history by now, none of it live. */
  ghost predicate Overtaken(s: State, op: Op, t: Tenant) {
    && op.InsertTested? && op.tx in s.openings
    && s.openings[op.tx] == Opening(t, true)
    && HasHistory(s.rows, t) && FindCurrent(s.rows, t).None?
  }

  /** The operation adds a trial of `t` to the table. */
  ghost predicate OpensTrial(s: State, op: Op, t: Tenant)
    requires Enabled(s, op)
  {
    var rows' := Apply(s, op).rows;
    exists k :: |s.rows| <= k < |rows'| && rows'[k].tenant == t && rows'[k].status == Trialing
  }

  /** Rows are only appended, a canceled row is final, and a row never turns (back) into a trial. */
  ghost predicate Extends(rows: Table, rows': Table) {
    && |rows| <= |rows'|
    && forall i | 0 <= i < |rows| ::
         && rows'[i].tenant == rows[i].tenant
         && (rows[i].status == Canceled ==> rows'[i] == rows[i])
         && (rows'[i].status == Trialing ==> rows[i] == rows'[i])
  }

  /** A trial is appended for `t` only if it has no history. */
  ghost predicate NoSecondTrial(rows: Table, rows': Table, t: Tenant) {
    forall k | |rows| <= k < |rows'| && rows'[k].tenant == t && rows'[k].status == Trialing :: !HasHistory(rows, t)
  }

  lemma ExtendsTransitive(a: Table, b: Table, c: Table)
    requires Extends(a, b) && Extends(b, c)
    ensures Extends(a, c)
  {
  }

  lemma InsertTestedKeeps(s: State, op: Op)
    requires OneLive(s.rows) && Enabled(s, op) && op.InsertTested?
    ensures OneLive(Apply(s, op).rows) && Extends(s.rows, Apply(s, op).rows)
    ensures forall t | !Overtaken(s, op, t) :: NoSecondTrial(s.rows, Apply(s, op).rows, t)
  {
  }

  lemma ApplyKeeps(s: State, op: Op)
    requires OneLive(s.rows) && Enabled(s, op)
    ensures OneLive(Apply(s, op).rows) && Extends(s.rows, Apply(s, op).rows)
    ensures forall t | !Overtaken(s, op, t) :: NoSecondTrial(s.rows, Apply(s, op).rows, t)
  {
    hide OneLive, HasHistory, FindCurrent;
    match op
    case OpenTrial(t, expires) => InsertTrialKeeps(s.rows, t, expires);
    case TestTrial(_, _) =>
    case InsertTested(_, _) => InsertTestedKeeps(s, op);
    case Cancel(t) => CancelKeeps(s.rows, t);
    case PastDueOp(t) => MarkPastDueKeeps(s.rows, t);
    case Update(t, status, e, end) => UpdateKeeps(s.rows, t, status, e, end);
    case Begin(_, _) =>
    case Commit(_, _, _, _) => CommitKeeps(s, op);
    case ListOverdue(_, _, _) =>
    case CancelListed(_, t) => CancelKeeps(s.rows, t);
  }

  /** At most one live row per tenant in every reachable state. */
  lemma {:induction false} AlwaysOneLive(states: seq<State>, ops: seq<Op>, i: nat)
    requires Run(states, ops) && OneLive(states[0].rows) && i <= |ops|
    ensures OneLive(states[i].rows)
  {
    hide OneLive, Apply;
    if i == 0 {
    } else {
      AlwaysOneLive(states, ops, i - 1);
      ApplyKeeps(states[i - 1], ops[i - 1]);
    }
  }

  /** Right after a conversion commits there is exactly one live row of its tenant: the paid one. */
  lemma ExactlyOneAfterCommit(states: seq<State>, ops: seq<Op>, i: nat)
    requires Run(states, ops) && OneLive(states[0].rows)
    requires i < |ops| && ops[i].Commit? && ops[i].status != Canceled
    ensures var t := states[i].open[ops[i].tx].tenant;
      var paid := Paid(t, ops[i].status, ops[i].entitlement, ops[i].periodEnd);
      var rows := states[i + 1].rows;
      && FindCurrent(rows, t) == Some(paid)
      && exists k :: 0 <= k < |rows| && rows[k] == paid
           && forall j | 0 <= j < |rows| && Live(rows[j], t) :: j == k
  {
    AlwaysOneLive(states, ops, i);
    CommitKeeps(states[i], ops[i]);
    var t := states[i].open[ops[i].tx].tenant;
    var rows := states[i + 1].rows;
    var k :| 0 <= k < |rows| && rows[k] == FindCurrent(rows, t).value && Live(rows[k], t);
    forall j | 0 <= j < |rows| && Live(rows[j], t) ensures j == k { }
  }

  lemma {:induction false} RunExtends(states: seq<State>, ops: seq<Op>, i: nat, j: nat)
    requires Run(states, ops) && OneLive(states[0].rows) && i <= j <= |ops|
    ensures Extends(states[i].rows, states[j].rows)
  {
    hide OneLive, Apply;
    if i == j {
    } else {
      RunExtends(states, ops, i, j - 1);
      AlwaysOneLive(states, ops, j - 1);
      ApplyKeeps(states[j - 1], ops[j - 1]);
      ExtendsTransitive(states[i].rows, states[j - 1].rows, states[j].rows);
    }
  }

  /** A canceled row stays exactly as it is for the rest of the run. */
  lemma CanceledIsFinal(states: seq<State>, ops: seq<Op>, i: nat, j: nat)
    requires Run(states, ops) && OneLive(states[0].rows) && i <= j <= |ops|
    ensures |states[i].rows| <= |states[j].rows|
    ensures forall k | 0 <= k < |states[i].rows| && states[i].rows[k].status == Canceled ::
      states[j].rows[k] == states[i].rows[k]
  {
    RunExtends(states, ops, i, j);
  }

  lemma HistoryStays(rows: Table, rows': Table, t: Tenant)
    requires Extends(rows, rows') && HasHistory(rows, t)
    ensures HasHistory(rows', t)
  {
    var i :| 0 <= i < |rows| && rows[i].tenant == t;
    assert rows'[i].tenant == t;
  }

  lemma StaysOver(rows: Table, rows': Table, t: Tenant)
    requires Extends(rows, rows') && NoSecondTrial(rows, rows', t) && HasHistory(rows, t) && !OnTrial(rows, t)
    ensures HasHistory(rows', t) && !OnTrial(rows', t)
  {
    HistoryStays(rows, rows', t);
  }

  /** A tenant past its trial never returns to one, unless an opening of its trial is overtaken. */
  lemma {:induction false} NoWayBack(states: seq<State>, ops: seq<Op>, i: nat, j: nat, t: Tenant)
    requires Run(states, ops) && OneLive(states[0].rows) && i <= j <= |ops|
    requires forall k | i <= k < j :: !Overtaken(states[k], ops[k], t)
    requires HasHistory(states[i].rows, t) && !OnTrial(states[i].rows, t)
    ensures HasHistory(states[j].rows, t) && !OnTrial(states[j].rows, t)
  {
    hide OneLive, Apply, Overtaken, OnTrial, HasHistory;
    if i == j {
    } else {
      NoWayBack(states, ops, i, j - 1, t);
      AlwaysOneLive(states, ops, j - 1);
      ApplyKeeps(states[j - 1], ops[j - 1]);
      StaysOver(states[j - 1].rows, states[j].rows, t);
    }
  }

  // ----- How many trials a tenant gets

  /** How many of the first `i` operations opened a trial for `t`. */
  ghost function TrialsOpened(states: seq<State>, ops: seq<Op>, i: nat, t: Tenant): nat
    requires Run(states, ops) && i <= |ops|
  {
    if i == 0 then 0
    else TrialsOpened(states, ops, i - 1, t) + if OpensTrial(states[i - 1], ops[i - 1], t) then 1 else 0
  }

  /** How many of them were openings whose test had been overtaken. */
  ghost function Overtakings(states: seq<State>, ops: seq<Op>, i: nat, t: Tenant): nat
    requires |states| == |ops| + 1 && i <= |ops|
  {
    if i == 0 then 0
    else Overtakings(states, ops, i - 1, t) + if Overtaken(states[i - 1], ops[i - 1], t) then 1 else 0
  }

  /** A trial is added for a tenant with history exactly by an overtaken opening. */
  lemma SecondTrialExactly(s: State, op: Op, t: Tenant)
    requires OneLive(s.rows) && Enabled(s, op)
    ensures OpensTrial(s, op, t) && HasHistory(s.rows, t) <==> Overtaken(s, op, t)
  {
    ApplyKeeps(s, op);
    if Overtaken(s, op, t) {
      assert Apply(s, op).rows[|s.rows|] == Subscription(t, Trialing, DEFAULT, Some(op.expires), None);
    }
  }

  lemma OpenedGivesHistory(s: State, op: Op, t: Tenant)
    requires Enabled(s, op) && OpensTrial(s, op, t)
    ensures HasHistory(Apply(s, op).rows, t) && OnTrial(Apply(s, op).rows, t)
  {
  }

  /** A test that found no history did run, at a time when there was none. */
  lemma {:induction false} TestedBefore(states: seq<State>, ops: seq<Op>, i: nat, tx: nat, t: Tenant) returns (k: nat)
    requires Run(states, ops) && i <= |ops| && states[0].openings == map[]
    requires tx in states[i].openings && states[i].openings[tx] == Opening(t, true)
    ensures k < i && ops[k] == TestTrial(tx, t) && !HasHistory(states[k].rows, t)
  {
    hide InsertTrial, InsertAfterTest, InsertOrFold, CancelCurrent, UpdateCurrent, MarkPastDue, HasHistory;
    if ops[i - 1] == TestTrial(tx, t) && !HasHistory(states[i - 1].rows, t) {
      k := i - 1;
    } else {
      assert tx in states[i - 1].openings && states[i - 1].openings[tx] == Opening(t, true);
      k := TestedBefore(states, ops, i - 1, tx, t);
    }
  }

  /**
   So in every run a second trial means this: the test ran when there was no history, and by the time of
   the insert there is some and none of it is live.
   */
  lemma SecondTrialInRun(states: seq<State>, ops: seq<Op>, i: nat, t: Tenant) returns (k: nat)
    requires Run(states, ops) && OneLive(states[0].rows) && states[0].openings == map[] && i < |ops|
    requires OpensTrial(states[i], ops[i], t) && HasHistory(states[i].rows, t)
    ensures k < i && ops[i].InsertTested? && ops[k] == TestTrial(ops[i].tx, t) && !HasHistory(states[k].rows, t)
    ensures FindCurrent(states[i].rows, t).None?
  {
    AlwaysOneLive(states, ops, i);
    SecondTrialExactly(states[i], ops[i], t);
    k := TestedBefore(states, ops, i, ops[i].tx, t);
  }

  /** In every run a tenant opens one trial if it had no licence before, plus one per overtaken opening, at most. */
  lemma {:induction false} AtMostOneTrial(states: seq<State>, ops: seq<Op>, i: nat, t: Tenant)
    requires Run(states, ops) && OneLive(states[0].rows) && i <= |ops|
    ensures TrialsOpened(states, ops, i, t) <=
      Overtakings(states, ops, i, t) + if HasHistory(states[0].rows, t) then 0 else 1
    ensures TrialsOpened(states, ops, i, t) > 0 || HasHistory(states[0].rows, t) ==> HasHistory(states[i].rows, t)
    ensures !HasHistory(states[i].rows, t) ==> TrialsOpened(states, ops, i, t) == 0
  {
    hide OneLive, Apply, HasHistory, OpensTrial, Overtaken;
    if i == 0 {
    } else {
      AtMostOneTrial(states, ops, i - 1, t);
      AlwaysOneLive(states, ops, i - 1);
      ApplyKeeps(states[i - 1], ops[i - 1]);
      SecondTrialExactly(states[i - 1], ops[i - 1], t);
      if HasHistory(states[i - 1].rows, t) { HistoryStays(states[i - 1].rows, states[i].rows, t); }
      if OpensTrial(states[i - 1], ops[i - 1], t) { OpenedGivesHistory(states[i - 1], ops[i - 1], t); }
    }
  }

  /** Two openings tested before either inserts, and a cancellation in between: the tenant gets two trials. */
  lemma TwoTrials(t: Tenant, expires: Time) returns (states: seq<State>, ops: seq<Op>)
    ensures Run(states, ops) && states[0] == Start([]) && |ops| == 5
    ensures OpensTrial(states[2], ops[2], t) && OpensTrial(states[4], ops[4], t) && Overtaken(states[4], ops[4], t)
    ensures OnTrial(states[5].rows, t) && !OnTrial(states[4].rows, t)
  {
    var trial := Subscription(t, Trialing, DEFAULT, Some(expires), None);
    ops := [TestTrial(1, t), TestTrial(2, t), InsertTested(1, expires), Cancel(t), InsertTested(2, expires)];
    var s0 := Start([]);
    var s1 := Apply(s0, ops[0]);
    var s2 := Apply(s1, ops[1]);
    var s3 := Apply(s2, ops[2]);
    assert s3.rows == [trial];
    var s4 := Apply(s3, ops[3]);
    assert s4.rows == [trial.(status := Canceled)] && s4.rows[0].tenant == t;
    var s5 := Apply(s4, ops[4]);
    assert s5.rows == s4.rows + [trial] && s5.rows[1] == trial;
    states := [s0, s1, s2, s3, s4, s5];
  }

  // ----- A reaper pass among the others

  /** The listed tenants were overdue, and had one live row, in the table the list was read from. */
  ghost predicate PassesFit(s: State) {
    forall k | k in s.passes ::
      && OneLive(s.passes[k].seen)
      && forall t | t in s.passes[k].left :: t in Listed(s.passes[k].seen, s.passes[k].policy, s.passes[k].now)
  }

  lemma {:induction false} RunPassesFit(states: seq<State>, ops: seq<Op>, i: nat)
    requires Run(states, ops) && OneLive(states[0].rows) && PassesFit(states[0]) && i <= |ops|
    ensures PassesFit(states[i])
  {
    hide OneLive, Listed, InsertTrial, InsertAfterTest, InsertOrFold, CancelCurrent, UpdateCurrent, MarkPastDue;
    if i == 0 {
    } else {
      RunPassesFit(states, ops, i - 1);
      AlwaysOneLive(states, ops, i - 1);
    }
  }

  /** Row `i` is not what the list saw: it came later, or has changed since. */
  predicate SinceList(p: Pass, rows: Table, i: nat)
    requires i < |rows|
  {
    i >= |p.seen| || rows[i] != p.seen[i]
  }

  lemma OverdueIsLive(policy: Policy, r: Subscription, now: Time)
    requires OverdueAt(policy, r, now)
    ensures r.status == Trialing || r.status == PastDue
  {
  }

  /** A live row of a listed tenant that is as the list saw it is the overdue one. */
  lemma AsListed(p: Pass, rows: Table, t: Tenant, i: nat)
    requires OneLive(p.seen) && t in Listed(p.seen, p.policy, p.now)
    requires i < |rows| && Live(rows[i], t) && !SinceList(p, rows, i)
    ensures OverdueAt(p.policy, rows[i], p.now) && !IsActive(p.policy, rows[i], p.now)
  {
    var ts := Listed(p.seen, p.policy, p.now);
    var k :| 0 <= k < |ts| && ts[k] == t;
    var j :| 0 <= j < |p.seen| && OverdueAt(p.policy, p.seen[j], p.now) && p.seen[j].tenant == t;
    OverdueIsLive(p.policy, p.seen[j], p.now);
    assert Live(p.seen[i], t) && Live(p.seen[j], t);
    assert i == j;
    GapBetweenChecks(p.policy, rows[i], p.now);
  }

  /**
   In every run, a pass cancels at its turn whatever row of the tenant is live by then, and that row is
   active exactly if an active row has become the tenant's live row since the list was read.
   */
  lemma CancelsActiveExactly(states: seq<State>, ops: seq<Op>, n: nat, i: nat)
    requires Run(states, ops) && OneLive(states[0].rows) && PassesFit(states[0])
    requires n < |ops| && ops[n].CancelListed? && i < |states[n].rows|
    ensures |states[n + 1].rows| == |states[n].rows|
    ensures var p, t := states[n].passes[ops[n].pass], ops[n].tenant;
      var r, r' := states[n].rows[i], states[n + 1].rows[i];
      && r' == (if Live(r, t) then r.(status := Canceled) else r)
      && (r' != r && !SinceList(p, states[n].rows, i) ==> OverdueAt(p.policy, r, p.now))
      && (r' != r && IsActive(p.policy, r, p.now) <==>
            Live(r, t) && IsActive(p.policy, r, p.now) && SinceList(p, states[n].rows, i))
  {
    RunPassesFit(states, ops, n);
    var p, t := states[n].passes[ops[n].pass], ops[n].tenant;
    if Live(states[n].rows[i], t) && !SinceList(p, states[n].rows, i) {
      AsListed(p, states[n].rows, t, i);
    }
  }

  function LateTrial(t: Tenant, policy: Policy, now: Time): Subscription {
    Subscription(t, Trialing, DEFAULT, Some(now - policy.trialGraceDays * DAY - 1), None)
  }

  lemma LateTrialIsListed(t: Tenant, policy: Policy, now: Time)
    ensures OverdueAt(policy, LateTrial(t, policy, now), now) && t in Listed([LateTrial(t, policy, now)], policy, now)
  {
    var rows := [LateTrial(t, policy, now)];
    assert OverdueAt(policy, rows[0], now) && rows[0].tenant == t;
  }

  lemma ConvertsAlone(s: State, tx: nat, t: Tenant, r: Subscription, e: Entitlement)
    requires s.rows == [r] && Live(r, t)
    ensures Enabled(s, Begin(tx, t))
    ensures var s1 := Apply(s, Begin(tx, t));
      Enabled(s1, Commit(tx, Active, e, None)) &&
      var s2 := Apply(s1, Commit(tx, Active, e, None));
      && s2.passes == s.passes && s2.rows == [r.(status := Canceled), Paid(t, Active, e, None)]
      && FindCurrent(s2.rows, t) == Some(Paid(t, Active, e, None))
  {
    assert LiveRows(s.rows, t) == {0};
    assert CancelSnapshot([r], t, {0}) == [r.(status := Canceled)];
  }

  lemma FourSteps(states: seq<State>, ops: seq<Op>)
    requires |states| == 5 && |ops| == 4
    requires Enabled(states[0], ops[0]) && states[1] == Apply(states[0], ops[0])
    requires Enabled(states[1], ops[1]) && states[2] == Apply(states[1], ops[1])
    requires Enabled(states[2], ops[2]) && states[3] == Apply(states[2], ops[2])
    requires Enabled(states[3], ops[3]) && states[4] == Apply(states[3], ops[3])
    ensures Run(states, ops)
  {
    hide Enabled, Apply;
  }

  lemma CancelStaysEnabled(s: State, s': State, pass: nat, t: Tenant)
    requires s.passes == s'.passes && Enabled(s, CancelListed(pass, t))
    ensures Enabled(s', CancelListed(pass, t))
  {
  }

  lemma ListsAndCancels(s: State, pass: nat, policy: Policy, now: Time, t: Tenant)
    ensures Enabled(s, ListOverdue(pass, policy, now))
    ensures t in Listed(s.rows, policy, now) ==>
      Enabled(Apply(s, ListOverdue(pass, policy, now)), CancelListed(pass, t))
    ensures Apply(s, ListOverdue(pass, policy, now)).rows == s.rows
    ensures Enabled(s, CancelListed(pass, t)) ==> Apply(s, CancelListed(pass, t)).rows == CancelCurrent(s.rows, t)
  {
  }

  /** Which does happen: a trial is listed, converted, and its active paid row canceled at the tenant's turn. */
  lemma ConvertedThenExpired(t: Tenant, policy: Policy, now: Time, e: Entitlement)
    returns (states: seq<State>, ops: seq<Op>)
    ensures Run(states, ops) && |ops| == 4 && |states[0].rows| == 1 && OverdueAt(policy, states[0].rows[0], now)
    ensures FindCurrent(states[3].rows, t) == Some(Paid(t, Active, e, None))
    ensures IsActive(policy, Paid(t, Active, e, None), now)
    ensures FindCurrent(states[4].rows, t) == None
  {
    var trial := LateTrial(t, policy, now);
    LateTrialIsListed(t, policy, now);
    ops := [ListOverdue(0, policy, now), Begin(1, t), Commit(1, Active, e, None), CancelListed(0, t)];
    var s0 := Start([trial]);
    hide Listed, OverdueAt, Apply, CancelCurrent, FindCurrent, LateTrial, Enabled, Run;
    ListsAndCancels(s0, 0, policy, now, t);
    var s1 := Apply(s0, ops[0]);
    ConvertsAlone(s1, 1, t, trial, e);
    var s2 := Apply(s1, ops[1]);
    var s3 := Apply(s2, ops[2]);
    CancelStaysEnabled(s1, s3, 0, t);
    ListsAndCancels(s3, 0, policy, now, t);
    CurrentAfterCancel(s3.rows, t, t);
    var s4 := Apply(s3, ops[3]);
    FourSteps([s0, s1, s2, s3, s4], ops);
    states := [s0, s1, s2, s3, s4];
  }
}
