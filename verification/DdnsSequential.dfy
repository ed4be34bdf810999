/**
 Operations run one after the other. Running one alone is a run of the interleaving model, so the
 safety results apply to it; and when no call fails, a claimed A record always points at the stored IP.
 */
module DdnsSequential {
  import opened Wrappers
  import opened Zone
  import opened DdnsSteps
  import opened DdnsTyping
  import opened DdnsService

  ghost function Solo(w: World, p: Proc): State {
    State(w, map[0 := p])
  }

  lemma SoloMove(w: World, p: Proc, tape: seq<bool>)
    requires WorldTyped(w) && PcTyped(w, p.net, p.pc) && !p.pc.Finished?
    ensures var found := Find1(w, Host(p.net));
      var (w', pc) := Step(w, p, CallOk(tape), found);
      && Next(Solo(w, p), Move(0, CallOk(tape), found), Solo(w', Proc(p.net, pc)))
      && WorldTyped(w') && PcTyped(w', p.net, pc)
  {
    var found := Find1(w, Host(p.net));
    var (w', pc) := Step(w, p, CallOk(tape), found);
    var s := Solo(w, p);
    assert StateTyped(s);
    assert s.procs[0 := Proc(p.net, pc)] == Solo(w', Proc(p.net, pc)).procs;
    NextTyped(s, Move(0, CallOk(tape), found), Solo(w', Proc(p.net, pc)));
    assert 0 in Solo(w', Proc(p.net, pc)).procs;
  }

  /** Running an operation to its end is a run of the interleaving model with a single process. */
  lemma {:induction false} ExecIsRun(w: World, p: Proc, tape: seq<bool>) returns (states: seq<State>, moves: seq<Move>)
    requires WorldTyped(w) && PcTyped(w, p.net, p.pc)
    ensures Run(states, moves) && states[0] == Solo(w, p)
    ensures var r := Exec(w, p, tape); states[|moves|] == Solo(r.w, Proc(p.net, Finished(r.outcome)))
    ensures WorldTyped(Exec(w, p, tape).w)
    decreases Stage(p.pc), Left(p.pc)
  {
    hide Step, Next, WorldTyped, PcTyped;
    if p.pc.Finished? {
      states, moves := [Solo(w, p)], [];
    } else {
      var found := Find1(w, Host(p.net));
      BoundedPc(w, p);
      SoloMove(w, p, tape);
      var (w', pc) := Step(w, p, CallOk(tape), found);
      StepProgress(w, p, CallOk(tape), found);
      var states', moves' := ExecIsRun(w', Proc(p.net, pc), Rest(tape));
      states, moves := [Solo(w, p)] + states', [Move(0, CallOk(tape), found)] + moves';
      forall i | 0 <= i < |moves| ensures Next(states[i], moves[i], states[i + 1]) {
        if i > 0 { assert Next(states'[i - 1], moves'[i - 1], states'[i]); }
      }
    }
  }

  lemma BoundedPc(w: World, p: Proc)
    requires PcTyped(w, p.net, p.pc)
    ensures Bounded(p.pc)
  {
  }

  // ----- A claimed record points at the stored IP

  ghost predicate Synced(w: World, n: Net) {
    Claimed(w, n) ==> IsA(w, w.rows[n].aId.value, Host(n)) && w.rows[n].ip == Some(w.records[w.rows[n].aId.value].ip)
  }

  ghost predicate OneHost(w: World, n: Net) {
    forall i, j | IsA(w, i, Host(n)) && IsA(w, j, Host(n)) :: i == j
  }

  ghost predicate InSync(w: World) {
    WorldTyped(w) && forall n: Net :: OneHost(w, n) && Synced(w, n)
  }

  /** What holds of its own network while an operation is under way. */
  ghost predicate SyncPc(w: World, n: Net, pc: Pc) {
    && PcTyped(w, n, pc)
    && match pc
       case Find(ip) => Synced(w, n) && n in w.rows && w.rows[n].ip == Some(ip)
       case Upsert(ip, found) =>
         Synced(w, n) && n in w.rows && w.rows[n].ip == Some(ip) && FindAnswers(w, Host(n), found)
       case Claim(id) => Synced(w, n) && n in w.rows && IsA(w, id, Host(n)) && w.rows[n].ip == Some(w.records[id].ip)
       case Reread(id) => Synced(w, n) && Claimed(w, n) && w.rows[n].aId == Some(id)
       case DropDuplicate(_) => false
       case ReportUpdate(_, id, fqdn) => Synced(w, n) && Claimed(w, n) && w.rows[n].aId == Some(id)
       case ReportStore(ip) =>
         Claimed(w, n) ==> IsA(w, w.rows[n].aId.value, Host(n)) && w.records[w.rows[n].aId.value].ip == ip
       case ReapDeleteTxt(_, _) => true
       case ReapDrop(_) => true
       case _ => Synced(w, n)
  }

  ghost predicate SyncExcept(w: World, n: Net) {
    WorldTyped(w) && (forall m: Net :: OneHost(w, m)) && forall m: Net | m != n :: Synced(w, m)
  }

  lemma ProvisionSync(w: World, n: Net, pc: Pc, found: Option<RecordId>)
    requires WorldTyped(w) && OneHost(w, n) && SyncPc(w, n, pc) && Provisioning(pc)
    requires pc.Find? ==> FindAnswers(w, Host(n), found)
    ensures var (w', pc') := ProvisionStep(w, n, pc, true, found); SyncPc(w', n, pc') && OneHost(w', n)
  {
    var (w', pc') := ProvisionStep(w, n, pc, true, found);
    match pc
    case Upsert(ip, None) =>
      assert forall i | IsA(w', i, Host(n)) :: i == w.next;
    case Upsert(ip, Some(id)) =>
      assert forall i | IsA(w', i, Host(n)) :: IsA(w, i, Host(n));
    case Claim(id) =>
      assert forall i | IsA(w', i, Host(n)) :: IsA(w, i, Host(n));
    case _ =>
  }

  lemma ReportSync(w: World, n: Net, pc: Pc)
    requires WorldTyped(w) && OneHost(w, n) && SyncPc(w, n, pc) && Reporting(pc)
    ensures var (w', pc') := ReportStep(w, n, pc, true); SyncPc(w', n, pc') && OneHost(w', n)
  {
    var w' := ReportStep(w, n, pc, true).0;
    assert forall i | IsA(w', i, Host(n)) :: IsA(w, i, Host(n));
  }

  lemma ReapSync(w: World, p: Proc)
    requires WorldTyped(w) && OneHost(w, p.net) && SyncPc(w, p.net, p.pc) && Reaping(p.pc)
    ensures var (w', pc') := ReapStep(w, p.net, p.pc, true); SyncPc(w', p.net, pc') && OneHost(w', p.net)
  {
    var w' := ReapStep(w, p.net, p.pc, true).0;
    ReapPcTyped(w, p, true, None);
    assert forall i | IsA(w', i, Host(p.net)) :: IsA(w, i, Host(p.net));
  }

  /** An ACME call leaves every A record, and the claim and IP of the row, as they are. */
  lemma AcmeLeavesHost(w: World, p: Proc)
    requires WorldTyped(w) && PcTyped(w, p.net, p.pc) && (Setting(p.pc) || Clearing(p.pc))
    ensures var w' := Step(w, p, true, None).0;
      && (forall i :: IsA(w', i, Host(p.net)) <==> IsA(w, i, Host(p.net)))
      && (forall i | IsA(w, i, Host(p.net)) :: w'.records[i] == w.records[i])
      && RowOf(w', p.net).aId == RowOf(w, p.net).aId
      && RowOf(w', p.net).ip == RowOf(w, p.net).ip
      && (Claimed(w', p.net) <==> Claimed(w, p.net))
  {
  }

  lemma AcmeSync(w: World, p: Proc)
    requires WorldTyped(w) && OneHost(w, p.net) && SyncPc(w, p.net, p.pc) && (Setting(p.pc) || Clearing(p.pc))
    ensures var (w', pc') := Step(w, p, true, None); SyncPc(w', p.net, pc') && OneHost(w', p.net)
  {
    AcmeLeavesHost(w, p);
    StepPcTyped(w, p, true, None);
    var pc' := Step(w, p, true, None).1;
    assert Setting(pc') || Clearing(pc') || pc'.Finished?;
  }

  lemma OwnSync(w: World, p: Proc, found: Option<RecordId>)
    requires WorldTyped(w) && OneHost(w, p.net) && SyncPc(w, p.net, p.pc)
    requires p.pc.Find? ==> FindAnswers(w, Host(p.net), found)
    ensures var (w', pc') := Step(w, p, true, found); SyncPc(w', p.net, pc') && OneHost(w', p.net)
  {
    hide SyncPc, OneHost;
    if Provisioning(p.pc) {
      ProvisionSync(w, p.net, p.pc, found);
    } else if Reporting(p.pc) {
      ReportSync(w, p.net, p.pc);
    } else if Reaping(p.pc) {
      ReapSync(w, p);
    } else if !p.pc.Finished? {
      AcmeSync(w, p);
    }
  }

  /** A step leaves the A records and the row of every other network exactly as they are. */
  lemma OthersSync(w: World, p: Proc, found: Option<RecordId>, m: Net)
    requires WorldTyped(w) && PcTyped(w, p.net, p.pc) && m != p.net
    requires Synced(w, m) && OneHost(w, m)
    ensures var w' := Step(w, p, true, found).0; Synced(w', m) && OneHost(w', m)
  {
    var w' := Step(w, p, true, found).0;
    ForeignStep(w, p, true, found, m);
    if Claimed(w, m) { ForeignContent(w, p, true, found, w.rows[m].aId.value, m); }
  }

  lemma ForeignContent(w: World, p: Proc, ok: bool, found: Option<RecordId>, id: RecordId, m: Net)
    requires WorldTyped(w) && PcTyped(w, p.net, p.pc) && m != p.net && IsA(w, id, Host(m))
    ensures var w' := Step(w, p, ok, found).0; id in w'.records && w'.records[id] == w.records[id]
  {
  }

  lemma TypedPc(w: World, p: Proc)
    requires SyncPc(w, p.net, p.pc)
    ensures PcTyped(w, p.net, p.pc)
  {
  }

  lemma StepSync(w: World, p: Proc, found: Option<RecordId>)
    requires SyncExcept(w, p.net) && SyncPc(w, p.net, p.pc)
    requires p.pc.Find? ==> FindAnswers(w, Host(p.net), found)
    ensures var (w', pc') := Step(w, p, true, found); SyncExcept(w', p.net) && SyncPc(w', p.net, pc')
  {
    hide Step, Synced, OneHost, SyncPc, PcTyped, WorldTyped;
    assert OneHost(w, p.net);
    OwnSync(w, p, found);
    TypedPc(w, p);
    StepWorldTyped(w, p, true, found);
    forall m: Net | m != p.net
      ensures Synced(Step(w, p, true, found).0, m) && OneHost(Step(w, p, true, found).0, m)
    {
      OthersSync(w, p, found, m);
    }
  }

  lemma {:induction false} ExecSync(w: World, p: Proc)
    requires SyncExcept(w, p.net) && SyncPc(w, p.net, p.pc)
    ensures InSync(Exec(w, p, []).w)
    decreases Stage(p.pc), Left(p.pc)
  {
    if p.pc.Finished? {
    } else {
      var found := Find1(w, Host(p.net));
      StepSync(w, p, found);
      StepProgress(w, p, true, found);
      var (w', pc') := Step(w, p, true, found);
      ExecSync(w', Proc(p.net, pc'));
    }
  }

  ghost predicate AllStarting(jobs: seq<Proc>) {
    forall i | 0 <= i < |jobs| :: Starting(jobs[i].pc)
  }

  ghost function ExecAll(w: World, jobs: seq<Proc>): World
    requires AllStarting(jobs)
    decreases |jobs|
  {
    if jobs == [] then w
    else
      assert Starting(jobs[0].pc);
      ExecAll(Exec(w, jobs[0], []).w, jobs[1..])
  }

  /**
   Over any sequence of reports, provisioner turns, ACME writes and teardowns in which no call fails,
   a claimed record exists, is the only A record of its network and holds the stored IP.
   */
  lemma {:induction false} SequentialStaysInSync(w: World, jobs: seq<Proc>)
    requires InSync(w) && AllStarting(jobs)
    ensures InSync(ExecAll(w, jobs))
    decreases |jobs|
  {
    hide Exec;
    if jobs == [] {
    } else {
      assert Starting(jobs[0].pc);
      ExecSync(w, jobs[0]);
      SequentialStaysInSync(Exec(w, jobs[0], []).w, jobs[1..]);
    }
  }

  /**
   With failures it is not so: a report leaves record and row apart exactly when the update of the
   record goes through, storing the IP afterwards fails, and the IP is a new one.
   */
  lemma HalfReportDesyncs(w: World, n: Net, ip: Ip, tape: seq<bool>)
    requires InSync(w)
    ensures Synced(Exec(w, Proc(n, ReportRead(ip)), tape).w, n) <==>
            !(Claimed(w, n) && w.rows[n].ip != Some(ip)
              && CallOk(tape) && CallOk(Rest(tape)) && !CallOk(Rest(Rest(tape))))
  {
    hide Exec, Step;
    assert OneHost(w, n) && Synced(w, n);
    UnrollReport(w, n, ReportRead(ip), tape);
    var row := RowOf(w, n);
    if Claimed(w, n) {
      assert row.fqdn == Some(Host(n));
      UnrollReport(w, n, ReportUpdate(ip, row.aId.value, Host(n)), Rest(tape));
      UnrollReport(UpdateRecord(w, row.aId.value, A(Host(n), ip)), n, ReportStore(ip), Rest(Rest(tape)));
    } else {
      UnrollReport(w, n, ReportStore(ip), Rest(tape));
    }
  }
}
