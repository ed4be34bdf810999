/**
 Where A records can leak. Under every interleaving of all five operations, reapers and failing calls
 included, a live A record of a network is stored, or held by a provisioner that will claim or drop it,
 except for those left behind by a failed call of their holder or by a reaper dropping the row that
 stores them.
 */
module AddressAccounting {
  import opened Wrappers
  import opened Zone
  import opened DdnsSteps
  import opened DdnsTyping
  import opened ClaimSafety
  import opened Convergence

  ghost predicate OrphanA(s: State, n: Net, id: RecordId) {
    IsA(s.w, id, Host(n)) && !StoredA(s.w, n, id) && !HeldA(s, n, id)
  }

  ghost predicate HeldAByAnother(s: State, pid: Pid, n: Net, id: RecordId) {
    exists q :: q in s.procs && q != pid && s.procs[q].net == n && HoldsA(s.procs[q].pc, id)
  }

  /** What a call no longer accounts for. */
  ghost predicate LetsGoA(s: State, m: Move, n: Net, id: RecordId) {
    && m.pid in s.procs
    && var p := s.procs[m.pid];
    && p.net == n
    && if m.ok then p.pc.ReapDrop? && StoredA(s.w, n, id)
       else HoldsA(p.pc, id) && !StoredA(s.w, n, id)
  }

  lemma HeldAAfter(s: State, m: Move, s': State, n: Net, id: RecordId)
    requires Next(s, m, s')
    ensures HeldA(s, n, id) <==>
      (s.procs[m.pid].net == n && HoldsA(s.procs[m.pid].pc, id)) || HeldAByAnother(s, m.pid, n, id)
    ensures HeldA(s', n, id) <==>
      (s.procs[m.pid].net == n && HoldsA(s'.procs[m.pid].pc, id)) || HeldAByAnother(s, m.pid, n, id)
  {
    hide Step, HoldsA;
    if q :| q in s.procs && q != m.pid && s.procs[q].net == n && HoldsA(s.procs[q].pc, id) {
      assert s'.procs[q] == s.procs[q];
    }
    if q :| q in s'.procs && q != m.pid && s'.procs[q].net == n && HoldsA(s'.procs[q].pc, id) {
      assert s'.procs[q] == s.procs[q];
    }
  }

  /** What the mover's own step does to one A record of its network. */
  lemma OwnAccount(w: World, p: Proc, ok: bool, found: Option<RecordId>, id: RecordId)
    requires WorldTyped(w) && PcTyped(w, p.net, p.pc) && !p.pc.Finished?
    requires Provisioning(p.pc) || Reaping(p.pc)
    ensures var (w', pc') := Step(w, p, ok, found);
      var accounted := StoredA(w, p.net, id) || HoldsA(p.pc, id);
      var accounted' := StoredA(w', p.net, id) || HoldsA(pc', id);
      var letGo := if ok then p.pc.ReapDrop? && StoredA(w, p.net, id) else HoldsA(p.pc, id) && !StoredA(w, p.net, id);
      && (IsA(w', id, Host(p.net)) && !accounted' ==> IsA(w, id, Host(p.net)) && (!accounted || letGo))
      && (IsA(w, id, Host(p.net)) && letGo ==> IsA(w', id, Host(p.net)) && accounted && !accounted')
  {
    hide SetStep, ClearStep, ReportStep;
  }

  lemma OtherAccount(w: World, p: Proc, ok: bool, found: Option<RecordId>, id: RecordId)
    requires WorldTyped(w) && PcTyped(w, p.net, p.pc) && !p.pc.Finished?
    requires !Provisioning(p.pc) && !Reaping(p.pc)
    ensures var (w', pc') := Step(w, p, ok, found);
      && (IsA(w', id, Host(p.net)) <==> IsA(w, id, Host(p.net)))
      && (StoredA(w', p.net, id) <==> StoredA(w, p.net, id))
      && !HoldsA(p.pc, id) && !HoldsA(pc', id)
  {
    BystanderStep(w, p, ok, found);
    hide Step;
  }

  /** In any state whatever, a call orphans exactly the live A records it lets go of that nobody else holds. */
  lemma OrphanedExactly(s: State, m: Move, s': State, n: Net, id: RecordId)
    requires StateTyped(s) && Next(s, m, s')
    ensures OrphanA(s', n, id) && !OrphanA(s, n, id) <==>
      IsA(s.w, id, Host(n)) && LetsGoA(s, m, n, id) && !HeldAByAnother(s, m.pid, n, id)
  {
    var p := s.procs[m.pid];
    HeldAAfter(s, m, s', n, id);
    if p.net != n {
      ForeignStep(s.w, p, m.ok, m.found, n);
    } else if Provisioning(p.pc) || Reaping(p.pc) {
      OwnAccount(s.w, p, m.ok, m.found, id);
    } else {
      OtherAccount(s.w, p, m.ok, m.found, id);
    }
    hide Step, HeldA, HeldAByAnother;
  }

  /** So over a whole run in which no call lets go of the record, it is an orphan only if it was one before. */
  lemma {:induction false} OrphanFromTheStart(states: seq<State>, moves: seq<Move>, n: Net, i: nat, id: RecordId)
    requires Run(states, moves) && StateTyped(states[0]) && i <= |moves|
    requires forall k | 0 <= k < i :: !LetsGoA(states[k], moves[k], n, id)
    requires OrphanA(states[i], n, id)
    ensures OrphanA(states[0], n, id)
  {
    hide Next, OrphanA, LetsGoA, StateTyped;
    if i == 0 {
    } else {
      RunTyped(states, moves, i - 1);
      OrphanedExactly(states[i - 1], moves[i - 1], states[i], n, id);
      OrphanFromTheStart(states, moves, n, i - 1, id);
    }
  }

  // ----- A reaper leaks with no failing call

  lemma ReapedWhileClaiming(c: Pc, d: Pc)
    ensures Next(Crew(MADE, Claim(0), ReapRead, c, d), Go(1), Crew(MADE, Claim(0), ReapDrop(BARE), c, d))
    ensures Next(Crew(MADE, Claim(0), ReapDrop(BARE), c, d), Go(0),
                 Crew(UP, Finished(Provisioned), ReapDrop(BARE), c, d))
    ensures Next(Crew(UP, Finished(Provisioned), ReapDrop(BARE), c, d), Go(1),
                 Crew(ROWLESS, Finished(Provisioned), Finished(Reaped), c, d))
  {
    hide Next, Crew;
    assert ClaimRecord(MADE, 0, 0) == UP && DropRow(UP, 0) == ROWLESS;
    CrewMoves(MADE, Claim(0), ReapRead, c, d, Go(1), MADE, ReapDrop(BARE));
    CrewMoves(MADE, Claim(0), ReapDrop(BARE), c, d, Go(0), UP, Finished(Provisioned));
    CrewMoves(UP, Finished(Provisioned), ReapDrop(BARE), c, d, Go(1), ROWLESS, Finished(Reaped));
  }

  lemma LeftBehind(c: Pc, d: Pc)
    requires Starting(c) && Starting(d)
    ensures OrphanA(Crew(ROWLESS, Finished(Provisioned), Finished(Reaped), c, d), 0, 0)
  {
  }

  /**
   A reaper reads the row before it is claimed, the provisioner claims, and the reaper drops the row: every
   call succeeds, provisioning and teardown both report success, and the record is live with no row.
   */
  lemma ReaperOrphansClaimed() returns (states: seq<State>, moves: seq<Move>)
    ensures Run(states, moves) && Initial(states[0], 0) && |moves| == 6 && forall i | 0 <= i < 6 :: moves[i].ok
    ensures 0 in states[6].procs && states[6].procs[0] == Proc(0, Finished(Provisioned))
    ensures 1 in states[6].procs && states[6].procs[1] == Proc(0, Finished(Reaped))
    ensures OrphanA(states[6], 0, 0) && 0 !in states[6].w.rows
  {
    hide Next, Initial, OrphanA;
    var report := ReportRead("ip");
    states := [
      Crew(FRESH, TickRead, ReapRead, report, TickRead),
      Crew(FRESH, Find("ip"), ReapRead, report, TickRead),
      Crew(FRESH, Upsert("ip", None), ReapRead, report, TickRead),
      Crew(MADE, Claim(0), ReapRead, report, TickRead),
      Crew(MADE, Claim(0), ReapDrop(BARE), report, TickRead),
      Crew(UP, Finished(Provisioned), ReapDrop(BARE), report, TickRead),
      Crew(ROWLESS, Finished(Provisioned), Finished(Reaped), report, TickRead)];
    moves := [Go(0), Move(0, true, None), Go(0), Go(1), Go(0), Go(1)];
    CrewStarts(FRESH);
    ProvisionerCreates(ReapRead, report, TickRead);
    ReapedWhileClaiming(report, TickRead);
    LeftBehind(report, TickRead);
  }
}
