/**
 The A-record claim under any number of provisioners, reporters, ACME writers and reapers on any number
 of networks, with any call allowed to fail. As long as no reaper works on a network its claim is
 permanent: the stored id was live when it was claimed, never changes, and no replica that lost the
 claim ever deletes its record. With a reaper on the network each of these can fail, shown by two runs
 at the end.
 */
module ClaimSafety {
  import opened Wrappers
  import opened Zone
  import opened DdnsSteps
  import opened DdnsTyping

  /**
   What a provisioner knows as long as its row is not dropped: the row exists, once it has lost the
   claim somebody holds it, and the record it is about to drop is not the claimed one.
   */
  predicate RowPc(w: World, n: Net, pc: Pc) {
    match pc
    case Find(_) => n in w.rows
    case Upsert(_, _) => n in w.rows
    case Claim(_) => n in w.rows
    case Reread(_) => Claimed(w, n)
    case DropDuplicate(id) => Claimed(w, n) && w.rows[n].aId != Some(id)
    case Finished(Provisioned) => Claimed(w, n)
    case _ => true
  }

  /** While no reaper touches its network it also knows that the record it is about to claim is live. */
  predicate ClaimPc(w: World, n: Net, pc: Pc) {
    RowPc(w, n, pc) && (pc.Claim? && w.rows[n].aId.None? ==> pc.id in w.records)
  }

  ghost predicate RowInv(s: State, n: Net) {
    && StateTyped(s)
    && forall q | q in s.procs && s.procs[q].net == n :: RowPc(s.w, n, s.procs[q].pc)
  }

  ghost predicate ClaimInv(s: State, n: Net) {
    && StateTyped(s)
    && forall q | q in s.procs && s.procs[q].net == n :: ClaimPc(s.w, n, s.procs[q].pc)
  }

  /** How one network's row may change unless it is dropped. */
  ghost predicate KeepsRow(w: World, w': World, n: Net) {
    && (n in w.rows ==> n in w'.rows)
    && (Claimed(w, n) ==> w'.rows[n].aId == w.rows[n].aId)
  }

  /** How one network's claim may change while no reaper touches it. */
  ghost predicate KeepsClaim(w: World, w': World, n: Net) {
    && KeepsRow(w, w', n)
    && (Claimed(w, n) && w.rows[n].aId.value in w.records ==> w.rows[n].aId.value in w'.records)
    && (!Claimed(w, n) && Claimed(w', n) ==>
          IsA(w, w'.rows[n].aId.value, Host(n)) && IsA(w', w'.rows[n].aId.value, Host(n)))
    && (!Claimed(w, n) ==> forall id | IsA(w, id, Host(n)) :: id in w'.records)
  }

  // ----- Without a dropped row the claimed id is permanent

  lemma StepKeepsRow(w: World, p: Proc, ok: bool, found: Option<RecordId>)
    requires WorldTyped(w) && PcTyped(w, p.net, p.pc) && RowPc(w, p.net, p.pc) && !(p.pc.ReapDrop? && ok)
    ensures KeepsRow(w, Step(w, p, ok, found).0, p.net)
    ensures RowPc(Step(w, p, ok, found).0, p.net, Step(w, p, ok, found).1)
  {
  }

  lemma NextRow(s: State, m: Move, s': State, n: Net)
    requires RowInv(s, n) && Next(s, m, s') && !DropsRow(s, m, n)
    ensures RowInv(s', n) && KeepsRow(s.w, s'.w, n)
  {
    var p := s.procs[m.pid];
    NextTyped(s, m, s');
    if p.net == n {
      StepKeepsRow(s.w, p, m.ok, m.found);
    } else {
      ForeignStep(s.w, p, m.ok, m.found, n);
    }
    hide Step;
    forall q | q in s'.procs && s'.procs[q].net == n
      ensures RowPc(s'.w, n, s'.procs[q].pc)
    {
      if q != m.pid { assert s'.procs[q] == s.procs[q]; }
    }
  }

  /** Where runs begin, as far as `n` is concerned: its processes are about to make their first call. */
  ghost predicate Initial(s: State, n: Net) {
    StateTyped(s) && forall q | q in s.procs && s.procs[q].net == n :: Starting(s.procs[q].pc)
  }

  lemma {:induction false} RunRow(states: seq<State>, moves: seq<Move>, n: Net, i: nat)
    requires Run(states, moves) && Initial(states[0], n) && i <= |moves|
    requires forall k | 0 <= k < i :: !DropsRow(states[k], moves[k], n)
    ensures RowInv(states[i], n)
  {
    hide Next, DropsRow;
    if i == 0 {
    } else {
      RunRow(states, moves, n, i - 1);
      NextRow(states[i - 1], moves[i - 1], states[i], n);
    }
  }

  /** Unless the row is dropped, a claimed id never changes, even if a reaper has deleted its record. */
  lemma {:induction false} IdIsPermanent(states: seq<State>, moves: seq<Move>, n: Net, i: nat, j: nat)
    requires Run(states, moves) && Initial(states[0], n) && i <= j <= |moves|
    requires forall k | 0 <= k < j :: !DropsRow(states[k], moves[k], n)
    requires Claimed(states[i].w, n)
    ensures Claimed(states[j].w, n) && states[j].w.rows[n].aId == states[i].w.rows[n].aId
  {
    hide Next, DropsRow, RowInv;
    if i == j {
    } else {
      IdIsPermanent(states, moves, n, i, j - 1);
      RunRow(states, moves, n, j - 1);
      NextRow(states[j - 1], moves[j - 1], states[j], n);
    }
  }

  // ----- Without a reaper on the network so is its record

  lemma StepKeepsClaim(w: World, p: Proc, ok: bool, found: Option<RecordId>)
    requires WorldTyped(w) && PcTyped(w, p.net, p.pc) && ClaimPc(w, p.net, p.pc) && !Reaping(p.pc)
    ensures KeepsClaim(w, Step(w, p, ok, found).0, p.net)
  {
    StepKeepsRow(w, p, ok, found);
  }

  lemma StepClaimPc(w: World, p: Proc, ok: bool, found: Option<RecordId>)
    requires WorldTyped(w) && PcTyped(w, p.net, p.pc) && ClaimPc(w, p.net, p.pc) && !Reaping(p.pc)
    ensures ClaimPc(Step(w, p, ok, found).0, p.net, Step(w, p, ok, found).1)
  {
    StepKeepsRow(w, p, ok, found);
  }

  lemma ForeignKeepsClaim(w: World, p: Proc, ok: bool, found: Option<RecordId>, n: Net)
    requires WorldTyped(w) && PcTyped(w, p.net, p.pc) && p.net != n
    ensures KeepsClaim(w, Step(w, p, ok, found).0, n)
  {
    ForeignStep(w, p, ok, found, n);
    hide Step;
    if Claimed(w, n) {
      assert HostId(w, n, w.rows[n].aId.value);
    }
  }

  lemma ClaimPcKept(w: World, w': World, n: Net, pc: Pc)
    requires ClaimPc(w, n, pc) && PcTyped(w, n, pc) && KeepsClaim(w, w', n)
    ensures ClaimPc(w', n, pc)
  {
  }

  lemma NextClaim(s: State, m: Move, s': State, n: Net)
    requires ClaimInv(s, n) && Next(s, m, s') && NoReaper(s, m, n)
    ensures ClaimInv(s', n) && KeepsClaim(s.w, s'.w, n)
  {
    var p := s.procs[m.pid];
    NextTyped(s, m, s');
    if p.net == n {
      StepKeepsClaim(s.w, p, m.ok, m.found);
      StepClaimPc(s.w, p, m.ok, m.found);
    } else {
      ForeignKeepsClaim(s.w, p, m.ok, m.found, n);
    }
    hide Step, KeepsClaim, ClaimPc;
    forall q | q in s'.procs && s'.procs[q].net == n
      ensures ClaimPc(s'.w, n, s'.procs[q].pc)
    {
      if q != m.pid {
        assert s'.procs[q] == s.procs[q];
        ClaimPcKept(s.w, s'.w, n, s.procs[q].pc);
      }
    }
  }

  lemma {:induction false} RunClaim(states: seq<State>, moves: seq<Move>, n: Net, i: nat)
    requires Run(states, moves) && Initial(states[0], n) && ReaperFree(states, moves, n)
    requires i <= |moves|
    ensures ClaimInv(states[i], n)
  {
    hide Next;
    if i == 0 {
    } else {
      RunClaim(states, moves, n, i - 1);
      NextClaim(states[i - 1], moves[i - 1], states[i], n);
    }
  }

  /** The record id a network has claimed is the same, and its record as live, from `w` to `w'`. */
  ghost predicate SameClaim(w: World, w': World, n: Net) {
    && Claimed(w, n)
    && Claimed(w', n)
    && w'.rows[n].aId == w.rows[n].aId
    && (w.rows[n].aId.value in w.records ==> w.rows[n].aId.value in w'.records)
  }

  /** Once claimed, an A-record id never changes and its record is never deleted by anybody. */
  lemma {:induction false} ClaimIsPermanent(states: seq<State>, moves: seq<Move>, n: Net, i: nat, j: nat)
    requires Run(states, moves) && Initial(states[0], n) && ReaperFree(states, moves, n)
    requires i <= j <= |moves|
    requires Claimed(states[i].w, n)
    ensures SameClaim(states[i].w, states[j].w, n)
  {
    hide Next, ClaimInv;
    if i == j {
    } else {
      ClaimIsPermanent(states, moves, n, i, j - 1);
      RunClaim(states, moves, n, j - 1);
      NextClaim(states[j - 1], moves[j - 1], states[j], n);
    }
  }

  /** A claim made during the run names a record that is live from the claim to the end of the run. */
  lemma ClaimedWhileLive(states: seq<State>, moves: seq<Move>, n: Net, i: nat, j: nat)
    requires Run(states, moves) && Initial(states[0], n) && ReaperFree(states, moves, n)
    requires i < j <= |moves|
    requires !Claimed(states[i].w, n) && Claimed(states[i + 1].w, n)
    ensures var id := states[i + 1].w.rows[n].aId.value;
      && IsA(states[i].w, id, Host(n))
      && IsA(states[j].w, id, Host(n))
      && Claimed(states[j].w, n) && states[j].w.rows[n].aId == Some(id)
  {
    hide Next;
    RunClaim(states, moves, n, i);
    NextClaim(states[i], moves[i], states[i + 1], n);
    ClaimIsPermanent(states, moves, n, i + 1, j);
    RunClaim(states, moves, n, j);
    var id := states[i + 1].w.rows[n].aId.value;
    assert HostId(states[j].w, n, id);
  }

  // ----- What can break a claim

  /** The claim of `n` is dropped, or the record it names is deleted. */
  ghost predicate BreaksClaim(w: World, w': World, n: Net) {
    Claimed(w, n) && !SameClaim(w, w', n)
  }

  /** A reaper deletes the claimed record or drops the row. */
  ghost predicate ReaperHits(s: State, m: Move, n: Net) {
    && m.pid in s.procs
    && var p := s.procs[m.pid];
    && m.ok && Claimed(s.w, n) && p.net == n
    && (p.pc.ReapDrop? || (p.pc.ReapDeleteA? && p.pc.op.aId == s.w.rows[n].aId && p.pc.op.aId.value in s.w.records))
  }

  /** A provisioner that lost the claim deletes the claimed record as its duplicate. */
  ghost predicate LoserHits(s: State, m: Move, n: Net) {
    && m.pid in s.procs
    && var p := s.procs[m.pid];
    && m.ok && Claimed(s.w, n) && p.net == n
    && p.pc.DropDuplicate? && s.w.rows[n].aId == Some(p.pc.id) && p.pc.id in s.w.records
  }

  lemma OwnBreaks(w: World, p: Proc, ok: bool, found: Option<RecordId>)
    requires WorldTyped(w) && PcTyped(w, p.net, p.pc) && !Reaping(p.pc) && !p.pc.DropDuplicate?
    ensures !BreaksClaim(w, Step(w, p, ok, found).0, p.net)
  {
  }

  /** From any state, reached with or without reapers, a claim is broken exactly by those calls. */
  lemma BrokenExactly(s: State, m: Move, s': State, n: Net)
    requires StateTyped(s) && Next(s, m, s')
    ensures BreaksClaim(s.w, s'.w, n) <==> ReaperHits(s, m, n) || LoserHits(s, m, n)
  {
    var p := s.procs[m.pid];
    if p.net != n {
      ForeignKeepsClaim(s.w, p, m.ok, m.found, n);
    } else if Reaping(p.pc) || p.pc.DropDuplicate? {
      hide SetStep, ClearStep, ReportStep;
    } else {
      OwnBreaks(s.w, p, m.ok, m.found);
    }
  }

  /** A loser hits the claim only if a reaper has dropped the row of the network before. */
  lemma LoserNeedsDroppedRow(states: seq<State>, moves: seq<Move>, n: Net, j: nat)
    requires Run(states, moves) && Initial(states[0], n) && j < |moves|
    requires LoserHits(states[j], moves[j], n)
    ensures exists i :: 0 <= i < j && DropsRow(states[i], moves[i], n)
  {
    if forall i | 0 <= i < j :: !DropsRow(states[i], moves[i], n) {
      RunRow(states, moves, n, j);
    }
  }

  /** So in every run a broken claim is the work of a reaper on that network: there and then, or by an earlier drop. */
  lemma BrokenOnlyByReaper(states: seq<State>, moves: seq<Move>, n: Net, j: nat)
    requires Run(states, moves) && Initial(states[0], n) && j < |moves|
    requires BreaksClaim(states[j].w, states[j + 1].w, n)
    ensures ReaperHits(states[j], moves[j], n) || exists i :: 0 <= i < j && DropsRow(states[i], moves[i], n)
  {
    RunTyped(states, moves, j);
    assert Next(states[j], moves[j], states[j + 1]);
    BrokenExactly(states[j], moves[j], states[j + 1], n);
    hide Next;
    if LoserHits(states[j], moves[j], n) {
      LoserNeedsDroppedRow(states, moves, n, j);
    }
  }

  // A crew of four on network 0: a provisioner, a reaper, a reporter and a second provisioner.

  const CLAIMED := Row(Some("ip"), Some(Host(0)), Some(0), [])
  const BARE := Row(Some("ip"), None, None, [])
  const UP := World(map[0 := A(Host(0), "ip")], 1, map[0 := CLAIMED])
  const TORN := World(map[], 1, map[0 := CLAIMED])
  const EMPTY := World(map[], 1, map[])
  const REPORTED := World(map[], 1, map[0 := BARE])
  const FRESH := World(map[], 0, map[0 := BARE])
  const MADE := World(map[0 := A(Host(0), "ip")], 1, map[0 := BARE])
  const ROWLESS := World(map[0 := A(Host(0), "ip")], 1, map[])

  function Crew(w: World, a: Pc, b: Pc, c: Pc, d: Pc): State {
    var pcs := [a, b, c, d];
    State(w, map pid: Pid | 0 <= pid < 4 :: Proc(0, pcs[pid]))
  }

  function Go(pid: Pid): Move { Move(pid, true, Some(0)) }

  lemma CrewStarts(w: World)
    requires w == UP || w == FRESH
    ensures Initial(Crew(w, TickRead, ReapRead, ReportRead("ip"), TickRead), 0)
  {
  }

  /** In the crew, a process's own step is the crew's step. */
  lemma CrewMoves(w: World, a: Pc, b: Pc, c: Pc, d: Pc, m: Move, w': World, pc': Pc)
    requires m.pid < 4 && m.ok
    requires var pc := [a, b, c, d][m.pid];
      && Bounded(pc) && !pc.Finished? && (pc.Find? ==> FindAnswers(w, Host(0), m.found))
      && Step(w, Proc(0, pc), true, m.found) == (w', pc')
    ensures Next(Crew(w, a, b, c, d), m,
                 Crew(w', if m.pid == 0 then pc' else a, if m.pid == 1 then pc' else b,
                      if m.pid == 2 then pc' else c, if m.pid == 3 then pc' else d))
  {
    hide Step, Bounded, FindAnswers;
  }

  lemma ProvisionerAdopts(b: Pc, c: Pc, d: Pc)
    ensures Next(Crew(UP, TickRead, b, c, d), Go(0), Crew(UP, Find("ip"), b, c, d))
    ensures Next(Crew(UP, Find("ip"), b, c, d), Go(0), Crew(UP, Upsert("ip", Some(0)), b, c, d))
    ensures Next(Crew(UP, Upsert("ip", Some(0)), b, c, d), Go(0), Crew(UP, Claim(0), b, c, d))
  {
    hide Next, Crew;
    assert UpdateRecord(UP, 0, A(Host(0), "ip")) == UP;
    CrewMoves(UP, TickRead, b, c, d, Go(0), UP, Find("ip"));
    CrewMoves(UP, Find("ip"), b, c, d, Go(0), UP, Upsert("ip", Some(0)));
    CrewMoves(UP, Upsert("ip", Some(0)), b, c, d, Go(0), UP, Claim(0));
  }

  lemma ReaperTearsDown(a: Pc, c: Pc, d: Pc)
    ensures Next(Crew(UP, a, ReapRead, c, d), Go(1), Crew(UP, a, ReapDeleteA(CLAIMED), c, d))
    ensures Next(Crew(UP, a, ReapDeleteA(CLAIMED), c, d), Go(1), Crew(TORN, a, ReapDrop(CLAIMED), c, d))
    ensures Next(Crew(TORN, a, ReapDrop(CLAIMED), c, d), Go(1), Crew(EMPTY, a, Finished(Reaped), c, d))
  {
    hide Next, Crew;
    assert DeleteRecord(UP, 0) == TORN && DropRow(TORN, 0) == EMPTY;
    CrewMoves(UP, a, ReapRead, c, d, Go(1), UP, ReapDeleteA(CLAIMED));
    CrewMoves(UP, a, ReapDeleteA(CLAIMED), c, d, Go(1), TORN, ReapDrop(CLAIMED));
    CrewMoves(TORN, a, ReapDrop(CLAIMED), c, d, Go(1), EMPTY, Finished(Reaped));
  }

  lemma ReportThenClaim(b: Pc, d: Pc)
    ensures Next(Crew(EMPTY, Claim(0), b, ReportRead("ip"), d), Go(2), Crew(EMPTY, Claim(0), b, ReportStore("ip"), d))
    ensures Next(Crew(EMPTY, Claim(0), b, ReportStore("ip"), d), Go(2),
                 Crew(REPORTED, Claim(0), b, Finished(Reported), d))
    ensures Next(Crew(REPORTED, Claim(0), b, Finished(Reported), d), Go(0),
                 Crew(TORN, Finished(Provisioned), b, Finished(Reported), d))
  {
    hide Next, Crew;
    assert RecordIp(EMPTY, 0, "ip") == REPORTED;
    assert ClaimRecord(REPORTED, 0, 0) == TORN;
    CrewMoves(EMPTY, Claim(0), b, ReportRead("ip"), d, Go(2), EMPTY, ReportStore("ip"));
    CrewMoves(EMPTY, Claim(0), b, ReportStore("ip"), d, Go(2), REPORTED, Finished(Reported));
    CrewMoves(REPORTED, Claim(0), b, Finished(Reported), d, Go(0), TORN, Finished(Provisioned));
  }

  /**
   A reaper can leave a claim on a record that is gone: a provisioner adopts the claimed record, the
   reaper tears the network down, a report recreates the row, and the provisioner claims the deleted record.
   */
  lemma ReaperLeavesDeadClaim() returns (states: seq<State>, moves: seq<Move>)
    ensures Run(states, moves) && Initial(states[0], 0) && |moves| == 9
    ensures Claimable(states[8].w, 0) && Claimed(states[9].w, 0)
    ensures Gone(states[9].w, states[9].w.rows[0].aId.value)
  {
    var report := ReportRead("ip");
    hide Next, Initial;
    CrewStarts(UP);
    states := [
      Crew(UP, TickRead, ReapRead, report, TickRead),
      Crew(UP, Find("ip"), ReapRead, report, TickRead),
      Crew(UP, Upsert("ip", Some(0)), ReapRead, report, TickRead),
      Crew(UP, Claim(0), ReapRead, report, TickRead),
      Crew(UP, Claim(0), ReapDeleteA(CLAIMED), report, TickRead),
      Crew(TORN, Claim(0), ReapDrop(CLAIMED), report, TickRead),
      Crew(EMPTY, Claim(0), Finished(Reaped), report, TickRead),
      Crew(EMPTY, Claim(0), Finished(Reaped), ReportStore("ip"), TickRead),
      Crew(REPORTED, Claim(0), Finished(Reaped), Finished(Reported), TickRead),
      Crew(TORN, Finished(Provisioned), Finished(Reaped), Finished(Reported), TickRead)];
    moves := [Go(0), Go(0), Go(0), Go(1), Go(1), Go(1), Go(2), Go(2), Go(0)];
    ProvisionerAdopts(ReapRead, report, TickRead);
    ReaperTearsDown(Claim(0), report, TickRead);
    ReportThenClaim(Finished(Reaped), TickRead);
  }

  lemma ProvisionerCreates(b: Pc, c: Pc, d: Pc)
    ensures Next(Crew(FRESH, TickRead, b, c, d), Go(0), Crew(FRESH, Find("ip"), b, c, d))
    ensures Next(Crew(FRESH, Find("ip"), b, c, d), Move(0, true, None), Crew(FRESH, Upsert("ip", None), b, c, d))
    ensures Next(Crew(FRESH, Upsert("ip", None), b, c, d), Go(0), Crew(MADE, Claim(0), b, c, d))
  {
    hide Next, Crew;
    assert CreateRecord(FRESH, A(Host(0), "ip")) == MADE;
    CrewMoves(FRESH, TickRead, b, c, d, Go(0), FRESH, Find("ip"));
    CrewMoves(FRESH, Find("ip"), b, c, d, Move(0, true, None), FRESH, Upsert("ip", None));
    CrewMoves(FRESH, Upsert("ip", None), b, c, d, Go(0), MADE, Claim(0));
  }

  lemma ReaperDropsUnclaimed(c: Pc, d: Pc)
    ensures Next(Crew(MADE, Claim(0), ReapRead, c, d), Go(1), Crew(MADE, Claim(0), ReapDrop(BARE), c, d))
    ensures Next(Crew(MADE, Claim(0), ReapDrop(BARE), c, d), Go(1), Crew(ROWLESS, Claim(0), Finished(Reaped), c, d))
  {
    hide Next, Crew;
    assert DropRow(MADE, 0) == ROWLESS;
    CrewMoves(MADE, Claim(0), ReapRead, c, d, Go(1), MADE, ReapDrop(BARE));
    CrewMoves(MADE, Claim(0), ReapDrop(BARE), c, d, Go(1), ROWLESS, Finished(Reaped));
  }

  lemma ProvisionerLoses(b: Pc, c: Pc, d: Pc)
    ensures Next(Crew(ROWLESS, Claim(0), b, c, d), Go(0), Crew(ROWLESS, Reread(0), b, c, d))
    ensures Next(Crew(ROWLESS, Reread(0), b, c, d), Go(0), Crew(ROWLESS, DropDuplicate(0), b, c, d))
  {
    hide Next, Crew;
    CrewMoves(ROWLESS, Claim(0), b, c, d, Go(0), ROWLESS, Reread(0));
    CrewMoves(ROWLESS, Reread(0), b, c, d, Go(0), ROWLESS, DropDuplicate(0));
  }

  lemma ReporterRecreates(a: Pc, b: Pc, d: Pc)
    ensures Next(Crew(ROWLESS, a, b, ReportRead("ip"), d), Go(2), Crew(ROWLESS, a, b, ReportStore("ip"), d))
    ensures Next(Crew(ROWLESS, a, b, ReportStore("ip"), d), Go(2), Crew(MADE, a, b, Finished(Reported), d))
  {
    hide Next, Crew;
    assert RecordIp(ROWLESS, 0, "ip") == MADE;
    CrewMoves(ROWLESS, a, b, ReportRead("ip"), d, Go(2), ROWLESS, ReportStore("ip"));
    CrewMoves(ROWLESS, a, b, ReportStore("ip"), d, Go(2), MADE, Finished(Reported));
  }

  lemma OtherClaims(a: Pc, b: Pc, c: Pc)
    ensures Next(Crew(MADE, a, b, c, TickRead), Go(3), Crew(MADE, a, b, c, Find("ip")))
    ensures Next(Crew(MADE, a, b, c, Find("ip")), Go(3), Crew(MADE, a, b, c, Upsert("ip", Some(0))))
    ensures Next(Crew(MADE, a, b, c, Upsert("ip", Some(0))), Go(3), Crew(MADE, a, b, c, Claim(0)))
    ensures Next(Crew(MADE, a, b, c, Claim(0)), Go(3), Crew(UP, a, b, c, Finished(Provisioned)))
  {
    hide Next, Crew;
    assert UpdateRecord(MADE, 0, A(Host(0), "ip")) == MADE;
    assert ClaimRecord(MADE, 0, 0) == UP;
    CrewMoves(MADE, a, b, c, TickRead, Go(3), MADE, Find("ip"));
    CrewMoves(MADE, a, b, c, Find("ip"), Go(3), MADE, Upsert("ip", Some(0)));
    CrewMoves(MADE, a, b, c, Upsert("ip", Some(0)), Go(3), MADE, Claim(0));
    CrewMoves(MADE, a, b, c, Claim(0), Go(3), UP, Finished(Provisioned));
  }

  lemma LoserDeletes(b: Pc, c: Pc, d: Pc)
    ensures Next(Crew(UP, DropDuplicate(0), b, c, d), Go(0), Crew(TORN, Finished(Provisioned), b, c, d))
    ensures LoserHits(Crew(UP, DropDuplicate(0), b, c, d), Go(0), 0) && BreaksClaim(UP, TORN, 0)
  {
    assert LoserHits(Crew(UP, DropDuplicate(0), b, c, d), Go(0), 0) && BreaksClaim(UP, TORN, 0);
    hide Next, Crew;
    assert DeleteRecord(UP, 0) == TORN;
    CrewMoves(UP, DropDuplicate(0), b, c, d, Go(0), TORN, Finished(Provisioned));
  }

  /**
   And it can turn a loser against the winner: a provisioner creates a record, a reaper drops the
   unclaimed row, the provisioner finds no claim, a report recreates the row, another provisioner adopts
   and claims the record, and the first one deletes it as its duplicate.
   */
  lemma LoserDeletesClaimed() returns (states: seq<State>, moves: seq<Move>)
    ensures Run(states, moves) && Initial(states[0], 0) && |moves| == 14
    ensures LoserHits(states[13], moves[13], 0) && BreaksClaim(states[13].w, states[14].w, 0)
  {
    var report, reaped, reported := ReportRead("ip"), Finished(Reaped), Finished(Reported);
    hide Next, Initial, LoserHits, BreaksClaim;
    CrewStarts(FRESH);
    states := [
      Crew(FRESH, TickRead, ReapRead, report, TickRead),
      Crew(FRESH, Find("ip"), ReapRead, report, TickRead),
      Crew(FRESH, Upsert("ip", None), ReapRead, report, TickRead),
      Crew(MADE, Claim(0), ReapRead, report, TickRead),
      Crew(MADE, Claim(0), ReapDrop(BARE), report, TickRead),
      Crew(ROWLESS, Claim(0), reaped, report, TickRead),
      Crew(ROWLESS, Reread(0), reaped, report, TickRead),
      Crew(ROWLESS, DropDuplicate(0), reaped, report, TickRead),
      Crew(ROWLESS, DropDuplicate(0), reaped, ReportStore("ip"), TickRead),
      Crew(MADE, DropDuplicate(0), reaped, reported, TickRead),
      Crew(MADE, DropDuplicate(0), reaped, reported, Find("ip")),
      Crew(MADE, DropDuplicate(0), reaped, reported, Upsert("ip", Some(0))),
      Crew(MADE, DropDuplicate(0), reaped, reported, Claim(0)),
      Crew(UP, DropDuplicate(0), reaped, reported, Finished(Provisioned)),
      Crew(TORN, Finished(Provisioned), reaped, reported, Finished(Provisioned))];
    moves := [Go(0), Move(0, true, None), Go(0), Go(1), Go(1), Go(0), Go(0), Go(2), Go(2),
              Go(3), Go(3), Go(3), Go(3), Go(0)];
    ProvisionerCreates(ReapRead, report, TickRead);
    ReaperDropsUnclaimed(report, TickRead);
    ProvisionerLoses(reaped, report, TickRead);
    ReporterRecreates(DropDuplicate(0), reaped, TickRead);
    OtherClaims(DropDuplicate(0), reaped, reported);
    LoserDeletes(reaped, reported, Finished(Provisioned));
    assert Run(states, moves);
  }
}
