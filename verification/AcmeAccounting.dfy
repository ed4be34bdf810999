/**
 Where ACME TXT records can leak. Under every interleaving of ACME writers with each other and with
 reapers, reports and provisioners, each live TXT record of a network is in the stored list or held by
 an in-flight writer, except for the records left behind by a lost or failed compare-and-set, a failed
 clean-up delete, or a reaper that drops a row whose list changed after it was read.
 */
module AcmeAccounting {
  import opened Wrappers
  import opened Zone
  import opened DdnsSteps
  import opened DdnsTyping

  ghost predicate AllGone(w: World, ids: seq<RecordId>) {
    forall i | 0 <= i < |ids| :: ids[i] !in w.records
  }

  /** Which of the records it read a writer (or reaper) has already deleted. */
  ghost predicate AcmePc(w: World, pc: Pc) {
    match pc
    case SetDelete(_, prior, k) => k <= |prior| && AllGone(w, prior[..k])
    case SetCreate(_, prior, _) => AllGone(w, prior)
    case SetCleanup(prior, _, _) => AllGone(w, prior)
    case SetClear(prior) => AllGone(w, prior)
    case SetCas(prior, _) => AllGone(w, prior)
    case ClearDelete(prior, k) => k <= |prior| && AllGone(w, prior[..k])
    case ClearCas(prior) => AllGone(w, prior)
    case ReapDeleteTxt(op, k) => k <= |op.acme| && AllGone(w, op.acme[..k])
    case ReapDrop(op) => AllGone(w, op.acme)
    case _ => true
  }

  ghost predicate AcmeInv(s: State) {
    && StateTyped(s)
    && forall q | q in s.procs :: AcmePc(s.w, s.procs[q].pc)
  }

  lemma AcmePcStable(w: World, w': World, n: Net, pc: Pc)
    requires AcmePc(w, pc) && PcTyped(w, n, pc) && Stable(w, w')
    ensures AcmePc(w', pc)
  {
  }

  lemma DeleteExtends(w: World, ids: seq<RecordId>, k: nat)
    requires k < |ids| && AllGone(w, ids[..k])
    ensures AllGone(DeleteRecord(w, ids[k]), ids[..k + 1])
    ensures k + 1 == |ids| ==> AllGone(DeleteRecord(w, ids[k]), ids)
  {
    assert ids[..k + 1] == ids[..k] + [ids[k]];
  }

  lemma DeletingAcmePc(w: World, p: Proc, ok: bool, found: Option<RecordId>)
    requires Bounded(p.pc) && AcmePc(w, p.pc)
    requires p.pc.SetDelete? || p.pc.ClearDelete? || p.pc.ReapDeleteTxt?
    ensures AcmePc(Step(w, p, ok, found).0, Step(w, p, ok, found).1)
  {
    var ids := if p.pc.ReapDeleteTxt? then p.pc.op.acme else p.pc.prior;
    DeleteExtends(w, ids, p.pc.k);
  }

  lemma CreatingAcmePc(w: World, p: Proc, ok: bool, found: Option<RecordId>)
    requires PcTyped(w, p.net, p.pc) && AcmePc(w, p.pc)
    requires p.pc.SetCreate? || p.pc.SetCleanup?
    ensures AcmePc(Step(w, p, ok, found).0, Step(w, p, ok, found).1)
  {
  }

  /** Work on A records never touches a list. */
  lemma HostAcmePc(w: World, p: Proc, ok: bool, found: Option<RecordId>)
    requires Provisioning(p.pc) || Reporting(p.pc)
    ensures AcmePc(Step(w, p, ok, found).0, Step(w, p, ok, found).1)
  {
    hide SetStep, ClearStep, ReapStep, AllGone;
  }

  /** Reads start from an empty prefix, and the remaining calls end the list work. */
  lemma OtherAcmePc(w: World, p: Proc, ok: bool, found: Option<RecordId>)
    requires Bounded(p.pc) && AcmePc(w, p.pc)
    requires !p.pc.SetDelete? && !p.pc.ClearDelete? && !p.pc.ReapDeleteTxt? && !p.pc.SetCreate? && !p.pc.SetCleanup?
    requires !Provisioning(p.pc) && !Reporting(p.pc)
    ensures AcmePc(Step(w, p, ok, found).0, Step(w, p, ok, found).1)
  {
  }

  lemma StepAcmePc(w: World, p: Proc, ok: bool, found: Option<RecordId>)
    requires PcTyped(w, p.net, p.pc) && AcmePc(w, p.pc)
    ensures AcmePc(Step(w, p, ok, found).0, Step(w, p, ok, found).1)
  {
    hide Step, AcmePc;
    if p.pc.SetDelete? || p.pc.ClearDelete? || p.pc.ReapDeleteTxt? {
      DeletingAcmePc(w, p, ok, found);
    } else if p.pc.SetCreate? || p.pc.SetCleanup? {
      CreatingAcmePc(w, p, ok, found);
    } else if Provisioning(p.pc) || Reporting(p.pc) {
      HostAcmePc(w, p, ok, found);
    } else {
      OtherAcmePc(w, p, ok, found);
    }
  }

  lemma NextAcme(s: State, m: Move, s': State)
    requires AcmeInv(s) && Next(s, m, s')
    ensures AcmeInv(s')
  {
    NextTyped(s, m, s');
    StepAcmePc(s.w, s.procs[m.pid], m.ok, m.found);
    forall q | q in s'.procs ensures AcmePc(s'.w, s'.procs[q].pc) {
      if q != m.pid { AcmePcStable(s.w, s'.w, s.procs[q].net, s.procs[q].pc); }
    }
  }

  lemma {:induction false} RunAcme(states: seq<State>, moves: seq<Move>, i: nat)
    requires Run(states, moves) && AcmeInv(states[0])
    requires i <= |moves|
    ensures AcmeInv(states[i])
  {
    hide Next, AcmeInv;
    if i == 0 {
    } else {
      RunAcme(states, moves, i - 1);
      NextAcme(states[i - 1], moves[i - 1], states[i]);
    }
  }

  // ----- Accounting

  /** The records an in-flight writer has created and not yet stored or deleted. */
  function Holds(pc: Pc): seq<RecordId> {
    match pc
    case SetCreate(_, _, created) => created
    case SetCas(_, created) => created
    case SetCleanup(_, created, k) => if k <= |created| then created[k..] else []
    case _ => []
  }

  predicate Stored(w: World, n: Net, id: RecordId) {
    n in w.rows && id in w.rows[n].acme
  }

  ghost predicate Held(s: State, n: Net, id: RecordId) {
    exists q :: q in s.procs && s.procs[q].net == n && id in Holds(s.procs[q].pc)
  }

  ghost predicate Orphan(s: State, n: Net, id: RecordId) {
    IsTxt(s.w, id, Acme(n)) && !Stored(s.w, n, id) && !Held(s, n, id)
  }

  /** The only calls that may orphan a TXT record of `n`. */
  ghost predicate Leaks(s: State, m: Move, n: Net)
    requires m.pid in s.procs
  {
    var p := s.procs[m.pid];
    && p.net == n
    && match p.pc
       case SetCas(prior, _) => !m.ok || !AcmeMatches(s.w, n, prior)
       case SetCleanup(_, _, _) => !m.ok
       case ReapDrop(op) => m.ok && RowOf(s.w, n).acme != op.acme
       case _ => false
  }

  /** A compare-and-set that goes through replaces only records its writer has already deleted. */
  lemma CasReplacesOnlyDeleted(s: State, m: Move, n: Net, id: RecordId)
    requires AcmeInv(s) && Enabled(s, m) && m.ok && s.procs[m.pid].net == n
    requires var pc := s.procs[m.pid].pc; pc.SetCas? || pc.SetClear? || pc.ClearCas?
    requires AcmeMatches(s.w, n, s.procs[m.pid].pc.prior)
    requires Stored(s.w, n, id)
    ensures id !in s.w.records
    ensures id < s.w.next
  {
    var prior := s.procs[m.pid].pc.prior;
    assert AcmePc(s.w, s.procs[m.pid].pc);
    assert PcTyped(s.w, n, s.procs[m.pid].pc);
    var i :| 0 <= i < |prior| && prior[i] == id;
  }

  lemma ReapDropsOnlyDeleted(s: State, m: Move, n: Net, id: RecordId)
    requires AcmeInv(s) && Enabled(s, m) && s.procs[m.pid].net == n
    requires s.procs[m.pid].pc.ReapDrop? && RowOf(s.w, n).acme == s.procs[m.pid].pc.op.acme
    requires Stored(s.w, n, id)
    ensures id !in s.w.records
  {
    assert AcmePc(s.w, s.procs[m.pid].pc);
    var acme := s.procs[m.pid].pc.op.acme;
    var i :| 0 <= i < |acme| && acme[i] == id;
  }

  /** A record stops being stored only because it is gone already, or by a leak. */
  lemma UnstoredIsGone(s: State, m: Move, s': State, n: Net, id: RecordId)
    requires AcmeInv(s) && Next(s, m, s') && !Leaks(s, m, n)
    requires Stored(s.w, n, id) && !Stored(s'.w, n, id)
    ensures id !in s'.w.records
  {
    var p := s.procs[m.pid];
    NextTyped(s, m, s');
    assert TxtId(s.w, n, id) by {
      var i :| 0 <= i < |s.w.rows[n].acme| && s.w.rows[n].acme[i] == id;
      assert RowTyped(s.w, n, s.w.rows[n]);
    }
    if p.pc.ReapDrop? {
      ReapDropsOnlyDeleted(s, m, n, id);
    } else {
      CasReplacesOnlyDeleted(s, m, n, id);
    }
  }

  /** The mover hands over what it held: to its next position, to the stored list, or to a delete. */
  lemma MoverHandsOver(w: World, p: Proc, ok: bool, found: Option<RecordId>, id: RecordId)
    requires Bounded(p.pc) && id in Holds(p.pc)
    ensures var (w', pc') := Step(w, p, ok, found);
      || id in Holds(pc')
      || Stored(w', p.net, id)
      || id !in w'.records
      || (p.pc.SetCleanup? && !ok)
      || (p.pc.SetCas? && (!ok || !AcmeMatches(w, p.net, p.pc.prior)))
  {
  }

  /** A new TXT record is held by the writer that created it. */
  lemma NewTxtIsHeld(w: World, p: Proc, ok: bool, found: Option<RecordId>, n: Net, id: RecordId)
    requires WorldTyped(w) && PcTyped(w, p.net, p.pc)
    requires !IsTxt(w, id, Acme(n)) && IsTxt(Step(w, p, ok, found).0, id, Acme(n))
    ensures p.net == n && id in Holds(Step(w, p, ok, found).1)
  {
  }

  lemma HeldByOthers(s: State, m: Move, s': State, n: Net, id: RecordId)
    requires Next(s, m, s') && Held(s, n, id)
    requires s.procs[m.pid].net == n ==> id !in Holds(s.procs[m.pid].pc)
    ensures Held(s', n, id)
  {
    var q :| q in s.procs && s.procs[q].net == n && id in Holds(s.procs[q].pc);
    assert q in s'.procs && s'.procs[q] == s.procs[q];
  }

  /** No step but a leak creates an orphan. */
  lemma OrphansOnlyByLeak(s: State, m: Move, s': State, n: Net, id: RecordId)
    requires AcmeInv(s) && Next(s, m, s') && !Leaks(s, m, n)
    requires Orphan(s', n, id)
    ensures Orphan(s, n, id)
  {
    var p := s.procs[m.pid];
    assert s'.procs[m.pid].net == p.net;
    assert p.net == n ==> id !in Holds(s'.procs[m.pid].pc);
    if !IsTxt(s.w, id, Acme(n)) {
      NewTxtIsHeld(s.w, p, m.ok, m.found, n, id);
    }
    if Stored(s.w, n, id) {
      UnstoredIsGone(s, m, s', n, id);
    }
    if Held(s, n, id) {
      if p.net == n && id in Holds(p.pc) {
        MoverHandsOver(s.w, p, m.ok, m.found, id);
      } else {
        HeldByOthers(s, m, s', n, id);
      }
    }
  }

  ghost predicate HeldByAnother(s: State, pid: Pid, n: Net, id: RecordId) {
    exists q :: q in s.procs && q != pid && s.procs[q].net == n && id in Holds(s.procs[q].pc)
  }

  /** What a leaking call no longer accounts for. */
  ghost predicate LetsGo(s: State, m: Move, n: Net, id: RecordId)
    requires m.pid in s.procs
  {
    match s.procs[m.pid].pc
    case SetCas(_, created) => id in created && !Stored(s.w, n, id)
    case SetCleanup(_, created, k) =>
      k < |created| && id == created[k] && id !in created[k + 1..] && !Stored(s.w, n, id)
    case ReapDrop(_) => Stored(s.w, n, id)
    case _ => false
  }

  /** A leaking call orphans exactly the live records it lets go of that no other writer holds. */
  lemma LeakOrphansExactly(s: State, m: Move, s': State, n: Net, id: RecordId)
    requires AcmeInv(s) && Next(s, m, s') && Leaks(s, m, n)
    ensures Orphan(s', n, id) && !Orphan(s, n, id) <==>
      IsTxt(s.w, id, Acme(n)) && LetsGo(s, m, n, id) && !HeldByAnother(s, m.pid, n, id)
  {
    var p, p' := s.procs[m.pid], s'.procs[m.pid];
    assert IsTxt(s'.w, id, Acme(n)) <==> IsTxt(s.w, id, Acme(n));
    assert p.pc.SetCleanup? ==> p.pc.created[p.pc.k..] == [p.pc.created[p.pc.k]] + p.pc.created[p.pc.k + 1..];
    assert Held(s, n, id) <==> id in Holds(p.pc) || HeldByAnother(s, m.pid, n, id);
    HeldAfter(s, m, s', n, id);
  }

  lemma HeldAfter(s: State, m: Move, s': State, n: Net, id: RecordId)
    requires Next(s, m, s') && s.procs[m.pid].net == n
    ensures Held(s', n, id) <==> id in Holds(s'.procs[m.pid].pc) || HeldByAnother(s, m.pid, n, id)
  {
    hide Step, Holds;
    if q :| q in s.procs && q != m.pid && s.procs[q].net == n && id in Holds(s.procs[q].pc) {
      assert s'.procs[q] == s.procs[q];
    }
    if Held(s', n, id) && id !in Holds(s'.procs[m.pid].pc) {
      var q :| q in s'.procs && s'.procs[q].net == n && id in Holds(s'.procs[q].pc);
      assert s'.procs[q] == s.procs[q];
    }
  }

  ghost predicate LeakFree(states: seq<State>, moves: seq<Move>, n: Net)
    requires |states| == |moves| + 1
  {
    forall i | 0 <= i < |moves| :: moves[i].pid in states[i].procs && !Leaks(states[i], moves[i], n)
  }

  /** Over a whole run without such a call, no orphan appears. */
  lemma {:induction false} NoNewOrphans(states: seq<State>, moves: seq<Move>, n: Net, i: nat, id: RecordId)
    requires Run(states, moves) && AcmeInv(states[0]) && LeakFree(states, moves, n)
    requires i <= |moves|
    requires Orphan(states[i], n, id)
    ensures Orphan(states[0], n, id)
  {
    hide Next, AcmeInv, Orphan, Leaks;
    if i == 0 {
    } else {
      RunAcme(states, moves, i - 1);
      OrphansOnlyByLeak(states[i - 1], moves[i - 1], states[i], n, id);
      NoNewOrphans(states, moves, n, i - 1, id);
    }
  }

  /** So when the network's processes have finished, a live TXT record is stored or was an orphan from the start. */
  lemma QuietEnd(states: seq<State>, moves: seq<Move>, n: Net, id: RecordId)
    requires Run(states, moves) && AcmeInv(states[0]) && LeakFree(states, moves, n)
    requires forall q | q in states[|moves|].procs && states[|moves|].procs[q].net == n ::
      states[|moves|].procs[q].pc.Finished?
    requires IsTxt(states[|moves|].w, id, Acme(n))
    ensures Stored(states[|moves|].w, n, id) || Orphan(states[0], n, id)
  {
    hide Next;
    if !Stored(states[|moves|].w, n, id) {
      NoNewOrphans(states, moves, n, |moves|, id);
    }
  }

  // ----- Conflicts

  /** What a writer read is still what is stored, and it has not been turned away. */
  predicate Undisturbed(pc: Pc, acme: seq<RecordId>) {
    match pc
    case SetDelete(_, prior, _) => prior == acme
    case SetCreate(_, prior, _) => prior == acme
    case SetCleanup(prior, _, _) => prior == acme
    case SetClear(prior) => prior == acme
    case SetCas(prior, _) => prior == acme
    case ClearDelete(prior, _) => prior == acme
    case ClearCas(prior) => prior == acme
    case Finished(outcome) => outcome != Conflict
    case _ => true
  }

  lemma OwnStepUndisturbed(w: World, p: Proc, ok: bool, found: Option<RecordId>)
    requires Bounded(p.pc) && Undisturbed(p.pc, RowOf(w, p.net).acme)
    ensures var (w', pc') := Step(w, p, ok, found); Undisturbed(pc', RowOf(w', p.net).acme)
  {
  }

  /** The stored list of `n` survives every move of the others from `i` to `j`. */
  ghost predicate ListKept(states: seq<State>, moves: seq<Move>, pid: Pid, n: Net, i: nat, j: nat)
    requires |states| == |moves| + 1 && j <= |moves|
  {
    forall k | i <= k < j && moves[k].pid != pid :: RowOf(states[k + 1].w, n).acme == RowOf(states[k].w, n).acme
  }

  /** A writer is turned away only if someone else changed the stored list after it was read. */
  lemma {:induction false} ConflictHasCause(states: seq<State>, moves: seq<Move>, pid: Pid, i: nat, j: nat)
    requires Run(states, moves) && i <= j <= |moves| && pid in states[i].procs
    requires states[i].procs[pid].pc.SetRead? || states[i].procs[pid].pc.ClearRead?
    requires ListKept(states, moves, pid, states[i].procs[pid].net, i, j)
    ensures pid in states[j].procs && states[j].procs[pid].net == states[i].procs[pid].net
    ensures Undisturbed(states[j].procs[pid].pc, RowOf(states[j].w, states[i].procs[pid].net).acme)
    ensures states[j].procs[pid].pc != Finished(Conflict)
    decreases j
  {
    if i == j {
    } else {
      ConflictHasCause(states, moves, pid, i, j - 1);
      var s, m := states[j - 1], moves[j - 1];
      assert Next(s, m, states[j]);
      hide Step, Undisturbed, RowOf;
      if m.pid == pid {
        OwnStepUndisturbed(s.w, s.procs[pid], m.ok, m.found);
      }
      NotTurnedAway(states[j].procs[pid].pc, RowOf(states[j].w, states[i].procs[pid].net).acme);
    }
  }

  lemma NotTurnedAway(pc: Pc, acme: seq<RecordId>)
    requires Undisturbed(pc, acme)
    ensures pc != Finished(Conflict)
  {
  }
}
