/**
 The invariant that holds under every interleaving of all five operations and any failures: stored
 and held ids refer to records of the right kind and name, and a record that is gone stays gone.
 */
module DdnsTyping {
  import opened Wrappers
  import opened Zone
  import opened DdnsSteps

  /** `id` was handed out and, while it is live, it is an A record of network `n`. */
  predicate HostId(w: World, n: Net, id: RecordId) {
    id < w.next && (id in w.records ==> IsA(w, id, Host(n)))
  }

  predicate TxtId(w: World, n: Net, id: RecordId) {
    id < w.next && (id in w.records ==> IsTxt(w, id, Acme(n)))
  }

  ghost predicate TxtIds(w: World, n: Net, ids: seq<RecordId>) {
    forall i | 0 <= i < |ids| :: TxtId(w, n, ids[i])
  }

  ghost predicate RowTyped(w: World, n: Net, r: Row) {
    && (r.aId.Some? ==> HostId(w, n, r.aId.value) && r.fqdn == Some(Host(n)))
    && TxtIds(w, n, r.acme)
  }

  ghost predicate WorldTyped(w: World) {
    && (forall id | id in w.records :: id < w.next)
    && (forall n | n in w.rows :: RowTyped(w, n, w.rows[n]))
  }

  ghost predicate PcTyped(w: World, n: Net, pc: Pc) {
    && Bounded(pc)
    && match pc
       case Upsert(_, Some(id)) => HostId(w, n, id)
       case Claim(id) => HostId(w, n, id)
       case Reread(id) => HostId(w, n, id)
       case DropDuplicate(id) => HostId(w, n, id)
       case ReportUpdate(_, id, fqdn) => HostId(w, n, id) && fqdn == Host(n)
       case SetDelete(_, prior, _) => TxtIds(w, n, prior)
       case SetCreate(_, prior, created) => TxtIds(w, n, prior) && TxtIds(w, n, created)
       case SetCleanup(prior, created, _) => TxtIds(w, n, prior) && TxtIds(w, n, created)
       case SetClear(prior) => TxtIds(w, n, prior)
       case SetCas(prior, created) => TxtIds(w, n, prior) && TxtIds(w, n, created)
       case ClearDelete(prior, _) => TxtIds(w, n, prior)
       case ClearCas(prior) => TxtIds(w, n, prior)
       case ReapDeleteA(op) => RowTyped(w, n, op)
       case ReapDeleteTxt(op, _) => RowTyped(w, n, op)
       case ReapDrop(op) => RowTyped(w, n, op)
       case _ => true
  }

  ghost predicate StateTyped(s: State) {
    && WorldTyped(s.w)
    && forall q | q in s.procs :: PcTyped(s.w, s.procs[q].net, s.procs[q].pc)
  }

  /** What every step guarantees to the others: old ids never come back and never change kind or name. */
  ghost predicate Stable(w: World, w': World) {
    && w.next <= w'.next
    && forall id | id in w'.records && id < w.next ::
         && id in w.records
         && w'.records[id].A? == w.records[id].A?
         && w'.records[id].name == w.records[id].name
  }

  lemma RowTypedStable(w: World, w': World, n: Net, r: Row)
    requires Stable(w, w') && RowTyped(w, n, r)
    ensures RowTyped(w', n, r)
  {
  }

  lemma PcTypedStable(w: World, w': World, n: Net, pc: Pc)
    requires Stable(w, w') && PcTyped(w, n, pc)
    ensures PcTyped(w', n, pc)
  {
  }

  lemma StepStable(w: World, p: Proc, ok: bool, found: Option<RecordId>)
    requires WorldTyped(w) && PcTyped(w, p.net, p.pc)
    ensures Stable(w, Step(w, p, ok, found).0)
    ensures forall id | id in Step(w, p, ok, found).0.records :: id < Step(w, p, ok, found).0.next
  {
  }

  lemma HostPcTyped(w: World, p: Proc, ok: bool, found: Option<RecordId>)
    requires WorldTyped(w) && PcTyped(w, p.net, p.pc)
    requires Provisioning(p.pc) || Reporting(p.pc)
    requires p.pc.Find? && ok ==> FindAnswers(w, Host(p.net), found)
    ensures PcTyped(Step(w, p, ok, found).0, p.net, Step(w, p, ok, found).1)
  {
  }

  lemma CreatePcTyped(w: World, p: Proc, ok: bool, found: Option<RecordId>)
    requires WorldTyped(w) && PcTyped(w, p.net, p.pc)
    requires p.pc.SetCreate?
    ensures PcTyped(Step(w, p, ok, found).0, p.net, Step(w, p, ok, found).1)
  {
    StepStable(w, p, ok, found);
    PcTypedStable(w, Step(w, p, ok, found).0, p.net, p.pc);
  }

  // The remaining positions only walk through lists they already hold, or lists just read from the row.

  lemma SetPcTyped(w: World, p: Proc, ok: bool, found: Option<RecordId>)
    requires WorldTyped(w) && PcTyped(w, p.net, p.pc)
    requires p.pc.SetRead? || p.pc.SetDelete? || p.pc.SetCleanup? || p.pc.SetClear? || p.pc.SetCas?
    ensures PcTyped(Step(w, p, ok, found).0, p.net, Step(w, p, ok, found).1)
  {
    StepStable(w, p, ok, found);
    PcTypedStable(w, Step(w, p, ok, found).0, p.net, p.pc);
  }

  lemma ClearPcTyped(w: World, p: Proc, ok: bool, found: Option<RecordId>)
    requires WorldTyped(w) && PcTyped(w, p.net, p.pc)
    requires p.pc.ClearRead? || p.pc.ClearDelete? || p.pc.ClearCas?
    ensures PcTyped(Step(w, p, ok, found).0, p.net, Step(w, p, ok, found).1)
  {
    StepStable(w, p, ok, found);
    PcTypedStable(w, Step(w, p, ok, found).0, p.net, p.pc);
  }

  lemma ReapPcTyped(w: World, p: Proc, ok: bool, found: Option<RecordId>)
    requires WorldTyped(w) && PcTyped(w, p.net, p.pc)
    requires Reaping(p.pc)
    ensures PcTyped(Step(w, p, ok, found).0, p.net, Step(w, p, ok, found).1)
  {
    StepStable(w, p, ok, found);
    PcTypedStable(w, Step(w, p, ok, found).0, p.net, p.pc);
  }

  lemma StepPcTyped(w: World, p: Proc, ok: bool, found: Option<RecordId>)
    requires WorldTyped(w) && PcTyped(w, p.net, p.pc)
    requires p.pc.Find? && ok ==> FindAnswers(w, Host(p.net), found)
    ensures PcTyped(Step(w, p, ok, found).0, p.net, Step(w, p, ok, found).1)
  {
    if Provisioning(p.pc) || Reporting(p.pc) {
      HostPcTyped(w, p, ok, found);
    } else if p.pc.SetCreate? {
      CreatePcTyped(w, p, ok, found);
    } else if Reaping(p.pc) {
      ReapPcTyped(w, p, ok, found);
    } else if p.pc.ClearRead? || p.pc.ClearDelete? || p.pc.ClearCas? {
      ClearPcTyped(w, p, ok, found);
    } else if !p.pc.Finished? {
      SetPcTyped(w, p, ok, found);
    }
  }

  lemma StepWorldTyped(w: World, p: Proc, ok: bool, found: Option<RecordId>)
    requires WorldTyped(w) && PcTyped(w, p.net, p.pc)
    ensures WorldTyped(Step(w, p, ok, found).0)
  {
    var w' := Step(w, p, ok, found).0;
    StepStable(w, p, ok, found);
    forall n | n in w'.rows
      ensures RowTyped(w', n, w'.rows[n])
    {
      if n in w.rows { RowTypedStable(w, w', n, w.rows[n]); }
    }
  }

  /** A step on behalf of another network leaves the A records and the claim of `n` alone. */
  lemma ForeignStep(w: World, p: Proc, ok: bool, found: Option<RecordId>, n: Net)
    requires WorldTyped(w) && PcTyped(w, p.net, p.pc) && p.net != n
    ensures var w' := Step(w, p, ok, found).0;
      && (forall id :: IsA(w', id, Host(n)) <==> IsA(w, id, Host(n)))
      && (n in w'.rows <==> n in w.rows)
      && (n in w.rows ==> w'.rows[n] == w.rows[n])
  {
  }

  /** Typing is preserved by every move of every process, failed or not. */
  lemma NextTyped(s: State, m: Move, s': State)
    requires StateTyped(s) && Next(s, m, s')
    ensures StateTyped(s') && Stable(s.w, s'.w)
  {
    var p := s.procs[m.pid];
    StepStable(s.w, p, m.ok, m.found);
    StepPcTyped(s.w, p, m.ok, m.found);
    StepWorldTyped(s.w, p, m.ok, m.found);
    forall q | q in s'.procs
      ensures PcTyped(s'.w, s'.procs[q].net, s'.procs[q].pc)
    {
      if q != m.pid { PcTypedStable(s.w, s'.w, s.procs[q].net, s.procs[q].pc); }
    }
  }

  lemma {:induction false} RunTyped(states: seq<State>, moves: seq<Move>, i: nat)
    requires Run(states, moves) && StateTyped(states[0])
    requires i <= |moves|
    ensures StateTyped(states[i])
  {
    hide Next, StateTyped;
    if i == 0 {
    } else {
      RunTyped(states, moves, i - 1);
      NextTyped(states[i - 1], moves[i - 1], states[i]);
    }
  }

  predicate Gone(w: World, id: RecordId) {
    id < w.next && id !in w.records
  }

  lemma StaysGone(s: State, m: Move, s': State, id: RecordId)
    requires StateTyped(s) && Next(s, m, s')
    requires Gone(s.w, id)
    ensures Gone(s'.w, id)
  {
    NextTyped(s, m, s');
  }

  /** Once an id is gone it is gone for the rest of the run. */
  lemma {:induction false} GoneForGood(states: seq<State>, moves: seq<Move>, i: nat, j: nat, id: RecordId)
    requires Run(states, moves) && StateTyped(states[0])
    requires i <= j <= |moves|
    requires Gone(states[i].w, id)
    ensures Gone(states[j].w, id)
  {
    hide Next, StateTyped;
    if i == j {
    } else {
      GoneForGood(states, moves, i, j - 1, id);
      RunTyped(states, moves, j - 1);
      StaysGone(states[j - 1], moves[j - 1], states[j], id);
    }
  }

  predicate AnyA(w: World, id: RecordId) {
    id in w.records && w.records[id].A?
  }

  /** Only a provisioner that found nothing under the name can add an A record. */
  lemma OnlyProvisionerCreates(s: State, m: Move, s': State, id: RecordId)
    requires StateTyped(s) && Next(s, m, s')
    requires AnyA(s'.w, id) && !AnyA(s.w, id)
    ensures s.procs[m.pid].pc.Upsert? && s.procs[m.pid].pc.existing.None? && m.ok
    ensures IsA(s'.w, id, Host(s.procs[m.pid].net))
  {
    NextTyped(s, m, s');
  }

  ghost predicate ProvisionerFree(states: seq<State>, moves: seq<Move>)
    requires |states| == |moves| + 1
  {
    forall i | 0 <= i < |moves| :: moves[i].pid in states[i].procs && !Provisioning(states[i].procs[moves[i].pid].pc)
  }

  /**
   Whatever reports, ACME writes and reapers interleave — a report that read the row before it was
   reaped included — the set of live A records never grows, so a torn-down record stays down.
   */
  lemma {:induction false} NoResurrection(states: seq<State>, moves: seq<Move>, i: nat, j: nat, id: RecordId)
    requires Run(states, moves) && StateTyped(states[0]) && ProvisionerFree(states, moves)
    requires i <= j <= |moves|
    requires AnyA(states[j].w, id)
    ensures AnyA(states[i].w, id)
  {
    hide Next, StateTyped;
    if i == j {
    } else {
      RunTyped(states, moves, j - 1);
      if !AnyA(states[j - 1].w, id) {
        OnlyProvisionerCreates(states[j - 1], moves[j - 1], states[j], id);
        assert false;
      }
      NoResurrection(states, moves, i, j - 1, id);
    }
  }
}
