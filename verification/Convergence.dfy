/**
 Racing provisioners converge. With no reaper and no failing call on the network (an update of a record
 another replica has just deleted still errors), once its processes have finished and some `provision`
 of it returned Ok, exactly one A record is live under its FQDN and it is the stored one — although
 several replicas may each have created a record of their own on the way. The one exception is a run
 that starts from a claim whose record is already gone. What happens on other networks does not matter.
 */
module Convergence {
  import opened Wrappers
  import opened Zone
  import opened DdnsSteps
  import opened DdnsTyping
  import opened ClaimSafety

  /** The A record a provisioner is responsible for: claim it or drop it. */
  predicate HoldsA(pc: Pc, id: RecordId) {
    (pc.Claim? || pc.Reread? || pc.DropDuplicate?) && pc.id == id
  }

  predicate StoredA(w: World, n: Net, id: RecordId) {
    n in w.rows && w.rows[n].aId == Some(id)
  }

  ghost predicate HeldA(s: State, n: Net, id: RecordId) {
    exists q :: q in s.procs && s.procs[q].net == n && HoldsA(s.procs[q].pc, id)
  }

  /** Every live A record of `n` is the stored one or somebody still has to deal with it. */
  ghost predicate Tracked(s: State, n: Net) {
    forall id | IsA(s.w, id, Host(n)) :: StoredA(s.w, n, id) || HeldA(s, n, id)
  }

  /** A position before or without any hold on an A record, from which `r` is the only one to be picked up. */
  predicate BoundFor(pc: Pc, r: RecordId) {
    && !pc.Claim? && !pc.Reread? && !pc.DropDuplicate? && pc != Finished(Provisioned)
    && (pc.Upsert? ==> pc.existing == Some(r))
  }

  /** Nobody has come across the one A record there is, `r`, and whoever does will pick it up. */
  ghost predicate Waiting(s: State, n: Net, r: RecordId) {
    && IsA(s.w, r, Host(n))
    && (forall id | IsA(s.w, id, Host(n)) :: id == r)
    && (forall q | q in s.procs && s.procs[q].net == n :: BoundFor(s.procs[q].pc, r))
  }

  ghost predicate ClaimIsLive(w: World, n: Net) {
    Claimed(w, n) ==> w.rows[n].aId.value in w.records
  }

  /** `live` records whether the stored claim named a live record (or there was none) to begin with. */
  ghost predicate Converging(s: State, n: Net, live: bool) {
    && ClaimInv(s, n)
    && (ClaimIsLive(s.w, n) <==> live)
    && (Tracked(s, n) || exists r :: Waiting(s, n, r))
  }

  /** A step of `n` that is neither the provisioner's nor the reaper's leaves its A records and its claim alone. */
  lemma BystanderStep(w: World, p: Proc, ok: bool, found: Option<RecordId>)
    requires WorldTyped(w) && PcTyped(w, p.net, p.pc)
    requires !Provisioning(p.pc) && !Reaping(p.pc) && !p.pc.Finished?
    ensures var (w', pc') := Step(w, p, ok, found);
      && (forall id :: IsA(w', id, Host(p.net)) <==> IsA(w, id, Host(p.net)))
      && (Claimed(w', p.net) <==> Claimed(w, p.net))
      && (Claimed(w, p.net) ==> w'.rows[p.net].aId == w.rows[p.net].aId)
      && !Provisioning(pc') && pc' != Finished(Provisioned)
  {
  }

  /** No call on behalf of `n` fails. */
  ghost predicate Succeeds(s: State, m: Move, n: Net) {
    m.pid in s.procs && (s.procs[m.pid].net == n ==> m.ok)
  }

  lemma TrackedByOthers(s: State, m: Move, s': State, n: Net, id: RecordId)
    requires Next(s, m, s') && HeldA(s, n, id)
    requires s.procs[m.pid].net == n ==> !HoldsA(s.procs[m.pid].pc, id)
    ensures HeldA(s', n, id)
  {
    var q :| q in s.procs && s.procs[q].net == n && HoldsA(s.procs[q].pc, id);
    assert q in s'.procs && s'.procs[q] == s.procs[q];
  }

  lemma TrackedKept(s: State, m: Move, s': State, n: Net)
    requires ClaimInv(s, n) && Next(s, m, s') && NoReaper(s, m, n) && Succeeds(s, m, n)
    requires Tracked(s, n)
    ensures Tracked(s', n)
  {
    var p := s.procs[m.pid];
    forall id | IsA(s'.w, id, Host(n))
      ensures StoredA(s'.w, n, id) || HeldA(s', n, id)
    {
      if p.net != n {
        ForeignStep(s.w, p, m.ok, m.found, n);
      } else if !Provisioning(p.pc) {
        BystanderStep(s.w, p, m.ok, m.found);
      }
      if p.net == n && HoldsA(s'.procs[m.pid].pc, id) {
        assert HeldA(s', n, id);
      } else if !StoredA(s'.w, n, id) {
        assert IsA(s.w, id, Host(n)) && !StoredA(s.w, n, id);
        assert HeldA(s, n, id);
        TrackedByOthers(s, m, s', n, id);
      }
    }
  }

  lemma WaitingKept(s: State, m: Move, s': State, n: Net, r: RecordId)
    requires ClaimInv(s, n) && Next(s, m, s') && NoReaper(s, m, n) && Succeeds(s, m, n)
    requires Waiting(s, n, r)
    ensures Waiting(s', n, r) || Tracked(s', n)
  {
    var p := s.procs[m.pid];
    if p.net != n {
      ForeignStep(s.w, p, m.ok, m.found, n);
    } else if !Provisioning(p.pc) {
      BystanderStep(s.w, p, m.ok, m.found);
    } else {
      assert BoundFor(p.pc, r);
      assert forall id | IsA(s'.w, id, Host(n)) :: IsA(s.w, id, Host(n));
      if p.pc.Upsert? {
        assert HoldsA(s'.procs[m.pid].pc, r);
        assert HeldA(s', n, r);
      }
    }
  }

  lemma NextConverging(s: State, m: Move, s': State, n: Net, live: bool)
    requires Converging(s, n, live) && Next(s, m, s') && NoReaper(s, m, n) && Succeeds(s, m, n)
    ensures Converging(s', n, live)
  {
    NextTyped(s, m, s');
    NextClaim(s, m, s', n);
    if Tracked(s, n) {
      TrackedKept(s, m, s', n);
    } else {
      var r :| Waiting(s, n, r);
      WaitingKept(s, m, s', n, r);
    }
  }

  /** At most one A record under the FQDN. */
  ghost predicate CleanStart(s: State, n: Net) {
    && Initial(s, n)
    && (forall i, j | IsA(s.w, i, Host(n)) && IsA(s.w, j, Host(n)) :: i == j)
  }

  lemma StartConverging(s: State, n: Net)
    requires CleanStart(s, n)
    ensures Converging(s, n, ClaimIsLive(s.w, n))
  {
    if !Tracked(s, n) {
      var r :| IsA(s.w, r, Host(n)) && !StoredA(s.w, n, r);
      assert Waiting(s, n, r);
    }
  }

  ghost predicate FailureFree(states: seq<State>, moves: seq<Move>, n: Net)
    requires |states| == |moves| + 1
  {
    forall i | 0 <= i < |moves| :: Succeeds(states[i], moves[i], n)
  }

  lemma {:induction false} RunConverging(states: seq<State>, moves: seq<Move>, n: Net, i: nat)
    requires Run(states, moves) && CleanStart(states[0], n)
    requires ReaperFree(states, moves, n) && FailureFree(states, moves, n)
    requires i <= |moves|
    ensures Converging(states[i], n, ClaimIsLive(states[0].w, n))
  {
    hide Next, Converging;
    if i == 0 {
      StartConverging(states[0], n);
    } else {
      RunConverging(states, moves, n, i - 1);
      NextConverging(states[i - 1], moves[i - 1], states[i], n, ClaimIsLive(states[0].w, n));
    }
  }

  ghost predicate AllFinished(s: State, n: Net) {
    forall q | q in s.procs && s.procs[q].net == n :: s.procs[q].pc.Finished?
  }

  ghost predicate Published(s: State, n: Net) {
    exists q :: q in s.procs && s.procs[q] == Proc(n, Finished(Provisioned))
  }

  /** The FQDN resolves to exactly one A record, the stored one. */
  ghost predicate Unique(w: World, n: Net) {
    Claimed(w, n) && forall id: RecordId :: IsA(w, id, Host(n)) <==> w.rows[n].aId == Some(id)
  }

  lemma FinishedConverged(s: State, n: Net, live: bool)
    requires Converging(s, n, live) && AllFinished(s, n) && Published(s, n)
    ensures Claimed(s.w, n)
    ensures forall id | IsA(s.w, id, Host(n)) :: StoredA(s.w, n, id)
    ensures Unique(s.w, n) <==> live
  {
    var q :| q in s.procs && s.procs[q] == Proc(n, Finished(Provisioned));
    assert ClaimPc(s.w, n, s.procs[q].pc);
    assert HostId(s.w, n, s.w.rows[n].aId.value);
    assert Tracked(s, n);
  }

  /**
   At the end no A record but the stored one is live under the FQDN, and the stored one is live exactly
   when the run did not start from a claim whose record was already gone: `provision` never repairs that.
   */
  lemma RacersConverge(states: seq<State>, moves: seq<Move>, n: Net)
    requires Run(states, moves) && CleanStart(states[0], n)
    requires ReaperFree(states, moves, n) && FailureFree(states, moves, n)
    requires AllFinished(states[|moves|], n) && Published(states[|moves|], n)
    ensures Claimed(states[|moves|].w, n)
    ensures forall id | IsA(states[|moves|].w, id, Host(n)) :: StoredA(states[|moves|].w, n, id)
    ensures Unique(states[|moves|].w, n) <==> ClaimIsLive(states[0].w, n)
  {
    RunConverging(states, moves, n, |moves|);
    FinishedConverged(states[|moves|], n, ClaimIsLive(states[0].w, n));
  }
}
