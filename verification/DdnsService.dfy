/**
 `DdnsService` as the imperative object it is. Each method is proved to do exactly what the
 corresponding process of `DdnsSteps` does when it runs alone, call by call and failure by failure, so
 every statement about processes also speaks about the service's methods.
 */
module DdnsService {
  import opened Wrappers
  import opened Zone
  import opened DdnsSteps

  // ----- A process running alone

  /** The first A record under `name`, in creation order, among the ids from `k` on. */
  function FindFrom(w: World, name: Name, k: RecordId): (found: Option<RecordId>)
    requires forall id | id in w.records :: id < w.next
    ensures found.Some? ==> IsA(w, found.value, name) && k <= found.value
    ensures found.None? ==> forall id | id in w.records && k <= id :: !IsA(w, id, name)
    decreases w.next - k
  {
    if w.next <= k then None
    else if IsA(w, k, name) then Some(k)
    else FindFrom(w, name, k + 1)
  }

  /** A function of the world alone; the zone is kept well-formed by every step. */
  function Find1(w: World, name: Name): Option<RecordId> {
    if forall id | id in w.records :: id < w.next then FindFrom(w, name, 0) else None
  }

  /** The next call goes through unless the tape of call results says it fails. */
  function CallOk(tape: seq<bool>): bool { tape == [] || tape[0] }

  function Rest(tape: seq<bool>): seq<bool> { if tape == [] then [] else tape[1..] }

  /** The stage of its operation a position belongs to, counted down to the end. */
  function Stage(pc: Pc): nat {
    match pc
    case Finished(_) => 0
    case DropDuplicate(_) | ReportStore(_) | SetCas(_, _) | SetClear(_) | ClearCas(_) | ReapDrop(_) => 1
    case Reread(_) | ReportUpdate(_, _, _) | SetCleanup(_, _, _) | ClearDelete(_, _) | ReapDeleteTxt(_, _) => 2
    case Claim(_) | ReportRead(_) | SetCreate(_, _, _) | ClearRead | ReapDeleteA(_) => 3
    case Upsert(_, _) | SetDelete(_, _, _) | ReapRead => 4
    case Find(_) | SetRead(_) => 5
    case TickRead => 6
  }

  /** Iterations left in the loop a position is in. */
  function Left(pc: Pc): int {
    match pc
    case SetCleanup(_, created, k) => |created| - k
    case SetCreate(values, _, created) => |values| - |created|
    case SetDelete(_, prior, k) => |prior| - k
    case ClearDelete(prior, k) => |prior| - k
    case ReapDeleteTxt(op, k) => |op.acme| - k
    case _ => 0
  }

  /** Every call moves its operation strictly closer to its end, so every operation ends. */
  predicate Progress(pc: Pc, pc': Pc) {
    && Bounded(pc')
    && (Stage(pc') < Stage(pc) || (Stage(pc') == Stage(pc) && 0 <= Left(pc') < Left(pc)))
  }

  // Split by operation to keep each proof small.

  lemma HostProgress(w: World, p: Proc, ok: bool, found: Option<RecordId>)
    requires Provisioning(p.pc) || Reporting(p.pc)
    ensures Progress(p.pc, Step(w, p, ok, found).1)
  {
  }

  lemma SetProgress(w: World, n: Net, pc: Pc, ok: bool)
    requires Setting(pc) && Bounded(pc)
    ensures Progress(pc, SetStep(w, n, pc, ok).1)
  {
  }

  lemma ClearProgress(w: World, n: Net, pc: Pc, ok: bool)
    requires Clearing(pc) && Bounded(pc)
    ensures Progress(pc, ClearStep(w, n, pc, ok).1)
  {
  }

  lemma ReapProgress(w: World, n: Net, pc: Pc, ok: bool)
    requires Reaping(pc) && Bounded(pc)
    ensures Progress(pc, ReapStep(w, n, pc, ok).1)
  {
  }

  lemma StepProgress(w: World, p: Proc, ok: bool, found: Option<RecordId>)
    requires Bounded(p.pc) && !p.pc.Finished?
    ensures Progress(p.pc, Step(w, p, ok, found).1)
  {
    hide Progress;
    if Setting(p.pc) {
      SetProgress(w, p.net, p.pc, ok);
    } else if Clearing(p.pc) {
      ClearProgress(w, p.net, p.pc, ok);
    } else if Reaping(p.pc) {
      ReapProgress(w, p.net, p.pc, ok);
    } else {
      HostProgress(w, p, ok, found);
    }
  }

  datatype Result = Result(w: World, outcome: Outcome, tape: seq<bool>)

  /** Run a process to its end, one call after the other. */
  ghost function Exec(w: World, p: Proc, tape: seq<bool>): Result
    requires Bounded(p.pc)
    decreases Stage(p.pc), Left(p.pc)
  {
    if p.pc.Finished? then Result(w, p.pc.outcome, tape)
    else
      var (w', pc) := Step(w, p, CallOk(tape), Find1(w, Host(p.net)));
      StepProgress(w, p, CallOk(tape), Find1(w, Host(p.net)));
      Exec(w', Proc(p.net, pc), Rest(tape))
  }

  /** Where an operation stands after a call: finished, or the rest still to run. */
  ghost function Resume(w: World, n: Net, pc: Pc, tape: seq<bool>): Result
    requires Bounded(pc)
  {
    if pc.Finished? then Result(w, pc.outcome, tape) else Exec(w, Proc(n, pc), tape)
  }

  lemma UnrollProvision(w: World, n: Net, pc: Pc, tape: seq<bool>)
    requires Provisioning(pc) && Bounded(pc)
    ensures var (w', pc') := ProvisionStep(w, n, pc, CallOk(tape), Find1(w, Host(n)));
      Exec(w, Proc(n, pc), tape) == Resume(w', n, pc', Rest(tape))
  {
  }

  lemma UnrollReport(w: World, n: Net, pc: Pc, tape: seq<bool>)
    requires Reporting(pc) && Bounded(pc)
    ensures var (w', pc') := ReportStep(w, n, pc, CallOk(tape));
      Exec(w, Proc(n, pc), tape) == Resume(w', n, pc', Rest(tape))
  {
  }

  lemma UnrollSet(w: World, n: Net, pc: Pc, tape: seq<bool>)
    requires Setting(pc) && Bounded(pc)
    ensures var (w', pc') := SetStep(w, n, pc, CallOk(tape));
      Exec(w, Proc(n, pc), tape) == Resume(w', n, pc', Rest(tape))
  {
  }

  lemma UnrollClear(w: World, n: Net, pc: Pc, tape: seq<bool>)
    requires Clearing(pc) && Bounded(pc)
    ensures var (w', pc') := ClearStep(w, n, pc, CallOk(tape));
      Exec(w, Proc(n, pc), tape) == Resume(w', n, pc', Rest(tape))
  {
  }

  lemma UnrollReap(w: World, n: Net, pc: Pc, tape: seq<bool>)
    requires Reaping(pc) && Bounded(pc)
    ensures var (w', pc') := ReapStep(w, n, pc, CallOk(tape));
      Exec(w, Proc(n, pc), tape) == Resume(w', n, pc', Rest(tape))
  {
    hide ProvisionStep, ReportStep, SetStep, ClearStep, ReapStep;
  }

  // ----- The service

  class DdnsService {
    /** The zone and the operational table. */
    var w: World
    /** Whether the coming calls go through; calls past its end do. */
    var tape: seq<bool>

    constructor (w: World, tape: seq<bool>)
      ensures this.w == w && this.tape == tape
    {
      this.w, this.tape := w, tape;
    }

    /** One provider or repository call: did it go through? */
    method Call() returns (ok: bool)
      modifies this`tape
      ensures ok == CallOk(old(tape)) && tape == Rest(old(tape))
    {
      ok := CallOk(tape);
      tape := Rest(tape);
    }

    method FindById(n: Net) returns (ok: bool, row: Row)
      modifies this`tape
      ensures ok == CallOk(old(tape)) && tape == Rest(old(tape))
      ensures row == RowOf(w, n)
    {
      ok := Call();
      row := RowOf(w, n);
    }

    method Delete(id: RecordId) returns (ok: bool)
      modifies this
      ensures ok == CallOk(old(tape)) && tape == Rest(old(tape))
      ensures w == if ok then DeleteRecord(old(w), id) else old(w)
    {
      ok := Call();
      if ok { w := DeleteRecord(w, id); }
    }

    /** An update of a record that is gone is an error. */
    method Update(id: RecordId, r: Record) returns (ok: bool)
      modifies this
      ensures ok == (CallOk(old(tape)) && id in old(w).records) && tape == Rest(old(tape))
      ensures w == if ok then UpdateRecord(old(w), id, r) else old(w)
    {
      ok := Call();
      ok := ok && id in w.records;
      if ok { w := UpdateRecord(w, id, r); }
    }

    method Create(r: Record) returns (ok: bool, id: RecordId)
      modifies this
      ensures ok == CallOk(old(tape)) && tape == Rest(old(tape))
      ensures id == old(w).next
      ensures w == if ok then CreateRecord(old(w), r) else old(w)
    {
      id := w.next;
      ok := Call();
      if ok { w := CreateRecord(w, r); }
    }

    method CasAcme(n: Net, expected: seq<RecordId>, ids: seq<RecordId>) returns (ok: bool, applied: bool)
      modifies this
      ensures ok == CallOk(old(tape)) && tape == Rest(old(tape))
      ensures applied == (ok && AcmeMatches(old(w), n, expected))
      ensures w == if applied then StoreAcme(old(w), n, ids) else old(w)
    {
      ok := Call();
      applied := ok && AcmeMatches(w, n, expected);
      if applied { w := StoreAcme(w, n, ids); }
    }

    method ReportIp(n: Net, ip: Ip) returns (outcome: Outcome)
      modifies this
      ensures Result(w, outcome, tape) == Exec(old(w), Proc(n, ReportRead(ip)), old(tape))
    {
      hide Exec, Step;
      UnrollReport(w, n, ReportRead(ip), tape);
      var ok, row := FindById(n);
      if !ok { return Error; }
      if row.aId.Some? && row.fqdn.Some? {
        UnrollReport(w, n, ReportUpdate(ip, row.aId.value, row.fqdn.value), tape);
        ok := Update(row.aId.value, A(row.fqdn.value, ip));
        if !ok { return Error; }
      }
      UnrollReport(w, n, ReportStore(ip), tape);
      ok := Call();
      if !ok { return Error; }
      w := RecordIp(w, n, ip);
      return Reported;
    }

    method Provision(n: Net, ip: Ip) returns (outcome: Outcome)
      modifies this
      ensures Result(w, outcome, tape) == Exec(old(w), Proc(n, Find(ip)), old(tape))
    {
      hide Exec, Step;
      UnrollProvision(w, n, Find(ip), tape);
      var ok := Call();
      if !ok { return Error; }
      var existing := Find1(w, Host(n));
      UnrollProvision(w, n, Upsert(ip, existing), tape);
      var id;
      if existing.Some? {
        id := existing.value;
        ok := Update(id, A(Host(n), ip));
      } else {
        ok, id := Create(A(Host(n), ip));
      }
      if !ok { return Error; }
      assert Exec(w, Proc(n, Claim(id)), tape) == Exec(old(w), Proc(n, Find(ip)), old(tape));
      outcome := ClaimOrDrop(n, id);
    }

    /** The second half of `provision`: claim the record, or lose the claim and drop a duplicate. */
    method ClaimOrDrop(n: Net, id: RecordId) returns (outcome: Outcome)
      modifies this
      ensures Result(w, outcome, tape) == Exec(old(w), Proc(n, Claim(id)), old(tape))
    {
      hide Exec, Step;
      UnrollProvision(w, n, Claim(id), tape);
      var ok := Call();
      if !ok { return Error; }
      if Claimable(w, n) {
        w := ClaimRecord(w, n, id);
        return Provisioned;
      }
      UnrollProvision(w, n, Reread(id), tape);
      var winner;
      ok, winner := FindById(n);
      if !ok { return Error; }
      if winner.aId != Some(id) {
        UnrollProvision(w, n, DropDuplicate(id), tape);
        ok := Delete(id);
      }
      return Provisioned;
    }

    /** The provisioner's turn on one network: skip it until an IP is known, then provision. */
    method ProvisionIfReported(n: Net) returns (outcome: Outcome)
      modifies this
      ensures Result(w, outcome, tape) == Exec(old(w), Proc(n, TickRead), old(tape))
    {
      hide Exec, Step;
      UnrollProvision(w, n, TickRead, tape);
      var ok, row := FindById(n);
      if !ok { return Error; }
      if row.ip.None? { return Skipped; }
      outcome := Provision(n, row.ip.value);
    }

    method SetAcmeChallenge(n: Net, values: seq<string>) returns (outcome: Outcome)
      modifies this
      ensures Result(w, outcome, tape) == Exec(old(w), Proc(n, SetRead(values)), old(tape))
    {
      hide Exec, Step;
      UnrollSet(w, n, SetRead(values), tape);
      var ok, row := FindById(n);
      if !ok { return Error; }
      var prior := row.acme;
      for k := 0 to |prior|
        invariant Exec(w, Proc(n, SetDeleteFrom(values, prior, k)), tape)
               == Exec(old(w), Proc(n, SetRead(values)), old(tape))
      {
        UnrollSet(w, n, SetDelete(values, prior, k), tape);
        ok := Delete(prior[k]);
        if !ok { return Error; }
      }
      outcome := CreateAll(n, values, prior);
    }

    /** The second half of `set_acme_challenge`: create one record per value and persist the ids. */
    method CreateAll(n: Net, values: seq<string>, prior: seq<RecordId>) returns (outcome: Outcome)
      modifies this
      ensures Result(w, outcome, tape) == Exec(old(w), Proc(n, SetCreateFrom(values, prior, [])), old(tape))
    {
      hide Exec, Step;
      var ok;
      var created: seq<RecordId> := [];
      for k := 0 to |values|
        invariant |created| == k
        invariant Exec(w, Proc(n, SetCreateFrom(values, prior, created)), tape)
               == Exec(old(w), Proc(n, SetCreateFrom(values, prior, [])), old(tape))
      {
        UnrollSet(w, n, SetCreate(values, prior, created), tape);
        var id;
        ok, id := Create(Txt(Acme(n), values[k]));
        if !ok {
          outcome := AbandonCreate(n, prior, created);
          return;
        }
        created := created + [id];
      }
      UnrollSet(w, n, SetCas(prior, created), tape);
      var applied;
      ok, applied := CasAcme(n, prior, created);
      return if !ok then Error else if applied then AcmeSet else Conflict;
    }

    /** After a failed create: delete what was created, clear the stored ids, surface the error. */
    method AbandonCreate(n: Net, prior: seq<RecordId>, created: seq<RecordId>) returns (outcome: Outcome)
      modifies this
      ensures Result(w, outcome, tape) == Exec(old(w), Proc(n, SetCleanupFrom(prior, created, 0)), old(tape))
    {
      hide Exec, Step;
      for k := 0 to |created|
        invariant Exec(w, Proc(n, SetCleanupFrom(prior, created, k)), tape)
               == Exec(old(w), Proc(n, SetCleanupFrom(prior, created, 0)), old(tape))
      {
        UnrollSet(w, n, SetCleanup(prior, created, k), tape);
        var _ := Delete(created[k]);
      }
      UnrollSet(w, n, SetClear(prior), tape);
      var _, _ := CasAcme(n, prior, []);
      return Error;
    }

    method ClearAcmeChallenge(n: Net) returns (outcome: Outcome)
      modifies this
      ensures Result(w, outcome, tape) == Exec(old(w), Proc(n, ClearRead), old(tape))
    {
      hide Exec, Step;
      UnrollClear(w, n, ClearRead, tape);
      var ok, row := FindById(n);
      if !ok { return Error; }
      var prior := row.acme;
      if prior == [] { return AcmeCleared; }
      for k := 0 to |prior|
        invariant Exec(w, Proc(n, ClearDeleteFrom(prior, k)), tape) == Exec(old(w), Proc(n, ClearRead), old(tape))
      {
        UnrollClear(w, n, ClearDelete(prior, k), tape);
        ok := Delete(prior[k]);
        if !ok { return Error; }
      }
      UnrollClear(w, n, ClearCas(prior), tape);
      var applied;
      ok, applied := CasAcme(n, prior, []);
      return if !ok then Error else if applied then AcmeCleared else Conflict;
    }

    method DeleteRecords(n: Net) returns (outcome: Outcome)
      modifies this
      ensures Result(w, outcome, tape) == Exec(old(w), Proc(n, ReapRead), old(tape))
    {
      hide Exec, Step;
      UnrollReap(w, n, ReapRead, tape);
      var ok, op := FindById(n);
      if !ok { return Error; }
      if n !in w.rows { return Reaped; }
      if op.aId.Some? {
        UnrollReap(w, n, ReapDeleteA(op), tape);
        ok := Delete(op.aId.value);
        if !ok { return Error; }
      }
      for k := 0 to |op.acme|
        invariant Exec(w, Proc(n, ReapTxtFrom(op, k)), tape) == Exec(old(w), Proc(n, ReapRead), old(tape))
      {
        UnrollReap(w, n, ReapDeleteTxt(op, k), tape);
        ok := Delete(op.acme[k]);
        if !ok { return Error; }
      }
      UnrollReap(w, n, ReapDrop(op), tape);
      ok := Call();
      if !ok { return Error; }
      w := DropRow(w, n);
      return Reaped;
    }
  }
}
