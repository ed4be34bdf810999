/**
 The operations of `DdnsService` (and the provisioner's row read that precedes `provision`) as
 processes that make one external call per step. Any number of processes interleave, and every
 call may fail; a failed call has no effect.
 */
module DdnsSteps {
  import opened Wrappers
  import opened Zone

  datatype Outcome = Provisioned | Reported | AcmeSet | AcmeCleared | Reaped | Skipped | Conflict | Error

  /** Where a process stands; each constructor names the call it makes next and holds its locals. */
  datatype Pc =
    // provisioner: read the row for an IP, then `provision`
    | TickRead
    | Find(ip: Ip)
    | Upsert(ip: Ip, existing: Option<RecordId>)
    | Claim(id: RecordId)
    | Reread(id: RecordId)
    | DropDuplicate(id: RecordId)
    // report_ip
    | ReportRead(ip: Ip)
    | ReportUpdate(ip: Ip, id: RecordId, fqdn: Name)
    | ReportStore(ip: Ip)
    // set_acme_challenge
    | SetRead(values: seq<string>)
    | SetDelete(values: seq<string>, prior: seq<RecordId>, k: nat)
    | SetCreate(values: seq<string>, prior: seq<RecordId>, created: seq<RecordId>)
    | SetCleanup(prior: seq<RecordId>, created: seq<RecordId>, k: nat)
    | SetClear(prior: seq<RecordId>)
    | SetCas(prior: seq<RecordId>, created: seq<RecordId>)
    // clear_acme_challenge
    | ClearRead
    | ClearDelete(prior: seq<RecordId>, k: nat)
    | ClearCas(prior: seq<RecordId>)
    // delete_records (the reaper)
    | ReapRead
    | ReapDeleteA(op: Row)
    | ReapDeleteTxt(op: Row, k: nat)
    | ReapDrop(op: Row)
    | Finished(outcome: Outcome)

  datatype Proc = Proc(net: Net, pc: Pc)

  predicate Starting(pc: Pc) {
    pc.TickRead? || pc.ReportRead? || pc.SetRead? || pc.ClearRead? || pc.ReapRead?
  }

  predicate Reaping(pc: Pc) {
    pc.ReapRead? || pc.ReapDeleteA? || pc.ReapDeleteTxt? || pc.ReapDrop?
  }

  predicate Provisioning(pc: Pc) {
    pc.TickRead? || pc.Find? || pc.Upsert? || pc.Claim? || pc.Reread? || pc.DropDuplicate?
  }

  predicate Reporting(pc: Pc) {
    pc.ReportRead? || pc.ReportUpdate? || pc.ReportStore?
  }

  predicate Setting(pc: Pc) {
    pc.SetRead? || pc.SetDelete? || pc.SetCreate? || pc.SetCleanup? || pc.SetClear? || pc.SetCas?
  }

  predicate Clearing(pc: Pc) {
    pc.ClearRead? || pc.ClearDelete? || pc.ClearCas?
  }

  /** Loop positions point at an element still to be handled. */
  predicate Bounded(pc: Pc) {
    match pc
    case SetDelete(_, prior, k) => k < |prior|
    case SetCreate(values, _, created) => |created| < |values|
    case SetCleanup(_, created, k) => k < |created|
    case ClearDelete(prior, k) => k < |prior|
    case ReapDeleteA(op) => op.aId.Some?
    case ReapDeleteTxt(op, k) => k < |op.acme|
    case _ => true
  }

  // Loop heads: the next iteration, or what follows the loop.

  function SetCreateFrom(values: seq<string>, prior: seq<RecordId>, created: seq<RecordId>): Pc {
    if |created| < |values| then SetCreate(values, prior, created) else SetCas(prior, created)
  }

  function SetDeleteFrom(values: seq<string>, prior: seq<RecordId>, k: nat): Pc {
    if k < |prior| then SetDelete(values, prior, k) else SetCreateFrom(values, prior, [])
  }

  function SetCleanupFrom(prior: seq<RecordId>, created: seq<RecordId>, k: nat): Pc {
    if k < |created| then SetCleanup(prior, created, k) else SetClear(prior)
  }

  function ClearDeleteFrom(prior: seq<RecordId>, k: nat): Pc {
    if k < |prior| then ClearDelete(prior, k) else ClearCas(prior)
  }

  function ReapTxtFrom(op: Row, k: nat): Pc {
    if k < |op.acme| then ReapDeleteTxt(op, k) else ReapDrop(op)
  }

  // The call each operation makes at a position: the new shared state and the next position. `ok` says
  // whether the call goes through; most failures end the operation with an error.

  function ProvisionStep(w: World, n: Net, pc: Pc, ok: bool, found: Option<RecordId>): (r: (World, Pc))
    requires Provisioning(pc)
    ensures Bounded(r.1)
  {
    if !ok then (w, Finished(if pc.DropDuplicate? then Provisioned else Error))
    else
      match pc
      case TickRead =>
        (w, match RowOf(w, n).ip case Some(ip) => Find(ip) case None => Finished(Skipped))
      case Find(ip) => (w, Upsert(ip, found))
      case Upsert(ip, None) => (CreateRecord(w, A(Host(n), ip)), Claim(w.next))
      case Upsert(ip, Some(id)) =>
        if id in w.records then (UpdateRecord(w, id, A(Host(n), ip)), Claim(id)) else (w, Finished(Error))
      case Claim(id) =>
        if Claimable(w, n) then (ClaimRecord(w, n, id), Finished(Provisioned)) else (w, Reread(id))
      case Reread(id) =>
        (w, if RowOf(w, n).aId == Some(id) then Finished(Provisioned) else DropDuplicate(id))
      case DropDuplicate(id) => (DeleteRecord(w, id), Finished(Provisioned))
  }

  function ReportStep(w: World, n: Net, pc: Pc, ok: bool): (r: (World, Pc))
    requires Reporting(pc)
    ensures Bounded(r.1)
  {
    if !ok then (w, Finished(Error))
    else
      match pc
      case ReportRead(ip) =>
        var row := RowOf(w, n);
        (w, if row.aId.Some? && row.fqdn.Some? then ReportUpdate(ip, row.aId.value, row.fqdn.value)
            else ReportStore(ip))
      case ReportUpdate(ip, id, fqdn) =>
        if id in w.records then (UpdateRecord(w, id, A(fqdn, ip)), ReportStore(ip)) else (w, Finished(Error))
      case ReportStore(ip) => (RecordIp(w, n, ip), Finished(Reported))
  }

  function SetStep(w: World, n: Net, pc: Pc, ok: bool): (r: (World, Pc))
    requires Setting(pc) && Bounded(pc)
    ensures Bounded(r.1)
  {
    match pc
    case SetRead(values) =>
      if ok then (w, SetDeleteFrom(values, RowOf(w, n).acme, 0)) else (w, Finished(Error))
    case SetDelete(values, prior, k) =>
      if ok then (DeleteRecord(w, prior[k]), SetDeleteFrom(values, prior, k + 1)) else (w, Finished(Error))
    case SetCreate(values, prior, created) =>
      if ok
      then (CreateRecord(w, Txt(Acme(n), values[|created|])), SetCreateFrom(values, prior, created + [w.next]))
      else (w, SetCleanupFrom(prior, created, 0))
    case SetCleanup(prior, created, k) =>
      (if ok then DeleteRecord(w, created[k]) else w, SetCleanupFrom(prior, created, k + 1))
    case SetClear(prior) =>
      (if ok && AcmeMatches(w, n, prior) then StoreAcme(w, n, []) else w, Finished(Error))
    case SetCas(prior, created) =>
      if !ok then (w, Finished(Error))
      else if AcmeMatches(w, n, prior) then (StoreAcme(w, n, created), Finished(AcmeSet))
      else (w, Finished(Conflict))
  }

  function ClearStep(w: World, n: Net, pc: Pc, ok: bool): (r: (World, Pc))
    requires Clearing(pc) && Bounded(pc)
    ensures Bounded(r.1)
  {
    if !ok then (w, Finished(Error))
    else
      match pc
      case ClearRead =>
        var prior := RowOf(w, n).acme;
        (w, if prior == [] then Finished(AcmeCleared) else ClearDelete(prior, 0))
      case ClearDelete(prior, k) => (DeleteRecord(w, prior[k]), ClearDeleteFrom(prior, k + 1))
      case ClearCas(prior) =>
        if AcmeMatches(w, n, prior) then (StoreAcme(w, n, []), Finished(AcmeCleared)) else (w, Finished(Conflict))
  }

  function ReapStep(w: World, n: Net, pc: Pc, ok: bool): (r: (World, Pc))
    requires Reaping(pc) && Bounded(pc)
    ensures Bounded(r.1)
  {
    if !ok then (w, Finished(Error))
    else
      match pc
      case ReapRead =>
        (w, if n !in w.rows then Finished(Reaped)
            else if w.rows[n].aId.Some? then ReapDeleteA(w.rows[n])
            else ReapTxtFrom(w.rows[n], 0))
      case ReapDeleteA(op) => (DeleteRecord(w, op.aId.value), ReapTxtFrom(op, 0))
      case ReapDeleteTxt(op, k) => (DeleteRecord(w, op.acme[k]), ReapTxtFrom(op, k + 1))
      case ReapDrop(_) => (DropRow(w, n), Finished(Reaped))
  }

  /** One call of a process; `found` is the answer when the call is `find_a_record`. */
  function Step(w: World, p: Proc, ok: bool, found: Option<RecordId>): (r: (World, Pc))
    requires Bounded(p.pc)
    ensures Bounded(r.1)
  {
    if Provisioning(p.pc) then ProvisionStep(w, p.net, p.pc, ok, found)
    else if Reporting(p.pc) then ReportStep(w, p.net, p.pc, ok)
    else if Setting(p.pc) then SetStep(w, p.net, p.pc, ok)
    else if Clearing(p.pc) then ClearStep(w, p.net, p.pc, ok)
    else if Reaping(p.pc) then ReapStep(w, p.net, p.pc, ok)
    else (w, p.pc)
  }

  // ----- The system of all processes

  type Pid = nat

  datatype State = State(w: World, procs: map<Pid, Proc>)

  datatype Move = Move(pid: Pid, ok: bool, found: Option<RecordId>)

  ghost predicate Enabled(s: State, m: Move) {
    && m.pid in s.procs
    && var p := s.procs[m.pid];
    && Bounded(p.pc)
    && !p.pc.Finished?
    && (p.pc.Find? && m.ok ==> FindAnswers(s.w, Host(p.net), m.found))
  }

  function Apply(s: State, m: Move): State
    requires m.pid in s.procs && Bounded(s.procs[m.pid].pc)
  {
    var p := s.procs[m.pid];
    var (w, pc) := Step(s.w, p, m.ok, m.found);
    State(w, s.procs[m.pid := Proc(p.net, pc)])
  }

  ghost predicate Next(s: State, m: Move, s': State) {
    Enabled(s, m) && s' == Apply(s, m)
  }

  /** A run: states linked by moves. */
  ghost predicate Run(states: seq<State>, moves: seq<Move>) {
    && |states| == |moves| + 1
    && forall i | 0 <= i < |moves| :: Next(states[i], moves[i], states[i + 1])
  }

  /** The move is not that of a reaper tearing `n` down. */
  ghost predicate NoReaper(s: State, m: Move, n: Net) {
    m.pid in s.procs && !(s.procs[m.pid].net == n && Reaping(s.procs[m.pid].pc))
  }

  /** Nobody tears `n` down; other networks may be. */
  ghost predicate ReaperFree(states: seq<State>, moves: seq<Move>, n: Net)
    requires |states| == |moves| + 1
  {
    forall i | 0 <= i < |moves| :: NoReaper(states[i], moves[i], n)
  }

  /** A reaper drops the row of `n`. */
  ghost predicate DropsRow(s: State, m: Move, n: Net) {
    m.pid in s.procs && m.ok && s.procs[m.pid].net == n && s.procs[m.pid].pc.ReapDrop?
  }
}
