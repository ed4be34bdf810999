/**
 What each operation of the service achieves when it reports success, whatever calls failed on the way
 and whatever state it started from: the whole zone and the whole table, not only its own network's part.
 */
module DdnsEffects {
  import opened Wrappers
  import opened Zone
  import opened DdnsSteps
  import opened DdnsService

  function Without(w: World, ids: seq<RecordId>): map<RecordId, Record> {
    w.records - (set id | id in ids)
  }

  /** The ids the next `k` creates hand out. */
  function Ids(first: RecordId, k: nat): (ids: seq<RecordId>)
    ensures |ids| == k && forall i | 0 <= i < k :: ids[i] == first + i
  {
    if k == 0 then [] else Ids(first, k - 1) + [first + k - 1]
  }

  /** The record with this id when that of the first value is `first`. */
  function Text(n: Net, values: seq<string>, first: RecordId, id: RecordId): Record
    requires first <= id < first + |values|
  {
    Txt(Acme(n), values[id - first])
  }

  /** One TXT record per value, the first with id `first`, leaving out those before index `from`. */
  function Texts(n: Net, values: seq<string>, first: RecordId, from: nat): map<RecordId, Record>
    requires from <= |values|
  {
    map id | id in Ids(first + from, |values| - from) :: Text(n, values, first, id)
  }

  lemma OneText(n: Net, values: seq<string>, first: RecordId, from: nat, records: map<RecordId, Record>)
    requires from < |values|
    ensures records[first + from := Txt(Acme(n), values[from])] + Texts(n, values, first, from + 1)
         == records + Texts(n, values, first, from)
  {
    var all, rest := Ids(first + from, |values| - from), Ids(first + from + 1, |values| - from - 1);
    assert all == [first + from] + rest;
  }

  lemma NextId(first: RecordId, k: nat)
    ensures Ids(first, k + 1) == Ids(first, k) + [first + k]
  {
  }

  lemma NoText(n: Net, values: seq<string>, first: RecordId, records: map<RecordId, Record>)
    ensures records + Texts(n, values, first, |values|) == records
  {
  }

  // ----- set_acme_challenge

  lemma {:induction false} CleanupEndsInError(w: World, n: Net, prior: seq<RecordId>, created: seq<RecordId>, k: nat,
                                              tape: seq<bool>)
    ensures Exec(w, Proc(n, SetCleanupFrom(prior, created, k)), tape).outcome == Error
    decreases |created| - k
  {
    hide Exec, Step;
    UnrollSet(w, n, SetCleanupFrom(prior, created, k), tape);
    if k < |created| {
      CleanupEndsInError(if CallOk(tape) then DeleteRecord(w, created[k]) else w, n, prior, created, k + 1, Rest(tape));
    }
  }

  lemma {:induction false} CreatesTakeEffect(w: World, n: Net, values: seq<string>, prior: seq<RecordId>, k: nat,
                                             first: RecordId, tape: seq<bool>)
    requires k <= |values| && w.next == first + k
    ensures var r := Exec(w, Proc(n, SetCreateFrom(values, prior, Ids(first, k))), tape);
      && (r.outcome == AcmeSet ==>
            && r.w.records == w.records + Texts(n, values, first, k)
            && r.w.rows == w.rows[n := RowOf(w, n).(acme := Ids(first, |values|))])
      && (tape == [] && AcmeMatches(w, n, prior) ==> r.outcome == AcmeSet)
    decreases |values| - k
  {
    hide Exec, Step, Ids, Texts;
    var created := Ids(first, k);
    UnrollSet(w, n, SetCreateFrom(values, prior, created), tape);
    if k == |values| {
      NoText(n, values, first, w.records);
    } else if CallOk(tape) {
      var w' := CreateRecord(w, Txt(Acme(n), values[k]));
      NextId(first, k);
      CreatesTakeEffect(w', n, values, prior, k + 1, first, Rest(tape));
      OneText(n, values, first, k, w.records);
    } else {
      CleanupEndsInError(w, n, prior, created, 0, Rest(tape));
    }
  }

  lemma DeleteShrinks(w: World, ids: seq<RecordId>, k: nat)
    requires k < |ids|
    ensures Without(DeleteRecord(w, ids[k]), ids[k + 1..]) == Without(w, ids[k..])
  {
    assert ids[k..] == [ids[k]] + ids[k + 1..];
  }

  lemma {:induction false} SetDeletesTakeEffect(w: World, n: Net, values: seq<string>, prior: seq<RecordId>, k: nat,
                                                tape: seq<bool>)
    requires k <= |prior|
    ensures var r := Exec(w, Proc(n, SetDeleteFrom(values, prior, k)), tape);
      && (r.outcome == AcmeSet ==>
            && r.w.records == Without(w, prior[k..]) + Texts(n, values, w.next, 0)
            && r.w.rows == w.rows[n := RowOf(w, n).(acme := Ids(w.next, |values|))])
      && (tape == [] && AcmeMatches(w, n, prior) ==> r.outcome == AcmeSet)
    decreases |prior| - k
  {
    hide Exec, Step;
    if k == |prior| {
      assert Without(w, prior[k..]) == w.records;
      CreatesTakeEffect(w, n, values, prior, 0, w.next, tape);
    } else {
      UnrollSet(w, n, SetDelete(values, prior, k), tape);
      if CallOk(tape) {
        DeleteShrinks(w, prior, k);
        SetDeletesTakeEffect(DeleteRecord(w, prior[k]), n, values, prior, k + 1, Rest(tape));
      }
    }
  }

  /**
   A challenge set that reports success has replaced the old records by one new record per value, in
   order, and stored exactly their ids; nothing else changed. Without a failing call it does succeed.
   */
  lemma SetTakesEffect(w: World, n: Net, values: seq<string>, tape: seq<bool>)
    ensures var r := Exec(w, Proc(n, SetRead(values)), tape);
      && (r.outcome == AcmeSet ==>
            && r.w.records == Without(w, RowOf(w, n).acme) + Texts(n, values, w.next, 0)
            && r.w.rows == w.rows[n := RowOf(w, n).(acme := Ids(w.next, |values|))])
      && (tape == [] ==> r.outcome == AcmeSet)
  {
    hide Exec, Step;
    var prior := RowOf(w, n).acme;
    UnrollSet(w, n, SetRead(values), tape);
    if CallOk(tape) {
      assert prior[0..] == prior;
      SetDeletesTakeEffect(w, n, values, prior, 0, Rest(tape));
    }
  }

  // ----- clear_acme_challenge

  lemma {:induction false} ClearDeletesTakeEffect(w: World, n: Net, prior: seq<RecordId>, k: nat, tape: seq<bool>)
    requires k <= |prior|
    ensures var r := Exec(w, Proc(n, ClearDeleteFrom(prior, k)), tape);
      && (r.outcome == AcmeCleared ==> r.w.records == Without(w, prior[k..]) && r.w.rows == StoreAcme(w, n, []).rows)
      && (tape == [] && AcmeMatches(w, n, prior) ==> r.outcome == AcmeCleared)
    decreases |prior| - k
  {
    hide Exec, Step;
    UnrollClear(w, n, ClearDeleteFrom(prior, k), tape);
    if k == |prior| {
      assert Without(w, prior[k..]) == w.records;
    } else if CallOk(tape) {
      DeleteShrinks(w, prior, k);
      ClearDeletesTakeEffect(DeleteRecord(w, prior[k]), n, prior, k + 1, Rest(tape));
    }
  }

  /** A clear that reports success has deleted the stored records and nothing else, and emptied the list. */
  lemma ClearTakesEffect(w: World, n: Net, tape: seq<bool>)
    ensures var r := Exec(w, Proc(n, ClearRead), tape);
      && (r.outcome == AcmeCleared ==>
            && r.w.records == Without(w, RowOf(w, n).acme)
            && r.w.rows == if RowOf(w, n).acme == [] then w.rows else w.rows[n := w.rows[n].(acme := [])])
      && (tape == [] ==> r.outcome == AcmeCleared)
  {
    hide Exec, Step;
    var prior := RowOf(w, n).acme;
    UnrollClear(w, n, ClearRead, tape);
    if CallOk(tape) {
      if prior == [] {
        assert Without(w, prior) == w.records;
      } else {
        assert prior[0..] == prior;
        ClearDeletesTakeEffect(w, n, prior, 0, Rest(tape));
      }
    }
  }

  // ----- delete_records

  lemma {:induction false} ReapDeletesTakeEffect(w: World, n: Net, op: Row, k: nat, tape: seq<bool>)
    requires k <= |op.acme|
    ensures var r := Exec(w, Proc(n, ReapTxtFrom(op, k)), tape);
      && (r.outcome == Reaped ==> r.w.records == Without(w, op.acme[k..]) && r.w.rows == w.rows - {n})
      && (tape == [] ==> r.outcome == Reaped)
    decreases |op.acme| - k
  {
    hide Exec, Step;
    UnrollReap(w, n, ReapTxtFrom(op, k), tape);
    if k == |op.acme| {
      assert Without(w, op.acme[k..]) == w.records;
    } else if CallOk(tape) {
      DeleteShrinks(w, op.acme, k);
      ReapDeletesTakeEffect(DeleteRecord(w, op.acme[k]), n, op, k + 1, Rest(tape));
    }
  }

  function OwnIds(row: Row): seq<RecordId> {
    (match row.aId case Some(id) => [id] case None => []) + row.acme
  }

  /** A teardown that reports success has deleted exactly the records the row names, and the row. */
  lemma ReapTakesEffect(w: World, n: Net, tape: seq<bool>)
    ensures var r := Exec(w, Proc(n, ReapRead), tape);
      && (r.outcome == Reaped ==> r.w.records == Without(w, OwnIds(RowOf(w, n))) && r.w.rows == w.rows - {n})
      && (tape == [] ==> r.outcome == Reaped)
  {
    hide Exec, Step;
    var row := RowOf(w, n);
    UnrollReap(w, n, ReapRead, tape);
    if CallOk(tape) && n in w.rows {
      assert row.acme[0..] == row.acme;
      if row.aId.Some? {
        var w' := DeleteRecord(w, row.aId.value);
        UnrollReap(w, n, ReapDeleteA(row), Rest(tape));
        if CallOk(Rest(tape)) {
          ReapDeletesTakeEffect(w', n, row, 0, Rest(Rest(tape)));
          assert Without(w', row.acme) == Without(w, OwnIds(row));
        }
      } else {
        ReapDeletesTakeEffect(w, n, row, 0, Rest(tape));
        assert OwnIds(row) == row.acme;
      }
    } else if CallOk(tape) {
      assert Without(w, OwnIds(row)) == w.records && w.rows - {n} == w.rows;
    }
  }

  // ----- report_ip and provision

  /**
   A report succeeds exactly if its calls go through and a claimed record is still there; then the IP is
   stored, and a claimed record holds it. Nothing else changed.
   */
  lemma ReportTakesEffect(w: World, n: Net, ip: Ip, tape: seq<bool>)
    ensures var r := Exec(w, Proc(n, ReportRead(ip)), tape);
      var row := RowOf(w, n);
      var claimed := row.aId.Some? && row.fqdn.Some?;
      && (r.outcome == Reported <==>
            && CallOk(tape) && CallOk(Rest(tape))
            && (claimed ==> row.aId.value in w.records && CallOk(Rest(Rest(tape)))))
      && (r.outcome == Reported ==>
            && r.w.rows == w.rows[n := row.(ip := Some(ip))]
            && r.w.records == if claimed then w.records[row.aId.value := A(row.fqdn.value, ip)] else w.records)
  {
    hide Exec, Step;
    var row := RowOf(w, n);
    UnrollReport(w, n, ReportRead(ip), tape);
    if row.aId.Some? && row.fqdn.Some? {
      UnrollReport(w, n, ReportUpdate(ip, row.aId.value, row.fqdn.value), Rest(tape));
      UnrollReport(UpdateRecord(w, row.aId.value, A(row.fqdn.value, ip)), n, ReportStore(ip), Rest(Rest(tape)));
    } else {
      UnrollReport(w, n, ReportStore(ip), Rest(tape));
    }
  }

  /** The record a provisioner publishes: the one it finds, or a new one. */
  function Target(w: World, n: Net): RecordId {
    var found := Find1(w, Host(n));
    if found.Some? then found.value else w.next
  }

  /** The zone with the record published. */
  function PublishedIn(w: World, n: Net, ip: Ip): map<RecordId, Record> {
    w.records[Target(w, n) := A(Host(n), ip)]
  }

  /**
   From the claim on: a free row takes the record. A row claimed by another keeps its claim, and the own
   record is dropped as a duplicate unless it is the claimed one; a failure of that delete does not matter.
   */
  lemma ClaimTakesEffect(w: World, n: Net, id: RecordId, tape: seq<bool>)
    ensures var r := Exec(w, Proc(n, Claim(id)), tape);
      && (r.outcome == Provisioned <==> CallOk(tape) && (Claimable(w, n) || CallOk(Rest(tape))))
      && (r.outcome != Provisioned ==> r.outcome == Error && r.w == w)
      && (r.outcome == Provisioned && Claimable(w, n) ==>
            && r.w.records == w.records
            && r.w.rows == w.rows[n := w.rows[n].(fqdn := Some(Host(n)), aId := Some(id))])
      && (r.outcome == Provisioned && !Claimable(w, n) ==>
            && r.w.rows == w.rows
            && r.w.records ==
                 if RowOf(w, n).aId != Some(id) && CallOk(Rest(Rest(tape))) then w.records - {id} else w.records)
  {
    hide Exec, Step;
    UnrollProvision(w, n, Claim(id), tape);
    UnrollProvision(w, n, Reread(id), Rest(tape));
    UnrollProvision(w, n, DropDuplicate(id), Rest(Rest(tape)));
  }

  /** Before the claim, whatever the row says, the IP is published under the record found, or a new one. */
  lemma ProvisionPublishes(w: World, n: Net, ip: Ip, tape: seq<bool>)
    requires forall id | id in w.records :: id < w.next
    ensures var r := Exec(w, Proc(n, Find(ip)), tape);
      if CallOk(tape) && CallOk(Rest(tape)) then
        var next := if Find1(w, Host(n)).Some? then w.next else w.next + 1;
        r == Exec(World(PublishedIn(w, n, ip), next, w.rows), Proc(n, Claim(Target(w, n))), Rest(Rest(tape)))
      else r.outcome == Error && r.w == w
  {
    hide Exec, Step, FindFrom;
    var found := Find1(w, Host(n));
    UnrollProvision(w, n, Find(ip), tape);
    UnrollProvision(w, n, Upsert(ip, found), Rest(tape));
    var w' := if found.Some? then UpdateRecord(w, found.value, A(Host(n), ip)) else CreateRecord(w, A(Host(n), ip));
    assert w'.records == PublishedIn(w, n, ip);
  }

  /** A turn of the provisioner skips a network for which it reads no IP, and otherwise provisions the IP read. */
  lemma TurnTakesEffect(w: World, n: Net, tape: seq<bool>)
    ensures var r := Exec(w, Proc(n, TickRead), tape);
      if !CallOk(tape) then r.outcome == Error && r.w == w
      else if RowOf(w, n).ip.None? then r.outcome == Skipped && r.w == w
      else r == Exec(w, Proc(n, Find(RowOf(w, n).ip.value)), Rest(tape))
  {
    hide Exec, Step;
    UnrollProvision(w, n, TickRead, tape);
  }

  /**
   A provisioning of an unclaimed row that reports success has published the IP under one record, the
   existing one if there was one, and stored its id; nothing else changed.
   */
  lemma ProvisionTakesEffect(w: World, n: Net, ip: Ip, tape: seq<bool>)
    requires Claimable(w, n) && forall id | id in w.records :: id < w.next
    ensures var r := Exec(w, Proc(n, Find(ip)), tape);
      && (r.outcome == Provisioned ==>
            && r.w.records == PublishedIn(w, n, ip)
            && r.w.rows == w.rows[n := w.rows[n].(fqdn := Some(Host(n)), aId := Some(Target(w, n)))])
      && (r.outcome == Provisioned <==> CallOk(tape) && CallOk(Rest(tape)) && CallOk(Rest(Rest(tape))))
  {
    hide Exec, Step, FindFrom;
    var found := Find1(w, Host(n));
    UnrollProvision(w, n, Find(ip), tape);
    UnrollProvision(w, n, Upsert(ip, found), Rest(tape));
    var w' := if found.Some? then UpdateRecord(w, found.value, A(Host(n), ip)) else CreateRecord(w, A(Host(n), ip));
    UnrollProvision(w', n, Claim(Target(w, n)), Rest(Rest(tape)));
  }

  // ----- What a turn keeps of the other rows

  /** However it ends, a teardown adds no row. */
  lemma {:induction false} ReapAddsNoRow(w: World, n: Net, pc: Pc, tape: seq<bool>)
    requires Bounded(pc) && (Reaping(pc) || pc.Finished?)
    ensures Exec(w, Proc(n, pc), tape).w.rows.Keys <= w.rows.Keys
    decreases Stage(pc), Left(pc)
  {
    if pc.Finished? {
    } else {
      StepProgress(w, Proc(n, pc), CallOk(tape), Find1(w, Host(n)));
      var (w', pc') := ReapStep(w, n, pc, CallOk(tape));
      ReapAddsNoRow(w', n, pc', Rest(tape));
    }
  }

  /** What a provisioner knows of its own row when nothing comes between. */
  predicate OwnRow(w: World, n: Net, pc: Pc) {
    match pc
    case TickRead => true
    case Reread(_) => Claimed(w, n)
    case DropDuplicate(_) => Claimed(w, n)
    case Finished(outcome) => outcome == Provisioned ==> Claimed(w, n)
    case _ => n in w.rows
  }

  /** However it ends, a provisioner's turn keeps every claim, and if it reports success its network has one. */
  lemma {:induction false} ProvisionKeepsClaims(w: World, n: Net, pc: Pc, tape: seq<bool>, m: Net)
    requires (Provisioning(pc) || pc.Finished?) && OwnRow(w, n, pc)
    ensures var r := Exec(w, Proc(n, pc), tape);
      && (Claimed(w, m) ==> Claimed(r.w, m))
      && (r.outcome == Provisioned ==> Claimed(r.w, n))
    decreases Stage(pc), Left(pc)
  {
    if pc.Finished? {
    } else {
      StepProgress(w, Proc(n, pc), CallOk(tape), Find1(w, Host(n)));
      var (w', pc') := ProvisionStep(w, n, pc, CallOk(tape), Find1(w, Host(n)));
      assert pc'.Finished? || Provisioning(pc');
      ProvisionKeepsClaims(w', n, pc', Rest(tape), m);
    }
  }

  // ----- A challenge set that fails half-way

  /** Whether the `i`-th of the coming calls goes through. */
  function CallOkAt(tape: seq<bool>, i: nat): bool { i >= |tape| || tape[i] }

  /** The ids from `k` on whose delete, one call each, goes through. */
  function Deleted(ids: seq<RecordId>, k: nat, tape: seq<bool>): set<RecordId>
    requires k <= |ids|
  {
    set i | k <= i < |ids| && CallOkAt(tape, i - k) :: ids[i]
  }

  /**
   After a failed create, the created records are deleted as far as the deletes go through, the stored
   list is cleared if that call does and the list is still the one read, and the operation reports an error.
   */
  lemma {:induction false} AbandonTakesEffect(w: World, n: Net, prior: seq<RecordId>, created: seq<RecordId>, k: nat,
                                              tape: seq<bool>)
    requires k <= |created|
    ensures var r := Exec(w, Proc(n, SetCleanupFrom(prior, created, k)), tape);
      && r.outcome == Error
      && r.w.records == w.records - Deleted(created, k, tape)
      && r.w.rows ==
           (if CallOkAt(tape, |created| - k) && AcmeMatches(w, n, prior) then StoreAcme(w, n, []).rows else w.rows)
    decreases |created| - k
  {
    hide Exec, Step;
    UnrollSet(w, n, SetCleanupFrom(prior, created, k), tape);
    if k == |created| {
      assert w.records - Deleted(created, k, tape) == w.records;
    } else {
      var w' := if CallOk(tape) then DeleteRecord(w, created[k]) else w;
      AbandonTakesEffect(w', n, prior, created, k + 1, Rest(tape));
      OneDeleted(w, created, k, tape);
    }
  }

  lemma OneDeleted(w: World, created: seq<RecordId>, k: nat, tape: seq<bool>)
    requires k < |created|
    ensures (if CallOk(tape) then DeleteRecord(w, created[k]) else w).records - Deleted(created, k + 1, Rest(tape))
         == w.records - Deleted(created, k, tape)
    ensures forall i: nat :: CallOkAt(Rest(tape), i) == CallOkAt(tape, i + 1)
  {
    assert forall i: nat :: CallOkAt(Rest(tape), i) == CallOkAt(tape, i + 1);
    var first := if CallOk(tape) then {created[k]} else {};
    assert Deleted(created, k, tape) == Deleted(created, k + 1, Rest(tape)) + first;
  }
}
