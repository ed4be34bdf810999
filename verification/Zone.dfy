/**
 The shared state of the regional DNS plane: one Cloudflare zone and one `operational` table,
 together with the calls the service makes on them. Every call is atomic.

 Record ids are numbered in creation order, so a fresh id is `next` and an id is never reused.
 The FQDN of a network is `<slug>.<parent>`; slugs are unique, so a name is identified with the
 network it belongs to and the two kinds of name are kept apart by their constructor.
 */
module Zone {
  import opened Wrappers

  type RecordId = nat
  type Net = nat
  type Ip = string

  datatype Name = Host(net: Net) | Acme(net: Net)

  datatype Record = A(name: Name, ip: Ip) | Txt(name: Name, text: string)

  datatype Row = Row(ip: Option<Ip>, fqdn: Option<Name>, aId: Option<RecordId>, acme: seq<RecordId>)

  datatype World = World(records: map<RecordId, Record>, next: RecordId, rows: map<Net, Row>)

  const BLANK := Row(None, None, None, [])

  predicate IsA(w: World, id: RecordId, name: Name) {
    id in w.records && w.records[id].A? && w.records[id].name == name
  }

  predicate IsTxt(w: World, id: RecordId, name: Name) {
    id in w.records && w.records[id].Txt? && w.records[id].name == name
  }

  /** What `find_a_record` may answer: any one of the A records under the name, or none if there is none. */
  ghost predicate FindAnswers(w: World, name: Name, found: Option<RecordId>) {
    match found
    case Some(id) => IsA(w, id, name)
    case None => forall id | id in w.records :: !IsA(w, id, name)
  }

  // ----- Provider calls

  function CreateRecord(w: World, r: Record): World {
    w.(records := w.records[w.next := r], next := w.next + 1)
  }

  function UpdateRecord(w: World, id: RecordId, r: Record): World {
    w.(records := w.records[id := r])
  }

  /** Deleting an id that is already gone succeeds and changes nothing. */
  function DeleteRecord(w: World, id: RecordId): World {
    w.(records := w.records - {id})
  }

  // ----- Operational repository calls

  function RowOf(w: World, n: Net): Row {
    if n in w.rows then w.rows[n] else BLANK
  }

  function SetRow(w: World, n: Net, r: Row): World {
    w.(rows := w.rows[n := r])
  }

  function RecordIp(w: World, n: Net, ip: Ip): World {
    SetRow(w, n, RowOf(w, n).(ip := Some(ip)))
  }

  predicate Claimed(w: World, n: Net) {
    n in w.rows && w.rows[n].aId.Some?
  }

  /** The compare-and-set of the claim applies exactly to an existing row with no A-record id. */
  predicate Claimable(w: World, n: Net) {
    n in w.rows && w.rows[n].aId.None?
  }

  function ClaimRecord(w: World, n: Net, id: RecordId): World
    requires Claimable(w, n)
  {
    SetRow(w, n, w.rows[n].(fqdn := Some(Host(n)), aId := Some(id)))
  }

  /** Whether the compare-and-set of the ACME list applies; an empty expectation also matches a missing row. */
  predicate AcmeMatches(w: World, n: Net, expected: seq<RecordId>) {
    if n in w.rows then w.rows[n].acme == expected else expected == []
  }

  function StoreAcme(w: World, n: Net, ids: seq<RecordId>): World {
    SetRow(w, n, RowOf(w, n).(acme := ids))
  }

  function DropRow(w: World, n: Net): World {
    w.(rows := w.rows - {n})
  }
}
