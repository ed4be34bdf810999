/**
 The replay cache of signed requests: what the pruned map answers, and what it guarantees together with
 the timestamp window. A request reads the clock twice, once for the window and once for the cache.
 */
module ReplayCache {
  const REPLAY_WINDOW_SECS := 120
  const TIMESTAMP_WINDOW_SECS := 60

  datatype Key = Key(subject: string, timestamp: int, bodyHash: string)

  datatype Entry = Entry(key: Key, at: int)

  datatype Request = Request(key: Key, signed: bool, checkedAt: int, storedAt: int)

  // ----- The unpruned log

  ghost predicate Sorted(log: seq<Entry>, now: int) {
    && (forall i, j | 0 <= i < j < |log| :: log[i].at <= log[j].at)
    && (forall i | 0 <= i < |log| :: log[i].at <= now)
  }

  /** The key was accepted less than the window ago. */
  ghost predicate AcceptedWithin(log: seq<Entry>, key: Key, now: int) {
    exists i :: 0 <= i < |log| && log[i].key == key && now - log[i].at < REPLAY_WINDOW_SECS
  }

  /** The map a cache pruned at `now` holds: the latest acceptance of each key, if recent. */
  ghost function Recent(log: seq<Entry>, now: int): map<Key, int> {
    if log == [] then map[]
    else
      var m := |log| - 1;
      var rest := Recent(log[..m], now);
      if now - log[m].at < REPLAY_WINDOW_SECS then rest[log[m].key := log[m].at] else rest
  }

  function Prune(entries: map<Key, int>, now: int): map<Key, int> {
    map k | k in entries && now - entries[k] < REPLAY_WINDOW_SECS :: entries[k]
  }

  lemma {:induction false} RecentExactly(log: seq<Entry>, now: int, key: Key)
    ensures key in Recent(log, now) <==> AcceptedWithin(log, key, now)
    ensures key in Recent(log, now) ==> now - Recent(log, now)[key] < REPLAY_WINDOW_SECS
  {
    if log == [] {
    } else {
      var m := |log| - 1;
      RecentExactly(log[..m], now, key);
      if key in Recent(log[..m], now) {
        var i :| 0 <= i < m && log[..m][i].key == key && now - log[..m][i].at < REPLAY_WINDOW_SECS;
        assert log[i].key == key;
      } else if i :| 0 <= i < |log| && log[i].key == key && now - log[i].at < REPLAY_WINDOW_SECS {
        assert i == m || log[..m][i] == log[i];
      }
    }
  }

  /** Pruning later is looking back from later. */
  lemma {:induction false} PruneRecent(log: seq<Entry>, earlier: int, now: int)
    requires earlier <= now && Sorted(log, earlier)
    ensures Prune(Recent(log, earlier), now) == Recent(log, now)
  {
    if log == [] {
    } else {
      var m := |log| - 1;
      PruneRecent(log[..m], earlier, now);
      if now - log[m].at >= REPLAY_WINDOW_SECS {
        forall k ensures k !in Recent(log, now) {
          RecentExactly(log, now, k);
        }
        forall k | k in Recent(log, earlier) ensures now - Recent(log, earlier)[k] >= REPLAY_WINDOW_SECS {
          LatestBound(log, earlier, k);
        }
      }
    }
  }

  lemma {:induction false} LatestBound(log: seq<Entry>, now: int, key: Key)
    requires Sorted(log, now) && key in Recent(log, now)
    ensures log != [] && Recent(log, now)[key] <= log[|log| - 1].at
  {
    var m := |log| - 1;
    if key in Recent(log[..m], now) {
      LatestBound(log[..m], now, key);
      assert log[..m][m - 1] == log[m - 1];
    }
  }

  class ReplayCache {
    var entries: map<Key, int>
    /** Every acceptance so far, never pruned, and the latest clock reading. */
    ghost var log: seq<Entry>
    ghost var last: int

    ghost predicate Valid()
      reads this
    {
      Sorted(log, last) && entries == Recent(log, last)
    }

    constructor (ghost start: int)
      ensures Valid() && log == [] && last == start
    {
      entries, log, last := map[], [], start;
    }

    /** The pruned map answers like the whole log asked for a recent acceptance. */
    method ContainsOrInsert(key: Key, now: int) returns (seen: bool)
      requires Valid() && last <= now
      modifies this
      ensures Valid() && last == now
      ensures seen <==> AcceptedWithin(old(log), key, now)
      ensures log == if seen then old(log) else old(log) + [Entry(key, now)]
    {
      PruneRecent(log, last, now);
      RecentExactly(log, now, key);
      entries := Prune(entries, now);
      last := now;
      seen := key in entries;
      if !seen {
        entries := entries[key := now];
        assert (log + [Entry(key, now)])[..|log|] == log;
        log := log + [Entry(key, now)];
      }
    }

    /** The whole check of a signed request; only a request that passes all of it is logged. */
    method VerifyPopRequest(r: Request) returns (ok: bool)
      requires Valid() && last <= r.storedAt
      modifies this
      ensures Valid() && last <= r.storedAt
      ensures ok <==> Admits(old(log), r)
      ensures log == Extend(old(log), r)
    {
      if !InWindow(r) { return false; }
      if !r.signed { return false; }
      var seen := ContainsOrInsert(r.key, r.storedAt);
      ok := !seen;
    }
  }

  // ----- Whole runs

  predicate InWindow(r: Request) {
    -TIMESTAMP_WINDOW_SECS <= r.checkedAt - r.key.timestamp <= TIMESTAMP_WINDOW_SECS
  }

  ghost predicate Admits(log: seq<Entry>, r: Request) {
    InWindow(r) && r.signed && !AcceptedWithin(log, r.key, r.storedAt)
  }

  ghost function Extend(log: seq<Entry>, r: Request): seq<Entry> {
    if Admits(log, r) then log + [Entry(r.key, r.storedAt)] else log
  }

  ghost function Log(rs: seq<Request>): seq<Entry> {
    if rs == [] then [] else Extend(Log(rs[..|rs| - 1]), rs[|rs| - 1])
  }

  /** The `j`-th request of the run is accepted. */
  ghost predicate AcceptedAt(rs: seq<Request>, j: nat)
    requires j < |rs|
  {
    Admits(Log(rs[..j]), rs[j])
  }

  /** The clock never runs backwards, neither within a request nor between two cache accesses. */
  ghost predicate Clocked(rs: seq<Request>) {
    && (forall i | 0 <= i < |rs| :: rs[i].checkedAt <= rs[i].storedAt)
    && (forall i, j | 0 <= i < j < |rs| :: rs[i].storedAt <= rs[j].storedAt)
  }

  lemma {:induction false} StaysLogged(rs: seq<Request>, j: nat, k: nat)
    requires j < k <= |rs| && AcceptedAt(rs, j)
    ensures Entry(rs[j].key, rs[j].storedAt) in Log(rs[..k])
    decreases k
  {
    assert rs[..k][..k - 1] == rs[..k - 1];
    if j < k - 1 {
      StaysLogged(rs, j, k - 1);
    }
  }

  lemma {:induction false} LoggedWasAccepted(rs: seq<Request>, k: nat, e: Entry) returns (j: nat)
    requires k <= |rs| && e in Log(rs[..k])
    ensures j < k && AcceptedAt(rs, j) && e == Entry(rs[j].key, rs[j].storedAt)
    decreases k
  {
    assert rs[..k][..k - 1] == rs[..k - 1];
    if e in Log(rs[..k - 1]) {
      j := LoggedWasAccepted(rs, k - 1, e);
    } else {
      j := k - 1;
    }
  }

  /**
   Two acceptances of one key are at least the retention of 120 seconds apart, so the second one passes the window
   check no later than the timestamp's window closes and reaches the cache no earlier.
   */
  lemma AcceptedTwice(rs: seq<Request>, j: nat, k: nat)
    requires Clocked(rs) && j < k < |rs|
    requires rs[j].key == rs[k].key && AcceptedAt(rs, j) && AcceptedAt(rs, k)
    ensures rs[k].storedAt - rs[j].storedAt >= 120
    ensures rs[k].checkedAt <= rs[k].key.timestamp + 60 <= rs[k].storedAt
    ensures rs[k].storedAt - rs[k].checkedAt >= rs[j].storedAt - (rs[j].key.timestamp - 60)
  {
    StaysLogged(rs, j, k);
    var i :| 0 <= i < |Log(rs[..k])| && Log(rs[..k])[i] == Entry(rs[j].key, rs[j].storedAt);
  }

  /** If the second clock reading is in time for the window as well, no key is ever accepted twice. */
  lemma NeverReplayedInTime(rs: seq<Request>, j: nat, k: nat)
    requires Clocked(rs) && j < k < |rs|
    requires rs[j].key == rs[k].key && AcceptedAt(rs, j)
    requires rs[k].storedAt < rs[k].key.timestamp + TIMESTAMP_WINDOW_SECS
    ensures !AcceptedAt(rs, k)
  {
    if AcceptedAt(rs, k) {
      AcceptedTwice(rs, j, k);
    }
  }

  ghost predicate Replayed(rs: seq<Request>, key: Key) {
    exists j: nat, k: nat ::
      j < k < |rs| && rs[j].key == key && rs[k].key == key && AcceptedAt(rs, j) && AcceptedAt(rs, k)
  }

  /** A signed request with this key arrives at instant `t`. */
  ghost predicate Arrives(rs: seq<Request>, key: Key, t: int) {
    exists j :: 0 <= j < |rs| && rs[j].key == key && rs[j].signed && rs[j].storedAt == t
  }

  /** A signed arrival in the window is accepted, or its key was accepted less than the retention ago. */
  lemma AcceptedOrRecent(rs: seq<Request>, k: nat) returns (j: nat)
    requires Clocked(rs) && k < |rs| && rs[k].signed && InWindow(rs[k])
    ensures j <= k && rs[j].key == rs[k].key && AcceptedAt(rs, j)
    ensures rs[k].storedAt - rs[j].storedAt < REPLAY_WINDOW_SECS
  {
    j := k;
    if !AcceptedAt(rs, k) {
      var log := Log(rs[..k]);
      var i :| 0 <= i < |log| && log[i].key == rs[k].key && rs[k].storedAt - log[i].at < REPLAY_WINDOW_SECS;
      j := LoggedWasAccepted(rs, k, log[i]);
    }
  }

  lemma ReplayedNeedsEdges(rs: seq<Request>, key: Key)
    requires Clocked(rs) && (forall i | 0 <= i < |rs| :: rs[i].checkedAt == rs[i].storedAt) && Replayed(rs, key)
    ensures Arrives(rs, key, key.timestamp - TIMESTAMP_WINDOW_SECS)
    ensures Arrives(rs, key, key.timestamp + TIMESTAMP_WINDOW_SECS)
  {
    hide AcceptedWithin, Log;
    var j: nat, k: nat :|
      j < k < |rs| && rs[j].key == key && rs[k].key == key && AcceptedAt(rs, j) && AcceptedAt(rs, k);
    AcceptedTwice(rs, j, k);
  }

  lemma EdgesReplay(rs: seq<Request>, key: Key)
    requires Clocked(rs) && (forall i | 0 <= i < |rs| :: rs[i].checkedAt == rs[i].storedAt)
    requires Arrives(rs, key, key.timestamp - TIMESTAMP_WINDOW_SECS)
    requires Arrives(rs, key, key.timestamp + TIMESTAMP_WINDOW_SECS)
    ensures Replayed(rs, key)
  {
    hide AcceptedWithin, Log;
    var open, close := key.timestamp - TIMESTAMP_WINDOW_SECS, key.timestamp + TIMESTAMP_WINDOW_SECS;
    var a :| 0 <= a < |rs| && rs[a].key == key && rs[a].signed && rs[a].storedAt == open;
    var b :| 0 <= b < |rs| && rs[b].key == key && rs[b].signed && rs[b].storedAt == close;
    var j := AcceptedOrRecent(rs, a);
    var k := AcceptedOrRecent(rs, b);
    assert rs[j].storedAt == key.timestamp - TIMESTAMP_WINDOW_SECS < rs[k].storedAt;
  }

  /**
   With both readings one instant, a key is accepted twice exactly if it arrives at the very first and
   at the very last second of its window.
   */
  lemma ReplayedExactlyAtEdges(rs: seq<Request>, key: Key)
    requires Clocked(rs) && forall i | 0 <= i < |rs| :: rs[i].checkedAt == rs[i].storedAt
    ensures Replayed(rs, key) <==>
      Arrives(rs, key, key.timestamp - 60) && Arrives(rs, key, key.timestamp + 60)
  {
    hide Replayed, Arrives;
    if Replayed(rs, key) {
      ReplayedNeedsEdges(rs, key);
    } else if Arrives(rs, key, key.timestamp - TIMESTAMP_WINDOW_SECS)
              && Arrives(rs, key, key.timestamp + TIMESTAMP_WINDOW_SECS) {
      EdgesReplay(rs, key);
    }
  }

  /** Which does happen: one key, both edges, two acceptances. */
  lemma EdgeReplay(key: Key)
    ensures exists rs: seq<Request> ::
      && Clocked(rs) && (forall i | 0 <= i < |rs| :: rs[i].checkedAt == rs[i].storedAt)
      && Replayed(rs, key)
  {
    var open, close := key.timestamp - TIMESTAMP_WINDOW_SECS, key.timestamp + TIMESTAMP_WINDOW_SECS;
    var rs := [Request(key, true, open, open), Request(key, true, close, close)];
    assert rs[0].storedAt == open && rs[1].storedAt == close;
    ReplayedExactlyAtEdges(rs, key);
  }
}
