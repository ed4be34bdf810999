/**
 The provisioner and reaper ticks: each drains an id-ordered work queue page by page behind an
 exclusive cursor, while handled rows leave the queue and skipped or failed rows stay in it.
 */
module Reconcile {
  import opened Wrappers
  import opened Zone
  import opened DdnsSteps
  import opened DdnsService
  import opened DdnsEffects

  predicate Above(n: Net, after: Option<Net>) { after.None? || after.value < n }

  function Beyond(s: set<Net>, after: Option<Net>): set<Net> { set n | n in s && Above(n, after) }

  predicate IsLeast(s: set<Net>, m: Net) { m in s && forall n | n in s :: m <= n }

  function Least(s: set<Net>): (m: Net)
    requires s != {}
    ensures IsLeast(s, m)
  {
    assert exists x :: IsLeast(s, x) by { var x := HasLeast(s); }
    var x :| IsLeast(s, x);
    x
  }

  lemma {:induction false} HasLeast(s: set<Net>) returns (m: Net)
    requires s != {}
    ensures IsLeast(s, m)
  {
    var y :| y in s;
    if s == {y} {
      m := y;
    } else {
      var x := HasLeast(s - {y});
      m := if y <= x then y else x;
      assert s == (s - {y}) + {y};
    }
  }

  ghost predicate Ascending(ns: seq<Net>) {
    forall i, j | 0 <= i < j < |ns| :: ns[i] < ns[j]
  }

  /** The first `limit` members of a queue, in id order. */
  function Page(s: set<Net>, limit: nat): (ns: seq<Net>)
    ensures |ns| <= limit && Ascending(ns)
    ensures forall i | 0 <= i < |ns| :: ns[i] in s
    ensures forall n | n in s && n !in ns :: |ns| == limit && forall i | 0 <= i < |ns| :: ns[i] < n
    decreases limit
  {
    if limit == 0 || s == {} then []
    else
      var m := Least(s);
      [m] + Page(s - {m}, limit - 1)
  }

  /** No call on the tape fails. */
  ghost predicate Smooth(tape: seq<bool>) {
    forall i | 0 <= i < |tape| :: tape[i]
  }

  lemma SmoothRest(tape: seq<bool>)
    requires Smooth(tape)
    ensures CallOk(tape) && Smooth(Rest(tape))
  {
  }

  class WorkQueue {
    /** The networks in the drained state. */
    var queued: set<Net>
    /** Whether the coming page fetches and reports go through; calls past the end of a tape do. */
    var fetches: seq<bool>
    var reports: seq<bool>

    constructor (queued: set<Net>, fetches: seq<bool>, reports: seq<bool>)
      ensures this.queued == queued && this.fetches == fetches && this.reports == reports
    {
      this.queued, this.fetches, this.reports := queued, fetches, reports;
    }

    method List(after: Option<Net>, limit: nat) returns (page: Option<seq<Net>>)
      modifies this`fetches
      ensures fetches == Rest(old(fetches))
      ensures page == if CallOk(old(fetches)) then Some(Page(Beyond(queued, after), limit)) else None
    {
      var ok := CallOk(fetches);
      fetches := Rest(fetches);
      page := if ok then Some(Page(Beyond(queued, after), limit)) else None;
    }

    /** Report a network's new state; it then leaves the queue. */
    method Transition(n: Net) returns (ok: bool)
      modifies this`queued, this`reports
      ensures ok == CallOk(old(reports)) && reports == Rest(old(reports))
      ensures queued == if ok then old(queued) - {n} else old(queued)
    {
      ok := CallOk(reports);
      reports := Rest(reports);
      if ok { queued := queued - {n}; }
    }
  }

  /** The service's work on a list of networks, one after the other, each starting at `pc`. */
  ghost function Handle(w: World, pc: Pc, ns: seq<Net>, tape: seq<bool>): (World, seq<bool>)
    requires Starting(pc)
  {
    if ns == [] then (w, tape)
    else
      var (w', tape') := Handle(w, pc, ns[..|ns| - 1], tape);
      var r := Exec(w', Proc(ns[|ns| - 1], pc), tape');
      (r.w, r.tape)
  }

  lemma HandleOneMore(w: World, pc: Pc, ns: seq<Net>, n: Net, tape: seq<bool>)
    requires Starting(pc)
    ensures var (w', tape') := Handle(w, pc, ns, tape);
      var r := Exec(w', Proc(n, pc), tape');
      Handle(w, pc, ns + [n], tape) == (r.w, r.tape)
  {
    assert (ns + [n])[..|ns|] == ns;
  }

  /** What the service answered for the `k`-th of them. */
  ghost function Answer(w: World, pc: Pc, ns: seq<Net>, k: nat, tape: seq<bool>): Outcome
    requires Starting(pc) && k < |ns|
  {
    var (w', tape') := Handle(w, pc, ns[..k], tape);
    Exec(w', Proc(ns[k], pc), tape').outcome
  }

  /**
   Of the first `k` networks handled, one has left the queue only if the service answered `goal` for it;
   if `heard`, exactly then.
   */
  ghost predicate LeftFor(w: World, pc: Pc, ns: seq<Net>, k: nat, tape: seq<bool>, goal: Outcome, queued: set<Net>,
                          heard: bool)
    requires Starting(pc) && k <= |ns|
  {
    forall i | 0 <= i < k ::
      && (ns[i] !in queued ==> Answer(w, pc, ns, i, tape) == goal)
      && (heard && Answer(w, pc, ns, i, tape) == goal ==> ns[i] !in queued)
  }

  lemma LeftForStep(w: World, pc: Pc, ns: seq<Net>, k: nat, tape: seq<bool>, goal: Outcome, queued: set<Net>,
                    queued': set<Net>, heard: bool)
    requires Starting(pc) && k < |ns| && LeftFor(w, pc, ns, k, tape, goal, queued, heard)
    requires Ascending(ns) && ns[k] in queued
    requires queued' == queued || (queued' == queued - {ns[k]} && Answer(w, pc, ns, k, tape) == goal)
    requires heard && Answer(w, pc, ns, k, tape) == goal ==> queued' == queued - {ns[k]}
    ensures LeftFor(w, pc, ns, k + 1, tape, goal, queued', heard)
  {
    hide Answer;
    assert forall i | 0 <= i < k :: ns[i] < ns[k];
  }

  /** The cursor: the networks behind it have been handled in order, those beyond are untouched. */
  ghost predicate Cursor(start: set<Net>, queued: set<Net>, handled: seq<Net>, after: Option<Net>) {
    && Ascending(handled)
    && (forall i | 0 <= i < |handled| :: handled[i] in start && !Above(handled[i], after))
    && (forall n | n in start && !Above(n, after) :: n in handled)
    && (forall n | Above(n, after) :: n in queued <==> n in start)
    && queued <= start
  }

  lemma Advance(start: set<Net>, queued: set<Net>, queued': set<Net>, handled: seq<Net>, after: Option<Net>, n: Net)
    requires Cursor(start, queued, handled, after)
    requires n in start && Above(n, after)
    requires forall x | x in start && Above(x, after) && x < n :: x in handled
    requires queued' == queued || queued' == queued - {n}
    ensures Cursor(start, queued', handled + [n], Some(n))
  {
  }

  /** What is left on a page: the members from `k` on are exactly the next ones beyond the cursor. */
  ghost predicate PageAhead(start: set<Net>, page: seq<Net>, k: nat, after: Option<Net>, limit: nat) {
    && k <= |page| <= limit
    && Ascending(page)
    && (forall i | k <= i < |page| :: page[i] in start && Above(page[i], after))
    && (forall n | n in start && Above(n, after) && n !in page[k..] ::
          |page| == limit && forall i | k <= i < |page| :: page[i] < n)
  }

  lemma PageFetched(start: set<Net>, queued: set<Net>, handled: seq<Net>, after: Option<Net>, limit: nat)
    requires Cursor(start, queued, handled, after)
    ensures PageAhead(start, Page(Beyond(queued, after), limit), 0, after, limit)
  {
    var page := Page(Beyond(queued, after), limit);
    assert page[0..] == page;
  }

  lemma PageStep(start: set<Net>, page: seq<Net>, k: nat, after: Option<Net>, limit: nat)
    requires PageAhead(start, page, k, after, limit) && k < |page|
    ensures page[k] in start && Above(page[k], after)
    ensures forall x | x in start && Above(x, after) :: page[k] <= x
    ensures PageAhead(start, page, k + 1, Some(page[k]), limit)
  {
    assert page[k..] == [page[k]] + page[k + 1..];
    forall x | x in start && Above(x, after) ensures page[k] <= x {
      if x in page[k..] {
        var i :| 0 <= i < |page[k..]| && page[k..][i] == x;
        assert page[k + i] == x;
      }
    }
  }

  /** A short page is the last one; a full one has moved the cursor. */
  lemma PageDone(start: set<Net>, page: seq<Net>, before: Option<Net>, after: Option<Net>, limit: nat)
    requires limit > 0 && PageAhead(start, page, |page|, after, limit)
    requires after == After(page, before) && PageAhead(start, page, 0, before, limit)
    ensures |page| < limit ==> forall n | n in start :: !Above(n, after)
    ensures page != [] ==> Beyond(start, after) < Beyond(start, before)
  {
    if page != [] {
      assert page[|page| - 1] in Beyond(start, before) && page[|page| - 1] !in Beyond(start, after);
    }
  }

  // ----- The effect of a turn on the operational table

  /** The position a turn of the reaper can be in when no call fails: the row of `n` is what it read. */
  lemma {:induction false} ReapTurn(w: World, n: Net, pc: Pc)
    requires Bounded(pc) && (Reaping(pc) || pc == Finished(Reaped))
    requires pc.Finished? ==> n !in w.rows
    ensures var r := Exec(w, Proc(n, pc), []);
      r.outcome == Reaped && r.tape == [] && r.w.rows == w.rows - {n}
    decreases Stage(pc), Left(pc)
  {
    if pc.Finished? {
    } else {
      StepProgress(w, Proc(n, pc), true, Find1(w, Host(n)));
      var (w', pc') := Step(w, Proc(n, pc), true, Find1(w, Host(n)));
      ReapTurn(w', n, pc');
    }
  }

  /** When no call fails, reaping a list of networks drops exactly their rows. */
  lemma {:induction false} ReapAll(w: World, ns: seq<Net>)
    ensures var r := Handle(w, ReapRead, ns, []);
      r.1 == [] && r.0.rows == w.rows - (set n | n in ns)
  {
    hide Exec;
    if ns == [] {
    } else {
      var m := |ns| - 1;
      ReapAll(w, ns[..m]);
      ReapTurn(Handle(w, ReapRead, ns[..m], []).0, ns[m], ReapRead);
      assert ns == ns[..m] + [ns[m]];
    }
  }

  ghost predicate SameIps(w: World, w': World) {
    forall n: Net :: RowOf(w', n).ip == RowOf(w, n).ip
  }

  /** When no call fails, a provisioner's turn skips or publishes, and no reported IP changes. */
  lemma {:induction false} ProvisionTurn(w: World, n: Net, pc: Pc)
    requires Provisioning(pc) || pc == Finished(Provisioned) || pc == Finished(Skipped)
    requires pc.Upsert? && pc.existing.Some? ==> pc.existing.value in w.records
    ensures var r := Exec(w, Proc(n, pc), []);
      && r.tape == [] && SameIps(w, r.w)
      && r.outcome ==
           (if pc == Finished(Skipped) || (pc.TickRead? && RowOf(w, n).ip.None?) then Skipped else Provisioned)
    decreases Stage(pc)
  {
    if pc.Finished? {
    } else {
      var (w', pc') := Step(w, Proc(n, pc), true, Find1(w, Host(n)));
      assert Step(w, Proc(n, pc), true, Find1(w, Host(n))) == ProvisionStep(w, n, pc, true, Find1(w, Host(n)));
      ProvisionTurn(w', n, pc');
    }
  }

  lemma {:induction false} ProvisionAll(w: World, ns: seq<Net>)
    ensures var r := Handle(w, TickRead, ns, []); r.1 == [] && SameIps(w, r.0)
  {
    hide Exec;
    if ns == [] {
    } else {
      var m := |ns| - 1;
      ProvisionAll(w, ns[..m]);
      ProvisionTurn(Handle(w, TickRead, ns[..m], []).0, ns[m], TickRead);
    }
  }

  // ----- The ticks

  /** The cursor after a page. */
  function After(page: seq<Net>, after: Option<Net>): Option<Net> {
    if page == [] then after else Some(page[|page| - 1])
  }

  lemma AnswerIs(w: World, pc: Pc, ns: seq<Net>, k: nat, tape: seq<bool>)
    requires Starting(pc) && k < |ns|
    ensures var (w', tape') := Handle(w, pc, ns[..k], tape);
      Answer(w, pc, ns, k, tape) == Exec(w', Proc(ns[k], pc), tape').outcome
  {
  }

  lemma LeftForAll(w: World, pc: Pc, ns: seq<Net>, tape: seq<bool>, goal: Outcome, queued: set<Net>, heard: bool)
    requires Starting(pc) && LeftFor(w, pc, ns, |ns|, tape, goal, queued, heard)
    ensures forall k | 0 <= k < |ns| && ns[k] !in queued :: Answer(w, pc, ns, k, tape) == goal
    ensures heard ==> forall k | 0 <= k < |ns| :: ns[k] !in queued <==> Answer(w, pc, ns, k, tape) == goal
  {
    hide Answer;
  }

  /** When no call fails every teardown succeeds. */
  lemma SmoothReap(w: World, ns: seq<Net>, k: nat)
    requires k < |ns|
    ensures Answer(w, ReapRead, ns, k, []) == Reaped
  {
    hide Exec;
    ReapAll(w, ns[..k]);
    ReapTurn(Handle(w, ReapRead, ns[..k], []).0, ns[k], ReapRead);
  }

  /** When no call fails every network is provisioned, but for those without a reported IP. */
  lemma SmoothProvision(w: World, ns: seq<Net>, k: nat)
    requires k < |ns|
    ensures Answer(w, TickRead, ns, k, []) == if RowOf(w, ns[k]).ip.None? then Skipped else Provisioned
  {
    hide Exec;
    ProvisionAll(w, ns[..k]);
    ProvisionTurn(Handle(w, TickRead, ns[..k], []).0, ns[k], TickRead);
  }

  lemma AllReaped(w: World, handled: seq<Net>, start: set<Net>, queued: set<Net>)
    requires queued <= start && forall n | n in start :: n in handled
    requires forall i | 0 <= i < |handled| :: handled[i] in start
    requires forall k | 0 <= k < |handled| :: handled[k] !in queued <==> Answer(w, ReapRead, handled, k, []) == Reaped
    ensures queued == {} && Handle(w, ReapRead, handled, []).0.rows == w.rows - start
  {
    hide Answer, Handle;
    ReapAll(w, handled);
    forall k | 0 <= k < |handled| ensures handled[k] !in queued { SmoothReap(w, handled, k); }
    assert (set n | n in handled) == start;
  }

  lemma ReportedProvisioned(w: World, handled: seq<Net>, start: set<Net>, queued: set<Net>)
    requires queued <= start && forall n | n in start :: n in handled
    requires forall i | 0 <= i < |handled| :: handled[i] in start
    requires forall k | 0 <= k < |handled| ::
      handled[k] !in queued <==> Answer(w, TickRead, handled, k, []) == Provisioned
    ensures queued == set n | n in start && RowOf(w, n).ip.None?
  {
    hide Answer, Handle;
    forall k | 0 <= k < |handled| ensures handled[k] in queued <==> RowOf(w, handled[k]).ip.None? {
      SmoothProvision(w, handled, k);
    }
  }

  lemma {:induction false} TornDownIsGone(w: World, ns: seq<Net>, k: nat, tape: seq<bool>)
    requires k < |ns| && Answer(w, ReapRead, ns, k, tape) == Reaped
    ensures ns[k] !in Handle(w, ReapRead, ns, tape).0.rows
  {
    hide Exec;
    var m := |ns| - 1;
    var (w', tape') := Handle(w, ReapRead, ns[..m], tape);
    if k == m {
      ReapTakesEffect(w', ns[m], tape');
    } else {
      assert ns[..m][..k] == ns[..k];
      TornDownIsGone(w, ns[..m], k, tape);
      ReapAddsNoRow(w', ns[m], ReapRead, tape');
    }
  }

  /** A network is reported deprovisioned only once its row is gone. */
  lemma ReapedAreGone(w: World, ns: seq<Net>, tape: seq<bool>, queued: set<Net>, heard: bool)
    requires LeftFor(w, ReapRead, ns, |ns|, tape, Reaped, queued, heard)
    ensures forall n | n in ns && n !in queued :: n !in Handle(w, ReapRead, ns, tape).0.rows
  {
    hide Answer, Handle;
    forall n | n in ns && n !in queued ensures n !in Handle(w, ReapRead, ns, tape).0.rows {
      var k :| 0 <= k < |ns| && ns[k] == n;
      TornDownIsGone(w, ns, k, tape);
    }
  }

  lemma {:induction false} ProvisionedIsClaimed(w: World, ns: seq<Net>, k: nat, tape: seq<bool>)
    requires k < |ns| && Answer(w, TickRead, ns, k, tape) == Provisioned
    ensures Claimed(Handle(w, TickRead, ns, tape).0, ns[k])
  {
    hide Exec;
    var m := |ns| - 1;
    var (w', tape') := Handle(w, TickRead, ns[..m], tape);
    ProvisionKeepsClaims(w', ns[m], TickRead, tape', ns[k]);
    if k == m {
    } else {
      assert ns[..m][..k] == ns[..k];
      ProvisionedIsClaimed(w, ns[..m], k, tape);
    }
  }

  /** A network is reported active only once its record is claimed. */
  lemma ProvisionedAreClaimed(w: World, ns: seq<Net>, tape: seq<bool>, queued: set<Net>, heard: bool)
    requires LeftFor(w, TickRead, ns, |ns|, tape, Provisioned, queued, heard)
    ensures forall n | n in ns && n !in queued :: Claimed(Handle(w, TickRead, ns, tape).0, n)
  {
    hide Answer, Handle;
    forall n | n in ns && n !in queued ensures Claimed(Handle(w, TickRead, ns, tape).0, n) {
      var k :| 0 <= k < |ns| && ns[k] == n;
      ProvisionedIsClaimed(w, ns, k, tape);
    }
  }

  /** What is ahead on the page is still queued. */
  lemma QueuedAhead(start: set<Net>, queued: set<Net>, page: seq<Net>, k: nat, behind: seq<Net>, after: Option<Net>,
                    limit: nat)
    requires Cursor(start, queued, behind, after) && PageAhead(start, page, k, after, limit) && k < |page|
    ensures page[k] in queued
  {
  }

  // ----- One page of a tour

  /** The start of the tour, what lies behind the page, and whether every report from the start on goes through. */
  datatype Tour = Tour(start: set<Net>, behind: seq<Net>, after: Option<Net>, w: World, tape: seq<bool>, heard: bool)

  /** Where the tour stands after the first `k` networks of the page. */
  ghost predicate InTour(g: Tour, pc: Pc, goal: Outcome, page: seq<Net>, limit: nat, k: nat, queued: set<Net>, w: World,
                         tape: seq<bool>)
    requires Starting(pc) && k <= |page|
  {
    && Cursor(g.start, queued, g.behind + page[..k], After(page[..k], g.after))
    && PageAhead(g.start, page, 0, g.after, limit)
    && PageAhead(g.start, page, k, After(page[..k], g.after), limit)
    && Ascending(g.behind + page)
    && (w, tape) == Handle(g.w, pc, g.behind + page[..k], g.tape)
    && LeftFor(g.w, pc, g.behind + page, |g.behind| + k, g.tape, goal, queued, g.heard)
  }

  /** One more network handled. */
  lemma TurnAnswered(g: Tour, pc: Pc, goal: Outcome, ns: seq<Net>, j: nat, queued: set<Net>,
                     queued': set<Net>, w: World, tape: seq<bool>)
    requires Starting(pc) && j < |ns| && Ascending(ns) && ns[j] in queued
    requires (w, tape) == Handle(g.w, pc, ns[..j], g.tape) && LeftFor(g.w, pc, ns, j, g.tape, goal, queued, g.heard)
    requires Reported(goal, Exec(w, Proc(ns[j], pc), tape).outcome, ns[j], queued, queued', g.heard)
    ensures var r := Exec(w, Proc(ns[j], pc), tape); (r.w, r.tape) == Handle(g.w, pc, ns[..j + 1], g.tape)
    ensures LeftFor(g.w, pc, ns, j + 1, g.tape, goal, queued', g.heard)
  {
    assert ns[..j + 1] == ns[..j] + [ns[j]];
    hide Exec, Handle, LeftFor, Ascending;
    HandleOneMore(g.w, pc, ns[..j], ns[j], g.tape);
    AnswerIs(g.w, pc, ns, j, g.tape);
    hide Answer;
    LeftForStep(g.w, pc, ns, j, g.tape, goal, queued, queued', g.heard);
  }

  /** The queue after a network's turn: it leaves if the answer was `goal` and the report of it went through. */
  ghost predicate Reported(goal: Outcome, outcome: Outcome, n: Net, queued: set<Net>, queued': set<Net>, heard: bool) {
    if outcome == goal then queued' == queued - {n} || (queued' == queued && !heard) else queued' == queued
  }

  /** The cursor moves to the network handled. */
  lemma CursorMoves(g: Tour, page: seq<Net>, limit: nat, k: nat, queued: set<Net>, queued': set<Net>)
    requires k < |page| && PageAhead(g.start, page, k, After(page[..k], g.after), limit)
    requires Cursor(g.start, queued, g.behind + page[..k], After(page[..k], g.after))
    requires queued' == queued || queued' == queued - {page[k]}
    ensures page[k] in queued && PageAhead(g.start, page, k + 1, After(page[..k + 1], g.after), limit)
    ensures Cursor(g.start, queued', g.behind + page[..k + 1], After(page[..k + 1], g.after))
  {
    var n, behind, after := page[k], g.behind + page[..k], After(page[..k], g.after);
    assert page[..k + 1] == page[..k] + [n] && g.behind + page[..k + 1] == behind + [n];
    hide PageAhead, Cursor;
    PageStep(g.start, page, k, after, limit);
    QueuedAhead(g.start, queued, page, k, behind, after, limit);
    Advance(g.start, queued, queued', behind, after, n);
  }

  lemma Joined(behind: seq<Net>, page: seq<Net>, k: nat)
    requires k <= |page|
    ensures (behind + page)[..|behind| + k] == behind + page[..k]
  {
  }

  lemma TourStep(g: Tour, pc: Pc, goal: Outcome, page: seq<Net>, limit: nat, k: nat, queued: set<Net>,
                 queued': set<Net>, w: World, tape: seq<bool>)
    requires Starting(pc) && k < |page| && InTour(g, pc, goal, page, limit, k, queued, w, tape)
    requires Reported(goal, Exec(w, Proc(page[k], pc), tape).outcome, page[k], queued, queued', g.heard)
    ensures var r := Exec(w, Proc(page[k], pc), tape); InTour(g, pc, goal, page, limit, k + 1, queued', r.w, r.tape)
  {
    hide Exec, PageAhead, Cursor, Ascending, Handle, LeftFor, After;
    var ns, j := g.behind + page, |g.behind| + k;
    Joined(g.behind, page, k);
    Joined(g.behind, page, k + 1);
    assert ns[j] == page[k];
    CursorMoves(g, page, limit, k, queued, queued');
    TurnAnswered(g, pc, goal, ns, j, queued, queued', w, tape);
  }

  /** Where the tour stands between pages. */
  ghost predicate SoFar(start: set<Net>, pc: Pc, goal: Outcome, w0: World, tape0: seq<bool>, heard: bool,
                        handled: seq<Net>, after: Option<Net>, queued: set<Net>, w: World, tape: seq<bool>)
    requires Starting(pc)
  {
    && Cursor(start, queued, handled, after)
    && (w, tape) == Handle(w0, pc, handled, tape0)
    && LeftFor(w0, pc, handled, |handled|, tape0, goal, queued, heard)
  }

  lemma SoFarStart(start: set<Net>, pc: Pc, goal: Outcome, w: World, tape: seq<bool>, heard: bool)
    requires Starting(pc)
    ensures SoFar(start, pc, goal, w, tape, heard, [], None, start, w, tape)
  {
    CursorStart(start);
  }

  lemma TourStart(g: Tour, pc: Pc, goal: Outcome, page: seq<Net>, limit: nat, queued: set<Net>, w: World,
                  tape: seq<bool>)
    requires Starting(pc) && SoFar(g.start, pc, goal, g.w, g.tape, g.heard, g.behind, g.after, queued, w, tape)
    requires page == Page(Beyond(queued, g.after), limit)
    ensures InTour(g, pc, goal, page, limit, 0, queued, w, tape)
  {
    assert g.behind + page[..0] == g.behind && page[..0] == [];
    PageFetched(g.start, queued, g.behind, g.after, limit);
    JoinAscends(g.start, queued, g.behind, g.after, page, limit);
    LeftForExtend(g.w, pc, g.behind, page, g.tape, goal, queued, g.heard);
  }

  lemma JoinAscends(start: set<Net>, queued: set<Net>, behind: seq<Net>, after: Option<Net>, page: seq<Net>, limit: nat)
    requires Cursor(start, queued, behind, after) && page == Page(Beyond(queued, after), limit)
    ensures Ascending(behind + page)
  {
    forall i | 0 <= i < |page| ensures Above(page[i], after) {
      assert page[i] in Beyond(queued, after);
    }
  }

  lemma LeftForExtend(w: World, pc: Pc, ns: seq<Net>, ms: seq<Net>, tape: seq<bool>, goal: Outcome, queued: set<Net>,
                      heard: bool)
    requires Starting(pc) && LeftFor(w, pc, ns, |ns|, tape, goal, queued, heard)
    ensures LeftFor(w, pc, ns + ms, |ns|, tape, goal, queued, heard)
  {
    hide Exec, Handle;
    forall k | 0 <= k < |ns| ensures Answer(w, pc, ns + ms, k, tape) == Answer(w, pc, ns, k, tape) {
      assert (ns + ms)[..k] == ns[..k];
    }
  }

  lemma TourEnd(g: Tour, pc: Pc, goal: Outcome, page: seq<Net>, limit: nat, queued: set<Net>, w: World, tape: seq<bool>)
    requires Starting(pc) && limit > 0 && InTour(g, pc, goal, page, limit, |page|, queued, w, tape)
    ensures SoFar(g.start, pc, goal, g.w, g.tape, g.heard, g.behind + page, After(page, g.after), queued, w, tape)
    ensures |page| < limit ==> forall n | n in g.start :: !Above(n, After(page, g.after))
    ensures page != [] ==> Beyond(g.start, After(page, g.after)) < Beyond(g.start, g.after)
  {
    assert page[..|page|] == page;
    hide Cursor, Handle, LeftFor;
    PageDone(g.start, page, g.after, After(page, g.after), limit);
  }

  lemma SoFarEnd(start: set<Net>, pc: Pc, goal: Outcome, w0: World, tape0: seq<bool>, heard: bool, handled: seq<Net>,
                 after: Option<Net>, queued: set<Net>, w: World, tape: seq<bool>)
    requires Starting(pc) && SoFar(start, pc, goal, w0, tape0, heard, handled, after, queued, w, tape)
    ensures Ascending(handled) && (forall i | 0 <= i < |handled| :: handled[i] in start)
    ensures queued <= start && forall n | n in start && n !in handled :: n in queued
    ensures (forall n | n in start :: !Above(n, after)) ==> forall n | n in start :: n in handled
    ensures (w, tape) == Handle(w0, pc, handled, tape0)
    ensures LeftFor(w0, pc, handled, |handled|, tape0, goal, queued, heard)
    ensures forall k | 0 <= k < |handled| && handled[k] !in queued :: Answer(w0, pc, handled, k, tape0) == goal
    ensures heard ==> forall k | 0 <= k < |handled| ::
      handled[k] !in queued <==> Answer(w0, pc, handled, k, tape0) == goal
  {
    CursorEnd(start, queued, handled, after);
    LeftForAll(w0, pc, handled, tape0, goal, queued, heard);
  }

  /** One page of the reaper: tear each network down and report it. */
  method ReapPage(work: WorkQueue, ddns: DdnsService, page: seq<Net>, limit: nat, ghost g: Tour)
    requires InTour(g, ReapRead, Reaped, page, limit, 0, work.queued, ddns.w, ddns.tape)
    requires g.heard ==> Smooth(work.reports)
    modifies work`queued, work`reports, ddns
    ensures InTour(g, ReapRead, Reaped, page, limit, |page|, work.queued, ddns.w, ddns.tape)
    ensures g.heard ==> Smooth(work.reports)
  {
    hide InTour, Exec, Smooth, CallOk, Rest;
    for k := 0 to |page|
      invariant InTour(g, ReapRead, Reaped, page, limit, k, work.queued, ddns.w, ddns.tape)
      invariant g.heard ==> Smooth(work.reports)
    {
      ghost var queued, w, tape := work.queued, ddns.w, ddns.tape;
      var outcome := ddns.DeleteRecords(page[k]);
      if outcome == Reaped {
        if g.heard { SmoothRest(work.reports); }
        var _ := work.Transition(page[k]);
      }
      TourStep(g, ReapRead, Reaped, page, limit, k, queued, work.queued, w, tape);
    }
  }

  /** One page of the provisioner: publish each network that has reported an IP and report it active. */
  method ProvisionPage(work: WorkQueue, ddns: DdnsService, page: seq<Net>, limit: nat, ghost g: Tour)
    requires InTour(g, TickRead, Provisioned, page, limit, 0, work.queued, ddns.w, ddns.tape)
    requires g.heard ==> Smooth(work.reports)
    modifies work`queued, work`reports, ddns
    ensures InTour(g, TickRead, Provisioned, page, limit, |page|, work.queued, ddns.w, ddns.tape)
    ensures g.heard ==> Smooth(work.reports)
  {
    hide InTour, Exec, Smooth, CallOk, Rest;
    for k := 0 to |page|
      invariant InTour(g, TickRead, Provisioned, page, limit, k, work.queued, ddns.w, ddns.tape)
      invariant g.heard ==> Smooth(work.reports)
    {
      ghost var queued, w, tape := work.queued, ddns.w, ddns.tape;
      var outcome := ddns.ProvisionIfReported(page[k]);
      if outcome == Provisioned {
        if g.heard { SmoothRest(work.reports); }
        var _ := work.Transition(page[k]);
      }
      TourStep(g, TickRead, Provisioned, page, limit, k, queued, work.queued, w, tape);
    }
  }

  lemma CursorStart(start: set<Net>)
    ensures Cursor(start, start, [], None)
  {
  }

  lemma CursorEnd(start: set<Net>, queued: set<Net>, handled: seq<Net>, after: Option<Net>)
    requires Cursor(start, queued, handled, after)
    ensures Ascending(handled) && (forall i | 0 <= i < |handled| :: handled[i] in start)
    ensures queued <= start && forall n | n in start && n !in handled :: n in queued
    ensures (forall n | n in start :: !Above(n, after)) ==> forall n | n in start :: n in handled
  {
  }

  /**
   One reaper pass. Returns the networks handled, in order, and whether every page could be fetched,
   whatever else failed; if so each network queued at the start is handled exactly once, and if nothing
   else failed either the queue is empty and exactly the rows of those networks are gone.
   */
  method ReaperTick(work: WorkQueue, ddns: DdnsService, limit: nat) returns (handled: seq<Net>, complete: bool)
    requires limit > 0
    modifies work, ddns
    ensures Ascending(handled) && (forall i | 0 <= i < |handled| :: handled[i] in old(work.queued))
    ensures complete ==> forall n | n in old(work.queued) :: n in handled
    ensures Smooth(old(work.fetches)) ==> complete
    ensures work.queued <= old(work.queued) && forall n | n in old(work.queued) && n !in handled :: n in work.queued
    ensures (ddns.w, ddns.tape) == Handle(old(ddns.w), ReapRead, handled, old(ddns.tape))
    // a network leaves the queue only if the service answered for it, and exactly then if every report goes through
    ensures forall k | 0 <= k < |handled| && handled[k] !in work.queued ::
      Answer(old(ddns.w), ReapRead, handled, k, old(ddns.tape)) == Reaped
    ensures Smooth(old(work.reports)) ==> forall k | 0 <= k < |handled| ::
      handled[k] !in work.queued <==> Answer(old(ddns.w), ReapRead, handled, k, old(ddns.tape)) == Reaped
    ensures forall n | n in handled && n !in work.queued :: n !in ddns.w.rows
    ensures Smooth(old(work.fetches)) && Smooth(old(work.reports)) && old(ddns.tape) == [] ==>
      work.queued == {} && ddns.w.rows == old(ddns.w).rows - old(work.queued)
  {
    var after: Option<Net> := None;
    handled, complete := [], false;
    ghost var start, w0, tape0, heard := work.queued, ddns.w, ddns.tape, Smooth(work.reports);
    SoFarStart(start, ReapRead, Reaped, w0, tape0, heard);
    hide SoFar, InTour, Exec, Smooth, CallOk, Rest, Page, Beyond, Handle, Answer, Ascending;
    while !complete
      invariant SoFar(start, ReapRead, Reaped, w0, tape0, heard, handled, after, work.queued, ddns.w, ddns.tape)
      invariant Smooth(old(work.fetches)) ==> Smooth(work.fetches)
      invariant heard ==> Smooth(work.reports)
      invariant complete ==> forall n | n in start :: !Above(n, after)
      decreases Beyond(start, after), !complete
    {
      if Smooth(work.fetches) { SmoothRest(work.fetches); }
      var fetched := work.List(after, limit);
      if fetched.None? {
        break;
      }
      var page := fetched.value;
      ghost var g := Tour(start, handled, after, w0, tape0, heard);
      TourStart(g, ReapRead, Reaped, page, limit, work.queued, ddns.w, ddns.tape);
      ReapPage(work, ddns, page, limit, g);
      TourEnd(g, ReapRead, Reaped, page, limit, work.queued, ddns.w, ddns.tape);
      after, handled := After(page, after), handled + page;
      complete := |page| < limit;
    }
    SoFarEnd(start, ReapRead, Reaped, w0, tape0, heard, handled, after, work.queued, ddns.w, ddns.tape);
    ReapedAreGone(w0, handled, tape0, work.queued, heard);
    if Smooth(old(work.fetches)) && heard && tape0 == [] {
      AllReaped(w0, handled, start, work.queued);
    }
  }

  /**
   One provisioner pass, drained the same way. If nothing failed, what is left in the queue is exactly
   the networks that have not reported an IP.
   */
  method ProvisionerTick(work: WorkQueue, ddns: DdnsService, limit: nat) returns (handled: seq<Net>, complete: bool)
    requires limit > 0
    modifies work, ddns
    ensures Ascending(handled) && (forall i | 0 <= i < |handled| :: handled[i] in old(work.queued))
    ensures complete ==> forall n | n in old(work.queued) :: n in handled
    ensures Smooth(old(work.fetches)) ==> complete
    ensures work.queued <= old(work.queued) && forall n | n in old(work.queued) && n !in handled :: n in work.queued
    ensures (ddns.w, ddns.tape) == Handle(old(ddns.w), TickRead, handled, old(ddns.tape))
    // a network leaves the queue only if the service answered for it, and exactly then if every report goes through
    ensures forall k | 0 <= k < |handled| && handled[k] !in work.queued ::
      Answer(old(ddns.w), TickRead, handled, k, old(ddns.tape)) == Provisioned
    ensures Smooth(old(work.reports)) ==> forall k | 0 <= k < |handled| ::
      handled[k] !in work.queued <==> Answer(old(ddns.w), TickRead, handled, k, old(ddns.tape)) == Provisioned
    ensures forall n | n in handled && n !in work.queued :: Claimed(ddns.w, n)
    ensures Smooth(old(work.fetches)) && Smooth(old(work.reports)) && old(ddns.tape) == [] ==>
      work.queued == set n | n in old(work.queued) && RowOf(old(ddns.w), n).ip.None?
  {
    var after: Option<Net> := None;
    handled, complete := [], false;
    ghost var start, w0, tape0, heard := work.queued, ddns.w, ddns.tape, Smooth(work.reports);
    SoFarStart(start, TickRead, Provisioned, w0, tape0, heard);
    hide SoFar, InTour, Exec, Smooth, CallOk, Rest, Page, Beyond, Handle, Answer, Ascending;
    while !complete
      invariant SoFar(start, TickRead, Provisioned, w0, tape0, heard, handled, after, work.queued, ddns.w, ddns.tape)
      invariant Smooth(old(work.fetches)) ==> Smooth(work.fetches)
      invariant heard ==> Smooth(work.reports)
      invariant complete ==> forall n | n in start :: !Above(n, after)
      decreases Beyond(start, after), !complete
    {
      if Smooth(work.fetches) { SmoothRest(work.fetches); }
      var fetched := work.List(after, limit);
      if fetched.None? {
        break;
      }
      var page := fetched.value;
      ghost var g := Tour(start, handled, after, w0, tape0, heard);
      TourStart(g, TickRead, Provisioned, page, limit, work.queued, ddns.w, ddns.tape);
      ProvisionPage(work, ddns, page, limit, g);
      TourEnd(g, TickRead, Provisioned, page, limit, work.queued, ddns.w, ddns.tape);
      after, handled := After(page, after), handled + page;
      complete := |page| < limit;
    }
    SoFarEnd(start, TickRead, Provisioned, w0, tape0, heard, handled, after, work.queued, ddns.w, ddns.tape);
    ProvisionedAreClaimed(w0, handled, tape0, work.queued, heard);
    if Smooth(old(work.fetches)) && heard && tape0 == [] {
      ReportedProvisioned(w0, handled, start, work.queued);
    }
  }
}
