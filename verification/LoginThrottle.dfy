/**
 The per-address login throttle: a map from address to its current window, shared by all addresses and
 pruned as a whole on every attempt.
 */
module LoginThrottle {
  import opened Wrappers

  const LOGIN_ATTEMPTS_PER_IP := 10
  const LOGIN_WINDOW_SECS := 300

  type Ip = string

  datatype Window = Window(start: int, count: nat)

  datatype Attempt = Attempt(ip: Ip, at: int)

  class LoginThrottle {
    var attempts: map<Ip, Window>

    constructor ()
      ensures attempts == map[]
    {
      attempts := map[];
    }

    method LoginAllowed(ip: Ip, now: int) returns (allowed: bool)
      modifies this
      ensures attempts == After(old(attempts), ip, now)
      ensures allowed <==> Permits(Current(old(attempts), ip, now))
    {
      attempts := map i | i in attempts && now - attempts[i].start < LOGIN_WINDOW_SECS :: attempts[i];
      if ip !in attempts || now - attempts[ip].start >= LOGIN_WINDOW_SECS {
        attempts := attempts[ip := Window(now, 0)];
      }
      if attempts[ip].count >= LOGIN_ATTEMPTS_PER_IP {
        return false;
      }
      attempts := attempts[ip := attempts[ip].(count := attempts[ip].count + 1)];
      return true;
    }
  }

  // ----- One address on its own

  /** A window that is still open at `now`. */
  function Open(w: Option<Window>, now: int): Option<Window> {
    if w.Some? && now - w.value.start < LOGIN_WINDOW_SECS then w else None
  }

  predicate Permits(open: Option<Window>) {
    open.None? || open.value.count < LOGIN_ATTEMPTS_PER_IP
  }

  /** An attempt opens a window or counts in the open one, up to the cap. */
  function Tally(open: Option<Window>, now: int): Window {
    if open.None? then Window(now, 1)
    else if Permits(open) then open.value.(count := open.value.count + 1)
    else open.value
  }

  /** The window of one address, as if no other address existed. */
  ghost function Solo(es: seq<Attempt>, ip: Ip): Option<Window> {
    if es == [] then None
    else
      var m := |es| - 1;
      var w := Solo(es[..m], ip);
      if es[m].ip == ip then Some(Tally(Open(w, es[m].at), es[m].at)) else w
  }

  // ----- The shared map

  function Current(attempts: map<Ip, Window>, ip: Ip, now: int): Option<Window> {
    if ip in attempts then Open(Some(attempts[ip]), now) else None
  }

  /** Everybody's closed windows are dropped; only `ip` is tallied. */
  function After(attempts: map<Ip, Window>, ip: Ip, now: int): map<Ip, Window> {
    (map i | i in attempts && now - attempts[i].start < LOGIN_WINDOW_SECS :: attempts[i])
      [ip := Tally(Current(attempts, ip, now), now)]
  }

  ghost function Shared(es: seq<Attempt>): map<Ip, Window> {
    if es == [] then map[] else After(Shared(es[..|es| - 1]), es[|es| - 1].ip, es[|es| - 1].at)
  }

  /** The clock never runs backwards. */
  ghost predicate Clocked(es: seq<Attempt>) {
    es == [] ||
    var m := |es| - 1;
    Clocked(es[..m]) && (m > 0 ==> es[m - 1].at <= es[m].at)
  }

  /** Attempt `k` of a run is allowed by the shared throttle. */
  ghost predicate AllowedAt(es: seq<Attempt>, k: nat)
    requires k < |es|
  {
    Permits(Current(Shared(es[..k]), es[k].ip, es[k].at))
  }

  /** At any later instant the shared map shows an address exactly its own window. */
  lemma {:induction false} SharedIsSolo(es: seq<Attempt>, ip: Ip, now: int)
    requires Clocked(es) && (es != [] ==> es[|es| - 1].at <= now)
    ensures Current(Shared(es), ip, now) == Open(Solo(es, ip), now)
  {
    if es == [] {
    } else {
      var m := |es| - 1;
      SharedIsSolo(es[..m], ip, es[m].at);
      SharedIsSolo(es[..m], ip, now);
    }
  }

  /** The attempts of one address. */
  ghost function Own(es: seq<Attempt>, ip: Ip): seq<Attempt> {
    if es == [] then []
    else
      var m := |es| - 1;
      Own(es[..m], ip) + if es[m].ip == ip then [es[m]] else []
  }

  lemma {:induction false} SoloIsOwn(es: seq<Attempt>, ip: Ip)
    ensures Solo(Own(es, ip), ip) == Solo(es, ip)
  {
    if es == [] {
    } else {
      var m := |es| - 1;
      SoloIsOwn(es[..m], ip);
      var own := Own(es[..m], ip);
      if es[m].ip == ip {
        assert (own + [es[m]])[..|own|] == own;
      } else {
        assert Own(es, ip) == own;
      }
    }
  }

  /** Whatever other addresses do, and whatever their attempts prune, an address gets the same answer. */
  lemma OthersNeverMatter(es: seq<Attempt>, fs: seq<Attempt>, ip: Ip, now: int)
    requires Clocked(es + [Attempt(ip, now)]) && Clocked(fs + [Attempt(ip, now)]) && Own(es, ip) == Own(fs, ip)
    ensures AllowedAt(es + [Attempt(ip, now)], |es|) <==> AllowedAt(fs + [Attempt(ip, now)], |fs|)
  {
    AnswerIsSolo(es, ip, now);
    AnswerIsSolo(fs, ip, now);
    SoloIsOwn(es, ip);
    SoloIsOwn(fs, ip);
  }

  lemma AnswerIsSolo(es: seq<Attempt>, ip: Ip, now: int)
    requires Clocked(es + [Attempt(ip, now)])
    ensures AllowedAt(es + [Attempt(ip, now)], |es|) <==> Permits(Open(Solo(es, ip), now))
  {
    var all := es + [Attempt(ip, now)];
    assert all[..|es|] == es;
    SharedIsSolo(es, ip, now);
  }

  // ----- How many attempts get through

  /** The allowed attempts of `ip` in the 300 seconds from `a`, the end excluded. */
  ghost function Through(es: seq<Attempt>, ip: Ip, a: int): nat {
    if es == [] then 0
    else
      var m := |es| - 1;
      Through(es[..m], ip, a) +
      if es[m].ip == ip && a <= es[m].at < a + 300 && AllowedAt(es, m) then 1 else 0
  }

  /** What is known of an address's window `w` and of `n` attempts let through from `a`, with the clock at `now`. */
  ghost predicate Bounded(w: Option<Window>, n: nat, a: int, now: int) {
    && (n > 0 ==> a <= now)
    && if w.None? then n == 0
       else
         var Window(s, c) := w.value;
         && s <= now && 1 <= c <= LOGIN_ATTEMPTS_PER_IP
         && (s <= a - LOGIN_WINDOW_SECS ==> n == 0)
         && (s < a ==> n <= c - 1)
         && (a <= s < a + LOGIN_WINDOW_SECS ==> n <= LOGIN_ATTEMPTS_PER_IP - 1 + c)
         && n <= 2 * LOGIN_ATTEMPTS_PER_IP - 1
  }

  ghost predicate GetsThrough(w: Option<Window>, a: int, now: int) {
    a <= now < a + LOGIN_WINDOW_SECS && Permits(Open(w, now))
  }

  lemma BoundedStep(w: Option<Window>, n: nat, a: int, before: int, now: int)
    requires Bounded(w, n, a, before) && before <= now
    ensures Bounded(w, n, a, now)
    ensures Bounded(Some(Tally(Open(w, now), now)), n + if GetsThrough(w, a, now) then 1 else 0, a, now)
  {
  }

  /** One more attempt of the address itself: its window is tallied and, if let through, it counts. */
  lemma OwnAttempt(es: seq<Attempt>, ip: Ip, now: int, a: int)
    requires Clocked(es + [Attempt(ip, now)])
    ensures Solo(es + [Attempt(ip, now)], ip) == Some(Tally(Open(Solo(es, ip), now), now))
    ensures Through(es + [Attempt(ip, now)], ip, a) ==
      Through(es, ip, a) + if GetsThrough(Solo(es, ip), a, now) then 1 else 0
  {
    assert (es + [Attempt(ip, now)])[..|es|] == es;
    AnswerIsSolo(es, ip, now);
  }

  lemma OtherAttempt(es: seq<Attempt>, e: Attempt, ip: Ip, a: int)
    requires e.ip != ip
    ensures Solo(es + [e], ip) == Solo(es, ip) && Through(es + [e], ip, a) == Through(es, ip, a)
  {
    assert (es + [e])[..|es|] == es;
  }

  lemma {:induction false} RunBounded(es: seq<Attempt>, ip: Ip, a: int, now: int)
    requires Clocked(es) && (es != [] ==> es[|es| - 1].at <= now)
    ensures Bounded(Solo(es, ip), Through(es, ip, a), a, now)
  {
    if es == [] {
    } else {
      hide Solo, Through, Bounded, GetsThrough, Tally, Open;
      var m := |es| - 1;
      var before, e := es[..m], es[m];
      assert es == before + [e];
      assert Clocked(before) && (before != [] ==> before[|before| - 1].at <= e.at);
      RunBounded(before, ip, a, e.at);
      if e.ip == ip {
        assert e == Attempt(ip, e.at);
        OwnAttempt(before, ip, e.at, a);
        BoundedStep(Solo(before, ip), Through(before, ip, a), a, e.at, e.at);
      } else {
        OtherAttempt(before, e, ip, a);
      }
      BoundedStep(Solo(es, ip), Through(es, ip, a), a, e.at, now);
    }
  }

  /** No interval as long as the window lets through twice the cap: one less at most. */
  lemma AtMostNineteen(es: seq<Attempt>, ip: Ip, a: int)
    requires Clocked(es)
    ensures Through(es, ip, a) <= 19
  {
    if es != [] {
      RunBounded(es, ip, a, es[|es| - 1].at);
    }
  }

  /** Some attempt found no open window at `a`, and opened one. */
  ghost predicate OpenedAt(es: seq<Attempt>, ip: Ip, a: int) {
    exists k :: 0 <= k < |es| && es[k] == Attempt(ip, a) && Open(Solo(es[..k], ip), a).None?
  }

  /** With a window opened at `a`, what is known of the address's latest window and the attempts from `a`. */
  ghost predicate Anchored(w: Option<Window>, n: nat, a: int) {
    && w.Some? && n <= LOGIN_ATTEMPTS_PER_IP
    && if w.value.start == a then n == w.value.count
       else w.value.start >= a + LOGIN_WINDOW_SECS
  }

  lemma Anchors(w: Option<Window>, n: nat, a: int)
    requires Bounded(w, n, a, a) && Open(w, a).None?
    ensures Anchored(Some(Tally(Open(w, a), a)), n + if GetsThrough(w, a, a) then 1 else 0, a)
  {
  }

  lemma AnchoredStep(w: Option<Window>, n: nat, a: int, now: int)
    requires Anchored(w, n, a) && w.value.start <= now
    ensures Anchored(Some(Tally(Open(w, now), now)), n + if GetsThrough(w, a, now) then 1 else 0, a)
  {
  }

  lemma {:induction false} RunAnchored(es: seq<Attempt>, ip: Ip, a: int)
    requires Clocked(es) && OpenedAt(es, ip, a)
    ensures Anchored(Solo(es, ip), Through(es, ip, a), a)
  {
    hide Solo, Through, GetsThrough, Tally, Open, Anchored;
    var m := |es| - 1;
    var before, e := es[..m], es[m];
    assert es == before + [e];
    RunBounded(before, ip, a, e.at);
    if e.ip == ip {
      assert e == Attempt(ip, e.at);
      OwnAttempt(before, ip, e.at, a);
    } else {
      OtherAttempt(before, e, ip, a);
    }
    if e == Attempt(ip, a) && Open(Solo(before, ip), a).None? {
      Anchors(Solo(before, ip), Through(before, ip, a), a);
    } else {
      StillOpened(before, e, ip, a);
      RunAnchored(before, ip, a);
      if e.ip == ip {
        OpensBefore(Solo(before, ip), Through(before, ip, a), a, e.at);
        AnchoredStep(Solo(before, ip), Through(before, ip, a), a, e.at);
      }
    }
  }

  lemma OpensBefore(w: Option<Window>, n: nat, a: int, now: int)
    requires Bounded(w, n, a, now) && Anchored(w, n, a)
    ensures w.Some? && w.value.start <= now
  {
  }

  lemma StillOpened(before: seq<Attempt>, e: Attempt, ip: Ip, a: int)
    requires OpenedAt(before + [e], ip, a) && !(e == Attempt(ip, a) && Open(Solo(before, ip), a).None?)
    ensures OpenedAt(before, ip, a)
  {
    hide Solo, Open;
    var es := before + [e];
    var k :| 0 <= k < |es| && es[k] == Attempt(ip, a) && Open(Solo(es[..k], ip), a).None?;
    assert es[..|before|] == before;
    assert es[..k] == before[..k];
  }

  /** From the attempt that opens a window until it closes, at most the cap gets through. */
  lemma AtMostTenPerWindow(es: seq<Attempt>, ip: Ip, a: int)
    requires Clocked(es) && OpenedAt(es, ip, a)
    ensures Through(es, ip, a) <= 10
  {
    RunAnchored(es, ip, a);
  }

  lemma {:induction false} SoloOpened(es: seq<Attempt>, ip: Ip)
    requires Solo(es, ip).Some?
    ensures OpenedAt(es, ip, Solo(es, ip).value.start)
  {
    var m := |es| - 1;
    var before := es[..m];
    var w := Solo(before, ip);
    if es[m].ip == ip && Open(w, es[m].at).None? {
      assert es[m] == Attempt(ip, es[m].at);
    } else {
      SoloOpened(before, ip);
      StaysOpened(es, m, ip, w.value.start);
    }
  }

  lemma StaysOpened(es: seq<Attempt>, m: nat, ip: Ip, a: int)
    requires m <= |es| && OpenedAt(es[..m], ip, a)
    ensures OpenedAt(es, ip, a)
  {
    hide Solo, Open;
    var k :| 0 <= k < m && es[..m][k] == Attempt(ip, a) && Open(Solo(es[..m][..k], ip), a).None?;
    assert es[..m][..k] == es[..k];
  }

  /** More than the cap gets through an interval only if a window of the address opens strictly inside it. */
  lemma {:induction false} MoreThanTenNeedsOpening(es: seq<Attempt>, ip: Ip, a: int)
    requires Clocked(es) && Through(es, ip, a) > LOGIN_ATTEMPTS_PER_IP
    ensures exists t :: a < t < a + LOGIN_WINDOW_SECS && OpenedAt(es, ip, t)
  {
    var m := |es| - 1;
    var before, e := es[..m], es[m];
    assert es == before + [e];
    RunBounded(es, ip, a, e.at);
    hide OpenedAt, Through, AllowedAt;
    if e.ip == ip {
      assert e == Attempt(ip, e.at);
      OwnAttempt(before, ip, e.at, a);
    } else {
      OtherAttempt(before, e, ip, a);
    }
    if Through(before, ip, a) > LOGIN_ATTEMPTS_PER_IP {
      MoreThanTenNeedsOpening(before, ip, a);
      var t :| a < t < a + LOGIN_WINDOW_SECS && OpenedAt(before, ip, t);
      StaysOpened(es, m, ip, t);
    } else {
      SoloOpened(es, ip);
      var s := Solo(es, ip).value.start;
      if s == a { AtMostTenPerWindow(es, ip, a); }
    }
  }

  /** An attempt is denied exactly if ten got through a window of the address that is still open. */
  lemma DeniedExactly(es: seq<Attempt>, ip: Ip, now: int)
    requires Clocked(es + [Attempt(ip, now)])
    ensures !AllowedAt(es + [Attempt(ip, now)], |es|) <==>
      exists t :: t <= now < t + 300 && OpenedAt(es, ip, t) && Through(es, ip, t) == 10
  {
    var all := es + [Attempt(ip, now)];
    assert all[..|es|] == es && Clocked(es) && (es != [] ==> es[|es| - 1].at <= now);
    hide AllowedAt, OpenedAt, Solo, Through, Clocked;
    AnswerIsSolo(es, ip, now);
    if !Permits(Open(Solo(es, ip), now)) {
      var t := Solo(es, ip).value.start;
      RunBounded(es, ip, t, now);
      SoloOpened(es, ip);
      RunAnchored(es, ip, t);
    }
    if t :| t <= now < t + 300 && OpenedAt(es, ip, t) && Through(es, ip, t) == 10 {
      RunBounded(es, ip, t, now);
      RunAnchored(es, ip, t);
    }
  }

  // ----- The bound is reached

  ghost function Burst(es: seq<Attempt>, ip: Ip, at: int, n: nat): seq<Attempt> {
    if n == 0 then es else Burst(es, ip, at, n - 1) + [Attempt(ip, at)]
  }

  /** After the run the clock is no later than `now`, the address's window is `w`, and `n` got through from `a`. */
  ghost predicate Reached(es: seq<Attempt>, ip: Ip, now: int, a: int, w: Option<Window>, n: nat) {
    && Clocked(es) && (es != [] ==> es[|es| - 1].at <= now)
    && Solo(es, ip) == w && Through(es, ip, a) == n
  }

  lemma ReachedLater(es: seq<Attempt>, ip: Ip, before: int, now: int, a: int, w: Option<Window>, n: nat)
    requires Reached(es, ip, before, a, w, n) && before <= now
    ensures Reached(es, ip, now, a, w, n)
  {
  }

  lemma OneMore(es: seq<Attempt>, ip: Ip, before: int, now: int, a: int, w: Option<Window>, n: nat)
    requires Reached(es, ip, before, a, w, n) && before <= now && GetsThrough(w, a, now)
    ensures Reached(es + [Attempt(ip, now)], ip, now, a, Some(Tally(Open(w, now), now)), n + 1)
  {
    assert (es + [Attempt(ip, now)])[..|es|] == es;
    OwnAttempt(es, ip, now, a);
  }

  lemma {:induction false} BurstGetsThrough(es: seq<Attempt>, ip: Ip, before: int, now: int, k: nat, a: int,
                                            w: Window, n: nat)
    requires Reached(es, ip, before, a, Some(w), n) && before <= now
    requires now - w.start < LOGIN_WINDOW_SECS && w.count + k <= LOGIN_ATTEMPTS_PER_IP
    requires a <= now < a + LOGIN_WINDOW_SECS
    ensures Reached(Burst(es, ip, now, k), ip, now, a, Some(w.(count := w.count + k)), n + k)
  {
    hide Reached, Solo, Through, Clocked;
    if k == 0 {
      ReachedLater(es, ip, before, now, a, Some(w), n);
    } else {
      BurstGetsThrough(es, ip, before, now, k - 1, a, w, n);
      OneMore(Burst(es, ip, now, k - 1), ip, now, now, a, Some(w.(count := w.count + k - 1)), n + k - 1);
    }
  }

  /** One attempt, nine more as its window closes, ten as the next one opens: nineteen within two seconds. */
  lemma NineteenGetThrough(ip: Ip)
    ensures exists es: seq<Attempt>, a: int :: Clocked(es) && Through(es, ip, a) == 19
  {
    var a := LOGIN_WINDOW_SECS - 1;
    var first := [Attempt(ip, 0)];
    OwnAttempt([], ip, 0, a);
    assert [] + first == first;
    assert Reached(first, ip, 0, a, Some(Window(0, 1)), 0);
    hide Burst, Solo;
    BurstGetsThrough(first, ip, 0, a, 9, a, Window(0, 1), 0);
    var full := Burst(first, ip, a, 9);
    OneMore(full, ip, a, a + 1, a, Some(Window(0, 10)), 9);
    BurstGetsThrough(full + [Attempt(ip, a + 1)], ip, a + 1, a + 1, 9, a, Window(a + 1, 1), 10);
    assert Through(Burst(full + [Attempt(ip, a + 1)], ip, a + 1, 9), ip, a) == 19;
  }
}
