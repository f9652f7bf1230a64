/** The two fixed-window limiters: `rateLimiter` of src/server/appServer.ts and the flood
    bound of the Local Config API (src/server/localConfig.ts), which is the same with 120
    requests in 60 seconds. */
module RateLimits {

  type Time = int

  datatype Limiter = Limiter(max: nat, window: nat, count: nat, start: Time) {
    /** A request starts a new window if it comes more than `window` after the last start. */
    function Counted(now: Time): Limiter {
      if now - start > window then this.(count := 1, start := now) else this.(count := count + 1)
    }

    predicate Admits(now: Time) {
      Counted(now).count <= max
    }
  }

  class RateLimiter {
    const max: nat
    const window: nat
    var count: nat
    var windowStart: Time

    function State(): Limiter
      reads this
    {
      Limiter(max, window, count, windowStart)
    }

    constructor (max: nat, window: nat, now: Time)
      ensures State() == Limiter(max, window, 0, now)
    {
      this.max, this.window := max, window;
      count, windowStart := 0, now;
    }

    method Request(now: Time) returns (admitted: bool)
      modifies this
      ensures State() == old(State()).Counted(now)
      ensures admitted == old(State()).Admits(now)
    {
      if now - windowStart > window {
        windowStart := now;
        count := 0;
      }
      count := count + 1;
      admitted := count <= max;
    }
  }

  predicate Ordered(l: Limiter, ts: seq<Time>) {
    && (ts != [] ==> l.start <= ts[0])
    && (forall i, j :: 0 <= i < j < |ts| ==> ts[i] <= ts[j])
  }

  /** The number of admitted requests from `lo` to `lo` plus one window length, both
      included. */
  function AdmittedIn(l: Limiter, ts: seq<Time>, lo: Time): nat
    decreases |ts|
  {
    if ts == [] then 0
    else
      (if l.Admits(ts[0]) && lo <= ts[0] <= lo + l.window then 1 else 0) + AdmittedIn(l.Counted(ts[0]), ts[1..], lo)
  }

  /** What the window that is under way still admits, and one more if it began before. */
  function Allowance(l: Limiter, lo: Time): nat {
    (if l.count < l.max then l.max - l.count else 0) + (if l.start < lo then l.max else 0)
  }

  lemma {:induction false} WithinAllowance(l: Limiter, ts: seq<Time>, lo: Time)
    requires Ordered(l, ts) && (ts != [] ==> lo <= ts[0])
    ensures AdmittedIn(l, ts, lo) <= Allowance(l, lo) || (ts != [] && ts[0] > lo + l.window && AdmittedIn(l, ts, lo) == 0)
    decreases |ts|
  {
    if ts != [] {
      if ts[0] > lo + l.window {
        NoneAfter(l, ts, lo);
      } else {
        WithinAllowance(l.Counted(ts[0]), ts[1..], lo);
      }
    }
  }

  lemma {:induction false} NoneAfter(l: Limiter, ts: seq<Time>, lo: Time)
    requires Ordered(l, ts) && (ts != [] ==> ts[0] > lo + l.window)
    ensures AdmittedIn(l, ts, lo) == 0
    decreases |ts|
  {
    if ts != [] {
      NoneAfter(l.Counted(ts[0]), ts[1..], lo);
    }
  }

  /** For all request times, no interval of one window length, both ends included, contains
      more than twice the admitted number of one window. */
  lemma {:induction false} AtMostTwiceTheWindow(l: Limiter, ts: seq<Time>, lo: Time)
    requires Ordered(l, ts)
    ensures AdmittedIn(l, ts, lo) <= 2 * l.max
    decreases |ts|
  {
    if ts == [] || lo <= ts[0] {
      WithinAllowance(l, ts, lo);
    } else {
      AtMostTwiceTheWindow(l.Counted(ts[0]), ts[1..], lo);
    }
  }

  /** No request from here to the end of the interval begins a new window. */
  predicate StaysInWindow(l: Limiter, ts: seq<Time>, lo: Time)
    decreases |ts|
  {
    ts == [] || ts[0] > lo + l.window || (ts[0] - l.start <= l.window && StaysInWindow(l.Counted(ts[0]), ts[1..], lo))
  }

  /** No window begins inside the interval after its first request. */
  predicate InOneWindow(l: Limiter, ts: seq<Time>, lo: Time)
    decreases |ts|
  {
    ts == []
    || (if ts[0] < lo then InOneWindow(l.Counted(ts[0]), ts[1..], lo)
        else ts[0] > lo + l.window || StaysInWindow(l.Counted(ts[0]), ts[1..], lo))
  }

  lemma {:induction false} RestOfWindow(l: Limiter, ts: seq<Time>, lo: Time)
    requires Ordered(l, ts) && (ts != [] ==> lo <= ts[0]) && StaysInWindow(l, ts, lo)
    ensures AdmittedIn(l, ts, lo) <= if l.count < l.max then l.max - l.count else 0
    decreases |ts|
  {
    if ts != [] {
      if ts[0] > lo + l.window {
        NoneAfter(l, ts, lo);
      } else {
        RestOfWindow(l.Counted(ts[0]), ts[1..], lo);
      }
    }
  }

  /** An interval stays within the bound of one window if no window begins inside it after its
      first request. */
  lemma {:induction false} OneWindowAdmitsItsBound(l: Limiter, ts: seq<Time>, lo: Time)
    requires Ordered(l, ts) && InOneWindow(l, ts, lo)
    ensures AdmittedIn(l, ts, lo) <= l.max
    decreases |ts|
  {
    if ts != [] {
      if ts[0] < lo {
        OneWindowAdmitsItsBound(l.Counted(ts[0]), ts[1..], lo);
      } else if ts[0] > lo + l.window {
        NoneAfter(l, ts, lo);
      } else {
        RestOfWindow(l.Counted(ts[0]), ts[1..], lo);
      }
    }
  }

  /** Any `max` requests in one window are admitted, so the limiter refuses no early caller. */
  lemma {:induction false} AFreshWindowAdmits(l: Limiter, ts: seq<Time>)
    requires Ordered(l, ts) && l.count + |ts| <= l.max
    ensures forall k :: 0 <= k < |ts| ==> StateAt(l, ts, k).Admits(ts[k])
    decreases |ts|
  {
    if ts != [] {
      AFreshWindowAdmits(l.Counted(ts[0]), ts[1..]);
      forall k | 0 <= k < |ts| ensures StateAt(l, ts, k).Admits(ts[k]) {
        if k > 0 {
          assert StateAt(l, ts, k) == StateAt(l.Counted(ts[0]), ts[1..], k - 1);
        }
      }
    }
  }

  /** The limiter after the first `k` requests. */
  function StateAt(l: Limiter, ts: seq<Time>, k: nat): Limiter
    requires k <= |ts|
    decreases k
  {
    if k == 0 then l else StateAt(l.Counted(ts[0]), ts[1..], k - 1)
  }

  // ---------------------------------------------------------------- the bound is met

  function Repeat(t: Time, n: nat): (ts: seq<Time>)
    ensures |ts| == n && forall i :: 0 <= i < n ==> ts[i] == t
  {
    if n == 0 then [] else [t] + Repeat(t, n - 1)
  }

  lemma {:induction false} RepeatIsAdmitted(l: Limiter, t: Time, n: nat, more: seq<Time>, lo: Time)
    requires l.start <= t && t - l.start <= l.window && l.count + n <= l.max && lo <= t <= lo + l.window
    ensures AdmittedIn(l, Repeat(t, n) + more, lo) == n + AdmittedIn(l.(count := l.count + n), more, lo)
    decreases n
  {
    if n == 0 {
      assert Repeat(t, 0) + more == more;
    } else {
      assert (Repeat(t, n) + more)[1..] == Repeat(t, n - 1) + more;
      RepeatIsAdmitted(l.Counted(t), t, n - 1, more, lo);
    }
  }

  /** A full window at its end and a full window right behind it: the bound is exact, so the
      limiter is not the token bucket that its comment names. */
  lemma TwiceTheWindowIsReached(max: nat, window: nat, start: Time)
    requires max > 0 && window > 0
    ensures var l, end := Limiter(max, window, 0, start), start + window;
      var ts := Repeat(end, max) + Repeat(end + 1, max);
      Ordered(l, ts) && AdmittedIn(l, ts, end) == 2 * max
  {
    var l, end := Limiter(max, window, 0, start), start + window;
    var second := Repeat(end + 1, max);
    RepeatIsAdmitted(l, end, max, second, end);
    var full := l.(count := max);
    var next := full.Counted(end + 1);
    assert second[1..] == Repeat(end + 1, max - 1) == Repeat(end + 1, max - 1) + [];
    RepeatIsAdmitted(next, end + 1, max - 1, [], end);
  }
}
