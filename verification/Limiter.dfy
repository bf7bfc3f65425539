/**
  The fixed-window rate limiter. Its window is fixed by the first call after the
  last one ran out, so a caller can see two windows' worth of grants inside one
  window's length, and never more.
*/
module Limiter {
  import opened GoArith

  datatype Call = Call(key: string, now: int)

  datatype Window = Window(counts: map<string, nat>, resetAt: int)

  datatype Rule = Rule(limit: int, window: nat)

  function CountOf(w: Window, key: string): nat {
    if key in w.counts then w.counts[key] else 0
  }

  /** A call after the window's end opens a new one. */
  function Opened(r: Rule, w: Window, now: int): Window {
    if now > w.resetAt then Window(map[], now + r.window) else w
  }

  function Granted(r: Rule, w: Window, c: Call): bool {
    CountOf(Opened(r, w, c.now), c.key) < r.limit
  }

  function Next(r: Rule, w: Window, c: Call): Window {
    var o := Opened(r, w, c.now);
    if Granted(r, w, c) then o.(counts := o.counts[c.key := CountOf(o, c.key) + 1]) else o
  }

  const START := Window(map[], 0)

  class RateLimiter {
    const rule: Rule
    var counts: map<string, nat>
    var resetAt: int

    ghost function View(): Window
      reads this
    {
      Window(counts, resetAt)
    }

    constructor (limit: int, window: nat)
      ensures rule == Rule(limit, window) && View() == START
    {
      rule := Rule(limit, window);
      counts, resetAt := map[], 0;
    }

    method Allow(key: string, now: int) returns (ok: bool)
      modifies this
      ensures ok == Granted(rule, old(View()), Call(key, now))
      ensures View() == Next(rule, old(View()), Call(key, now))
    {
      if now > resetAt {
        counts := map[];
        resetAt := now + rule.window;
      }
      var count := if key in counts then counts[key] else 0;
      if count >= rule.limit {
        return false;
      }
      counts := counts[key := count + 1];
      return true;
    }
  }

  // ---------- Whole traces ----------

  function WindowAfter(r: Rule, w: Window, calls: seq<Call>): Window
    decreases |calls|
  {
    if calls == [] then w else WindowAfter(r, Next(r, w, calls[0]), calls[1..])
  }

  /** How many of a key's calls in the trace are granted. */
  function Grants(r: Rule, w: Window, key: string, calls: seq<Call>): nat
    decreases |calls|
  {
    if calls == [] then 0
    else
      (if calls[0].key == key && Granted(r, w, calls[0]) then 1 else 0)
      + Grants(r, Next(r, w, calls[0]), key, calls[1..])
  }

  function CallsBy(key: string, calls: seq<Call>): nat {
    if calls == [] then 0 else (if calls[0].key == key then 1 else 0) + CallsBy(key, calls[1..])
  }

  /** Times never go back. */
  ghost predicate Monotone(calls: seq<Call>) {
    forall i, j :: 0 <= i < j < |calls| ==> calls[i].now <= calls[j].now
  }

  /** While the window lasts, a key gets exactly the first of its calls, up to the limit. */
  lemma {:induction false} GrantsWithinWindow(r: Rule, w: Window, key: string, calls: seq<Call>)
    requires forall i :: 0 <= i < |calls| ==> calls[i].now <= w.resetAt
    ensures Grants(r, w, key, calls) == Min(CallsBy(key, calls), Max(r.limit - CountOf(w, key), 0))
    decreases |calls|
  {
    if calls != [] {
      assert forall i :: 0 <= i < |calls[1..]| ==> calls[1..][i] == calls[i + 1];
      assert Next(r, w, calls[0]).resetAt == w.resetAt;
      GrantsWithinWindow(r, Next(r, w, calls[0]), key, calls[1..]);
    }
  }

  /** Inside one window's length at most one new window opens. */
  lemma {:induction false} GrantsAcrossOneReset(r: Rule, w: Window, key: string, calls: seq<Call>, from: int)
    requires forall i :: 0 <= i < |calls| ==> from <= calls[i].now <= from + r.window
    ensures Grants(r, w, key, calls) <= Max(r.limit - CountOf(w, key), 0) + Max(r.limit, 0)
    decreases |calls|
  {
    if calls != [] {
      var w1 := Next(r, w, calls[0]);
      assert forall i :: 0 <= i < |calls[1..]| ==> calls[1..][i] == calls[i + 1];
      if calls[0].now > w.resetAt {
        assert w1.resetAt == calls[0].now + r.window;
        GrantsWithinWindow(r, w1, key, calls[1..]);
      } else {
        GrantsAcrossOneReset(r, w1, key, calls[1..], from);
      }
    }
  }

  /** Over every trace of a limiter, any closed interval one window long grants a key at most twice its limit. */
  lemma TwiceTheLimit(r: Rule, key: string, calls: seq<Call>, i: nat, j: nat)
    requires Monotone(calls) && i < j <= |calls| && calls[j - 1].now - calls[i].now <= r.window
    ensures Grants(r, WindowAfter(r, START, calls[..i]), key, calls[i..j]) <= 2 * Max(r.limit, 0)
  {
    var part := calls[i..j];
    assert forall k :: 0 <= k < |part| ==> part[k] == calls[i + k];
    assert forall k :: 0 <= k < |part| ==> calls[i].now <= part[k].now <= calls[i].now + r.window;
    GrantsAcrossOneReset(r, WindowAfter(r, START, calls[..i]), key, part, calls[i].now);
  }

  // ---------- Twice is reached ----------

  function Repeated(c: Call, n: nat): seq<Call> {
    seq(n, _ => c)
  }

  lemma {:induction false} CallsInARow(c: Call, n: nat)
    ensures CallsBy(c.key, Repeated(c, n)) == n
  {
    if n > 0 {
      assert Repeated(c, n)[1..] == Repeated(c, n - 1);
      CallsInARow(c, n - 1);
    }
  }

  /** As many calls in a row as the limit allows are all granted in a window that has counted none. */
  lemma FullWindow(r: Rule, w: Window, c: Call)
    requires r.limit >= 0 && CountOf(w, c.key) == 0 && c.now <= w.resetAt
    ensures Grants(r, w, c.key, Repeated(c, r.limit)) == r.limit
  {
    GrantsWithinWindow(r, w, c.key, Repeated(c, r.limit));
    CallsInARow(c, r.limit);
  }

  /** And in the window that the first of them opens. */
  lemma FullNewWindow(r: Rule, w: Window, c: Call)
    requires r.limit >= 1 && c.now > w.resetAt
    ensures Grants(r, w, c.key, Repeated(c, r.limit)) == r.limit
  {
    var calls := Repeated(c, r.limit);
    var w1 := Next(r, w, c);
    assert calls[0] == c && calls[1..] == Repeated(c, r.limit - 1);
    GrantsWithinWindow(r, w1, c.key, calls[1..]);
    CallsInARow(c, r.limit - 1);
  }

  lemma {:induction false} GrantsInParts(r: Rule, w: Window, key: string, a: seq<Call>, b: seq<Call>)
    ensures Grants(r, w, key, a + b) == Grants(r, w, key, a) + Grants(r, WindowAfter(r, w, a), key, b)
    decreases |a|
  {
    if a == [] {
      assert a + b == b;
    } else {
      assert (a + b)[0] == a[0] && (a + b)[1..] == a[1..] + b;
      GrantsInParts(r, Next(r, w, a[0]), key, a[1..], b);
    }
  }

  lemma {:induction false} WindowLasts(r: Rule, w: Window, calls: seq<Call>)
    requires forall i :: 0 <= i < |calls| ==> calls[i].now <= w.resetAt
    ensures WindowAfter(r, w, calls).resetAt == w.resetAt
    decreases |calls|
  {
    if calls != [] {
      assert forall i :: 0 <= i < |calls[1..]| ==> calls[1..][i] == calls[i + 1];
      WindowLasts(r, Next(r, w, calls[0]), calls[1..]);
    }
  }

  /** A limit's worth of calls at the last moment of the window, and another just after it. */
  lemma TwiceFromOpenWindow(r: Rule, w: Window, early: Call, late: Call)
    requires r.limit >= 1 && early.key == late.key && CountOf(w, early.key) == 0
    requires early.now <= w.resetAt < late.now
    ensures Grants(r, w, early.key, Repeated(early, r.limit) + Repeated(late, r.limit)) == 2 * r.limit
  {
    var a := Repeated(early, r.limit);
    GrantsInParts(r, w, early.key, a, Repeated(late, r.limit));
    FullWindow(r, w, early);
    WindowLasts(r, w, a);
    FullNewWindow(r, WindowAfter(r, w, a), late);
  }

  /**
    For every limit and every window twice is reached: another key's call opens the
    window, and within one time unit around its end the key gets two full limits.
  */
  lemma TwiceIsReached(r: Rule, other: string, key: string) returns (calls: seq<Call>)
    requires r.limit >= 1 && r.window >= 1 && other != key
    ensures |calls| == 1 + 2 * r.limit && Monotone(calls)
    ensures calls[|calls| - 1].now - calls[1].now <= r.window
    ensures Grants(r, WindowAfter(r, START, calls[..1]), key, calls[1..]) == 2 * r.limit
  {
    var first, early, late := Call(other, 1), Call(key, 1 + r.window), Call(key, 2 + r.window);
    var tail := Repeated(early, r.limit) + Repeated(late, r.limit);
    calls := [first] + tail;
    assert calls[..1] == [first] && calls[1..] == tail && [first][1..] == [];
    var w := Next(r, START, first);
    assert WindowAfter(r, START, [first]) == w;
    TwiceFromOpenWindow(r, w, early, late);
  }
}
