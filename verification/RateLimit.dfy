// The two rate limiters: a sliding window per key for HTTP routes, and a fixed
// window per websocket connection. Clocks never go back.
module RateLimit {

  // One call, when it came and whether it was let through.
  datatype Call = Call(at: int, admitted: bool)

  predicate Before(calls: seq<Call>, clock: int) { calls != [] ==> calls[|calls| - 1].at <= clock }

  predicate InOrder(calls: seq<Call>) {
    calls == [] || (InOrder(calls[..|calls| - 1]) && Before(calls[..|calls| - 1], calls[|calls| - 1].at))
  }

  lemma {:induction false} Later(calls: seq<Call>, i: nat, j: nat)
    requires InOrder(calls) && i <= j < |calls|
    ensures calls[i].at <= calls[j].at
    decreases |calls|
  {
    var rest := calls[..|calls| - 1];
    if j < |rest| {
      Later(rest, i, j);
    } else if i < j {
      Later(rest, i, j - 1);
    }
  }

  function Count(calls: seq<Call>): nat {
    if calls == [] then 0 else Count(calls[..|calls| - 1]) + (if calls[|calls| - 1].admitted then 1 else 0)
  }

  /** The calls let through in the last `windowMs` before `now`. */
  function InWindow(calls: seq<Call>, now: int, windowMs: int): nat {
    if calls == [] then 0
    else
      var last := calls[|calls| - 1];
      InWindow(calls[..|calls| - 1], now, windowMs) + (if last.admitted && now - last.at < windowMs then 1 else 0)
  }

  function AtLeastZero(n: int): nat { if n < 0 then 0 else n }

  // ── Per key, sliding ──────────────────────────────────────────────────────

  function Recent(stamps: seq<int>, now: int, windowMs: int): seq<int> {
    if stamps == [] then []
    else
      var rest, last := Recent(stamps[..|stamps| - 1], now, windowMs), stamps[|stamps| - 1];
      if now - last < windowMs then rest + [last] else rest
  }

  /** When the admitted calls came. */
  function Times(calls: seq<Call>): seq<int> {
    if calls == [] then []
    else
      var rest, last := Times(calls[..|calls| - 1]), calls[|calls| - 1];
      if last.admitted then rest + [last.at] else rest
  }

  lemma {:induction false} RecentSnoc(stamps: seq<int>, t: int, now: int, windowMs: int)
    ensures var recent := Recent(stamps, now, windowMs);
      Recent(stamps + [t], now, windowMs) == if now - t < windowMs then recent + [t] else recent
  {
    assert (stamps + [t])[..|stamps|] == stamps;
  }

  /** Dropping what was too old before loses nothing that is recent now. */
  lemma {:induction false} RecentAgain(stamps: seq<int>, before: int, now: int, windowMs: int)
    requires before <= now
    ensures Recent(Recent(stamps, before, windowMs), now, windowMs) == Recent(stamps, now, windowMs)
  {
    if stamps != [] {
      var rest, last := stamps[..|stamps| - 1], stamps[|stamps| - 1];
      RecentAgain(rest, before, now, windowMs);
      RecentSnoc(Recent(rest, before, windowMs), last, now, windowMs);
    }
  }

  lemma {:induction false} RecentCounts(calls: seq<Call>, now: int, windowMs: int)
    ensures |Recent(Times(calls), now, windowMs)| == InWindow(calls, now, windowMs)
  {
    if calls != [] {
      RecentCounts(calls[..|calls| - 1], now, windowMs);
      RecentSnoc(Times(calls[..|calls| - 1]), calls[|calls| - 1].at, now, windowMs);
    }
  }

  /** Every call was admitted exactly when its window had room. */
  predicate Exact(calls: seq<Call>, limit: int, windowMs: int) {
    calls == [] ||
    (Exact(calls[..|calls| - 1], limit, windowMs)
     && (calls[|calls| - 1].admitted <==> InWindow(calls[..|calls| - 1], calls[|calls| - 1].at, windowMs) < limit))
  }

  /** What the limiter knows of a key: the recent admitted stamps, as of its last call. */
  ghost predicate KeyTrue(stamps: seq<int>, calls: seq<Call>, limit: int, windowMs: int) {
    && stamps == (if calls == [] then [] else Recent(Times(calls), calls[|calls| - 1].at, windowMs))
    && InOrder(calls) && Exact(calls, limit, windowMs)
  }

  lemma NextExact(calls: seq<Call>, limit: int, windowMs: int, next: Call)
    requires InOrder(calls) && Exact(calls, limit, windowMs) && Before(calls, next.at)
    requires next.admitted <==> InWindow(calls, next.at, windowMs) < limit
    ensures InOrder(calls + [next]) && Exact(calls + [next], limit, windowMs)
  {
    assert (calls + [next])[..|calls|] == calls;
    hide InWindow;
  }

  lemma NextKeyTrue(stamps: seq<int>, calls: seq<Call>, limit: int, windowMs: int, now: int, ok: bool)
    requires KeyTrue(stamps, calls, limit, windowMs) && windowMs > 0 && Before(calls, now)
    requires ok <==> |Recent(stamps, now, windowMs)| < limit
    ensures |Recent(stamps, now, windowMs)| == InWindow(calls, now, windowMs)
    ensures var recent := Recent(stamps, now, windowMs);
      KeyTrue(if ok then recent + [now] else recent, calls + [Call(now, ok)], limit, windowMs)
  {
    hide InOrder, Exact, InWindow;
    RecentCounts(calls, now, windowMs);
    if calls != [] { RecentAgain(Times(calls), calls[|calls| - 1].at, now, windowMs); }
    NextExact(calls, limit, windowMs, Call(now, ok));
    RecentSnoc(Times(calls), now, now, windowMs);
    assert (calls + [Call(now, ok)])[..|calls|] == calls;
  }

  function StampsOf(hits: map<string, seq<int>>, key: string): seq<int> { if key in hits then hits[key] else [] }

  function CallsOf(log: map<string, seq<Call>>, key: string): seq<Call> { if key in log then log[key] else [] }

  ghost predicate AllTrue(hits: map<string, seq<int>>, log: map<string, seq<Call>>, limit: int, windowMs: int, clock: int) {
    forall key :: Upto(hits, log, limit, windowMs, clock, key)
  }

  ghost predicate Upto(hits: map<string, seq<int>>, log: map<string, seq<Call>>, limit: int, windowMs: int, clock: int, key: string) {
    KeyTrue(StampsOf(hits, key), CallsOf(log, key), limit, windowMs) && Before(CallsOf(log, key), clock)
  }

  lemma NextAllTrue(hits: map<string, seq<int>>, log: map<string, seq<Call>>, limit: int, windowMs: int, clock: int,
                    key: string, stamps: seq<int>, next: Call)
    requires AllTrue(hits, log, limit, windowMs, clock) && next.at >= clock
    requires KeyTrue(stamps, CallsOf(log, key) + [next], limit, windowMs)
    ensures AllTrue(hits[key := stamps], log[key := CallsOf(log, key) + [next]], limit, windowMs, next.at)
  {
    hide KeyTrue;
    var hits', log' := hits[key := stamps], log[key := CallsOf(log, key) + [next]];
    forall k ensures Upto(hits', log', limit, windowMs, next.at, k) {
      assert Upto(hits, log, limit, windowMs, clock, k);
    }
  }

  class KeyedRateLimiter {
    const limit: int
    const windowMs: int
    var hits: map<string, seq<int>>
    ghost var log: map<string, seq<Call>>
    ghost var clock: int

    constructor (limit: int, windowMs: int)
      requires windowMs > 0
      ensures this.limit == limit && this.windowMs == windowMs && Valid() && log == map[]
    {
      this.limit, this.windowMs := limit, windowMs;
      hits, log, clock := map[], map[], 0;
    }

    ghost predicate Valid()
      reads this
    {
      windowMs > 0 && AllTrue(hits, log, limit, windowMs, clock)
    }

    /** Admits exactly when fewer than `limit` calls of the key were admitted in
        the last `windowMs`. */
    method Allow(key: string, now: int) returns (ok: bool)
      requires Valid() && now >= clock
      modifies this
      ensures Valid() && clock == now
      ensures ok <==> InWindow(CallsOf(old(log), key), now, windowMs) < limit
      ensures log == old(log)[key := CallsOf(old(log), key) + [Call(now, ok)]]
    {
      hide KeyTrue, InWindow, Recent;
      ghost var calls := CallsOf(log, key);
      assert Upto(hits, log, limit, windowMs, clock, key);
      hide AllTrue, Upto;
      var stamps := if key in hits then hits[key] else [];
      var timestamps := Recent(stamps, now, windowMs);
      ok := |timestamps| < limit;
      NextKeyTrue(stamps, calls, limit, windowMs, now, ok);
      if ok { timestamps := timestamps + [now]; }
      NextAllTrue(hits, log, limit, windowMs, clock, key, timestamps, Call(now, ok));
      hits := hits[key := timestamps];
      log, clock := log[key := calls + [Call(now, ok)]], now;
    }
  }

  lemma {:induction false} WindowCovers(before: seq<Call>, part: seq<Call>, now: int, windowMs: int)
    requires forall c :: c in part ==> now - c.at < windowMs
    ensures Count(part) <= InWindow(before + part, now, windowMs)
  {
    if part != [] {
      var rest := part[..|part| - 1];
      assert part[|part| - 1] in part && forall c :: c in rest ==> c in part;
      WindowCovers(before, rest, now, windowMs);
      assert (before + part)[..|before + part| - 1] == before + rest;
    }
  }

  /** A prefix of a log is the log of an earlier moment. */
  lemma {:induction false} ExactPrefix(calls: seq<Call>, limit: int, windowMs: int, j: nat)
    requires InOrder(calls) && Exact(calls, limit, windowMs) && j <= |calls|
    ensures InOrder(calls[..j]) && Exact(calls[..j], limit, windowMs)
    decreases |calls|
  {
    hide InWindow;
    if j < |calls| {
      var rest := calls[..|calls| - 1];
      assert rest[..j] == calls[..j];
      ExactPrefix(rest, limit, windowMs, j);
    } else {
      assert calls[..j] == calls;
    }
  }

  lemma {:induction false} SlidingUpToNow(calls: seq<Call>, limit: int, windowMs: int, i: nat)
    requires InOrder(calls) && Exact(calls, limit, windowMs)
    requires i < |calls| && calls[|calls| - 1].at - calls[i].at < windowMs
    ensures Count(calls[i..]) <= AtLeastZero(limit)
    decreases |calls|
  {
    var rest, last := calls[..|calls| - 1], calls[|calls| - 1];
    CountLast(calls[i..]);
    assert calls[i..][..|calls| - i - 1] == rest[i..];
    if last.admitted {
      StretchIsRecent(calls, windowMs, i);
      assert rest[..i] + rest[i..] == rest;
      hide Count, InWindow, InOrder;
      WindowCovers(rest[..i], rest[i..], last.at, windowMs);
    } else if i < |rest| {
      Later(calls, |rest| - 1, |rest|);
      hide Count, InWindow;
      SlidingUpToNow(rest, limit, windowMs, i);
    } else {
      assert rest[i..] == [];
    }
  }

  lemma CountLast(calls: seq<Call>)
    requires calls != []
    ensures Count(calls) == Count(calls[..|calls| - 1]) + (if calls[|calls| - 1].admitted then 1 else 0)
  {
  }

  lemma StretchIsRecent(calls: seq<Call>, windowMs: int, i: nat)
    requires InOrder(calls) && i < |calls| && calls[|calls| - 1].at - calls[i].at < windowMs
    ensures forall c :: c in calls[..|calls| - 1][i..] ==> calls[|calls| - 1].at - c.at < windowMs
  {
    var part := calls[..|calls| - 1][i..];
    forall c | c in part ensures calls[|calls| - 1].at - c.at < windowMs {
      var k :| 0 <= k < |part| && part[k] == c;
      assert calls[i + k] == c;
      Later(calls, i, i + k);
    }
  }

  /** No stretch shorter than the window holds more than `limit` admitted calls. */
  lemma SlidingBound(calls: seq<Call>, limit: int, windowMs: int, i: nat, j: nat)
    requires InOrder(calls) && Exact(calls, limit, windowMs)
    requires i < j <= |calls| && calls[j - 1].at - calls[i].at < windowMs
    ensures Count(calls[i..j]) <= AtLeastZero(limit)
  {
    ExactPrefix(calls, limit, windowMs, j);
    SlidingUpToNow(calls[..j], limit, windowMs, i);
    assert calls[..j][i..] == calls[i..j];
  }

  lemma {:induction false} NoneRecent(calls: seq<Call>, now: int, windowMs: int)
    requires forall j :: 0 <= j < |calls| ==> now - calls[j].at >= windowMs
    ensures InWindow(calls, now, windowMs) == 0
  {
    if calls != [] { NoneRecent(calls[..|calls| - 1], now, windowMs); }
  }

  /** Where the recent calls begin. */
  lemma {:induction false} RecentFrom(calls: seq<Call>, now: int, windowMs: int) returns (i: nat)
    requires InOrder(calls)
    ensures i <= |calls| && InWindow(calls, now, windowMs) <= Count(calls[i..])
    ensures forall j :: i <= j < |calls| ==> now - calls[j].at < windowMs
    decreases |calls|
  {
    i := 0;
    if calls != [] {
      var rest, last := calls[..|calls| - 1], calls[|calls| - 1];
      i := RecentFrom(rest, now, windowMs);
      if now - last.at < windowMs {
        CountLast(calls[i..]);
        assert calls[i..][..|calls| - i - 1] == rest[i..];
      } else {
        forall j | 0 <= j < |rest| ensures now - rest[j].at >= windowMs { Later(calls, j, |rest|); }
        NoneRecent(rest, now, windowMs);
        i := |calls|;
      }
    }
  }

  /** And the other way: a call is refused only when `limit` calls were let through
      less than a window before it. */
  lemma RefusedOnlyWhenFull(calls: seq<Call>, limit: int, windowMs: int) returns (i: nat)
    requires InOrder(calls) && Exact(calls, limit, windowMs) && calls != [] && !calls[|calls| - 1].admitted && limit > 0
    ensures i < |calls| - 1 && calls[|calls| - 1].at - calls[i].at < windowMs && Count(calls[i..]) >= limit
  {
    var rest, last := calls[..|calls| - 1], calls[|calls| - 1];
    i := RecentFrom(rest, last.at, windowMs);
    assert rest[|rest|..] == [];
    CountLast(calls[i..]);
    assert calls[i..][..|calls| - i - 1] == rest[i..];
  }

  // ── Per connection, fixed ─────────────────────────────────────────────────

  datatype Window = Window(start: int, count: nat)

  /** The window a call falls into: a new one once the old one is over. */
  function Opened(w: Window, now: int, windowMs: int): Window { if now - w.start >= windowMs then Window(now, 0) else w }

  /** The window after a run of calls. */
  function Fold(calls: seq<Call>, windowMs: int): Window {
    if calls == [] then Window(0, 0)
    else
      var w := Opened(Fold(calls[..|calls| - 1], windowMs), calls[|calls| - 1].at, windowMs);
      w.(count := w.count + 1)
  }

  predicate Behaved(calls: seq<Call>, limit: int, windowMs: int) {
    calls == [] ||
    (Behaved(calls[..|calls| - 1], limit, windowMs)
     && (calls[|calls| - 1].admitted <==>
           Opened(Fold(calls[..|calls| - 1], windowMs), calls[|calls| - 1].at, windowMs).count < limit))
  }

  lemma NextBehaved(calls: seq<Call>, limit: int, windowMs: int, now: int, ok: bool)
    requires InOrder(calls) && Behaved(calls, limit, windowMs) && Before(calls, now)
    requires ok <==> Opened(Fold(calls, windowMs), now, windowMs).count < limit
    ensures InOrder(calls + [Call(now, ok)]) && Behaved(calls + [Call(now, ok)], limit, windowMs)
    ensures var w := Opened(Fold(calls, windowMs), now, windowMs);
      Fold(calls + [Call(now, ok)], windowMs) == w.(count := w.count + 1)
  {
    assert (calls + [Call(now, ok)])[..|calls|] == calls;
  }

  class MessageRateLimiter {
    const limit: int
    const windowMs: int
    var windowStart: int
    var count: nat
    ghost var calls: seq<Call>

    constructor (limit: int, windowMs: int)
      requires windowMs > 0
      ensures this.limit == limit && this.windowMs == windowMs && Valid() && calls == []
    {
      this.limit, this.windowMs := limit, windowMs;
      windowStart, count, calls := 0, 0, [];
    }

    ghost predicate Valid()
      reads this
    {
      windowMs > 0 && InOrder(calls) && Behaved(calls, limit, windowMs) && Now() == Fold(calls, windowMs)
    }

    ghost function Now(): Window
      reads this
    {
      Window(windowStart, count)
    }

    method Allow(now: int) returns (ok: bool)
      requires Valid() && Before(calls, now)
      modifies this
      ensures Valid() && calls == old(calls) + [Call(now, ok)]
      ensures ok <==> Opened(old(Now()), now, windowMs).count < limit
    {
      hide Fold, Behaved, InOrder;
      if now - windowStart >= windowMs {
        windowStart, count := now, 0;
      }
      count := count + 1;
      ok := count <= limit;
      NextBehaved(calls, limit, windowMs, now, ok);
      calls := calls + [Call(now, ok)];
    }
  }

  lemma {:induction false} CountConcat(a: seq<Call>, b: seq<Call>)
    ensures Count(a + b) == Count(a) + Count(b)
  {
    if b == [] {
      assert a + b == a;
    } else {
      CountConcat(a, b[..|b| - 1]);
      assert (a + b)[..|a + b| - 1] == a + b[..|b| - 1];
    }
  }

  /** One call further: either into the same window or into a new one. */
  lemma FoldLast(calls: seq<Call>, limit: int, windowMs: int)
    requires Behaved(calls, limit, windowMs) && calls != []
    ensures var rest, last := calls[..|calls| - 1], calls[|calls| - 1];
      var before, after := Fold(rest, windowMs), Fold(calls, windowMs);
      && after == (if last.at - before.start >= windowMs then Window(last.at, 1) else Window(before.start, before.count + 1))
      && (last.admitted <==> after.count <= limit)
  {
  }

  /** A stretch shorter than the window meets at most two fixed windows, split at
      k: the second one opened at a call of the stretch, and the first one's
      opening call, which used up one place, came before it. */
  lemma {:induction false} TwoWindows(calls: seq<Call>, limit: nat, windowMs: int, i: nat) returns (k: nat)
    requires windowMs > 0 && InOrder(calls) && Behaved(calls, limit, windowMs) && calls != [] && calls[0].at >= windowMs
    requires i < |calls| && calls[|calls| - 1].at - calls[i].at < windowMs
    ensures i <= k < |calls|
    ensures k > i ==> Count(calls[i..k]) <= AtLeastZero(limit - 1) && Fold(calls, windowMs).start >= calls[i].at
    ensures k == i && Fold(calls, windowMs).start < calls[i].at ==>
      Count(calls[k..]) < Fold(calls, windowMs).count && Count(calls[k..]) <= AtLeastZero(limit - 1)
    ensures Count(calls[k..]) <= Fold(calls, windowMs).count && Count(calls[k..]) <= limit
    decreases |calls|
  {
    hide Count, Fold, Behaved, InOrder;
    var rest, last := calls[..|calls| - 1], calls[|calls| - 1];
    FoldLast(calls, limit, windowMs);
    OneCall(calls);
    if i == |rest| {
      k := i;
      OpenedByCall(calls, limit, windowMs);
    } else {
      Prefixes(calls, limit, windowMs);
      Later(calls, |rest| - 1, |rest|);
      k := TwoWindows(rest, limit, windowMs, i);
      if last.at - Fold(rest, windowMs).start >= windowMs {
        assert k == i;
        assert rest[i..] == calls[i..|rest|];
        k := |rest|;
        Later(calls, i, |rest|);
      } else {
        assert rest[i..k] == calls[i..k];
        assert calls[k..][..|calls| - k - 1] == rest[k..];
        CountLast(calls[k..]);
      }
    }
  }

  lemma Prefixes(calls: seq<Call>, limit: int, windowMs: int)
    requires InOrder(calls) && Behaved(calls, limit, windowMs) && calls != []
    ensures InOrder(calls[..|calls| - 1]) && Behaved(calls[..|calls| - 1], limit, windowMs)
  {
  }

  lemma OneCall(calls: seq<Call>)
    requires calls != []
    ensures Count(calls[|calls| - 1..]) == if calls[|calls| - 1].admitted then 1 else 0
  {
    assert calls[|calls| - 1..][..0] == [];
  }

  /** A window is opened by a call: unless that is this call, it came before. */
  lemma OpenedByCall(calls: seq<Call>, limit: nat, windowMs: int)
    requires windowMs > 0 && InOrder(calls) && Behaved(calls, limit, windowMs) && calls != [] && calls[0].at >= windowMs
    ensures var w := Fold(calls, windowMs); w.count >= 1 && (w.start < calls[|calls| - 1].at ==> w.count >= 2)
  {
    FoldLast(calls, limit, windowMs);
    if |calls| > 1 { FoldLast(calls[..|calls| - 1], limit, windowMs); }
  }

  lemma {:induction false} BehavedPrefix(calls: seq<Call>, limit: int, windowMs: int, j: nat)
    requires InOrder(calls) && Behaved(calls, limit, windowMs) && j <= |calls|
    ensures InOrder(calls[..j]) && Behaved(calls[..j], limit, windowMs)
    decreases |calls|
  {
    hide Fold;
    if j < |calls| {
      var rest := calls[..|calls| - 1];
      assert rest[..j] == calls[..j];
      BehavedPrefix(rest, limit, windowMs, j);
    } else {
      assert calls[..j] == calls;
    }
  }

  /** No stretch shorter than the window holds 2 * limit admitted calls or more,
      on a clock that starts past the first window as the wall clock does. */
  lemma FixedBound(calls: seq<Call>, limit: nat, windowMs: int, i: nat, j: nat)
    requires windowMs > 0 && InOrder(calls) && Behaved(calls, limit, windowMs) && limit > 0
    requires i < j <= |calls| && calls[j - 1].at - calls[i].at < windowMs && calls[0].at >= windowMs
    ensures Count(calls[i..j]) <= 2 * limit - 1
  {
    hide Count, Fold, Behaved, InOrder;
    BehavedPrefix(calls, limit, windowMs, j);
    var part := calls[..j];
    var k := TwoWindows(part, limit, windowMs, i);
    CountConcat(part[i..k], part[k..]);
    assert part[i..k] + part[k..] == calls[i..j];
    if k == i {
      assert part[i..k] == [];
      assert Count([]) == 0 by { NoCalls(); }
    }
  }

  lemma NoCalls()
    ensures Count([]) == 0
  {
  }

  // ── That many do get through ──────────────────────────────────────────────

  function Burst(at: int, k: nat): seq<Call> { seq(k, _ => Call(at, true)) }

  lemma {:induction false} BurstCount(at: int, k: nat)
    ensures Count(Burst(at, k)) == k
  {
    if k > 0 {
      assert Burst(at, k)[..k - 1] == Burst(at, k - 1);
      BurstCount(at, k - 1);
    }
  }

  /** A burst into an open window is let through as long as the window has room. */
  lemma {:induction false} BurstFits(calls: seq<Call>, limit: nat, windowMs: int, at: int, k: nat)
    requires InOrder(calls) && Behaved(calls, limit, windowMs) && Before(calls, at)
    requires at - Fold(calls, windowMs).start < windowMs && Fold(calls, windowMs).count + k <= limit
    ensures var after, w := calls + Burst(at, k), Fold(calls, windowMs);
      && InOrder(after) && Behaved(after, limit, windowMs) && Before(after, at)
      && Fold(after, windowMs) == Window(w.start, w.count + k)
    decreases k
  {
    if k == 0 {
      assert calls + Burst(at, 0) == calls;
    } else {
      BurstFits(calls, limit, windowMs, at, k - 1);
      var before := calls + Burst(at, k - 1);
      hide Fold, Behaved, InOrder;
      NextBehaved(before, limit, windowMs, at, true);
      assert before + [Call(at, true)] == calls + Burst(at, k);
    }
  }

  /** One call opens a window, and a burst right behind it fills it. */
  lemma WindowOpens(calls: seq<Call>, limit: nat, windowMs: int, at: int)
    requires limit > 0 && windowMs > 0 && InOrder(calls) && Behaved(calls, limit, windowMs) && Before(calls, at)
    requires at - Fold(calls, windowMs).start >= windowMs
    ensures var after := calls + [Call(at, true)];
      && InOrder(after) && Behaved(after, limit, windowMs) && Before(after, at) && Fold(after, windowMs) == Window(at, 1)
  {
    NextBehaved(calls, limit, windowMs, at, true);
    hide Fold, Behaved, InOrder;
  }

  /** A window opened at `windowMs`, filled up in its last millisecond, and the
      next one filled up in its first. */
  function TightRun(limit: nat, windowMs: int): seq<Call>
    requires limit > 0
  {
    [Call(windowMs, true)] + (Burst(2 * windowMs - 1, limit - 1) + Burst(2 * windowMs, limit))
  }

  lemma TightRunBehaves(limit: nat, windowMs: int)
    requires limit > 0 && windowMs > 1
    ensures InOrder(TightRun(limit, windowMs)) && Behaved(TightRun(limit, windowMs), limit, windowMs)
  {
    var last, next := 2 * windowMs - 1, 2 * windowMs;
    hide Fold, Behaved, InOrder;
    EmptyRun(limit, windowMs);
    WindowOpens([], limit, windowMs, windowMs);
    var first := [] + [Call(windowMs, true)];
    BurstFits(first, limit, windowMs, last, limit - 1);
    var full := first + Burst(last, limit - 1);
    WindowOpens(full, limit, windowMs, next);
    BurstFits(full + [Call(next, true)], limit, windowMs, next, limit - 1);
    TightRunIs(limit, windowMs);
  }

  lemma EmptyRun(limit: nat, windowMs: int)
    ensures Fold([], windowMs) == Window(0, 0) && InOrder([]) && Behaved([], limit, windowMs)
  {
  }

  lemma TightRunIs(limit: nat, windowMs: int)
    requires limit > 0
    ensures var last, next := 2 * windowMs - 1, 2 * windowMs;
      [] + [Call(windowMs, true)] + Burst(last, limit - 1) + [Call(next, true)] + Burst(next, limit - 1) == TightRun(limit, windowMs)
  {
    assert [Call(2 * windowMs, true)] + Burst(2 * windowMs, limit - 1) == Burst(2 * windowMs, limit);
  }

  /** The bound is tight for every limit and window: after its first call, that run
      lets 2 * limit - 1 through within a millisecond. */
  lemma FixedBoundIsReached(limit: nat, windowMs: int)
    requires limit > 0 && windowMs > 1
    ensures var calls := TightRun(limit, windowMs);
      && InOrder(calls) && Behaved(calls, limit, windowMs) && |calls| == 2 * limit && calls[0].at >= windowMs
      && calls[|calls| - 1].at - calls[1].at <= 1
      && Count(calls[1..]) == 2 * limit - 1
  {
    TightRunBehaves(limit, windowMs);
    hide Fold, Behaved, InOrder, Count;
    var calls := TightRun(limit, windowMs);
    assert calls[1..] == Burst(2 * windowMs - 1, limit - 1) + Burst(2 * windowMs, limit);
    CountConcat(Burst(2 * windowMs - 1, limit - 1), Burst(2 * windowMs, limit));
    BurstCount(2 * windowMs - 1, limit - 1);
    BurstCount(2 * windowMs, limit);
  }

  function Min(a: int, b: nat): int { if a < b then a else b }

  /** The calls of the open window: the first `limit` of them were let through. */
  lemma {:induction false} WindowHolds(calls: seq<Call>, limit: nat, windowMs: int) returns (i: nat)
    requires windowMs > 0 && InOrder(calls) && Behaved(calls, limit, windowMs) && (calls != [] ==> calls[0].at >= 0)
    ensures i + Fold(calls, windowMs).count == |calls| && Count(calls[i..]) == Min(limit, Fold(calls, windowMs).count)
    ensures (calls != [] ==> i < |calls|) && forall j :: i <= j < |calls| ==> calls[j].at >= Fold(calls, windowMs).start
    decreases |calls|
  {
    hide Fold, Behaved, InOrder, Count;
    i := 0;
    if calls == [] {
      EmptyRun(limit, windowMs);
      NoCalls();
    } else {
      var rest, last := calls[..|calls| - 1], calls[|calls| - 1];
      Prefixes(calls, limit, windowMs);
      FoldLast(calls, limit, windowMs);
      i := WindowHolds(rest, limit, windowMs);
      if last.at - Fold(rest, windowMs).start >= windowMs {
        i := |rest|;
        assert calls[i..][..|calls| - i - 1] == [];
        NoCalls();
      } else {
        if rest == [] { EmptyRun(limit, windowMs); } else { Later(calls, i, |rest|); }
        assert calls[i..][..|calls| - i - 1] == rest[i..];
      }
      CountLast(calls[i..]);
    }
  }

  /** The fixed window, too, refuses only when `limit` calls were let through less
      than a window before. */
  lemma FixedRefusesOnlyWhenFull(calls: seq<Call>, limit: nat, windowMs: int) returns (i: nat)
    requires windowMs > 0 && InOrder(calls) && Behaved(calls, limit, windowMs) && limit > 0
    requires calls != [] && calls[0].at >= 0 && !calls[|calls| - 1].admitted
    ensures i < |calls| - 1 && calls[|calls| - 1].at - calls[i].at < windowMs && Count(calls[i..]) >= limit
  {
    var rest, last := calls[..|calls| - 1], calls[|calls| - 1];
    FoldLast(calls, limit, windowMs);
    i := WindowHolds(rest, limit, windowMs);
    CountLast(calls[i..]);
    assert calls[i..][..|calls| - i - 1] == rest[i..];
  }
}
