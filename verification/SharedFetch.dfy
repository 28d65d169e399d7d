// One value in memory over one shared fetch: the node's instance list and the
// node's own row. A fetch is sent, its `then` stores the value or it fails, and
// its `finally` frees the slot; readers join whatever fetch is in the slot.
module SharedFetch {
  import opened Text

  type Value = string

  // `Answer` is what a fetch returned and when.
  datatype Answer = Answer(value: Value, at: int)
  datatype Phase = Sent | Stored(answer: Answer) | Failed | Over(result: Option<Answer>)

  function AnswerOf(p: Phase): Option<Answer> {
    match p
    case Stored(answer) => Some(answer)
    case Over(result) => result
    case _ => None
  }

  // `fetch` is the number of the fetch the value came from.
  datatype Snapshot = Snapshot(value: Value, fetch: nat, at: int)

  // Clocks start at 1: a `failedAt` of 0 means no failure.
  datatype State = State(now: int, cached: Option<Snapshot>, failedAt: int, inFlight: Option<nat>, fetches: seq<Phase>)

  const EMPTY := State(1, None, 0, None, [])

  datatype Limits = Limits(ttl: nat, backoff: nat)

  predicate Serves(s: State, l: Limits) {
    s.cached.Some? && (s.now - s.cached.value.at < l.ttl || (s.failedAt != 0 && s.now - s.failedAt < l.backoff))
  }

  datatype Step =
    | Read
    | Refresh
    | Store(value: Value)
    | Fail
    | Release
    | ReaderFailed(fetch: nat)
    | Invalidate
    | Tick(ms: nat)

  predicate Enabled(s: State, step: Step) {
    match step
    case Store(_) => s.inFlight.Some? && s.inFlight.value < |s.fetches| && s.fetches[s.inFlight.value].Sent?
    case Fail => s.inFlight.Some? && s.inFlight.value < |s.fetches| && s.fetches[s.inFlight.value].Sent?
    case Release =>
      && s.inFlight.Some? && s.inFlight.value < |s.fetches|
      && !s.fetches[s.inFlight.value].Sent? && !s.fetches[s.inFlight.value].Over?
    case ReaderFailed(n) => n < |s.fetches| && (s.fetches[n].Failed? || s.fetches[n] == Over(None))
    case _ => true
  }

  /** The shared fetch, sent if there is none. */
  function Joined(s: State): State {
    if s.inFlight.Some? then s else s.(inFlight := Some(|s.fetches|), fetches := s.fetches + [Sent])
  }

  function Next(s: State, step: Step, l: Limits): State
    requires Enabled(s, step)
  {
    match step
    case Read => if Serves(s, l) then s else Joined(s)
    case Refresh => Joined(s)
    case Store(value) =>
      s.(cached := Some(Snapshot(value, s.inFlight.value, s.now)), failedAt := 0,
         fetches := s.fetches[s.inFlight.value := Stored(Answer(value, s.now))])
    case Fail => s.(fetches := s.fetches[s.inFlight.value := Failed])
    case Release =>
      s.(fetches := s.fetches[s.inFlight.value := Over(AnswerOf(s.fetches[s.inFlight.value]))], inFlight := None)
    case ReaderFailed(_) => s.(failedAt := s.now)
    case Invalidate => s.(cached := None, failedAt := 0)
    case Tick(ms) => s.(now := s.now + ms)
  }

  predicate Runs(s: State, steps: seq<Step>, l: Limits)
    decreases |steps|
  {
    steps == [] || (Enabled(s, steps[0]) && Runs(Next(s, steps[0], l), steps[1..], l))
  }

  function After(s: State, steps: seq<Step>, l: Limits): State
    requires Runs(s, steps, l)
    decreases |steps|
  {
    if steps == [] then s else After(Next(s, steps[0], l), steps[1..], l)
  }

  // ── One fetch at a time ───────────────────────────────────────────────────

  /** Only the newest fetch can be live, and exactly while it is in the slot. */
  ghost predicate Slot(s: State) {
    && (s.inFlight.Some? ==> s.inFlight.value == |s.fetches| - 1)
    && (forall n :: 0 <= n < |s.fetches| ==> (!s.fetches[n].Over? <==> s.inFlight == Some(n)))
  }

  /** What is cached is what its fetch returned, and no later fetch has answered;
      a failure is remembered only if it came after. */
  ghost predicate Memory(s: State) {
    && s.now > 0 && 0 <= s.failedAt <= s.now
    && (s.cached.Some? ==>
          var c := s.cached.value;
          && c.fetch < |s.fetches| && AnswerOf(s.fetches[c.fetch]) == Some(Answer(c.value, c.at)) && c.at <= s.now
          && (forall n :: c.fetch < n < |s.fetches| ==> AnswerOf(s.fetches[n]).None?)
          && (s.failedAt != 0 ==> c.at <= s.failedAt))
  }

  ghost predicate Inv(s: State) { Slot(s) && Memory(s) }

  lemma StepKeepsInv(s: State, step: Step, l: Limits)
    requires Inv(s) && Enabled(s, step)
    ensures Inv(Next(s, step, l)) && |Next(s, step, l).fetches| >= |s.fetches|
  {
  }

  lemma {:induction false} RunKeepsInv(s: State, steps: seq<Step>, l: Limits)
    requires Inv(s) && Runs(s, steps, l)
    ensures Inv(After(s, steps, l)) && |After(s, steps, l).fetches| >= |s.fetches|
    decreases |steps|
  {
    hide Inv, Next, Enabled;
    if steps != [] {
      StepKeepsInv(s, steps[0], l);
      RunKeepsInv(Next(s, steps[0], l), steps[1..], l);
    }
  }

  /** Over any run: however many callers there are, at most one fetch is live. */
  lemma OneLiveFetch(steps: seq<Step>, l: Limits, m: nat, n: nat)
    requires Runs(EMPTY, steps, l) && m < |After(EMPTY, steps, l).fetches| && n < |After(EMPTY, steps, l).fetches|
    requires !After(EMPTY, steps, l).fetches[m].Over? && !After(EMPTY, steps, l).fetches[n].Over?
    ensures m == n
  {
    RunKeepsInv(EMPTY, steps, l);
  }

  /** The microtasks of the last response have run. */
  predicate Drained(s: State) { s.inFlight.Some? && s.inFlight.value < |s.fetches| ==> s.fetches[s.inFlight.value].Sent? }

  /** A refresh is never answered from memory, and the fetch it joins has not
      settled: called once the microtasks of the last response have run, it waits
      for a response still to come, and only then. */
  lemma RefreshIsLive(steps: seq<Step>, l: Limits)
    requires Runs(EMPTY, steps, l)
    ensures var s := After(EMPTY, steps, l);
      var t := Next(s, Refresh, l);
      && t.inFlight.Some? && t.inFlight.value < |t.fetches| && !t.fetches[t.inFlight.value].Over?
      && (t.fetches[t.inFlight.value].Sent? <==> Drained(s))
      && t.cached == s.cached
  {
    RunKeepsInv(EMPTY, steps, l);
  }

  /** So what a refresh is answered with was fetched after the call. */
  lemma RefreshIsAnsweredLater(steps: seq<Step>, later: seq<Step>, l: Limits)
    requires Runs(EMPTY, steps, l) && Drained(After(EMPTY, steps, l))
    requires Runs(Next(After(EMPTY, steps, l), Refresh, l), later, l)
    ensures var s := After(EMPTY, steps, l);
      var n := Next(s, Refresh, l).inFlight;
      var u := After(Next(s, Refresh, l), later, l);
      && n.Some? && n.value < |u.fetches|
      && (AnswerOf(u.fetches[n.value]).Some? ==> AnswerOf(u.fetches[n.value]).value.at >= s.now)
  {
    RefreshIsLive(steps, l);
    RunKeepsInv(EMPTY, steps, l);
    var s := After(EMPTY, steps, l);
    StepKeepsInv(s, Refresh, l);
    AnswersAfter(Next(s, Refresh, l), later, l, Next(s, Refresh, l).inFlight.value, s.now);
  }

  /** A fetch without an answer at some moment gets it no earlier than that. */
  ghost predicate NotBefore(s: State, n: nat, at: int) {
    n < |s.fetches| && s.now >= at && (AnswerOf(s.fetches[n]).Some? ==> AnswerOf(s.fetches[n]).value.at >= at)
  }

  lemma {:induction false} AnswersAfter(s: State, steps: seq<Step>, l: Limits, n: nat, at: int)
    requires Inv(s) && NotBefore(s, n, at) && Runs(s, steps, l)
    ensures NotBefore(After(s, steps, l), n, at)
    decreases |steps|
  {
    hide Inv;
    if steps != [] {
      StepKeepsInv(s, steps[0], l);
      AnswersAfter(Next(s, steps[0], l), steps[1..], l, n, at);
    }
  }

  // ── Invalidation ──────────────────────────────────────────────────────────

  /** The fetches a reader arriving now can be answered from. */
  predicate CanAnswer(s: State, n: nat) {
    (s.cached.Some? && s.cached.value.fetch == n) ||
    (s.inFlight == Some(n) && n < |s.fetches| && !s.fetches[n].Failed?)
  }

  /** Everything readable from here on was fetched after the first `k` fetches. */
  ghost predicate NewerThan(s: State, k: nat) { forall n: nat :: CanAnswer(s, n) ==> n >= k }

  lemma StepKeepsNewer(s: State, step: Step, l: Limits, k: nat)
    requires Inv(s) && NewerThan(s, k) && k <= |s.fetches| && Enabled(s, step)
    ensures NewerThan(Next(s, step, l), k)
  {
    var t := Next(s, step, l);
    forall n: nat | CanAnswer(t, n) ensures n >= k {
      if step.Store? { assert CanAnswer(s, s.inFlight.value); }
      assert CanAnswer(s, n) || n >= |s.fetches|;
    }
  }

  lemma {:induction false} NewerForever(s: State, steps: seq<Step>, l: Limits, k: nat)
    requires Inv(s) && NewerThan(s, k) && k <= |s.fetches| && Runs(s, steps, l)
    ensures NewerThan(After(s, steps, l), k)
    decreases |steps|
  {
    hide Inv, NewerThan, Next, Enabled;
    if steps != [] {
      StepKeepsInv(s, steps[0], l);
      StepKeepsNewer(s, steps[0], l, k);
      NewerForever(Next(s, steps[0], l), steps[1..], l, k);
    }
  }

  ghost predicate NeverStale(s: State, l: Limits, k: nat) {
    forall steps :: Runs(s, steps, l) ==> NewerThan(After(s, steps, l), k)
  }

  /** After an invalidation every later answer comes from a fetch begun after it
      exactly when no fetch that can still succeed was in the slot: invalidating
      does not disown the fetch in flight, which writes its older list back. */
  lemma InvalidateIsExact(s: State, l: Limits)
    requires Inv(s)
    ensures NeverStale(Next(s, Invalidate, l), l, |s.fetches|) <==>
      s.inFlight.None? || s.fetches[s.inFlight.value].Failed?
  {
    var t := Next(s, Invalidate, l);
    StepKeepsInv(s, Invalidate, l);
    if s.inFlight.None? || s.fetches[s.inFlight.value].Failed? {
      forall steps | Runs(t, steps, l) ensures NewerThan(After(t, steps, l), |s.fetches|) {
        NewerForever(t, steps, l, |s.fetches|);
      }
    } else {
      assert CanAnswer(t, t.inFlight.value);
      assert Runs(t, [], l) && After(t, [], l) == t;
    }
  }

  /** The write-back, step by step: the list fetched before the invalidation is
      served from memory after it, for a whole time to live. */
  lemma StaleWriteBack(s: State, l: Limits, value: Value, ms: nat)
    requires Inv(s) && s.inFlight.Some? && s.fetches[s.inFlight.value].Sent? && ms < l.ttl
    ensures var t := Next(Next(Next(Next(s, Invalidate, l), Store(value), l), Release, l), Tick(ms), l);
      && Serves(t, l) && t.cached.value.value == value && t.cached.value.fetch < |s.fetches| && t.inFlight.None?
  {
  }

  // ── What readers get ──────────────────────────────────────────────────────

  /** Over any run: a reader served from memory gets exactly what the newest fetch
      that answered returned, and either that was less than the time to live ago,
      or a later fetch failed a reader and the pause since is not over. */
  lemma ServedIsRecent(steps: seq<Step>, l: Limits)
    requires Runs(EMPTY, steps, l) && Serves(After(EMPTY, steps, l), l)
    ensures var s := After(EMPTY, steps, l);
      var c := s.cached.value;
      && c.fetch < |s.fetches| && AnswerOf(s.fetches[c.fetch]) == Some(Answer(c.value, c.at))
      && (forall n :: c.fetch < n < |s.fetches| ==> AnswerOf(s.fetches[n]).None?)
      && c.at <= s.now
      && (s.now < c.at + l.ttl || c.at <= s.failedAt <= s.now < s.failedAt + l.backoff)
  {
    RunKeepsInv(EMPTY, steps, l);
  }

  /** The time that passes, when only readers come. */
  predicate OnlyReads(steps: seq<Step>) { forall i :: 0 <= i < |steps| ==> steps[i].Read? || steps[i].Tick? }

  function Elapsed(steps: seq<Step>): nat {
    if steps == [] then 0 else (if steps[0].Tick? then steps[0].ms else 0) + Elapsed(steps[1..])
  }

  /** After a failed refresh over a warm cache nothing is sent for the whole pause,
      however many readers come and whenever in it they come: each is served. */
  lemma {:induction false} FailurePauses(s: State, steps: seq<Step>, l: Limits)
    requires s.cached.Some? && s.failedAt != 0 && OnlyReads(steps) && Runs(s, steps, l)
    requires s.failedAt <= s.now && s.now + Elapsed(steps) < s.failedAt + l.backoff
    ensures var t := After(s, steps, l);
      && t == s.(now := s.now + Elapsed(steps))
      && Serves(t, l)
    decreases |steps|
  {
    if steps != [] {
      assert OnlyReads(steps[1..]);
      FailurePauses(Next(s, steps[0], l), steps[1..], l);
    }
  }

  /** From the failure on: once a fetch has failed a reader over a warm cache, any
      readers that come within the pause are served, and nothing is sent. */
  lemma FailedReaderPauses(s: State, n: nat, later: seq<Step>, l: Limits)
    requires Inv(s) && s.cached.Some? && Enabled(s, ReaderFailed(n))
    requires OnlyReads(later) && Runs(s, [ReaderFailed(n)] + later, l) && Elapsed(later) < l.backoff
    ensures var t := After(s, [ReaderFailed(n)] + later, l);
      t.fetches == s.fetches && t.inFlight == s.inFlight && t.cached == s.cached && Serves(t, l)
  {
    assert ([ReaderFailed(n)] + later)[1..] == later;
    FailurePauses(Next(s, ReaderFailed(n), l), later, l);
  }

  /** An answer is served: readers that come within the time to live find it. */
  lemma StoredIsServed(s: State, value: Value, later: seq<Step>, l: Limits)
    requires Inv(s) && Enabled(s, Store(value))
    requires OnlyReads(later) && Runs(s, [Store(value)] + later, l) && Elapsed(later) < l.ttl
    ensures var t := After(s, [Store(value)] + later, l);
      && t.cached.Some? && t.cached.value.value == value && Serves(t, l)
      && |t.fetches| == |s.fetches| && t.inFlight == s.inFlight
  {
    assert ([Store(value)] + later)[1..] == later;
    var stored := Next(s, Store(value), l);
    ReadersAreServed(stored, later, l);
  }

  lemma {:induction false} ReadersAreServed(s: State, steps: seq<Step>, l: Limits)
    requires s.cached.Some? && OnlyReads(steps) && Runs(s, steps, l) && s.now + Elapsed(steps) < s.cached.value.at + l.ttl
    ensures After(s, steps, l) == s.(now := s.now + Elapsed(steps)) && Serves(After(s, steps, l), l)
    decreases |steps|
  {
    if steps != [] {
      assert OnlyReads(steps[1..]);
      ReadersAreServed(Next(s, steps[0], l), steps[1..], l);
    }
  }

  /** Over a cold cache there is nothing to serve: the next reader retries at once. */
  lemma ColdFailureRetries(s: State, n: nat, l: Limits)
    requires Inv(s) && Enabled(s, ReaderFailed(n)) && s.cached.None? && s.inFlight.None?
    ensures var t := Next(Next(s, ReaderFailed(n), l), Read, l);
      t.inFlight == Some(|s.fetches|) && t.fetches == s.fetches + [Sent]
  {
  }

  // ── The modules' variables ────────────────────────────────────────────────

  datatype Reply = Cached(value: Value) | Wait(fetch: nat)

  class Cache {
    const limits: Limits
    var now: int
    var cached: Option<Value>
    var cachedAt: int
    var failedAt: int
    var inFlight: Option<nat>
    var fetches: seq<Phase>
    ghost var source: nat

    constructor (limits: Limits)
      ensures this.limits == limits && Now() == EMPTY
    {
      this.limits := limits;
      now, cached, cachedAt, failedAt, inFlight, fetches, source := 1, None, 0, 0, None, [], 0;
    }

    ghost function Now(): State
      reads this
    {
      State(now, if cached.Some? then Some(Snapshot(cached.value, source, cachedAt)) else None, failedAt, inFlight, fetches)
    }

    method FetchShared() returns (fetch: nat)
      modifies this
      ensures Now() == Joined(old(Now())) && inFlight == Some(fetch)
    {
      if inFlight.None? { inFlight, fetches := Some(|fetches|), fetches + [Sent]; }
      fetch := inFlight.value;
    }

    method GetCached() returns (reply: Reply)
      modifies this
      ensures Now() == Next(old(Now()), Read, limits)
      ensures if Serves(old(Now()), limits) then cached.Some? && reply == Cached(cached.value)
              else inFlight.Some? && reply == Wait(inFlight.value)
    {
      if cached.Some? && now - cachedAt < limits.ttl { return Cached(cached.value); }
      if cached.Some? && failedAt != 0 && now - failedAt < limits.backoff { return Cached(cached.value); }
      var fetch := FetchShared();
      return Wait(fetch);
    }

    /** The `catch` of a reader whose fetch failed: what is cached, or the error. */
    method AfterFailure(fetch: nat) returns (served: Option<Value>)
      requires Enabled(Now(), ReaderFailed(fetch))
      modifies this
      ensures Now() == Next(old(Now()), ReaderFailed(fetch), limits)
      ensures served == old(cached)
    {
      failedAt := now;
      return cached;
    }

    /** The fetch's `then`. */
    method StoreResult(value: Value)
      requires Enabled(Now(), Store(value))
      modifies this
      ensures Now() == Next(old(Now()), Store(value), limits)
    {
      cached, cachedAt, failedAt := Some(value), now, 0;
      fetches := fetches[inFlight.value := Stored(Answer(value, now))];
      source := inFlight.value;
    }

    /** The fetch's `finally`. */
    method ReleaseSlot()
      requires Enabled(Now(), Release)
      modifies this
      ensures Now() == Next(old(Now()), Release, limits)
    {
      fetches := fetches[inFlight.value := Over(AnswerOf(fetches[inFlight.value]))];
      inFlight := None;
    }

    method InvalidateList()
      modifies this
      ensures Now() == Next(old(Now()), Invalidate, limits)
    {
      cached, cachedAt, failedAt := None, 0, 0;
    }
  }
}
