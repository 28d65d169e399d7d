// Per-instance passwords in memory: one shared request per instance, a time to
// live, and a forget that also disowns the request in flight.
module SecretsCache {
  import opened Text

  type Key = string
  type Secrets = string

  // A request is sent, then its result is stored or it fails, then its `finally`
  // has run. Requests are numbered in the order they began.
  datatype Phase = Sent | Answered(value: Secrets) | Failed | Over(answer: Option<Secrets>)

  /** What the request returned, if it did. */
  function AnswerOf(p: Phase): Option<Secrets> {
    match p
    case Answered(value) => Some(value)
    case Over(answer) => answer
    case _ => None
  }

  datatype Request = Request(key: Key, phase: Phase)

  // `request` and `storedAt` are where and when the entry came from.
  datatype Entry = Entry(secrets: Secrets, expiresAt: int, request: nat, storedAt: int)

  // `forgotten` is history: how many requests had begun when the key was last forgotten.
  datatype State = State(now: int, cache: map<Key, Entry>, inFlight: map<Key, nat>, requests: seq<Request>,
                         forgotten: map<Key, nat>)

  const EMPTY := State(0, map[], map[], [], map[])

  /** Requests of a key begun before its last forget are disowned. */
  function Since(s: State, key: Key): nat { if key in s.forgotten then s.forgotten[key] else 0 }

  datatype Step = Get(key: Key) | Answer(n: nat, value: Secrets) | Fail(n: nat) | Finally(n: nat) | Forget(key: Key) | Tick(ms: nat)

  predicate Enabled(s: State, step: Step) {
    match step
    case Answer(n, _) => n < |s.requests| && s.requests[n].phase.Sent?
    case Fail(n) => n < |s.requests| && s.requests[n].phase.Sent?
    case Finally(n) => n < |s.requests| && (s.requests[n].phase.Answered? || s.requests[n].phase.Failed?)
    case _ => true
  }

  predicate Owns(s: State, key: Key, n: nat) { key in s.inFlight && s.inFlight[key] == n }

  predicate Fresh(s: State, key: Key) { key in s.cache && s.cache[key].expiresAt > s.now }

  function Moved(s: State, n: nat, phase: Phase): State
    requires n < |s.requests|
  {
    s.(requests := s.requests[n := s.requests[n].(phase := phase)])
  }

  function Next(s: State, step: Step, ttl: nat): State
    requires Enabled(s, step)
  {
    match step
    case Get(key) =>
      if Fresh(s, key) then s
      else
        var dropped := s.(cache := s.cache - {key});
        if key in s.inFlight then dropped
        else dropped.(requests := s.requests + [Request(key, Sent)], inFlight := s.inFlight[key := |s.requests|])
    case Answer(n, value) =>
      var key := s.requests[n].key;
      var moved := Moved(s, n, Answered(value));
      if Owns(s, key, n) then moved.(cache := s.cache[key := Entry(value, s.now + ttl, n, s.now)]) else moved
    case Fail(n) => Moved(s, n, Failed)
    case Finally(n) =>
      var moved := Moved(s, n, Over(AnswerOf(s.requests[n].phase)));
      if Owns(s, s.requests[n].key, n) then moved.(inFlight := s.inFlight - {s.requests[n].key}) else moved
    case Forget(key) =>
      s.(cache := s.cache - {key}, inFlight := s.inFlight - {key}, forgotten := s.forgotten[key := |s.requests|])
    case Tick(ms) => s.(now := s.now + ms)
  }

  predicate Runs(s: State, steps: seq<Step>, ttl: nat)
    decreases |steps|
  {
    steps == [] || (Enabled(s, steps[0]) && Runs(Next(s, steps[0], ttl), steps[1..], ttl))
  }

  function After(s: State, steps: seq<Step>, ttl: nat): State
    requires Runs(s, steps, ttl)
    decreases |steps|
  {
    if steps == [] then s else After(Next(s, steps[0], ttl), steps[1..], ttl)
  }

  // ── What every step keeps ─────────────────────────────────────────────────

  /** An entry is the answer of a request begun since the last forget. */
  predicate EntryTrue(s: State, key: Key, ttl: nat) {
    key in s.cache ==>
      var e := s.cache[key];
      && Since(s, key) <= e.request < |s.requests| && s.requests[e.request].key == key
      && AnswerOf(s.requests[e.request].phase) == Some(e.secrets)
      && e.expiresAt == e.storedAt + ttl && e.storedAt <= s.now
  }

  /** The shared request of a key is one of its own that is not over. */
  predicate SharedTrue(s: State, key: Key) {
    key in s.inFlight ==>
      Since(s, key) <= s.inFlight[key] < |s.requests| && s.requests[s.inFlight[key]].key == key
      && !s.requests[s.inFlight[key]].phase.Over?
  }

  /** A request begun since the last forget is shared until it is over. */
  predicate RequestShared(s: State, n: nat)
    requires n < |s.requests|
  {
    !s.requests[n].phase.Over? && Since(s, s.requests[n].key) <= n ==> Owns(s, s.requests[n].key, n)
  }

  ghost predicate Inv(s: State, ttl: nat) {
    && (forall key :: EntryTrue(s, key, ttl) && SharedTrue(s, key) && Since(s, key) <= |s.requests|)
    && (forall n :: 0 <= n < |s.requests| ==> RequestShared(s, n))
  }

  lemma KeyStep(s: State, step: Step, ttl: nat, key: Key)
    requires Inv(s, ttl) && Enabled(s, step)
    ensures var t := Next(s, step, ttl);
      EntryTrue(t, key, ttl) && SharedTrue(t, key) && Since(t, key) <= |t.requests|
  {
    assert EntryTrue(s, key, ttl) && SharedTrue(s, key);
    hide Inv;
  }

  lemma RequestStep(s: State, step: Step, ttl: nat, n: nat)
    requires Inv(s, ttl) && Enabled(s, step) && n < |Next(s, step, ttl).requests|
    ensures RequestShared(Next(s, step, ttl), n)
  {
    if n < |s.requests| {
      assert RequestShared(s, n) && SharedTrue(s, s.requests[n].key);
      hide Inv;
    } else {
      assert SharedTrue(s, step.key);
      hide Inv;
    }
  }

  lemma StepKeepsInv(s: State, step: Step, ttl: nat)
    requires Inv(s, ttl) && Enabled(s, step)
    ensures Inv(Next(s, step, ttl), ttl)
  {
    hide Next, EntryTrue, SharedTrue, RequestShared, Since;
    forall key
      ensures EntryTrue(Next(s, step, ttl), key, ttl) && SharedTrue(Next(s, step, ttl), key)
              && Since(Next(s, step, ttl), key) <= |Next(s, step, ttl).requests|
    {
      KeyStep(s, step, ttl, key);
    }
    forall n | 0 <= n < |Next(s, step, ttl).requests| ensures RequestShared(Next(s, step, ttl), n) {
      RequestStep(s, step, ttl, n);
    }
  }

  lemma {:induction false} RunKeepsInv(s: State, steps: seq<Step>, ttl: nat)
    requires Inv(s, ttl) && Runs(s, steps, ttl)
    ensures Inv(After(s, steps, ttl), ttl)
    decreases |steps|
  {
    hide Inv, Next, Enabled;
    if steps != [] {
      StepKeepsInv(s, steps[0], ttl);
      RunKeepsInv(Next(s, steps[0], ttl), steps[1..], ttl);
    }
  }

  // ── The guarantees ────────────────────────────────────────────────────────

  /** Two requests of one key live at once mean a forget between them: callers
      never start a second request beside one they could share. */
  lemma OneSharedRequest(steps: seq<Step>, ttl: nat, m: nat, n: nat)
    requires Runs(EMPTY, steps, ttl)
    requires var s := After(EMPTY, steps, ttl);
      && m < n < |s.requests| && s.requests[m].key == s.requests[n].key
      && !s.requests[m].phase.Over? && !s.requests[n].phase.Over?
    ensures var s := After(EMPTY, steps, ttl); m < Since(s, s.requests[m].key)
  {
    RunKeepsInv(EMPTY, steps, ttl);
    assert RequestShared(After(EMPTY, steps, ttl), m) && RequestShared(After(EMPTY, steps, ttl), n);
  }

  /** Forgetting is final: whatever happens afterwards, nothing a request begun
      before it returned is ever cached or handed to a caller that joins. */
  lemma {:induction false} ForgetIsFinal(s: State, key: Key, later: seq<Step>, ttl: nat)
    requires Inv(s, ttl) && Runs(Next(s, Forget(key), ttl), later, ttl)
    ensures var t := After(Next(s, Forget(key), ttl), later, ttl);
      && (key in t.cache ==> t.cache[key].request >= |s.requests|)
      && (key in t.inFlight ==> t.inFlight[key] >= |s.requests|)
  {
    StepKeepsInv(s, Forget(key), ttl);
    SinceGrows(Next(s, Forget(key), ttl), later, ttl, key);
    RunKeepsInv(Next(s, Forget(key), ttl), later, ttl);
    var t := After(Next(s, Forget(key), ttl), later, ttl);
    assert EntryTrue(t, key, ttl) && SharedTrue(t, key);
  }

  lemma {:induction false} SinceGrows(s: State, steps: seq<Step>, ttl: nat, key: Key)
    requires Inv(s, ttl) && Runs(s, steps, ttl) && key in s.forgotten
    ensures key in After(s, steps, ttl).forgotten && Since(After(s, steps, ttl), key) >= Since(s, key)
    decreases |steps|
  {
    if steps != [] {
      StepKeepsInv(s, steps[0], ttl);
      SinceGrows(Next(s, steps[0], ttl), steps[1..], ttl, key);
    }
  }

  /** A hit is exactly what a request begun since the last forget returned, stored
      less than the time to live ago. */
  lemma HitsAreFresh(steps: seq<Step>, ttl: nat, key: Key)
    requires Runs(EMPTY, steps, ttl) && Fresh(After(EMPTY, steps, ttl), key)
    ensures var s := After(EMPTY, steps, ttl);
      var e := s.cache[key];
      && Since(s, key) <= e.request < |s.requests| && s.requests[e.request].key == key
      && AnswerOf(s.requests[e.request].phase) == Some(e.secrets)
      && e.storedAt <= s.now < e.storedAt + ttl
  {
    RunKeepsInv(EMPTY, steps, ttl);
    assert EntryTrue(After(EMPTY, steps, ttl), key, ttl);
  }

  function Elapsed(steps: seq<Step>): nat {
    if steps == [] then 0 else (if steps[0].Tick? then steps[0].ms else 0) + Elapsed(steps[1..])
  }

  predicate NeverForgets(steps: seq<Step>, key: Key) { Forget(key) !in steps }

  /** The answer is in memory, and the only request that could replace it is its own. */
  predicate Holds(s: State, key: Key, value: Secrets, n: nat, until: int) {
    && key in s.cache && s.cache[key].secrets == value && s.cache[key].expiresAt == until
    && n < |s.requests| && s.requests[n].key == key && !s.requests[n].phase.Sent?
    && (key in s.inFlight ==> s.inFlight[key] == n)
  }

  lemma StepHolds(s: State, step: Step, ttl: nat, key: Key, value: Secrets, n: nat, until: int)
    requires Inv(s, ttl) && Holds(s, key, value, n, until) && Enabled(s, step) && step != Forget(key)
    requires s.now + Elapsed([step]) < until
    ensures Holds(Next(s, step, ttl), key, value, n, until) && Next(s, step, ttl).now == s.now + Elapsed([step])
  {
    assert [step][1..] == [];
  }

  lemma {:induction false} RunHolds(s: State, steps: seq<Step>, ttl: nat, key: Key, value: Secrets, n: nat, until: int)
    requires Inv(s, ttl) && Holds(s, key, value, n, until) && Runs(s, steps, ttl) && NeverForgets(steps, key)
    requires s.now + Elapsed(steps) < until
    ensures Holds(After(s, steps, ttl), key, value, n, until) && After(s, steps, ttl).now == s.now + Elapsed(steps)
    decreases |steps|
  {
    if steps != [] {
      assert [steps[0]][1..] == [] && steps[0] in steps && forall x :: x in steps[1..] ==> x in steps;
      StepKeepsInv(s, steps[0], ttl);
      StepHolds(s, steps[0], ttl, key, value, n, until);
      hide Inv, Holds, Next, Enabled;
      RunHolds(Next(s, steps[0], ttl), steps[1..], ttl, key, value, n, until);
    }
  }

  /** What the shared request of a key returned is served: over any run after its
      answer, without a forget of the key and within the time to live, the next call
      finds exactly that value in memory, sends nothing and changes nothing. */
  lemma AnsweredIsServed(steps: seq<Step>, n: nat, value: Secrets, later: seq<Step>, ttl: nat)
    requires Runs(EMPTY, steps, ttl) && Enabled(After(EMPTY, steps, ttl), Answer(n, value))
    requires var s := After(EMPTY, steps, ttl);
      && Owns(s, s.requests[n].key, n)
      && Runs(s, [Answer(n, value)] + later, ttl) && NeverForgets(later, s.requests[n].key) && Elapsed(later) < ttl
    ensures var s := After(EMPTY, steps, ttl);
      var key, t := s.requests[n].key, After(s, [Answer(n, value)] + later, ttl);
      && key in t.cache && t.cache[key].secrets == value && Fresh(t, key)
      && Runs(t, [Get(key)], ttl) && After(t, [Get(key)], ttl) == t
  {
    var s := After(EMPTY, steps, ttl);
    var key := s.requests[n].key;
    RunKeepsInv(EMPTY, steps, ttl);
    StepKeepsInv(s, Answer(n, value), ttl);
    assert ([Answer(n, value)] + later)[1..] == later && [Get(key)][1..] == [];
    var answered := Next(s, Answer(n, value), ttl);
    RunHolds(answered, later, ttl, key, value, n, s.now + ttl);
  }

  /** A failure is not cached: once its `finally` has run, the next call sends a
      new request. */
  lemma FailureRetries(s: State, n: nat, ttl: nat)
    requires Inv(s, ttl) && n < |s.requests| && s.requests[n].phase.Failed?
    requires !Fresh(s, s.requests[n].key) && Since(s, s.requests[n].key) <= n
    ensures var key := s.requests[n].key;
      var t := Next(Next(s, Finally(n), ttl), Get(key), ttl);
      key in t.inFlight && t.inFlight[key] == |s.requests| == |t.requests| - 1
  {
    assert RequestShared(s, n);
  }

  // ── The module's two maps ─────────────────────────────────────────────────

  datatype Reply = Hit(secrets: Secrets) | Wait(request: nat)

  class Cache {
    const ttl: nat
    var now: int
    var cache: map<Key, Entry>
    var inFlight: map<Key, nat>
    var requests: seq<Request>
    ghost var forgotten: map<Key, nat>

    constructor (ttl: nat)
      ensures this.ttl == ttl && Now() == EMPTY
    {
      this.ttl := ttl;
      now, cache, inFlight, requests, forgotten := 0, map[], map[], [], map[];
    }

    ghost function Now(): State
      reads this
    {
      State(now, cache, inFlight, requests, forgotten)
    }

    /** A hit, or the request the caller waits for. */
    method GetInstanceSecrets(key: Key) returns (reply: Reply)
      modifies this
      ensures Now() == Next(old(Now()), Get(key), ttl)
      ensures reply == if Fresh(old(Now()), key) then Hit(old(cache)[key].secrets) else Wait(inFlight[key])
      ensures reply.Hit? ==> Now() == old(Now())
    {
      if key in cache {
        if cache[key].expiresAt > now { return Hit(cache[key].secrets); }
        cache := cache - {key};
      } else {
        assert cache - {key} == cache;
      }
      if key in inFlight { return Wait(inFlight[key]); }
      requests, inFlight := requests + [Request(key, Sent)], inFlight[key := |requests|];
      return Wait(inFlight[key]);
    }

    /** The request's `then`. */
    method Store(n: nat, value: Secrets)
      requires Enabled(Now(), Answer(n, value))
      modifies this
      ensures Now() == Next(old(Now()), Answer(n, value), ttl)
    {
      var key := requests[n].key;
      requests := requests[n := requests[n].(phase := Answered(value))];
      if key in inFlight && inFlight[key] == n { cache := cache[key := Entry(value, now + ttl, n, now)]; }
    }

    /** The request's `finally`. */
    method Release(n: nat)
      requires Enabled(Now(), Finally(n))
      modifies this
      ensures Now() == Next(old(Now()), Finally(n), ttl)
    {
      var key := requests[n].key;
      requests := requests[n := requests[n].(phase := Over(AnswerOf(requests[n].phase)))];
      if key in inFlight && inFlight[key] == n { inFlight := inFlight - {key}; }
    }

    method ForgetInstanceSecrets(key: Key)
      modifies this
      ensures Now() == Next(old(Now()), Forget(key), ttl)
    {
      cache, inFlight := cache - {key}, inFlight - {key};
      forgotten := forgotten[key := |requests|];
    }
  }
}
