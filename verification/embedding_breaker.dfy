/** Retries and the circuit breaker of services/embeddings.py. Many `embed_texts` calls
    share one breaker; each is checked when it begins and then makes its attempts, with
    sleeps between them, so the attempts of different calls interleave. Times are in
    one unit and never go back. */
module EmbeddingBreaker {
  import opened Wrappers

  type Vectors = seq<seq<real>>

  datatype Settings = Settings(retryAttempts: int, circuitFailures: int, resetAfter: nat)

  /** `calls` maps an admitted call to the attempts it may still make. */
  datatype Breaker = Breaker(now: int, failures: nat, openUntil: int, calls: map<nat, nat>)

  datatype Action =
    | Tick(elapsed: nat)
    | Begin(call: nat)
    | Succeed(call: nat)
    | Fail(call: nat)
    | Reset

  predicate Init(b: Breaker) {
    b.now >= 0 && b.failures == 0 && b.openUntil == 0 && b.calls == map[]
  }

  predicate IsOpen(b: Breaker) {
    b.now < b.openUntil
  }

  predicate Enabled(b: Breaker, a: Action) {
    match a
    case Tick(_) => true
    case Begin(call) => call !in b.calls
    case Succeed(call) => call in b.calls
    case Fail(call) => call in b.calls
    case Reset => true
  }

  function WithoutCall(calls: map<nat, nat>, call: nat): map<nat, nat> {
    calls - {call}
  }

  /** One attempt less; none left ends the call. */
  function AttemptSpent(calls: map<nat, nat>, call: nat): map<nat, nat>
    requires call in calls
  {
    if calls[call] <= 1 then WithoutCall(calls, call) else calls[call := calls[call] - 1]
  }

  function Apply(s: Settings, b: Breaker, a: Action): Breaker
    requires Enabled(b, a)
  {
    match a
    case Tick(elapsed) => b.(now := b.now + elapsed)
    case Begin(call) =>
      if IsOpen(b) || s.retryAttempts <= 0 then b else b.(calls := b.calls[call := s.retryAttempts])
    case Succeed(call) => b.(failures := 0, calls := WithoutCall(b.calls, call))
    case Fail(call) =>
      b.(failures := b.failures + 1,
         openUntil := if b.failures + 1 >= s.circuitFailures then b.now + s.resetAfter else b.openUntil,
         calls := AttemptSpent(b.calls, call))
    case Reset => b.(failures := 0, openUntil := 0)
  }

  ghost predicate IsRun(s: Settings, states: seq<Breaker>, actions: seq<Action>) {
    && |states| == |actions| + 1
    && Init(states[0])
    && forall n :: 0 <= n < |actions| ==> Enabled(states[n], actions[n]) && states[n + 1] == Apply(s, states[n], actions[n])
  }

  // ---- When the circuit is open -----------------------------------------------------------

  /** Failed attempts from step j up to step k. */
  function Failures(actions: seq<Action>, j: nat, k: nat): nat
    requires j <= k <= |actions|
  {
    if j == k then 0 else Failures(actions, j, k - 1) + if actions[k - 1].Fail? then 1 else 0
  }

  /** No attempt succeeded and nobody reset the breaker from step j up to step k. */
  ghost predicate Unbroken(actions: seq<Action>, j: nat, k: nat)
    requires j <= k <= |actions|
  {
    forall n :: j <= n < k ==> !actions[n].Succeed? && !actions[n].Reset?
  }

  /** The steps from j up to n hold a streak of the configured length. */
  ghost predicate IsStreak(s: Settings, actions: seq<Action>, j: nat, n: nat)
    requires n <= |actions|
  {
    j < n && Unbroken(actions, j, n) && Failures(actions, j, n) >= s.circuitFailures
  }

  /** Step k is the failure that completes, or prolongs, a streak of the configured length. */
  ghost predicate Trips(s: Settings, actions: seq<Action>, k: nat) {
    && k < |actions|
    && actions[k].Fail?
    && var n := k + 1; exists j: nat :: IsStreak(s, actions, j, n)
  }

  ghost predicate NoReset(actions: seq<Action>, j: nat, k: nat)
    requires j <= k <= |actions|
  {
    forall n :: j <= n < k ==> !actions[n].Reset?
  }

  lemma {:induction false} FailuresShrink(actions: seq<Action>, i: nat, j: nat, k: nat)
    requires i <= j <= k <= |actions|
    ensures Failures(actions, j, k) <= Failures(actions, i, k)
  {
    if j < k {
      FailuresShrink(actions, i, j, k - 1);
    }
  }

  /** The counter is the length of the current streak, over all calls. */
  lemma {:induction false} CounterIsStreak(s: Settings, states: seq<Breaker>, actions: seq<Action>, n: nat) returns (start: nat)
    requires IsRun(s, states, actions) && n <= |actions|
    ensures start <= n && Unbroken(actions, start, n) && Failures(actions, start, n) == states[n].failures
    ensures start == 0 || actions[start - 1].Succeed? || actions[start - 1].Reset?
  {
    start := 0;
    if n > 0 {
      start := CounterIsStreak(s, states, actions, n - 1);
      if actions[n - 1].Succeed? || actions[n - 1].Reset? {
        start := n;
      }
    }
  }

  lemma TripsExactly(s: Settings, states: seq<Breaker>, actions: seq<Action>, k: nat)
    requires IsRun(s, states, actions) && k < |actions| && actions[k].Fail?
    ensures Trips(s, actions, k) <==> states[k + 1].failures >= s.circuitFailures
  {
    var start := CounterIsStreak(s, states, actions, k + 1);
    var n := k + 1;
    if j: nat :| IsStreak(s, actions, j, n) {
      FailuresShrink(actions, start, j, n);
    }
    assert start <= k ==> (IsStreak(s, actions, start, n) <==> states[n].failures >= s.circuitFailures);
  }

  lemma {:induction false} TimeGoesOn(s: Settings, states: seq<Breaker>, actions: seq<Action>, i: nat, n: nat)
    requires IsRun(s, states, actions) && i <= n <= |actions|
    ensures 0 <= states[i].now <= states[n].now
    decreases n
  {
    if i < n {
      TimeGoesOn(s, states, actions, i, n - 1);
    } else if n > 0 {
      TimeGoesOn(s, states, actions, 0, n - 1);
    }
  }

  /** The trip the timer runs from; none, and the timer is at its start or was reset. */
  lemma {:induction false} TimerRunsFromTrip(s: Settings, states: seq<Breaker>, actions: seq<Action>, n: nat) returns (trip: Option<nat>)
    requires IsRun(s, states, actions) && n <= |actions|
    ensures trip.None? ==> states[n].openUntil == 0
    ensures trip.Some? ==> trip.value < n && Trips(s, actions, trip.value) && NoReset(actions, trip.value, n)
    ensures trip.Some? ==> states[n].openUntil == states[trip.value].now + s.resetAfter
    ensures forall k :: 0 <= k < n && Trips(s, actions, k) && NoReset(actions, k, n) ==> trip.Some? && k <= trip.value
  {
    trip := None;
    if n > 0 {
      trip := TimerRunsFromTrip(s, states, actions, n - 1);
      var a := actions[n - 1];
      if a.Fail? {
        TripsExactly(s, states, actions, n - 1);
        if Trips(s, actions, n - 1) {
          trip := Some(n - 1);
        }
      } else if a.Reset? {
        trip := None;
      }
    }
  }

  /** The circuit is open exactly if, less than the reset time ago and with no reset since,
      some failure completed a streak of the configured length. A success in between does not
      close it. */
  lemma OpenAfterTrip(s: Settings, states: seq<Breaker>, actions: seq<Action>, n: nat)
    requires IsRun(s, states, actions) && n <= |actions|
    ensures IsOpen(states[n]) <==>
      exists k :: 0 <= k < n && Trips(s, actions, k) && NoReset(actions, k, n) && states[n].now < states[k].now + s.resetAfter
  {
    var trip := TimerRunsFromTrip(s, states, actions, n);
    TimeGoesOn(s, states, actions, n, n);
    if k :| 0 <= k < n && Trips(s, actions, k) && NoReset(actions, k, n) && states[n].now < states[k].now + s.resetAfter {
      TimeGoesOn(s, states, actions, k, trip.value);
    }
  }

  /** The timer running out does not restart the count: the next failed attempt opens the
      circuit again at once, unless an attempt succeeded or somebody reset it meanwhile. */
  lemma OneFailureReopens(s: Settings, states: seq<Breaker>, actions: seq<Action>, k: nat, n: nat)
    requires IsRun(s, states, actions) && k < n < |actions|
    requires Trips(s, actions, k) && Unbroken(actions, k, n) && actions[n].Fail?
    ensures states[n + 1].openUntil == states[n].now + s.resetAfter
  {
    var j: nat :| IsStreak(s, actions, j, k + 1);
    FailuresGrow(actions, j, k + 1, n + 1);
    assert IsStreak(s, actions, j, n + 1);
    assert Trips(s, actions, n);
    TripsExactly(s, states, actions, n);
  }

  lemma {:induction false} FailuresGrow(actions: seq<Action>, j: nat, k: nat, n: nat)
    requires j <= k <= n <= |actions|
    ensures Failures(actions, j, k) <= Failures(actions, j, n)
  {
    if k < n {
      FailuresGrow(actions, j, k, n - 1);
    }
  }

  // ---- What an open circuit keeps from the provider -----------------------------------------

  /** Requests that call makes to the provider from step i up to step n. */
  function Requests(actions: seq<Action>, call: nat, i: nat, n: nat): nat
    requires i <= n <= |actions|
  {
    if i == n then 0
    else Requests(actions, call, i, n - 1) + if actions[n - 1] == Succeed(call) || actions[n - 1] == Fail(call) then 1 else 0
  }

  function AttemptsLeft(b: Breaker, call: nat): nat {
    if call in b.calls then b.calls[call] else 0
  }

  ghost predicate SomeLeft(s: Settings, calls: map<nat, nat>) {
    forall call :: call in calls ==> 1 <= calls[call] <= s.retryAttempts
  }

  lemma {:induction false} AttemptsBounded(s: Settings, states: seq<Breaker>, actions: seq<Action>, n: nat)
    requires IsRun(s, states, actions) && n <= |actions|
    ensures SomeLeft(s, states[n].calls)
  {
    if n > 0 {
      AttemptsBounded(s, states, actions, n - 1);
    }
  }

  /** Fail fast: while the circuit is open the provider is asked only by calls admitted
      before, each at most as often as it still might when the circuit opened. */
  lemma {:induction false} OnlyAdmittedCallsAsk(s: Settings, states: seq<Breaker>, actions: seq<Action>, call: nat, i: nat, n: nat)
    requires IsRun(s, states, actions) && i <= n <= |actions|
    requires forall m :: i <= m < n ==> IsOpen(states[m])
    ensures Requests(actions, call, i, n) + AttemptsLeft(states[n], call) <= AttemptsLeft(states[i], call) <= AtLeastZero(s.retryAttempts)
    decreases n
  {
    AttemptsBounded(s, states, actions, i);
    if i < n {
      AttemptsBounded(s, states, actions, n - 1);
      OnlyAdmittedCallsAsk(s, states, actions, call, i, n - 1);
    }
  }

  /** A call that begins with the circuit closed gets exactly the configured attempts, one
      that begins with it open gets none. */
  lemma BeginExactly(s: Settings, b: Breaker, call: nat)
    requires call !in b.calls
    ensures var after := Apply(s, b, Begin(call));
            && AttemptsLeft(after, call) == (if b.now < b.openUntil || s.retryAttempts <= 0 then 0 else s.retryAttempts)
            && after.failures == b.failures && after.openUntil == b.openUntil
  {
  }

  /** From then on each request uses one of them up until an attempt succeeds, whatever other
      calls and the breaker do: a call that never succeeds asks exactly that often. */
  lemma {:induction false} AttemptsExactly(s: Settings, states: seq<Breaker>, actions: seq<Action>, call: nat, i: nat, n: nat)
    requires IsRun(s, states, actions) && i < n <= |actions| && actions[i] == Begin(call)
    requires forall m :: i < m < n ==> actions[m] != Begin(call) && actions[m] != Succeed(call)
    ensures Requests(actions, call, i + 1, n) + AttemptsLeft(states[n], call)
         == if states[i].now < states[i].openUntil || s.retryAttempts <= 0 then 0 else s.retryAttempts
    decreases n
  {
    var m := n - 1;
    assert states[m + 1] == Apply(s, states[m], actions[m]);
    if i == m {
      BeginExactly(s, states[i], call);
    } else {
      AttemptsBounded(s, states, actions, m);
      AttemptsExactly(s, states, actions, call, i, m);
    }
  }

  /** A success ends the call. */
  lemma SuccessEnds(s: Settings, b: Breaker, call: nat)
    requires call in b.calls
    ensures AttemptsLeft(Apply(s, b, Succeed(call)), call) == 0
  {
  }

  function AtLeastZero(value: int): nat {
    if value < 0 then 0 else value
  }

  // ---- The service ------------------------------------------------------------------------

  /** The provider gave vectors; an empty list counts as a failure. */
  predicate IsGood(answer: Option<Vectors>) {
    answer.Some? && answer.value != []
  }

  /** No answer, or one without vectors. */
  predicate IsNothing(answer: Option<Vectors>) {
    answer == None || answer == Some([])
  }

  class EmbeddingService {
    const settings: Settings
    var failures: nat
    var openUntil: int

    constructor (settings: Settings)
      ensures this.settings == settings && failures == 0 && openUntil == 0
    {
      this.settings, failures, openUntil := settings, 0, 0;
    }

    ghost function State(now: int, calls: map<nat, nat>): Breaker
      reads this
    {
      Breaker(now, failures, openUntil, calls)
    }

    method ResetCircuitBreaker()
      modifies this
      ensures forall now, calls :: State(now, calls) == Apply(settings, old(State(now, calls)), Reset)
    {
      failures, openUntil := 0, 0;
    }

    method RecordSuccess()
      modifies this
      ensures forall now, calls, call :: call in calls ==>
                State(now, WithoutCall(calls, call)) == Apply(settings, old(State(now, calls)), Succeed(call))
      ensures failures == 0 && openUntil == old(openUntil)
    {
      failures := 0;
    }

    method RecordFailure(now: int)
      modifies this
      ensures forall calls, call :: call in calls ==>
                State(now, AttemptSpent(calls, call)) == Apply(settings, old(State(now, calls)), Fail(call))
      ensures failures == old(failures) + 1
      ensures openUntil == if failures >= settings.circuitFailures then now + settings.resetAfter else old(openUntil)
    {
      failures := failures + 1;
      if failures >= settings.circuitFailures {
        openUntil := now + settings.resetAfter;
      }
    }

    /** One call with no other in between. The provider would give `answers`, one a try, at
        `times`. An open circuit asks nothing; otherwise the first good answer within the
        attempts is taken and no more are asked for. */
    method EmbedTexts(now: int, answers: seq<Option<Vectors>>, times: seq<int>) returns (result: Option<Vectors>, requests: nat)
      requires |answers| == |times| == if settings.retryAttempts > 0 then settings.retryAttempts else 0
      modifies this
      ensures now < old(openUntil) ==> result.None? && requests == 0
      ensures now >= old(openUntil) ==> requests <= |answers| && forall i :: 0 <= i < requests - 1 ==> IsNothing(answers[i])
      ensures result.Some? ==> 0 < requests && result.value != [] && result == answers[requests - 1]
      ensures now >= old(openUntil) && result.None? ==> requests == |answers| && forall i :: 0 <= i < |answers| ==> IsNothing(answers[i])
      ensures failures == if result.Some? then 0 else old(failures) + requests
      ensures result.None? ==> openUntil == OpenedAt(old(openUntil), old(failures) + requests, times[..requests])
      ensures result.Some? ==> openUntil == OpenedAt(old(openUntil), old(failures) + requests - 1, times[..requests - 1])
    {
      result, requests := None, 0;
      if now < openUntil {
        return;
      }
      while requests < settings.retryAttempts
        invariant requests <= |answers|
        invariant forall i :: 0 <= i < requests ==> IsNothing(answers[i])
        invariant failures == old(failures) + requests
        invariant openUntil == OpenedAt(old(openUntil), failures, times[..requests])
      {
        var answer := answers[requests];
        if IsGood(answer) {
          RecordSuccess();
          return answer, requests + 1;
        }
        assert IsNothing(answer);
        RecordFailure(times[requests]);
        assert times[..requests + 1][..requests] == times[..requests];
        requests := requests + 1;
      }
    }

    /** The timer after failed attempts at these times, the last of which made the count. */
    function OpenedAt(before: int, count: int, failed: seq<int>): int {
      if failed == [] || count < settings.circuitFailures then before else failed[|failed| - 1] + settings.resetAfter
    }
  }
}
