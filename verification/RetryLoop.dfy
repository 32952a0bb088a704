/**
  `_generate_content_with_retry` and `_is_retryable`: exponential backoff against a deadline.
  Time is exact; the clock moves during attempts and sleeps only.
 */
module RetryLoop {
  import opened Wrappers

  // ---- Exceptions ----------------------------------------------------------

  /** A `code` or `status_code` attribute: absent, an integer, or anything else. */
  datatype Code = NoCode | Number(n: int) | Foreign(truthy: bool)

  /** A `__cause__` or `__context__`: unset, the exception that carries it, or another one. */
  datatype Link = Unset | Itself | To(exc: Exc)

  /** An exception and the finite chain it wraps. */
  datatype Exc = Exc(code: Code, statusCode: Code, name: string, cause: Link, context: Link)

  const RETRYABLE_STATUS: set<int> := {429, 500, 502, 503, 504}

  const RETRYABLE_EXC_NAMES: set<string> := {
    "ServerError", "ConnectError", "ConnectTimeout", "ReadError", "ReadTimeout", "WriteError",
    "WriteTimeout", "PoolTimeout", "RemoteProtocolError", "TransportError", "ConnectionError"
  }

  predicate Truthy(c: Code) {
    match c
    case NoCode => false
    case Number(n) => n != 0
    case Foreign(truthy) => truthy
  }

  /** Transient by itself, whatever it wraps. */
  predicate Transient(e: Exc) {
    var code := if Truthy(e.code) then e.code else e.statusCode;
    (code.Number? && code.n in RETRYABLE_STATUS) || e.name in RETRYABLE_EXC_NAMES
  }

  /** Where the search goes on: a cause that is set hides the context, also when it leads nowhere. */
  function Wrapped(e: Exc): Link { if e.cause.Unset? then e.context else e.cause }

  predicate IsRetryable(e: Exc)
    decreases e
  {
    Transient(e) || (Wrapped(e).To? && IsRetryable(Wrapped(e).exc))
  }

  /** The exception, what it wraps, what that wraps, and so on. */
  function Chain(e: Exc): (c: seq<Exc>)
    ensures c != [] && c[0] == e
    decreases e
  {
    [e] + if Wrapped(e).To? then Chain(Wrapped(e).exc) else []
  }

  predicate AnyTransient(c: seq<Exc>) { exists k :: 0 <= k < |c| && Transient(c[k]) }

  lemma AnyOf(e: Exc, rest: seq<Exc>)
    ensures AnyTransient([e] + rest) <==> Transient(e) || AnyTransient(rest)
  {
    var c := [e] + rest;
    if Transient(e) { assert Transient(c[0]); }
    if k :| 0 <= k < |rest| && Transient(rest[k]) { assert Transient(c[k + 1]); }
    if k :| 0 < k < |c| && Transient(c[k]) { assert Transient(rest[k - 1]); }
  }

  /** Retryable means some link of the chain is transient. */
  lemma {:induction false} RetryableIffTransientLink(e: Exc)
    ensures IsRetryable(e) <==> AnyTransient(Chain(e))
    decreases e
  {
    var rest := if Wrapped(e).To? then Chain(Wrapped(e).exc) else [];
    AnyOf(e, rest);
    if Wrapped(e).To? { RetryableIffTransientLink(Wrapped(e).exc); }
    assert Chain(e) == [e] + rest;
  }

  /** A cause that is set hides the context; the exception itself as its cause ends the search. */
  lemma CauseHidesContext(e: Exc, other: Link)
    ensures !e.cause.Unset? ==> (IsRetryable(e.(context := other)) <==> IsRetryable(e))
    ensures e.cause.To? ==> (IsRetryable(e) <==> Transient(e) || IsRetryable(e.cause.exc))
    ensures e.cause.Unset? && e.context.To? ==> (IsRetryable(e) <==> Transient(e) || IsRetryable(e.context.exc))
    ensures !e.cause.To? && (e.cause.Itself? || !e.context.To?) ==> (IsRetryable(e) <==> Transient(e))
  {
    assert Transient(e.(context := other)) <==> Transient(e);
  }

  /** Overload and server failures, as a `code`, or as a `status_code` where the code is missing, zero or false. */
  lemma TransientByStatus(e: Exc, n: int)
    requires e.name == "APIError"
    ensures e.code == Number(n) && n != 0 ==> (Transient(e) <==> n == 429 || n == 500 || 502 <= n <= 504)
    ensures (e.code.NoCode? || e.code == Number(0) || e.code == Foreign(false)) && e.statusCode == Number(n) ==>
              (Transient(e) <==> n == 429 || n == 500 || 502 <= n <= 504)
    ensures e.code == Foreign(true) ==> !Transient(e)
    ensures !e.code.Number? && !e.statusCode.Number? ==> !Transient(e)
  {}

  /** Connection trouble by name, whatever its code: failed or timed out connects, reads and writes, and five more. */
  lemma TransientByName(e: Exc)
    ensures e.name in RETRYABLE_EXC_NAMES ==> Transient(e)
    ensures e.name in RETRYABLE_EXC_NAMES <==>
      || (exists what, how ::
            what in ["Connect", "Read", "Write"] && how in ["Error", "Timeout"] && e.name == what + how)
      || e.name in ["ServerError", "PoolTimeout", "RemoteProtocolError", "TransportError", "ConnectionError"]
  {
    assert "Connect" + "Error" == "ConnectError" && "Connect" + "Timeout" == "ConnectTimeout";
    assert "Read" + "Error" == "ReadError" && "Read" + "Timeout" == "ReadTimeout";
    assert "Write" + "Error" == "WriteError" && "Write" + "Timeout" == "WriteTimeout";
  }

  // ---- The loop ------------------------------------------------------------

  datatype Policy = Policy(
    maxAttempts: int, baseDelay: real, requestTimeout: real, minAttempt: real, deadlineMargin: real)

  type Fraction = x: real | 0.0 <= x <= 1.0

  type Duration = x: real | 0.0 <= x witness 0.0

  /** What the outside does with one attempt: how long it takes, how it ends, and the jitter drawn after it. */
  datatype Try<+A> = Try(took: Duration, result: Result<A, Exc>, jitter: Fraction)

  datatype Call<+A> = Call(at: real, timeout: real, until: real, result: Result<A, Exc>)

  datatype Sleep = Sleep(at: real, delay: real)

  datatype Outcome<+A> =
    | Value(value: A)
    | Raised(error: Exc)
    | GenerationFailed       // AIGenerationFailedError: no attempt was made
    | NegativeSleep          // time.sleep() refuses a negative delay
    | FellOff                // the loop ended without returning or raising

  /** The variables of the loop: the attempt that comes next, the clock, the error kept, the trace. */
  datatype State<+A> = State(attempt: nat, now: real, lastExc: Option<Exc>, calls: seq<Call<A>>, sleeps: seq<Sleep>)

  /** A whole call of the function: how it ended and when, and what it did on the way. */
  datatype Run<+A> = Run(outcome: Outcome<A>, ends: real, calls: seq<Call<A>>, sleeps: seq<Sleep>)

  datatype Progress<+A> = Ended(run: Run<A>) | Goes(state: State<A>)

  function Attempts(p: Policy): (n: nat)
    ensures n >= 1 && n >= p.maxAttempts && (n == 1 || n == p.maxAttempts)
  {
    if p.maxAttempts > 1 then p.maxAttempts else 1
  }

  function Pow2(n: nat): (r: real)
    ensures r >= 1.0
  {
    if n == 0 then 1.0 else 2.0 * Pow2(n - 1)
  }

  /** `random.uniform(0, span)`, where f says how far along the draw falls; the span may be negative. */
  function Uniform(span: real, f: Fraction): real { f * span }

  function Jittered(delay: real, jitter: Fraction): real { delay + Uniform(delay * 0.25, jitter) }

  /** A delay and up to a quarter more. */
  lemma JitterSpan(delay: real, jitter: Fraction)
    ensures delay >= 0.0 ==> delay <= Jittered(delay, jitter) <= 1.25 * delay
    ensures delay <= 0.0 ==> 1.25 * delay <= Jittered(delay, jitter) <= delay
  {}

  function Backoff(p: Policy, attempt: nat, jitter: Fraction): real
    requires attempt >= 1
  {
    Jittered(p.baseDelay * Pow2(attempt - 1), jitter)
  }

  function Min(a: real, b: real): real { if b < a then b else a }

  /** The timeout of an attempt starting now; None when there is no time left for one. */
  function AttemptTimeout(p: Policy, deadline: Option<real>, now: real): Option<real> {
    if deadline.None? then Some(p.requestTimeout)
    else
      var remaining := deadline.value - now - p.deadlineMargin;
      if remaining < p.minAttempt then None else Some(Min(p.requestTimeout, remaining))
  }

  predicate SleepsPastDeadline(p: Policy, deadline: Option<real>, now: real, delay: real) {
    deadline.Some? && delay >= deadline.value - now - p.minAttempt
  }

  function Stopped<A>(s: State<A>, outcome: Outcome<A>): Run<A> { Run(outcome, s.now, s.calls, s.sleeps) }

  function Called<A>(s: State<A>, timeout: real, t: Try<A>): State<A> {
    s.(now := s.now + t.took, calls := s.calls + [Call(s.now, timeout, s.now + t.took, t.result)])
  }

  function Slept<A>(s: State<A>, e: Exc, delay: real): State<A> {
    State(s.attempt + 1, s.now + delay, Some(e), s.calls, s.sleeps + [Sleep(s.now, delay)])
  }

  /** What follows a failed attempt. */
  function AfterFailure<A>(p: Policy, deadline: Option<real>, s: State<A>, e: Exc, jitter: Fraction): Progress<A>
    requires s.attempt >= 1
  {
    var delay := Backoff(p, s.attempt, jitter);
    if s.attempt >= Attempts(p) || !IsRetryable(e) || SleepsPastDeadline(p, deadline, s.now, delay) then
      Ended(Stopped(s, Raised(e)))
    else if delay < 0.0 then Ended(Stopped(s, NegativeSleep))
    else Goes(Slept(s, e, delay))
  }

  /** One iteration. */
  function Iteration<A>(p: Policy, deadline: Option<real>, world: nat -> Try<A>, s: State<A>): Progress<A>
    requires s.attempt >= 1
  {
    var timeout := AttemptTimeout(p, deadline, s.now);
    if timeout.None? then Ended(Stopped(s, if s.lastExc.Some? then Raised(s.lastExc.value) else GenerationFailed))
    else
      var t := world(s.attempt);
      var called := Called(s, timeout.value, t);
      match t.result
      case Ok(value) => Ended(Stopped(called, Value(value)))
      case Err(e) => AfterFailure(p, deadline, called, e, t.jitter)
  }

  /** The run from a state of the loop on. */
  function From<A>(p: Policy, deadline: Option<real>, world: nat -> Try<A>, s: State<A>): Run<A>
    requires s.attempt >= 1
    decreases Attempts(p) + 1 - s.attempt
  {
    if s.attempt > Attempts(p) then Stopped(s, FellOff)
    else
      match Iteration(p, deadline, world, s)
      case Ended(run) => run
      case Goes(t) => From(p, deadline, world, t)
  }

  function Whole<A>(p: Policy, deadline: Option<real>, world: nat -> Try<A>, start: real): Run<A> {
    From(p, deadline, world, State(1, start, None, [], []))
  }

  /** One attempt of the loop, and what comes of it. */
  method Attempt<A>(p: Policy, deadline: Option<real>, world: nat -> Try<A>, s: State<A>) returns (next: Progress<A>)
    requires s.attempt >= 1
    ensures next == Iteration(p, deadline, world, s)
  {
    var attemptTimeout := p.requestTimeout;
    if deadline.Some? {
      var remaining := deadline.value - s.now - p.deadlineMargin;
      if remaining < p.minAttempt {
        return Ended(Stopped(s, if s.lastExc.Some? then Raised(s.lastExc.value) else GenerationFailed));
      }
      attemptTimeout := Min(p.requestTimeout, remaining);
    }
    var t := world(s.attempt);
    var ends := s.now + t.took;
    var called := s.(now := ends, calls := s.calls + [Call(s.now, attemptTimeout, ends, t.result)]);
    if t.result.Ok? { return Ended(Stopped(called, Value(t.result.value))); }
    var exc := t.result.error;
    if s.attempt >= Attempts(p) || !IsRetryable(exc) { return Ended(Stopped(called, Raised(exc))); }
    var delay := Backoff(p, s.attempt, t.jitter);
    if deadline.Some? && delay >= deadline.value - ends - p.minAttempt {
      return Ended(Stopped(called, Raised(exc)));
    }
    if delay < 0.0 { return Ended(Stopped(called, NegativeSleep)); }
    return Goes(State(s.attempt + 1, ends + delay, Some(exc), called.calls, s.sleeps + [Sleep(ends, delay)]));
  }

  /** The loop itself, from the clock and the error it remembers to the end. */
  method GenerateContentWithRetry<A>(p: Policy, deadline: Option<real>, world: nat -> Try<A>, start: real)
    returns (run: Run<A>)
    ensures run == Whole(p, deadline, world, start)
  {
    var s: State<A> := State(1, start, None, [], []);
    while s.attempt <= Attempts(p)
      invariant 1 <= s.attempt
      invariant Whole(p, deadline, world, start) == From(p, deadline, world, s)
      decreases Attempts(p) + 1 - s.attempt
    {
      var next := Attempt(p, deadline, world, s);
      match next {
        case Ended(ended) => return ended;
        case Goes(t) => s := t;
      }
    }
    return Stopped(s, FellOff);
  }
}
