/** The resilient HTTP GET of app/services/external_api_service.rb: a retry
    loop over transport failures with exponential backoff, a bounded attempt
    budget, and a fallback payload once the budget is spent.

    The network is an explicit script of outcomes, one per GET; sleeping and
    logging are recorded in traces instead of being performed. The two
    template-method hooks a subclass overrides (parse_response and
    fallback_response) are a `Hooks` value the service is built with. */
module ExternalApi {
  import opened Json

  /** The two Faraday errors the loop rescues. */
  datatype TransportError = Timeout | ConnectionFailed

  /** What one GET yields: a transport failure, or any HTTP response. */
  datatype Outcome =
    | Transport(error: TransportError)
    | Response(status: int, body: Body)

  /** The only exception the core raises itself. */
  datatype Exception = NotImplementedError

  /** A Ruby call either returns a value or raises. */
  datatype Result<+T> = Ok(value: T) | Raised(error: Exception)

  /** The hash fetch_with_resilience hands back: the `{success:, data:}`
      envelope parse_response builds, or a bare payload hash. */
  datatype Reply =
    | Envelope(success: bool, data: Body)
    | Bare(payload: Body)

  /** The overridable behaviour: how a received response is interpreted and
      what the degraded payload is (or that asking for it raises). */
  datatype Hooks = Hooks(parse: (int, Body) -> Result<Reply>, fallback: Result<Body>)

  /** One entry of the failure log: the attempt count, the URL and the class
      of the last error. */
  datatype LogEntry = FailureLogged(attempts: nat, url: string, error: TransportError)

  /** Everything one call produces: its value, how many GETs it made, the
      seconds it slept between them, and what it logged. */
  datatype Run = Run(result: Result<Reply>, attempts: nat, sleeps: seq<nat>, log: seq<LogEntry>)

  /** MAX_RETRIES when EXTERNAL_API_MAX_RETRIES is not set. */
  const DefaultMaxRetries: int := 3

  /** The number of GETs the loop may make: the first one is unconditional,
      so a MAX_RETRIES below 1 still allows exactly one. */
  function Budget(maxRetries: int): (n: nat)
    ensures n >= 1 && n >= maxRetries
    ensures maxRetries >= 1 ==> n == maxRetries
    ensures maxRetries < 1 ==> n == 1
  {
    if maxRetries < 1 then 1 else maxRetries
  }

  /** Faraday's `success?`: a 2xx status, that is one whose hundreds digit
      is 2. */
  predicate IsSuccess(status: int): (ok: bool)
    ensures ok <==> status >= 0 && status / 100 == 2
  {
    200 <= status <= 299
  }

  /** `2 ** k`, the power the backoff of app/services/external_api_service.rb:34 takes. */
  function Pow2(k: nat): (p: nat)
    ensures p >= 1
  {
    if k == 0 then 1 else 2 * Pow2(k - 1)
  }

  /** Seconds slept after failed attempt number `attempt`. */
  function BackoffTime(attempt: nat): (seconds: nat)
    ensures attempt >= 1 ==> seconds >= 2 && seconds % 2 == 0
  {
    Pow2(attempt)
  }

  /** The sleeps after the first `n` failed attempts, in order. */
  function Schedule(n: nat): (s: seq<nat>)
    ensures |s| == n
    ensures forall i :: 0 <= i < n ==> s[i] == BackoffTime(i + 1)
  {
    if n == 0 then [] else Schedule(n - 1) + [BackoffTime(n)]
  }

  /** The outcome of GET number i + 1; a script that has run out keeps
      refusing connections. */
  function OutcomeAt(upstream: seq<Outcome>, i: nat): (o: Outcome) {
    if i < |upstream| then upstream[i] else Transport(ConnectionFailed)
  }

  /** The index of the first response among the first n outcomes, or n when
      all of them are transport failures. */
  function FirstResponse(upstream: seq<Outcome>, n: nat): (k: nat)
    ensures k <= n
    ensures forall i :: 0 <= i < k ==> OutcomeAt(upstream, i).Transport?
    ensures k < n ==> OutcomeAt(upstream, k).Response?
  {
    if n == 0 then 0
    else
      var k := FirstResponse(upstream, n - 1);
      if k < n - 1 then k
      else if OutcomeAt(upstream, n - 1).Response? then n - 1
      else n
  }

  /** The value of the rescue branch once the budget is spent. This is the
      corrected form: the fallback payload in a failure envelope, as the
      controller expects (see ExhaustedReplyAsWritten). Asking a service
      without a fallback raises. */
  function ExhaustedReply(hooks: Hooks): (r: Result<Reply>)
    ensures r.Ok? <==> hooks.fallback.Ok?
    ensures r.Ok? ==> r.value.Envelope? && !r.value.success && r.value.data == hooks.fallback.value
    ensures r.Raised? ==> r.error == hooks.fallback.error
  {
    match hooks.fallback
    case Ok(payload) => Ok(Envelope(false, payload))
    case Raised(e) => Raised(e)
  }

  /** The rescue branch as the source writes it: the bare fallback hash,
      with no envelope around it. */
  function ExhaustedReplyAsWritten(hooks: Hooks): (r: Result<Reply>)
    ensures r.Ok? <==> hooks.fallback.Ok?
    ensures r.Ok? ==> r.value.Bare? && r.value.payload == hooks.fallback.value
    ensures r.Raised? ==> r.error == hooks.fallback.error
  {
    match hooks.fallback
    case Ok(payload) => Ok(Bare(payload))
    case Raised(e) => Raised(e)
  }

  /** Reference definition of one fetch_with_resilience call: stop at the
      first response within the budget and hand it to the parse hook, or log
      once and fall back when the whole budget went to transport failures. */
  function Fetch(hooks: Hooks, maxRetries: int, url: string, upstream: seq<Outcome>): (run: Run)
    ensures 1 <= run.attempts <= Budget(maxRetries)
    ensures run.sleeps == Schedule(run.attempts - 1)
    ensures forall i :: 0 <= i < run.attempts - 1 ==> OutcomeAt(upstream, i).Transport?
    ensures run.attempts < Budget(maxRetries) ==> OutcomeAt(upstream, run.attempts - 1).Response?
    ensures |run.log| <= 1
  {
    var n := Budget(maxRetries);
    var k := FirstResponse(upstream, n);
    if k < n then
      var answer := OutcomeAt(upstream, k);
      Run(hooks.parse(answer.status, answer.body), k + 1, Schedule(k), [])
    else
      Run(ExhaustedReply(hooks), n, Schedule(n - 1), [FailureLogged(n, url, OutcomeAt(upstream, n - 1).error)])
  }

  /** fetch_with_resilience exactly as the source writes it: the same loop
      as Fetch, except that an exhausted budget yields the bare fallback hash
      of ExhaustedReplyAsWritten. It agrees with Fetch on every attempt,
      sleep and log entry, and on the value whenever a response arrived. */
  function FetchAsWritten(hooks: Hooks, maxRetries: int, url: string, upstream: seq<Outcome>): (run: Run)
    ensures var fixed := Fetch(hooks, maxRetries, url, upstream);
      && run.attempts == fixed.attempts && run.sleeps == fixed.sleeps && run.log == fixed.log
      && (fixed.log == [] ==> run.result == fixed.result)
      && (fixed.log != [] ==> run.result == ExhaustedReplyAsWritten(hooks))
  {
    var n := Budget(maxRetries);
    var k := FirstResponse(upstream, n);
    if k < n then
      var answer := OutcomeAt(upstream, k);
      Run(hooks.parse(answer.status, answer.body), k + 1, Schedule(k), [])
    else
      Run(ExhaustedReplyAsWritten(hooks), n, Schedule(n - 1), [FailureLogged(n, url, OutcomeAt(upstream, n - 1).error)])
  }

  /** The base class's parse_response: a 2xx response yields its body in a
      success envelope, anything else the fallback in a failure envelope. */
  function BaseParseResponse(fallback: Result<Body>, status: int, body: Body): (r: Result<Reply>)
    ensures IsSuccess(status) ==> r == Ok(Envelope(true, body))
    ensures !IsSuccess(status) && fallback.Ok? ==> r == Ok(Envelope(false, fallback.value))
    ensures !IsSuccess(status) && fallback.Raised? ==> r == Raised(fallback.error)
  {
    if IsSuccess(status) then Ok(Envelope(true, body))
    else match fallback
      case Ok(payload) => Ok(Envelope(false, payload))
      case Raised(e) => Raised(e)
  }

  /** The base class's fallback_response: always raises. */
  function BaseFallbackResponse(): (r: Result<Body>)
    ensures r == Raised(NotImplementedError)
  {
    Raised(NotImplementedError)
  }

  /** The hooks of a bare ExternalApiService, which overrides nothing: asking
      for the fallback raises, and parsing raises unless the status is 2xx. */
  function BaseHooks(): (hooks: Hooks)
    ensures hooks.fallback == Raised(NotImplementedError)
    ensures forall status, body :: hooks.parse(status, body).Ok? <==> IsSuccess(status)
    ensures forall status, body :: IsSuccess(status) ==> hooks.parse(status, body) == Ok(Envelope(true, body))
    ensures forall status, body :: !IsSuccess(status) ==> hooks.parse(status, body) == Raised(NotImplementedError)
  {
    Hooks((status, body) => BaseParseResponse(BaseFallbackResponse(), status, body), BaseFallbackResponse())
  }

  /** An ExternalApiService (or subclass) instance. The Faraday connection is
      not a field: the outcomes it would yield are passed to each call. */
  class ExternalApiService {
    const hooks: Hooks
    const maxRetries: int

    constructor (hooks: Hooks, maxRetries: int)
      ensures this.hooks == hooks && this.maxRetries == maxRetries
    {
      this.hooks := hooks;
      this.maxRetries := maxRetries;
    }

    /** The begin/rescue/retry loop: count the attempt, GET, hand any
        response to the parse hook; on a transport failure sleep and retry
        while attempts remain, else log once and fall back. */
    method FetchWithResilience(url: string, upstream: seq<Outcome>)
      returns (r: Result<Reply>, attempts: nat, sleeps: seq<nat>, log: seq<LogEntry>)
      ensures Run(r, attempts, sleeps, log) == Fetch(hooks, maxRetries, url, upstream)
    {
      var attempt: nat := 0;
      sleeps, log := [], [];
      while true
        invariant 0 <= attempt < Budget(maxRetries)
        invariant sleeps == Schedule(attempt)
        invariant forall i :: 0 <= i < attempt ==> OutcomeAt(upstream, i).Transport?
        decreases Budget(maxRetries) - attempt
      {
        attempt := attempt + 1;
        var outcome := OutcomeAt(upstream, attempt - 1);
        if outcome.Response? {
          r := hooks.parse(outcome.status, outcome.body);
          attempts := attempt;
          return;
        }
        if attempt < maxRetries {
          sleeps := sleeps + [BackoffTime(attempt)];
        } else {
          log := [FailureLogged(attempt, url, outcome.error)];
          r := ExhaustedReply(hooks);
          attempts := attempt;
          return;
        }
      }
    }
  }

  /** The exhaustion path: when every GET the budget allows fails in
      transport, the call makes the whole budget of attempts, sleeps one
      fewer times, logs once with the final count and the URL, and returns
      the fallback rather than raising (unless the fallback itself raises). */
  lemma AllTransportFailuresExhaust(hooks: Hooks, maxRetries: int, url: string, upstream: seq<Outcome>)
    requires forall i :: 0 <= i < Budget(maxRetries) ==> OutcomeAt(upstream, i).Transport?
    ensures var run := Fetch(hooks, maxRetries, url, upstream);
      && run.attempts == Budget(maxRetries)
      && |run.sleeps| == Budget(maxRetries) - 1
      && run.result == ExhaustedReply(hooks)
      && run.log == [FailureLogged(Budget(maxRetries), url, OutcomeAt(upstream, Budget(maxRetries) - 1).error)]
  {
  }

  /** With the default MAX_RETRIES of 3, exhaustion sleeps 2 s then 4 s. */
  lemma DefaultExhaustionSleeps(hooks: Hooks, url: string, upstream: seq<Outcome>)
    requires forall i :: 0 <= i < 3 ==> OutcomeAt(upstream, i).Transport?
    ensures Fetch(hooks, DefaultMaxRetries, url, upstream).sleeps == [2, 4]
  {
  }

  /** Transport failures on attempts 1..k-1 and a response on attempt
      k within the budget give exactly k attempts, k-1 sleeps, no log, and
      the parse hook's interpretation of that response. */
  lemma RespondsAtAttempt(hooks: Hooks, maxRetries: int, url: string, upstream: seq<Outcome>, k: nat)
    requires 1 <= k <= Budget(maxRetries)
    requires forall i :: 0 <= i < k - 1 ==> OutcomeAt(upstream, i).Transport?
    requires OutcomeAt(upstream, k - 1).Response?
    ensures var answer := OutcomeAt(upstream, k - 1);
      Fetch(hooks, maxRetries, url, upstream) == Run(hooks.parse(answer.status, answer.body), k, Schedule(k - 1), [])
  {
  }

  /** A received response is never retried, whatever its status: no GET
      after the first response happens. */
  lemma ResponseEndsLoop(hooks: Hooks, maxRetries: int, url: string, upstream: seq<Outcome>, i: nat)
    requires i < Fetch(hooks, maxRetries, url, upstream).attempts
    requires OutcomeAt(upstream, i).Response?
    ensures Fetch(hooks, maxRetries, url, upstream).attempts == i + 1
    ensures Fetch(hooks, maxRetries, url, upstream).log == []
  {
  }

  /** The failure log is written exactly when the budget is exhausted, and
      then holds one entry with the final attempt count and the URL. */
  lemma FailureLoggedOnlyOnExhaustion(hooks: Hooks, maxRetries: int, url: string, upstream: seq<Outcome>)
    ensures var run := Fetch(hooks, maxRetries, url, upstream);
      && (run.log != [] <==> forall i :: 0 <= i < Budget(maxRetries) ==> OutcomeAt(upstream, i).Transport?)
      && (run.log != [] ==> |run.log| == 1 && run.log[0].attempts == run.attempts && run.log[0].url == url)
  {
  }

  /** The sleep before attempt k+1 is 2^k seconds, so each delay
      doubles the previous one, starting at 2. */
  lemma BackoffDoubles(n: nat)
    requires n >= 1
    ensures Schedule(n)[0] == 2
    ensures forall i :: 0 <= i < n - 1 ==> Schedule(n)[i + 1] == 2 * Schedule(n)[i]
  {
  }

  /** A bare ExternalApiService returns a success envelope only for a 2xx
      first response; a non-2xx response and exhaustion both reach the base
      fallback_response, whose NotImplementedError nothing rescues. */
  lemma BaseServiceRaisesUnlessSuccess(maxRetries: int, url: string, upstream: seq<Outcome>)
    ensures var n := Budget(maxRetries);
      var k := FirstResponse(upstream, n);
      Fetch(BaseHooks(), maxRetries, url, upstream).result ==
        if k < n && IsSuccess(OutcomeAt(upstream, k).status)
        then Ok(Envelope(true, OutcomeAt(upstream, k).body))
        else Raised(NotImplementedError)
  {
  }
}
