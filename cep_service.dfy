/** The ViaCEP client of app/services/cep_service.rb: it strips a postal code
    (CEP) to its digits, builds the lookup URL, runs the inherited retry loop,
    and reads ViaCEP's `erro` marker. Every failure, whether not found,
    non-2xx or exhaustion, yields the same fixed fallback payload. */
module CepService {
  import opened Json
  import opened ExternalApi

  /** BASE_URL when CEP_API_URL is not set. */
  const DefaultBaseUrl: string := "https://viacep.com.br/ws"

  /** The street line of the fallback payload. */
  const UnavailableMessage: string := "Serviço temporariamente indisponível"

  /** Regexp `\d` on a Ruby string: an ASCII decimal digit. */
  predicate IsDigit(c: char) {
    '0' <= c <= '9'
  }

  /** `cep.to_s.gsub(/\D/, '')`: keep the decimal digits, drop the rest. */
  function SanitizeCep(cep: string): (r: string)
    ensures |r| <= |cep|
    ensures forall i :: 0 <= i < |r| ==> IsDigit(r[i])
  {
    if cep == [] then []
    else (if IsDigit(cep[0]) then [cep[0]] else []) + SanitizeCep(cep[1..])
  }

  /** The lookup URL `BASE_URL/<digits>/json/`: the base URL, a slash, the
      sanitized code and the `/json/` suffix. */
  function CepUrl(baseUrl: string, cep: string): (url: string)
    ensures |url| == |baseUrl| + |SanitizeCep(cep)| + 7
    ensures url[..|baseUrl|] == baseUrl && url[|baseUrl|] == '/'
    ensures url[|url| - 6..] == "/json/"
  {
    baseUrl + "/" + SanitizeCep(cep) + "/json/"
  }

  /** The digits segment of a lookup URL under `baseUrl`: the inverse of
      CepUrl (see UrlRoundTrip). */
  function PathSegment(baseUrl: string, url: string): (segment: string)
    requires |url| >= |baseUrl| + 7
  {
    url[|baseUrl| + 1 .. |url| - 6]
  }

  /** CepService#fallback_response: the fixed degraded address, with a nil
      code, the "unavailable" street line, four empty address fields and
      `fallback: true`. */
  function FallbackResponse(): (r: Body)
    ensures r.Keys == {"cep", "logradouro", "complemento", "bairro", "localidade", "uf", "fallback"}
    ensures r["cep"] == Null
    ensures r["logradouro"] == Str(UnavailableMessage)
    ensures forall k :: k in {"complemento", "bairro", "localidade", "uf"} ==> r[k] == Str("")
    ensures r["fallback"] == Bool(true)
  {
    map[
      "cep" := Null,
      "logradouro" := Str(UnavailableMessage),
      "complemento" := Str(""),
      "bairro" := Str(""),
      "localidade" := Str(""),
      "uf" := Str(""),
      "fallback" := Bool(true)
    ]
  }

  /** CepService#parse_response: a 2xx body without a truthy `erro` passes
      through unchanged in a success envelope; a truthy `erro` (not found)
      and any other status both give the fallback payload in a failure
      envelope. It never raises. */
  function ParseResponse(status: int, body: Body): (r: Result<Reply>)
    ensures r.Ok? && r.value.Envelope?
    ensures r.value.success <==> IsSuccess(status) && !Truthy(Lookup(body, "erro"))
    ensures r.value.success ==> r.value.data == body
    ensures !r.value.success ==> r.value.data == FallbackResponse()
  {
    if IsSuccess(status) then
      if Truthy(Lookup(body, "erro")) then Ok(Envelope(false, FallbackResponse()))
      else Ok(Envelope(true, body))
    else Ok(Envelope(false, FallbackResponse()))
  }

  /** The overrides CepService gives its base class: a fallback that never
      raises, and a parse hook that always yields an envelope, successful
      exactly for a 2xx body without a truthy `erro` and then carries that
      body, and otherwise carries the fallback payload. */
  function CepHooks(): (hooks: Hooks)
    ensures hooks.fallback == Ok(FallbackResponse())
    ensures forall status, body :: hooks.parse(status, body).Ok? && hooks.parse(status, body).value.Envelope?
    ensures forall status, body :: hooks.parse(status, body).value.success <==> IsSuccess(status) && !Truthy(Lookup(body, "erro"))
    ensures forall status, body :: hooks.parse(status, body).value.success ==> hooks.parse(status, body).value.data == body
    ensures forall status, body :: !hooks.parse(status, body).value.success ==> hooks.parse(status, body).value.data == FallbackResponse()
  {
    Hooks((status, body) => ParseResponse(status, body), Ok(FallbackResponse()))
  }

  /** CepService#fetch_cep: sanitize, build the URL, run the retry loop. */
  method FetchCep(maxRetries: int, baseUrl: string, cep: string, upstream: seq<Outcome>)
    returns (r: Result<Reply>, attempts: nat, sleeps: seq<nat>, log: seq<LogEntry>)
    ensures Run(r, attempts, sleeps, log) == Fetch(CepHooks(), maxRetries, CepUrl(baseUrl, cep), upstream)
  {
    var url := CepUrl(baseUrl, cep);
    var service := new ExternalApiService(CepHooks(), maxRetries);
    r, attempts, sleeps, log := service.FetchWithResilience(url, upstream);
  }

  /** Sanitizing distributes over concatenation: each character is kept or
      dropped on its own, so the digits keep their order. */
  lemma {:induction false} SanitizeConcat(a: string, b: string)
    ensures SanitizeCep(a + b) == SanitizeCep(a) + SanitizeCep(b)
  {
    if a == [] {
      assert a + b == b;
    } else {
      assert (a + b)[0] == a[0];
      assert (a + b)[1..] == a[1..] + b;
      SanitizeConcat(a[1..], b);
    }
  }

  /** A single character survives exactly when it is a digit. */
  lemma SanitizeChar(c: char)
    ensures SanitizeCep([c]) == if IsDigit(c) then [c] else []
  {
  }

  /** A string of digits is its own sanitization, and only such a string. */
  lemma {:induction false} SanitizeFixpoint(s: string)
    ensures SanitizeCep(s) == s <==> forall i :: 0 <= i < |s| ==> IsDigit(s[i])
  {
    if s != [] && forall i :: 0 <= i < |s| ==> IsDigit(s[i]) {
      assert forall i :: 0 <= i < |s[1..]| ==> IsDigit(s[1..][i]) by {
        forall i | 0 <= i < |s[1..]| ensures IsDigit(s[1..][i]) {
          assert s[1..][i] == s[i + 1];
        }
      }
      SanitizeFixpoint(s[1..]);
    }
  }

  /** Sanitizing twice is sanitizing once. */
  lemma SanitizeIdempotent(s: string)
    ensures SanitizeCep(SanitizeCep(s)) == SanitizeCep(s)
  {
    SanitizeFixpoint(SanitizeCep(s));
  }

  /** The output holds exactly the input's digits, each as often as the
      input has it, and no other character. */
  lemma {:induction false} SanitizeKeepsDigits(s: string, c: char)
    ensures multiset(SanitizeCep(s))[c] == if IsDigit(c) then multiset(s)[c] else 0
  {
    if s != [] {
      SanitizeKeepsDigits(s[1..], c);
      assert s == [s[0]] + s[1..];
      assert multiset(s) == multiset([s[0]]) + multiset(s[1..]);
    }
  }

  /** On the fixture, the hyphenated and the plain form sanitize to the
      same eight digits. */
  lemma SanitizeExamples()
    ensures SanitizeCep("01310-100") == "01310100"
    ensures SanitizeCep("01310100") == "01310100"
  {
    assert "01310-100" == "01310" + "-100";
    assert "01310100" == "01310" + "100";
    SanitizeConcat("01310", "-100");
    SanitizeConcat("01310", "100");
    assert SanitizeCep("100") == "100";
    assert SanitizeCep("01310") == "01310";
    assert SanitizeCep("-100") == "100";
  }

  /** The URL carries the sanitized code between the base URL and `/json/`,
      and it can be read back from there. */
  lemma UrlRoundTrip(baseUrl: string, cep: string)
    ensures var url := CepUrl(baseUrl, cep);
      && |url| == |baseUrl| + |SanitizeCep(cep)| + 7
      && url[..|baseUrl|] == baseUrl
      && url[|url| - 6..] == "/json/"
      && PathSegment(baseUrl, url) == SanitizeCep(cep)
  {
  }

  /** Two inputs reach the same URL exactly when they have the same digits. */
  lemma UrlDeterminedByDigits(baseUrl: string, a: string, b: string)
    ensures CepUrl(baseUrl, a) == CepUrl(baseUrl, b) <==> SanitizeCep(a) == SanitizeCep(b)
  {
    UrlRoundTrip(baseUrl, a);
    UrlRoundTrip(baseUrl, b);
  }

  /** The request URL of the fixture, as the request stub expects it, for
      any CEP with the digits 01310100, such as "01310-100" (see
      SanitizeExamples). */
  lemma UrlExample(cep: string)
    requires SanitizeCep(cep) == "01310100"
    ensures CepUrl(DefaultBaseUrl, cep) == "https://viacep.com.br/ws/01310100/json/"
  {
    assert DefaultBaseUrl + "/" == "https://viacep.com.br/ws/";
    assert "https://viacep.com.br/ws/" + "01310100" == "https://viacep.com.br/ws/01310100";
  }

  /** Over the two rescued transport errors and received responses, a CEP
      lookup never raises, always answers with an envelope,
      and every failure envelope carries the very same fallback payload;
      success means the first response within the budget was 2xx without
      `erro`, and its body is passed through. */
  lemma FetchCepOutcome(maxRetries: int, url: string, upstream: seq<Outcome>)
    ensures var run := Fetch(CepHooks(), maxRetries, url, upstream);
      var n := Budget(maxRetries);
      var k := FirstResponse(upstream, n);
      && run.result.Ok?
      && run.result.value.Envelope?
      && (!run.result.value.success ==> run.result.value.data == FallbackResponse())
      && (run.result.value.success <==>
            k < n && IsSuccess(OutcomeAt(upstream, k).status) && !Truthy(Lookup(OutcomeAt(upstream, k).body, "erro")))
      && (run.result.value.success ==> run.result.value.data == OutcomeAt(upstream, k).body)
  {
  }

  /** Scenario: a CEP with the digits 01310100, such as "01310-100" (see
      SanitizeExamples); the upstream answers 200 with a São Paulo address:
      one GET, success, the body unchanged, whatever the base URL. */
  lemma FoundScenario(baseUrl: string, cep: string, body: Body, upstream: seq<Outcome>)
    requires SanitizeCep(cep) == "01310100"
    requires Lookup(body, "localidade") == Str("São Paulo")
    requires "erro" !in body
    requires upstream == [Response(200, body)]
    ensures var run := Fetch(CepHooks(), DefaultMaxRetries, CepUrl(baseUrl, cep), upstream);
      && run.result == Ok(Envelope(true, body))
      && Lookup(run.result.value.data, "localidade") == Str("São Paulo")
      && run.attempts == 1 && run.sleeps == [] && run.log == []
  {
    RespondsAtAttempt(CepHooks(), DefaultMaxRetries, CepUrl(baseUrl, cep), upstream, 1);
  }

  /** Scenario: three timeouts with MAX_RETRIES = 3: the fallback in a
      failure envelope, sleeps of 2 s and 4 s, one log entry for attempt 3
      naming the URL of the sanitized code. */
  lemma ThreeTimeoutsScenario(baseUrl: string, cep: string, upstream: seq<Outcome>)
    requires SanitizeCep(cep) == "01310100"
    requires |upstream| == 3 && forall i :: 0 <= i < 3 ==> upstream[i] == Transport(Timeout)
    ensures var url := CepUrl(baseUrl, cep);
      var run := Fetch(CepHooks(), DefaultMaxRetries, url, upstream);
      && run.result == Ok(Envelope(false, FallbackResponse()))
      && run.attempts == 3 && run.sleeps == [2, 4]
      && run.log == [FailureLogged(3, url, Timeout)]
  {
  }

  /** Scenario: two timeouts, then a 200: the body in a success envelope
      after three GETs and the two sleeps 2 s and 4 s. */
  lemma RetryThenSuccessScenario(baseUrl: string, cep: string, body: Body, upstream: seq<Outcome>)
    requires SanitizeCep(cep) == "01310100"
    requires "erro" !in body
    requires upstream == [Transport(Timeout), Transport(Timeout), Response(200, body)]
    ensures var run := Fetch(CepHooks(), DefaultMaxRetries, CepUrl(baseUrl, cep), upstream);
      && run.result == Ok(Envelope(true, body))
      && run.attempts == 3 && run.sleeps == [2, 4] && run.log == []
  {
  }
}
