/** The address endpoint of app/controllers/api/v1/enderecos_controller.rb:
    a CEP with exactly eight digits is looked up and whatever `:data` the
    service returns is rendered with status 200; any other input gets a 400
    with a fixed message and no lookup. */
module EnderecosController {
  import opened Json
  import opened ExternalApi
  import opened CepService

  const StatusOk: int := 200
  const StatusBadRequest: int := 400

  const InvalidCepMessage: string := "CEP inválido. Formato esperado: 12345678 ou 12345-678"

  /** A rendered JSON response: an HTTP status and a body. */
  datatype Rendered = Rendered(status: int, body: Value)

  /** The 400 the action renders for a malformed CEP: an object whose only
      key, `error`, holds the fixed message. */
  function InvalidCepResponse(): (response: Rendered)
    ensures response.status == StatusBadRequest
    ensures response.body.Obj? && response.body.fields.Keys == {"error"}
    ensures response.body.fields["error"] == Str(InvalidCepMessage)
  {
    Rendered(StatusBadRequest, Obj(map["error" := Str(InvalidCepMessage)]))
  }

  /** valid_cep_format?: the input has eight digits, whatever else it holds
      (see ValidIffEightDigits). A valid CEP is at least eight characters
      long, and a string of exactly eight digits is valid. */
  predicate ValidCepFormat(cep: string): (valid: bool)
    ensures valid ==> |cep| >= 8
    ensures |cep| == 8 && (forall i :: 0 <= i < 8 ==> IsDigit(cep[i])) ==> valid
  {
    SanitizeFixpoint(cep);
    |SanitizeCep(cep)| == 8
  }

  /** The positions of the input that hold a digit. */
  function DigitPositions(s: string): (positions: set<nat>) {
    set i: nat | i < |s| && IsDigit(s[i])
  }

  /** `result[:data]`: the data of an envelope; on a bare payload hash, its
      own `:data` key, nil when it has none. */
  function DataOf(reply: Reply): (data: Value)
    ensures reply.Envelope? ==> data == Obj(reply.data)
    ensures reply.Bare? ==> data == Lookup(reply.payload, "data")
    ensures reply.Bare? && "data" !in reply.payload ==> data == Null
  {
    match reply
    case Envelope(_, data) => Obj(data)
    case Bare(payload) => Lookup(payload, "data")
  }

  /** EnderecosController#show given what the service call would return:
      status 400 exactly for a malformed CEP, status 200 with `result[:data]`
      otherwise. An exception from the service is not rescued and propagates,
      and only for a valid CEP, since an invalid one never calls it. */
  function Show(cep: string, result: Result<Reply>): (r: Result<Rendered>)
    ensures r.Raised? <==> ValidCepFormat(cep) && result.Raised?
    ensures r.Raised? ==> r.error == result.error
    ensures r.Ok? ==> r.value.status in {StatusOk, StatusBadRequest}
    ensures r.Ok? ==> (r.value.status == StatusBadRequest <==> !ValidCepFormat(cep))
    ensures r.Ok? && r.value.status == StatusOk ==> result.Ok? && r.value.body == DataOf(result.value)
  {
    if !ValidCepFormat(cep) then Ok(InvalidCepResponse())
    else match result
      case Ok(reply) => Ok(Rendered(StatusOk, DataOf(reply)))
      case Raised(e) => Raised(e)
  }

  /** The whole action: validate, and only for a valid CEP run fetch_cep
      against the upstream script. */
  method HandleShow(maxRetries: int, baseUrl: string, cep: string, upstream: seq<Outcome>)
    returns (rendered: Result<Rendered>, attempts: nat)
    ensures !ValidCepFormat(cep) ==> attempts == 0 && rendered == Ok(InvalidCepResponse())
    ensures ValidCepFormat(cep) ==>
      var run := Fetch(CepHooks(), maxRetries, CepUrl(baseUrl, cep), upstream);
      attempts == run.attempts && rendered == Show(cep, run.result)
  {
    if !ValidCepFormat(cep) {
      return Ok(InvalidCepResponse()), 0;
    }
    var r, a, _, _ := FetchCep(maxRetries, baseUrl, cep, upstream);
    rendered, attempts := Show(cep, r), a;
  }

  /** The length of the sanitized input counts the input's digit positions. */
  lemma {:induction false} SanitizedLengthCountsDigits(s: string)
    ensures |SanitizeCep(s)| == |DigitPositions(s)|
  {
    if s != [] {
      var init, c := s[..|s| - 1], s[|s| - 1];
      assert s == init + [c];
      SanitizedLengthCountsDigits(init);
      SanitizeConcat(init, [c]);
      SanitizeChar(c);
      var tail := if IsDigit(c) then {|init|} else {};
      assert DigitPositions(s) == DigitPositions(init) + tail;
      assert |init| !in DigitPositions(init);
    }
  }

  /** A CEP is valid exactly when eight of its positions hold digits. */
  lemma ValidIffEightDigits(cep: string)
    ensures ValidCepFormat(cep) <==> |DigitPositions(cep)| == 8
  {
    SanitizedLengthCountsDigits(cep);
  }

  /** Non-digit characters, whatever they are and wherever they stand, do not
      change whether a CEP is valid. */
  lemma ValidIgnoresNonDigit(a: string, c: char, b: string)
    requires !IsDigit(c)
    ensures ValidCepFormat(a + [c] + b) == ValidCepFormat(a + b)
  {
    SanitizeConcat(a + [c], b);
    SanitizeConcat(a, [c]);
    SanitizeConcat(a, b);
    SanitizeChar(c);
  }

  /** "01310-100" and "01310100" are both valid and look up the same code. */
  lemma HyphenatedFormsAgree()
    ensures ValidCepFormat("01310-100") && ValidCepFormat("01310100")
    ensures SanitizeCep("01310-100") == SanitizeCep("01310100")
  {
    SanitizeExamples();
  }

  /** For a valid CEP the URL's path segment is exactly eight digits. */
  lemma ValidCepUrlSegment(baseUrl: string, cep: string)
    requires ValidCepFormat(cep)
    ensures var segment := PathSegment(baseUrl, CepUrl(baseUrl, cep));
      |segment| == 8 && forall i :: 0 <= i < 8 ==> IsDigit(segment[i])
  {
  }

  /** An invalid CEP gets the 400 whatever the service would have said. */
  lemma InvalidCepIgnoresService(cep: string, r1: Result<Reply>, r2: Result<Reply>)
    requires !ValidCepFormat(cep)
    ensures Show(cep, r1) == Show(cep, r2) == Ok(InvalidCepResponse())
  {
  }

  /** A valid CEP always gets a 200 carrying `result[:data]`, success or not. */
  lemma ValidCepRendersData(cep: string, reply: Reply)
    requires ValidCepFormat(cep)
    ensures Show(cep, Ok(reply)) == Ok(Rendered(StatusOk, DataOf(reply)))
    ensures reply.Envelope? ==> Show(cep, Ok(reply)) == Ok(Rendered(StatusOk, Obj(reply.data)))
  {
  }

  /** End to end, for a valid CEP: status 200 and an address object, which
      is the first 2xx body without a truthy `erro` when there is one within
      the budget, and the fallback payload otherwise. */
  lemma ValidCepAlwaysRendersAddress(maxRetries: int, baseUrl: string, cep: string, upstream: seq<Outcome>)
    requires ValidCepFormat(cep)
    ensures var run := Fetch(CepHooks(), maxRetries, CepUrl(baseUrl, cep), upstream);
      var n := Budget(maxRetries);
      var k := FirstResponse(upstream, n);
      var found := k < n && IsSuccess(OutcomeAt(upstream, k).status) && !Truthy(Lookup(OutcomeAt(upstream, k).body, "erro"));
      Show(cep, run.result) ==
        Ok(Rendered(StatusOk, Obj(if found then OutcomeAt(upstream, k).body else FallbackResponse())))
  {
  }

  /** As written, exhaustion hands the controller the bare fallback hash,
      which has no `:data` key: a valid CEP whose every GET fails in
      transport renders status 200 with a JSON null body, not the fallback
      payload. */
  lemma ExhaustionAsWrittenRendersNull(maxRetries: int, baseUrl: string, cep: string, upstream: seq<Outcome>)
    requires ValidCepFormat(cep)
    requires forall i :: 0 <= i < Budget(maxRetries) ==> OutcomeAt(upstream, i).Transport?
    ensures var run := FetchAsWritten(CepHooks(), maxRetries, CepUrl(baseUrl, cep), upstream);
      && run.result == Ok(Bare(FallbackResponse()))
      && Show(cep, run.result) == Ok(Rendered(StatusOk, Null))
  {
    FailureLoggedOnlyOnExhaustion(CepHooks(), maxRetries, CepUrl(baseUrl, cep), upstream);
  }

  /** The scenario as written: a CEP with the digits 01310100, such as
      "01310-100" (see SanitizeExamples), with the upstream timing out three
      times and MAX_RETRIES = 3 makes three GETs, sleeps 2 s and 4 s, logs
      the timeout once, and renders status 200 with a JSON null body,
      whatever the base URL. */
  lemma ThreeTimeoutsRenderNullAsWritten(baseUrl: string, cep: string, upstream: seq<Outcome>)
    requires SanitizeCep(cep) == "01310100"
    requires |upstream| == 3 && forall i :: 0 <= i < 3 ==> upstream[i] == Transport(Timeout)
    ensures var url := CepUrl(baseUrl, cep);
      var run := FetchAsWritten(CepHooks(), DefaultMaxRetries, url, upstream);
      && run.attempts == 3 && run.sleeps == [2, 4] && run.log == [FailureLogged(3, url, Timeout)]
      && Show(cep, run.result) == Ok(Rendered(StatusOk, Null))
  {
    ExhaustionAsWrittenRendersNull(DefaultMaxRetries, baseUrl, cep, upstream);
    DefaultExhaustionSleeps(CepHooks(), CepUrl(baseUrl, cep), upstream);
  }

  /** With the envelope the rescue branch evidently intends, the same
      scenario (and every exhaustion of a valid CEP) renders the fallback
      payload, `fallback: true` included. */
  lemma ExhaustionRendersFallback(maxRetries: int, baseUrl: string, cep: string, upstream: seq<Outcome>)
    requires ValidCepFormat(cep)
    requires forall i :: 0 <= i < Budget(maxRetries) ==> OutcomeAt(upstream, i).Transport?
    ensures var run := Fetch(CepHooks(), maxRetries, CepUrl(baseUrl, cep), upstream);
      && Show(cep, run.result) == Ok(Rendered(StatusOk, Obj(FallbackResponse())))
      && Lookup(FallbackResponse(), "fallback") == Bool(true)
  {
  }
}
