# Resilient CEP lookup, order totals and validators — a Dafny model

This project models the non-trivial logic of a small Rails order API:

- **ExternalApiService** (`external_api.dfy`, module `ExternalApi`). This is the resilient HTTP GET. Each transport failure (timeout, refused connection) is retried after a sleep of 2^attempt seconds, up to `MAX_RETRIES` attempts. Any HTTP response ends the loop and is handed to `parse_response`. Once the budget is spent, the failure is logged once and `fallback_response` is returned. The network is a script of outcomes, one per GET. The loop is the `while` loop of `ExternalApiService.FetchWithResilience`. That method is proved equal to the reference function `Fetch`, and the lemmas then state what a call guarantees about attempts, sleeps and logging. The two methods a subclass overrides form a `Hooks` value: `parse_response`, and `fallback_response`, which raises `NotImplementedError` in the base class.
- **CepService** (`cep_service.dfy`). It strips a CEP (Brazilian postal code) to its digits and builds `BASE_URL/<digits>/json/`. It reads ViaCEP's `erro` marker, and it returns one fixed fallback payload for not-found, non-2xx and exhaustion alike.
- **EnderecosController#show** (`enderecos_controller.dfy`). A CEP is valid when it holds exactly 8 digits. An invalid CEP gets a 400 with a fixed message and no lookup. A valid one gets a 200 with `result[:data]`.
- **Pedido and Item** (`pedido.dfy`, `item.dfy`). These hold the declared validations and the before-validation hook that sets `total_amount` to the sum of quantity × unit price. Money is integer cents, because the price columns are decimals of scale 2, so the sums are exact.

Model parameters stand in for the environment. `maxRetries` replaces `EXTERNAL_API_MAX_RETRIES` (default 3), and `baseUrl` replaces `CEP_API_URL` (default `https://viacep.com.br/ws`). The model also makes two choices of its own:

- Outcomes past the end of the upstream script read as a refused connection.
- A `MAX_RETRIES` below 1 still allows the one unconditional attempt. That is the attempt `Budget`.

## Model

| member | source | states |
|---|---|---|
| ExternalApi.Budget | app/services/external_api_service.rb:15-23 | the attempt budget is at least 1, equals MAX_RETRIES when that is at least 1, and is 1 otherwise |
| ExternalApi.BackoffTime | app/services/external_api_service.rb:33-35 | after attempt k ≥ 1 the sleep is an even number of seconds, at least 2 |
| ExternalApi.IsSuccess | app/services/external_api_service.rb:44 | `response.success?` holds exactly for the 2xx class: a non-negative status whose hundreds digit is 2 |
| ExternalApi.Schedule | app/services/external_api_service.rb:22 | the sleeps after n failed attempts are n values, the i-th being the backoff of attempt i+1 |
| ExternalApi.FirstResponse | app/services/external_api_service.rb:17-20 | the index found is the first response among the first n outcomes: everything before it is a transport failure, and it is n when there is no response |
| ExternalApi.ExhaustedReply | app/services/external_api_service.rb:26 | corrected rescue value: the fallback payload inside a failure envelope, or the fallback's own exception when it raises |
| ExternalApi.ExhaustedReplyAsWritten | app/services/external_api_service.rb:26 | rescue value as written: the bare fallback hash with no envelope, or the fallback's own exception when it raises |
| ExternalApi.Fetch | app/services/external_api_service.rb:14-29 | any call makes between 1 and Budget attempts, sleeps exactly Schedule(attempts−1), continues past an attempt only after a transport failure, stops early only on a response, and logs at most once |
| ExternalApi.FetchAsWritten | app/services/external_api_service.rb:14-29 | the loop exactly as written makes the same attempts, sleeps and log as Fetch and returns the same value whenever a response arrived; when the budget is exhausted it returns the bare fallback hash |
| ExternalApi.ExternalApiService.constructor | app/services/external_api_service.rb:6-12 | a service is built with its hooks and its retry ceiling |
| ExternalApi.ExternalApiService.FetchWithResilience | app/services/external_api_service.rb:14-29 | (corrected rescue value) the begin/rescue/retry loop returns exactly the value, attempt count, sleeps and log of Fetch |
| ExternalApi.AllTransportFailuresExhaust | app/services/external_api_service.rb:20-27 | (corrected rescue value) if every attempt in the budget fails in transport: Budget attempts, Budget−1 sleeps, one log entry with the final count, the URL and the last error, and the fallback value instead of an exception |
| ExternalApi.DefaultExhaustionSleeps | app/services/external_api_service.rb:4 | with MAX_RETRIES = 3, exhaustion sleeps [2, 4] |
| ExternalApi.RespondsAtAttempt | app/services/external_api_service.rb:17-23 | transport failures on attempts 1..k−1 and a response on attempt k ≤ Budget give the parse hook's reply to that response, k attempts, k−1 sleeps and no log |
| ExternalApi.ResponseEndsLoop | app/services/external_api_service.rb:18-20 | a response received on an attempt is the last attempt, whatever its status, and nothing is logged |
| ExternalApi.FailureLoggedOnlyOnExhaustion | app/services/external_api_service.rb:37-41 | a log entry exists iff the whole budget failed in transport; it is a single entry carrying the final attempt count and the URL |
| ExternalApi.BackoffDoubles | app/services/external_api_service.rb:33-35 | the first sleep is 2 s and each later sleep is twice the one before |
| ExternalApi.BaseParseResponse | app/services/external_api_service.rb:43-49 | a 2xx status gives {success: true, data: body}; any other status gives {success: false, data: fallback}, or raises when the fallback raises |
| ExternalApi.BaseFallbackResponse | app/services/external_api_service.rb:51-53 | the base fallback always raises NotImplementedError |
| ExternalApi.BaseHooks | app/services/external_api_service.rb:43-53 | a base service overrides nothing: asking for its fallback raises NotImplementedError, and parsing a response gives {success: true, data: body} for a 2xx status and raises NotImplementedError otherwise |
| ExternalApi.BaseServiceRaisesUnlessSuccess | app/services/external_api_service.rb:20 | a bare base service returns the success envelope iff the first response within budget is 2xx; non-2xx and exhaustion both raise NotImplementedError, because only transport errors are rescued |
| CepService.SanitizeCep | app/services/cep_service.rb:12-14 | the result is no longer than the input and holds only decimal digits |
| CepService.CepUrl | app/services/cep_service.rb:6 | the URL starts with the base URL and a "/", ends with "/json/", and between them holds as many characters as the sanitized code |
| CepService.SanitizeConcat | app/services/cep_service.rb:13 | sanitizing distributes over concatenation, so digits keep their order |
| CepService.SanitizeChar | app/services/cep_service.rb:13 | a single character is kept iff it is a digit |
| CepService.SanitizeFixpoint | app/services/cep_service.rb:13 | a string is unchanged by sanitizing iff it is all digits |
| CepService.SanitizeIdempotent | app/services/cep_service.rb:13 | sanitizing twice equals sanitizing once |
| CepService.SanitizeKeepsDigits | app/services/cep_service.rb:13 | every digit occurs in the output as often as in the input, and no non-digit occurs |
| CepService.SanitizeExamples | spec/requests/api/v1/enderecos_spec.rb:36-39 | "01310-100" and "01310100" both sanitize to "01310100" |
| CepService.UrlRoundTrip | app/services/cep_service.rb:6 | the URL is the base URL, "/", the sanitized digits and "/json/"; the digits can be read back from it |
| CepService.UrlDeterminedByDigits | app/services/cep_service.rb:5-6 | two inputs give the same URL iff they have the same digits |
| CepService.UrlExample | spec/requests/api/v1/enderecos_spec.rb:39 | any CEP with the digits 01310100, "01310-100" among them, is requested at https://viacep.com.br/ws/01310100/json/ |
| CepService.FallbackResponse | app/services/cep_service.rb:16-26 | the fallback has exactly the keys cep, logradouro, complemento, bairro, localidade, uf and fallback; cep is nil, logradouro is the "unavailable" message, the four address fields are "", and fallback is true |
| CepService.ParseResponse | app/services/cep_service.rb:28-41 | never raises; success iff 2xx and no truthy erro; a success passes the body through unchanged; every failure carries the fallback payload |
| CepService.CepHooks | app/services/cep_service.rb:16-41 | the CEP overrides: the fallback is the fixed payload and never raises, and parsing always yields an envelope whose success holds iff the status is 2xx and the body has no truthy erro; a success carries the body and a failure the fallback payload |
| CepService.FetchCep | app/services/cep_service.rb:4-8 | (corrected rescue value) fetch_cep is the retry loop with the CEP hooks on the URL of the sanitized code |
| CepService.FetchCepOutcome | app/services/cep_service.rb:33-39 | (corrected rescue value) over the modelled outcomes (the two rescued transport errors and received responses) a CEP lookup never raises and always yields an envelope; success iff the first response within budget is 2xx without a truthy erro, with that body as data; every failure (not found, non-2xx, exhaustion) carries the identical fallback payload |
| CepService.FoundScenario | spec/requests/api/v1/enderecos_spec.rb:36-63 | for a CEP with the digits 01310100, a São Paulo body on the first GET gives success with that body, one attempt, no sleep and no log |
| CepService.ThreeTimeoutsScenario | spec/requests/api/v1/enderecos_spec.rb:75-86 | (corrected rescue value) for a CEP with the digits 01310100, three timeouts with MAX_RETRIES 3 give the fallback in a failure envelope, 3 attempts, sleeps [2, 4] and one log entry for attempt 3 with the lookup URL and the timeout |
| CepService.RetryThenSuccessScenario | spec/requests/api/v1/enderecos_spec.rb:163-185 | for a CEP with the digits 01310100, two timeouts then a 200 give success with the body after 3 attempts and sleeps [2, 4] |
| EnderecosController.HandleShow | app/controllers/api/v1/enderecos_controller.rb:4-19 | (corrected rescue value) an invalid CEP gives the 400 and makes no GET; a valid CEP renders Show of the lookup result, with the lookup's attempt count |
| EnderecosController.SanitizedLengthCountsDigits | app/controllers/api/v1/enderecos_controller.rb:25 | the sanitized length equals the number of digit positions of the input |
| EnderecosController.ValidCepFormat | app/controllers/api/v1/enderecos_controller.rb:23-26 | a valid CEP is at least 8 characters long, and any string of exactly 8 digits is valid |
| EnderecosController.ValidIffEightDigits | app/controllers/api/v1/enderecos_controller.rb:23-26 | a CEP is valid iff exactly 8 of its positions are decimal digits |
| EnderecosController.Show | app/controllers/api/v1/enderecos_controller.rb:4-19 | only 400 or 200 is rendered, 400 exactly for an invalid CEP; a 200 carries result[:data]; a service exception propagates, and only for a valid CEP |
| EnderecosController.InvalidCepResponse | app/controllers/api/v1/enderecos_controller.rb:9-11 | the malformed-CEP response has status 400 and a body object whose only key, error, holds the fixed message |
| EnderecosController.DataOf | app/controllers/api/v1/enderecos_controller.rb:18 | result[:data] is the data of an envelope; on a bare hash it is that hash's own :data key, nil when the hash has none |
| EnderecosController.ValidIgnoresNonDigit | app/controllers/api/v1/enderecos_controller.rb:25 | inserting any non-digit anywhere leaves validity unchanged |
| EnderecosController.HyphenatedFormsAgree | spec/requests/api/v1/enderecos_spec.rb:36-39 | "01310-100" and "01310100" are both valid and have the same digits |
| EnderecosController.ValidCepUrlSegment | app/controllers/api/v1/enderecos_controller.rb:25 | for a valid CEP the URL path segment is exactly 8 digits |
| EnderecosController.InvalidCepIgnoresService | app/controllers/api/v1/enderecos_controller.rb:8-12 | an invalid CEP renders status 400 with the fixed error message, whatever the service would return |
| EnderecosController.ValidCepRendersData | app/controllers/api/v1/enderecos_controller.rb:15-18 | a valid CEP renders status 200 with result[:data], whether or not success is set |
| EnderecosController.ValidCepAlwaysRendersAddress | app/controllers/api/v1/enderecos_controller.rb:18 | (corrected rescue value) end to end, a valid CEP always gets 200 and an address object: the found body, or the fallback payload |
| EnderecosController.ExhaustionAsWrittenRendersNull | app/services/external_api_service.rb:20-27 | through the loop as written, a valid CEP whose every GET within the budget fails in transport gets the bare fallback hash, so result[:data] is nil and the controller renders 200 with null instead of the fallback payload |
| EnderecosController.ThreeTimeoutsRenderNullAsWritten | spec/requests/api/v1/enderecos_spec.rb:75-86 | as written, a CEP with the digits 01310100 ("01310-100") with three timeouts and MAX_RETRIES 3 makes 3 GETs, sleeps [2, 4], logs the timeout once and renders 200 with null |
| EnderecosController.ExhaustionRendersFallback | app/controllers/api/v1/enderecos_controller.rb:17-18 | with the corrected envelope, an exhausted lookup of a valid CEP renders 200 with the fallback payload, including fallback: true |
| Items.Errors | app/models/item.rb:5-7 | produto_id is reported iff missing, quantity iff missing or ≤ 0, unit_price iff missing or ≤ 0 |
| Items.ValidationRules | app/models/item.rb:5-7 | an item is valid iff produto_id is present, quantity is present and > 0, and unit_price is present and > 0 |
| Pedidos.IsBlank | app/models/pedido.rb:5 | nil and "" are blank; any other string is blank iff every character is Unicode whitespace (`[[:space:]]`) |
| Pedidos.Errors | app/models/pedido.rb:5-9 | customer_name is reported iff blank, total_amount iff missing or ≤ 0, status iff missing or not one of the five allowed values |
| Pedidos.ValidationRules | app/models/pedido.rb:5-9 | an order is valid iff customer_name is not blank, total_amount is present and > 0, and status is one of pending, confirmed, shipped, delivered or cancelled |
| Pedidos.LineTotal | app/models/pedido.rb:17 | a line with a nil quantity or unit_price adds 0; a valid item adds a positive amount |
| Pedidos.Total | app/models/pedido.rb:17 | no items total 0; items whose amounts are all non-negative total a non-negative amount |
| Pedidos.Pedido.CalculateTotalAmount | app/models/pedido.rb:15-19 | with items, total_amount becomes the sum of the line amounts, a nil field counting as 0; without items it is unchanged; no other field changes |
| Pedidos.Pedido.Validate | app/models/pedido.rb:11 | the total is recomputed first, and the order is valid iff the recomputed state passes the order's own three rules |
| Pedidos.TotalConcat | app/models/pedido.rb:17 | the total of two runs of items is the sum of their totals |
| Pedidos.TotalAppend | app/models/pedido.rb:17 | appending an item raises the total by exactly that item's quantity × unit_price |
| Pedidos.TotalRemove | app/models/pedido.rb:17 | removing item j lowers the total by exactly that item's amount |
| Pedidos.TotalPermutation | app/models/pedido.rb:17 | any reordering of the items has the same total |
| Pedidos.ValidItemsPositiveTotal | app/models/item.rb:6-7 | a non-empty list of valid items has a positive total |
| Pedidos.ValidItemsPassTotalCheck | app/models/pedido.rb:6 | after the hook, an order whose items are all valid has no total_amount error |
| Pedidos.TotalExample | spec/requests/api/v1/pedidos_spec.rb:78-98 | 2 × 99.99 totals 199.98 (19998 cents) |
| Pedidos.RejectedOrderExample | spec/requests/api/v1/pedidos_spec.rb:105-118 | a blank name, no items and status "invalid_status" fail all three rules |

## Findings

| source | as written | input that shows it | evidently intended | confidence | as-written member | corrected member |
|---|---|---|---|---|---|---|
| app/services/external_api_service.rb:26 | on exhaustion the rescue branch returns the bare `fallback_response` hash, which has no `:data` key, so `EnderecosController#show` renders `result[:data]`, that is JSON `null` | CEP "01310-100", upstream times out 3 times, MAX_RETRIES 3 | `{ success: false, data: fallback_response }`, so the fallback payload is rendered; the request spec (spec/requests/api/v1/enderecos_spec.rb:82-86) expects `fallback: true` in the body | high; not executed | EnderecosController.ExhaustionAsWrittenRendersNull | EnderecosController.ExhaustionRendersFallback |

The as-written rescue value is `ExternalApi.ExhaustedReplyAsWritten`, and the loop as written is `ExternalApi.FetchAsWritten`. The corrected form, `ExternalApi.ExhaustedReply`, is the one `Fetch` and `FetchWithResilience` use, and so is everything built on them. This is the only place where the model does not follow the code as written.

## Left out

- The Faraday connection and its timeouts (`OPEN_TIMEOUT`, `READ_TIMEOUT`) are foreign library code and network I/O. A script of outcomes replaces them, and timeouts appear only as `Timeout` outcomes.
- Only `Faraday::TimeoutError` and `Faraday::ConnectionFailed` are modelled as transport outcomes, because they are the two the loop rescues. Other `Faraday::Error`s from `@connection.get` (an SSL error, for instance) propagate out of `fetch_with_resilience` unrescued; the outcome type leaves them out, so "never raises" holds only over the modelled outcomes.
- `sleep` is wall-clock waiting. Each delay is recorded in the `sleeps` trace instead.
- `Rails.logger` is not modelled. Only the logged facts are kept: attempt count, URL and error class. The text of the message and `error.message` are left out.
- `ENV` lookups happen at process start. `MAX_RETRIES` and `BASE_URL` are parameters instead, with the defaults as constants.
- `JSON.parse` is left out, because bodies arrive already parsed. In CepService#parse_response a body that is not JSON raises `JSON::ParserError`, and a body that is not an object raises at `data[:erro]`: `NoMethodError` for null, true or false, `TypeError` for a string or an array. The base parse_response wraps any parsed value without raising. `Body` is a map, so the model covers neither case.
- JSON numbers are integers in `Json.Value`. No field the core inspects is a number.
- `cep.to_s` on nil is left out: the route always supplies the CEP segment as a string.
- The CRUD controllers, serializers, routes, ActiveRecord persistence, nested attributes, `dependent: :destroy`, the `belongs_to` existence checks, validation error messages and the 422 rendering are framework plumbing.
- Decimal precision 10 is a database limit and is not modelled: an amount over the column range would fail at the database.
- Items.Errors: `only_integer` on quantity is not reported separately, because quantity is modelled as an integer; a fractional raw input is outside the model.
- Items.ValidationRules: `only_integer` on quantity is not checked separately, because quantity is modelled as an integer (the column type). A fractional raw input is outside the model.
- Pedidos.Pedido.Validate: `has_many :itens` with `accepts_nested_attributes_for` also validates the order's new items, so in the source an order with an invalid item (quantity 0, say) is invalid. The model checks only the order's own three rules; the item rules are `Items.Errors`, applied to each line separately.
- Request concurrency is left out: the core has no shared state.
