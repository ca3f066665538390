/**
 * How the app reads the relay's reply to a completion request: the text it shows
 * as the completion, or the message it shows as the error.
 */
module Completion {
  import opened Optional
  import opened Text

  /** The body's `error` field: absent or null, a value without a `message` (a string), or an object. */
  datatype ErrorField = NoError | ErrorString(text: string) | ErrorObject(message: Option<string>)

  /** `choices[i].message`, which may lack `content`. */
  datatype ChoiceMessage = ChoiceMessage(content: Option<string>)

  datatype Choice = Choice(message: Option<ChoiceMessage>)

  /** The parsed JSON object of a reply, reduced to the fields the app reads. */
  datatype Body = Body(error: ErrorField, message: Option<string>, choices: Option<seq<Choice>>)

  /**
   * What `fetch` plus `res.json()` delivered: a status with a parsed body, or a thrown
   * error (network failure, body that is not JSON) carrying its message.
   */
  datatype Reply = Response(status: nat, body: Body) | Failure(reason: string)

  /** What the app ends with: `aiResult` set, or `aiError` set. */
  datatype Outcome = Completed(text: string) | Failed(message: string)

  const ApiErrorPrefix := "API Error: "
  const UnknownError := "Unknown error connecting to backend"

  /** The engine's messages for reading a field of `undefined` (V8's wording). */
  const NoChoicesError := "Cannot read properties of undefined (reading '0')"
  const NoFirstChoiceError := "Cannot read properties of undefined (reading 'message')"

  /** `res.ok`: a status in the range 200-299. */
  predicate Ok(status: nat) {
    200 <= status <= 299
  }

  /** `responseData.error?.message`, when it is a non-empty string. */
  predicate HasNestedMessage(body: Body) {
    body.error.ErrorObject? && body.error.message.Some? && body.error.message.value != ""
  }

  /** `responseData.message`, when it is a non-empty string. */
  predicate HasTopMessage(body: Body) {
    body.message.Some? && body.message.value != ""
  }

  /**
   * `responseData.error?.message || responseData.message || \`API Error: ${res.status}\``:
   * the nested message wins, then the top-level one, and only when both are missing or
   * empty does the message name the status. It is never empty.
   */
  function ErrorMessage(status: nat, body: Body): (msg: string)
    ensures msg != ""
    ensures HasNestedMessage(body) ==> msg == body.error.message.value
    ensures !HasNestedMessage(body) && HasTopMessage(body) ==> msg == body.message.value
    ensures !HasNestedMessage(body) && !HasTopMessage(body) ==>
      |msg| > |ApiErrorPrefix| && msg[..|ApiErrorPrefix|] == ApiErrorPrefix
      && msg[|ApiErrorPrefix|..] == Decimal(status) && DigitsValue(msg[|ApiErrorPrefix|..]) == status
  {
    if HasNestedMessage(body) then body.error.message.value
    else if HasTopMessage(body) then body.message.value
    else
      var msg := ApiErrorPrefix + Decimal(status);
      assert msg[|ApiErrorPrefix|..] == Decimal(status);
      msg
  }

  /** `data.choices[0].message?.content || ''` once the first choice exists. */
  function ChoiceText(c: Choice): (text: string)
    ensures c.message.Some? && c.message.value.content.Some? ==> text == c.message.value.content.value
    ensures c.message.None? || c.message.value.content.None? ==> text == ""
  {
    match c.message
    case None => ""
    case Some(m) =>
      match m.content
      case None => ""
      case Some(t) => t
  }

  /** `e.message || 'Unknown error connecting to backend'`, the text put in `aiError`. */
  function Shown(reason: string): (msg: string)
    ensures msg != ""
    ensures reason != "" ==> msg == reason
    ensures reason == "" ==> msg == UnknownError
  {
    if reason == "" then UnknownError else reason
  }

  /**
   * The outcome of `fetchAICompletion` once the reply is in: it completes exactly when
   * the reply is a 2xx response with a first choice, and a failure always has a message.
   */
  function Interpret(reply: Reply): (r: Outcome)
    ensures r.Completed? <==> reply.Response? && Ok(reply.status)
                              && reply.body.choices.Some? && reply.body.choices.value != []
    ensures r.Failed? ==> r.message != ""
  {
    match reply
    case Failure(reason) => Failed(Shown(reason))
    case Response(status, body) =>
      if !Ok(status) then Failed(Shown(ErrorMessage(status, body)))
      else
        match body.choices
        case None => Failed(Shown(NoChoicesError))
        case Some(cs) => if cs == [] then Failed(Shown(NoFirstChoiceError)) else Completed(ChoiceText(cs[0]))
  }

  /**
   * A reply with an error status always fails, with exactly the chosen error message:
   * the generic fallback for connection failures never replaces it.
   */
  lemma ErrorStatusFails(status: nat, body: Body)
    requires !Ok(status)
    ensures Interpret(Response(status, body)) == Failed(ErrorMessage(status, body))
  {
  }

  /**
   * A request that never got a reply (the network failed, or the body was not JSON) fails
   * with the thrown error's message, or with the generic connection text when that is empty.
   */
  lemma ConnectionFailureShown(reason: string)
    ensures reason != "" ==> Interpret(Failure(reason)) == Failed(reason)
    ensures reason == "" ==> Interpret(Failure(reason)) == Failed(UnknownError)
  {
  }

  /** A successful reply with at least one choice completes with that choice's content, or "". */
  lemma FirstChoiceWins(status: nat, body: Body)
    requires Ok(status) && body.choices.Some? && body.choices.value != []
    ensures Interpret(Response(status, body)) == Completed(ChoiceText(body.choices.value[0]))
  {
  }

  /** A successful reply whose choices are missing or empty is reported as the engine's TypeError. */
  lemma MissingChoicesFail(status: nat, body: Body)
    requires Ok(status) && (body.choices.None? || body.choices.value == [])
    ensures Interpret(Response(status, body)).Failed?
    ensures body.choices.None? ==> Interpret(Response(status, body)) == Failed(NoChoicesError)
    ensures body.choices.Some? ==> Interpret(Response(status, body)) == Failed(NoFirstChoiceError)
  {
  }

  /** Error replies naming different statuses, and carrying no message, show different texts. */
  lemma FallbackNamesStatus(s1: nat, s2: nat, body: Body)
    requires !HasNestedMessage(body) && !HasTopMessage(body)
    requires ErrorMessage(s1, body) == ErrorMessage(s2, body)
    ensures s1 == s2
  {
    var m := ErrorMessage(s1, body);
    assert DigitsValue(m[|ApiErrorPrefix|..]) == s1;
  }

  /** The upstream API's rate-limit reply is shown as its own message. */
  lemma RateLimitedScenario()
    ensures Interpret(Response(429, Body(ErrorObject(Some("rate limited")), None, None))) == Failed("rate limited")
  {
  }

  lemma Decimal500()
    ensures Decimal(500) == "500"
  {
    assert Decimal(5) == "5";
    assert Decimal(50) == "50";
  }

  /**
   * The relay's own failure body `{error: "<text>"}` has an `error` with no `message`,
   * so the client shows the status fallback rather than the relay's text.
   */
  lemma RelayFailureScenario(text: string)
    ensures Interpret(Response(500, Body(ErrorString(text), None, None))) == Failed("API Error: 500")
  {
    var body := Body(ErrorString(text), None, None);
    ErrorStatusFails(500, body);
    Decimal500();
    assert ErrorMessage(500, body) == ApiErrorPrefix + Decimal(500);
  }
}
