/** The AI client wrapper of backend/utils/openai_client.py: provider selection at construction,
    the request sent for a prompt, the mapping of every SDK exception to the one fatal error
    class, and the lenient JSON extraction the agents apply to the model's answer. */
module OpenAIClient {
  import opened Wrappers
  import opened Errors
  import opened Json
  import Text

  datatype Provider = Gemini | OpenAI

  /** The fields __init__ sets once: which SDK is used and which model it is asked for. */
  datatype Client = Client(modelType: Provider, model: string)

  /** The process environment __init__ reads: the two API keys, the OpenAI model override,
      and whether each SDK could be imported. */
  datatype Environment = Environment(geminiKey: Option<string>, openaiKey: Option<string>,
                                     openaiModel: Option<string>,
                                     geminiInstalled: bool, openaiInstalled: bool)

  /** Why construction did not produce a client: ValueError (no usable key) or the fatal
      OpenAIAPIError raised when the chosen SDK fails to initialise. */
  datatype InitFailure = NoApiKey(message: string) | InitRaised(error: ApiError)

  const GeminiModel := "gemini-2.0-flash"
  const DefaultOpenAIModel := "gpt-4o-mini"
  const NoKeyMessage := "No AI API key found. Set GEMINI_API_KEY or OPENAI_API_KEY environment variable"
  const InitFailedMessage := "Could not initialize AI service"
  const UnavailableMessage := "AI service is temporarily unavailable"

  /** A key counts only when it is set and non-empty (Python truthiness). */
  predicate KeySet(key: Option<string>)
  {
    key.Some? && key.value != ""
  }

  predicate GeminiUsable(env: Environment)
  {
    KeySet(env.geminiKey) && env.geminiInstalled
  }

  predicate OpenAIUsable(env: Environment)
  {
    KeySet(env.openaiKey) && env.openaiInstalled
  }

  /** `OpenAIClient.__init__`. `sdkInitSucceeds` says whether the chosen SDK's setup call
      returns normally. */
  function New(env: Environment, sdkInitSucceeds: bool): (r: Result<Client, InitFailure>)
    ensures (r.Success? && r.value.modelType == Gemini) <==> GeminiUsable(env) && sdkInitSucceeds
    ensures (r.Success? && r.value.modelType == OpenAI)
            <==> !GeminiUsable(env) && OpenAIUsable(env) && sdkInitSucceeds
    ensures r.Success? && r.value.modelType == Gemini ==> r.value.model == GeminiModel
    ensures r.Success? && r.value.modelType == OpenAI ==>
              r.value.model == env.openaiModel.GetOr(DefaultOpenAIModel)
    ensures (r.Failure? && r.error.NoApiKey?) <==> !GeminiUsable(env) && !OpenAIUsable(env)
    ensures r.Failure? && r.error.InitRaised? ==>
              r.error.error == NewOpenAIApiError(InitFailedMessage) && r.error.error.IsOpenAIApiError()
  {
    if GeminiUsable(env) then
      if sdkInitSucceeds then Success(Client(Gemini, GeminiModel))
      else Failure(InitRaised(NewOpenAIApiError(InitFailedMessage)))
    else if OpenAIUsable(env) then
      if sdkInitSucceeds then Success(Client(OpenAI, env.openaiModel.GetOr(DefaultOpenAIModel)))
      else Failure(InitRaised(NewOpenAIApiError(InitFailedMessage)))
    else Failure(NoApiKey(NoKeyMessage))
  }

  datatype Message = Message(role: string, content: string)

  /** What generate_text hands to the SDK. */
  datatype Request =
    | GeminiRequest(fullPrompt: string)
    | ChatRequest(model: string, messages: seq<Message>)

  /** The request for a prompt: Gemini gets one text with the system instruction in front,
      OpenAI gets a system message (when there is an instruction) and a user message. */
  function BuildRequest(client: Client, prompt: string, systemInstruction: Option<string>): (r: Request)
    ensures client.modelType == Gemini ==>
              r == GeminiRequest(if KeySet(systemInstruction)
                                 then systemInstruction.value + "\n\n" + prompt else prompt)
    ensures client.modelType == OpenAI ==>
              r.ChatRequest? && r.model == client.model && |r.messages| >= 1
              && r.messages[|r.messages| - 1] == Message("user", prompt)
              && (|r.messages| == 2 <==> KeySet(systemInstruction))
              && (KeySet(systemInstruction) ==> r.messages[0] == Message("system", systemInstruction.value))
  {
    match client.modelType
    case Gemini =>
      GeminiRequest(if KeySet(systemInstruction) then systemInstruction.value + "\n\n" + prompt
                    else prompt)
    case OpenAI =>
      var system := if KeySet(systemInstruction) then [Message("system", systemInstruction.value)] else [];
      ChatRequest(client.model, system + [Message("user", prompt)])
  }

  /** What the SDK call does: return the generated text or raise. */
  datatype SdkOutcome = Returned(text: string) | Raised(detail: string)

  /** `generate_text`: the SDK's text, or, whatever the SDK raised, the fatal
      OpenAIAPIError("AI service is temporarily unavailable"). */
  function GenerateText(client: Client, prompt: string, systemInstruction: Option<string>,
                        sdk: Request -> SdkOutcome): (r: Result<string, ApiError>)
    ensures r.Success? <==> sdk(BuildRequest(client, prompt, systemInstruction)).Returned?
    ensures r.Success? ==> r.value == sdk(BuildRequest(client, prompt, systemInstruction)).text
    ensures r.Failure? ==> r.error == NewOpenAIApiError(UnavailableMessage)
    ensures r.Failure? ==> r.error.IsOpenAIApiError() && r.error.statusCode == 503
  {
    match sdk(BuildRequest(client, prompt, systemInstruction))
    case Returned(text) => Success(text)
    case Raised(_) => Failure(NewOpenAIApiError(UnavailableMessage))
  }

  /** What an agent puts in front of the AI service: the data each prompt carries (its wording
      is not modelled). */
  datatype Prompt =
    | ClassifyPrompt(senderEmail: Option<string>, subject: string, bodyExcerpt: string,
                     categoryNames: seq<string>)
    | SummarizePrompt(subject: string, senderName: string, category: Json, body: string)
    | ReplyPrompt(category: Json, tone: Json, subject: string, senderName: string,
                  senderEmail: Option<string>, summary: Json, bodyExcerpt: string, actionItems: Json)

  /** The AI service as the agents see it: generate_text applied to the rendered prompt. */
  type AIService = Prompt -> Result<string, ApiError>

  /** json.loads as an uninterpreted decoder: a value, or None for JSONDecodeError. */
  type Decoder = string -> Option<Json>

  function IndexOf(s: string, c: char): (r: Option<nat>)
    ensures r.None? <==> c !in s
    ensures r.Some? ==> r.value < |s| && s[r.value] == c && c !in s[..r.value]
  {
    if s == [] then None
    else if s[0] == c then Some(0)
    else match IndexOf(s[1..], c)
      case None => None
      case Some(i) => assert s[..i + 1] == [s[0]] + s[1..][..i]; Some(i + 1)
  }

  function LastIndexOf(s: string, c: char): (r: Option<nat>)
    ensures r.None? <==> c !in s
    ensures r.Some? ==> r.value < |s| && s[r.value] == c && c !in s[r.value + 1..]
  {
    if s == [] then None
    else if s[|s| - 1] == c then Some(|s| - 1)
    else
      assert forall k :: 0 <= k < |s| - 1 ==> s[..|s| - 1][k] == s[k];
      LastIndexOf(s[..|s| - 1], c)
  }

  /** A '}' occurs somewhere after the first '{'. */
  predicate HasBracedSpan(response: string)
  {
    var open := IndexOf(response, '{');
    var close := LastIndexOf(response, '}');
    open.Some? && close.Some? && open.value < close.value
  }

  /** The text `parse_json_response` hands to the decoder: what `re.search(r'(\{.*\})', ...)`
      with DOTALL captures, from the first '{' to the last '}' inclusive, or the whole response
      when no '}' follows the first '{'. */
  function JsonCandidate(response: string): (r: string)
    ensures HasBracedSpan(response) ==>
              r == response[IndexOf(response, '{').value..LastIndexOf(response, '}').value + 1]
    ensures HasBracedSpan(response) ==>
              |r| >= 2 && r[0] == '{' && r[|r| - 1] == '}'
              && '{' !in response[..IndexOf(response, '{').value]
              && '}' !in response[LastIndexOf(response, '}').value + 1..]
    ensures !HasBracedSpan(response) ==> r == response
  {
    if HasBracedSpan(response) then
      response[IndexOf(response, '{').value..LastIndexOf(response, '}').value + 1]
    else response
  }

  /** The candidate is always a substring of the response. */
  lemma JsonCandidateIsSubstring(response: string)
    ensures Text.Contains(response, JsonCandidate(response))
  {
    var r := JsonCandidate(response);
    if HasBracedSpan(response) {
      var a, b := IndexOf(response, '{').value, LastIndexOf(response, '}').value + 1;
      assert Text.StartsWith(response[a..b], r);
      Text.ContainsSlice(response, a, b, r);
    } else {
      assert Text.StartsWith(response, r);
    }
  }

  /** Why parse_json_response did not return a value: ValueError for undecodable text or for
      missing fields, or the TypeError that `key in value` raises on a scalar. */
  datatype JsonError = Undecodable | MissingFields(missing: seq<string>) | NotAContainer

  /** `[f for f in required if f not in value]`, for a value `in` can test. */
  function Missing(required: seq<string>, v: Json): (m: seq<string>)
    requires v.JObj? || v.JArr? || v.JStr?
    ensures |m| <= |required|
    ensures forall f :: f in m <==> f in required && In(f, v) == Some(false)
  {
    if required == [] then []
    else (if In(required[0], v) == Some(false) then [required[0]] else []) + Missing(required[1..], v)
  }

  /** `parse_json_response(response, required_fields)`. The field check runs only for a
      non-empty field list. */
  function ParseJsonResponse(response: string, required: seq<string>, decode: Decoder): (r: Result<Json, JsonError>)
    ensures decode(JsonCandidate(response)).None? <==> r == Failure(Undecodable)
    ensures r.Success? ==> r.value == decode(JsonCandidate(response)).value
    ensures r.Success? ==> forall f :: f in required ==> In(f, r.value) == Some(true)
    ensures r.Success? && r.value.JObj? ==> forall f :: f in required ==> f in r.value.fields
    ensures r.Failure? && r.error.MissingFields? ==>
              r.error.missing != []
              && forall f :: f in r.error.missing <==> f in required && In(f, decode(JsonCandidate(response)).value) == Some(false)
  {
    match decode(JsonCandidate(response))
    case None => Failure(Undecodable)
    case Some(v) =>
      if required == [] then Success(v)
      else if !(v.JObj? || v.JArr? || v.JStr?) then Failure(NotAContainer)
      else
        var missing := Missing(required, v);
        if missing == [] then Success(v) else Failure(MissingFields(missing))
  }

  /** The fields an agent reads from a successful answer: the subscripts `value[f]` it performs
      afterwards succeed only on an object, so any other value counts as a malformed answer. */
  function AnswerFields(response: string, required: seq<string>, decode: Decoder): (r: Option<map<string, Json>>)
    ensures r.Some? <==> ParseJsonResponse(response, required, decode).Success?
                         && ParseJsonResponse(response, required, decode).value.JObj?
    ensures r.Some? ==> r.value == ParseJsonResponse(response, required, decode).value.fields
    ensures r.Some? ==> forall f :: f in required ==> f in r.value
  {
    match ParseJsonResponse(response, required, decode)
    case Success(JObj(m)) => Some(m)
    case _ => None
  }
}
