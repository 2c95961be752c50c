/** The Summarizer Agent of backend/agents/summarizer_agent.py: the AI summary, the
    fatal/fallback split of its failures, and the first-sentence fallback. */
module SummarizerAgent {
  import opened Wrappers
  import opened Text
  import opened Json
  import opened Errors
  import opened OpenAIClient
  import opened EmailParser

  const Name := "Summarizer Agent"
  const RequiredFields: seq<string> := ["summary", "key_points", "action_items"]
  const MaxFallbackLength: nat := 150

  /** The agent's success dict: summary, key points, action items and `tools_used`. The AI's
      values are whatever JSON the model returned. */
  datatype Summary = Summary(summary: Json, keyPoints: Json, actionItems: Json, toolsUsed: seq<string>)

  /** `body.split('.')[0] + '.'`, cut to 150 characters. */
  function FirstSentence(body: string): (r: string)
    ensures 1 <= |r| <= MaxFallbackLength
    ensures StartsWith(body + ".", r)
    ensures '.' !in r[..|r| - 1]
    ensures |BeforeFirst(body, '.')| < MaxFallbackLength ==> r == BeforeFirst(body, '.') + "."
    ensures |BeforeFirst(body, '.')| >= MaxFallbackLength ==> r == body[..MaxFallbackLength]
  {
    var sentence := BeforeFirst(body, '.') + ".";
    assert StartsWith(body + ".", sentence) by {
      var b := BeforeFirst(body, '.');
      if '.' in body {
        assert (body + ".")[..|b| + 1] == body[..|b|] + [body[|b|]];
      } else {
        assert body + "." == sentence;
      }
    }
    if |sentence| <= MaxFallbackLength then sentence
    else
      assert sentence[..MaxFallbackLength] == body[..MaxFallbackLength];
      sentence[..MaxFallbackLength]
  }

  /** `_fallback_summary`: the first sentence of a non-empty body, else the subject; the
      subject as the single key point when there is one; no action items. */
  function Fallback(subject: string, body: string): (r: Summary)
    ensures body != [] ==> r.summary == JStr(FirstSentence(body))
    ensures body == [] ==> r.summary == JStr(subject)
    ensures r.keyPoints == JArr(if subject != [] then [JStr(subject)] else [])
    ensures r.actionItems == JArr([]) && r.toolsUsed == ["Text Truncation"]
  {
    Summary(JStr(if body != [] then FirstSentence(body) else subject),
            JArr(if subject != [] then [JStr(subject)] else []), JArr([]), ["Text Truncation"])
  }

  /** `SummarizerAgent.process`: the OpenAIAPIError of the service is raised, any other
      failure gives the fallback, and a good answer gives its three values with ["OpenAI"].
      `category` is the context's category (JNull without one). */
  function Summarize(email: ParsedEmail, category: Json, ai: AIService, decode: Decoder)
    : (r: Result<Summary, ApiError>)
  {
    match ai(SummarizePrompt(email.subject, email.sender.name, category, email.body))
    case Failure(e) => if e.IsOpenAIApiError() then Failure(e) else Success(Fallback(email.subject, email.body))
    case Success(response) =>
      match AnswerFields(response, RequiredFields, decode)
      case None => Success(Fallback(email.subject, email.body))
      case Some(m) => Success(Summary(m["summary"], m["key_points"], m["action_items"], ["OpenAI"]))
  }

  /** The three outcomes of `process`. */
  lemma SummarizeOutcomes(email: ParsedEmail, category: Json, ai: AIService, decode: Decoder)
    ensures var r := Summarize(email, category, ai, decode);
            var answer := ai(SummarizePrompt(email.subject, email.sender.name, category, email.body));
            (r.Failure? <==> answer.Failure? && answer.error.IsOpenAIApiError())
            && (r.Failure? ==> r.error == answer.error)
            && (r.Success? && r.value.toolsUsed == ["OpenAI"] <==>
                  answer.Success? && AnswerFields(answer.value, RequiredFields, decode).Some?)
            && (r.Success? && r.value.toolsUsed == ["OpenAI"] ==>
                  var m := AnswerFields(answer.value, RequiredFields, decode).value;
                  r.value.summary == m["summary"] && r.value.keyPoints == m["key_points"]
                  && r.value.actionItems == m["action_items"])
            && (r.Success? && r.value.toolsUsed != ["OpenAI"] ==> r.value == Fallback(email.subject, email.body))
  {
  }

  /** A body with a full stop within its first 150 characters is summarised by exactly its
      text up to and including that full stop. */
  lemma FallbackKeepsFirstSentence(subject: string, body: string, k: nat)
    requires k < MaxFallbackLength && k < |body| && body[k] == '.' && '.' !in body[..k]
    ensures Fallback(subject, body).summary == JStr(body[..k + 1])
  {
    var b := BeforeFirst(body, '.');
    assert forall i :: 0 <= i < k ==> body[..k][i] == body[i];
    assert forall i :: 0 <= i < |b| ==> b[i] == body[i];
    assert |b| == k;
    assert b == body[..k];
    assert body[..k + 1] == body[..k] + ".";
  }
}
