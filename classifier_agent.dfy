/** The Classifier Agent of backend/agents/classifier_agent.py: the AI classification, the
    fatal/fallback split of its failures, and the keyword-matching fallback over the category
    table. */
module ClassifierAgent {
  import opened Wrappers
  import opened Text
  import opened Json
  import opened Errors
  import opened OpenAIClient
  import opened EmailParser

  const Name := "Classifier Agent"
  const RequiredFields: seq<string> := ["category", "confidence", "reasoning"]
  const DefaultCategory := "Personal"
  const DefaultReasoning := "Default classification"

  /** One entry of the category table: its name and its keyword list. */
  datatype Category = Category(name: string, keywords: seq<string>)

  /** The agent's success dict: the three classification values and `tools_used`. The AI's
      values are whatever JSON the model returned. */
  datatype Classification = Classification(category: Json, confidence: Json, reasoning: Json,
                                           toolsUsed: seq<string>)

  function CategoryNames(cats: seq<Category>): (names: seq<string>)
    ensures |names| == |cats| && forall i :: 0 <= i < |cats| ==> names[i] == cats[i].name
  {
    if cats == [] then [] else [cats[0].name] + CategoryNames(cats[1..])
  }

  /** The data the classification prompt carries: the sender address, the subject, the first
      500 characters of the body and the category names. */
  function PromptFor(email: ParsedEmail, cats: seq<Category>): Prompt
  {
    ClassifyPrompt(email.sender.email, email.subject,
                   email.body[..if |email.body| < 500 then |email.body| else 500], CategoryNames(cats))
  }

  /** The text the fallback searches: lower-cased subject, a space, and the body. */
  function FallbackText(subject: string, body: string): string
  {
    Lower(subject + " " + body)
  }

  /** How many keyword entries of a category occur in the text (entries, not distinct words). */
  function MatchCount(c: Category, text: string): (n: nat)
    ensures n <= |c.keywords|
    ensures n > 0 <==> ContainsAny(text, c.keywords)
  {
    CountPresentPositive(text, c.keywords);
    CountPresent(text, c.keywords)
  }

  /** The index of the first category in table order with at least one match. */
  function FirstMatch(text: string, cats: seq<Category>): (r: Option<nat>)
    ensures r.None? <==> forall i :: 0 <= i < |cats| ==> MatchCount(cats[i], text) == 0
    ensures r.Some? ==> r.value < |cats| && MatchCount(cats[r.value], text) > 0
                        && forall j :: 0 <= j < r.value ==> MatchCount(cats[j], text) == 0
  {
    if cats == [] then None
    else if MatchCount(cats[0], text) > 0 then Some(0)
    else match FirstMatch(text, cats[1..])
      case None => None
      case Some(i) => Some(i + 1)
  }

  /** `min(matches * 0.2, 1.0)`, in exact arithmetic. */
  function MatchConfidence(matches: nat): (c: real)
    ensures matches > 0 ==> 0.0 < c <= 1.0
    ensures c == 1.0 <==> matches >= 5
  {
    if matches as real * 0.2 < 1.0 then matches as real * 0.2 else 1.0
  }

  function MatchedClassification(c: Category, matches: nat): Classification
  {
    Classification(JStr(c.name), JNum(MatchConfidence(matches)),
                   JStr("Matched " + NatToString(matches) + " keywords"), ["Keyword Matching"])
  }

  const DefaultClassification :=
    Classification(JStr(DefaultCategory), JNum(0.5), JStr(DefaultReasoning), ["Keyword Matching"])

  /** Reference definition of `_fallback_classification`: the first matching category, or
      Personal by default. */
  function Fallback(subject: string, body: string, cats: seq<Category>): (r: Classification)
    ensures r.toolsUsed == ["Keyword Matching"]
    ensures r.confidence.JNum? && 0.0 < r.confidence.n <= 1.0
    ensures r == DefaultClassification <==>
              forall i :: 0 <= i < |cats| ==> MatchCount(cats[i], FallbackText(subject, body)) == 0
  {
    var text := FallbackText(subject, body);
    match FirstMatch(text, cats)
    case None => DefaultClassification
    case Some(i) => MatchedClassification(cats[i], MatchCount(cats[i], text))
  }

  /** Reference definition of `process`: the OpenAIAPIError of the service is raised, any
      other failure (another error, an undecodable answer, a missing field, an answer that is
      not an object) gives the fallback, and a good answer gives its three values. */
  function Classify(email: ParsedEmail, cats: seq<Category>, ai: AIService, decode: Decoder)
    : (r: Result<Classification, ApiError>)
  {
    match ai(PromptFor(email, cats))
    case Failure(e) =>
      if e.IsOpenAIApiError() then Failure(e) else Success(Fallback(email.subject, email.body, cats))
    case Success(response) =>
      match AnswerFields(response, RequiredFields, decode)
      case None => Success(Fallback(email.subject, email.body, cats))
      case Some(m) => Success(Classification(m["category"], m["confidence"], m["reasoning"], ["OpenAI"]))
  }

  /** The agent object: its name and the category table `_load_categories` stores. */
  class ClassifierAgent {
    const name: string
    var categories: seq<Category>

    /** `__init__` with `_load_categories`: `loaded` is the table read from the categories
        file, or None when reading or decoding it raised, which leaves the table empty. */
    constructor(loaded: Option<seq<Category>>)
      ensures name == Name
      ensures categories == loaded.GetOr([])
    {
      name := Name;
      categories := loaded.GetOr([]);
    }

    /** `_fallback_classification`: a search over the table that returns at the first
        category with a match. */
    method FallbackClassification(email: ParsedEmail) returns (r: Classification)
      ensures r == Fallback(email.subject, email.body, categories)
    {
      var text := Lower(email.subject + " " + email.body);
      var i := 0;
      while i < |categories|
        invariant 0 <= i <= |categories|
        invariant forall j :: 0 <= j < i ==> MatchCount(categories[j], text) == 0
      {
        var matches := CountPresent(text, categories[i].keywords);
        if matches > 0 {
          return MatchedClassification(categories[i], matches);
        }
        i := i + 1;
      }
      return DefaultClassification;
    }

    /** `ClassifierAgent.process`. */
    method Process(email: ParsedEmail, ai: AIService, decode: Decoder) returns (r: Result<Classification, ApiError>)
      ensures r == Classify(email, categories, ai, decode)
    {
      var response := ai(PromptFor(email, categories));
      if response.Failure? {
        if response.error.IsOpenAIApiError() {
          return Failure(response.error);
        }
        var fallback := FallbackClassification(email);
        return Success(fallback);
      }
      var fields := AnswerFields(response.value, RequiredFields, decode);
      if fields.None? {
        var fallback := FallbackClassification(email);
        return Success(fallback);
      }
      var m := fields.value;
      return Success(Classification(m["category"], m["confidence"], m["reasoning"], ["OpenAI"]));
    }
  }

  /** The three outcomes of `process`: only the service's OpenAIAPIError escapes; the AI's
      values come back unvalidated with ["OpenAI"], everything else is the fallback. */
  lemma ClassifyOutcomes(email: ParsedEmail, cats: seq<Category>, ai: AIService, decode: Decoder)
    ensures var r := Classify(email, cats, ai, decode);
            var answer := ai(PromptFor(email, cats));
            (r.Failure? <==> answer.Failure? && answer.error.IsOpenAIApiError())
            && (r.Failure? ==> r.error == answer.error)
            && (r.Success? && r.value.toolsUsed == ["OpenAI"] <==>
                  answer.Success? && AnswerFields(answer.value, RequiredFields, decode).Some?)
            && (r.Success? && r.value.toolsUsed == ["OpenAI"] ==>
                  var m := AnswerFields(answer.value, RequiredFields, decode).value;
                  r.value.category == m["category"] && r.value.confidence == m["confidence"]
                  && r.value.reasoning == m["reasoning"])
            && (r.Success? && r.value.toolsUsed != ["OpenAI"] ==>
                  r.value == Fallback(email.subject, email.body, cats))
  {
  }

  /** The first category in table order with a match wins, with the count as evidence. */
  lemma FallbackPicksFirstMatch(subject: string, body: string, cats: seq<Category>, i: nat)
    requires i < |cats| && MatchCount(cats[i], FallbackText(subject, body)) > 0
    requires forall j :: 0 <= j < i ==> MatchCount(cats[j], FallbackText(subject, body)) == 0
    ensures var n := MatchCount(cats[i], FallbackText(subject, body));
            Fallback(subject, body, cats)
            == Classification(JStr(cats[i].name), JNum(MatchConfidence(n)),
                              JStr("Matched " + NatToString(n) + " keywords"), ["Keyword Matching"])
  {
    var r := FirstMatch(FallbackText(subject, body), cats);
    assert r.Some?;
    assert r.value == i;
  }

  /** A string misses every substring that has a character the string lacks. */
  lemma {:induction false} MissingCharNotContained(t: string, p: string, k: nat)
    requires k < |p| && p[k] !in t
    ensures !Contains(t, p)
    decreases |t|
  {
    if |p| <= |t| {
      assert t[..|p|][k] == t[k];
    }
    if |t| > 0 {
      MissingCharNotContained(t[1..], p, k);
    }
  }

  /** The text is lower-cased but the keywords are not: a keyword with an upper-case letter
      never matches. */
  lemma UppercaseKeywordNeverMatches(subject: string, body: string, keyword: string, k: nat)
    requires k < |keyword| && 'A' <= keyword[k] <= 'Z'
    ensures !Contains(FallbackText(subject, body), keyword)
  {
    var text := FallbackText(subject, body);
    assert forall q :: 0 <= q < |text| ==> text[q] == LowerChar((subject + " " + body)[q]);
    MissingCharNotContained(text, keyword, k);
  }
}
