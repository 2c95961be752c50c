/** The ToneAnalyzer tool of backend/tools/tone_analyzer.py: phrase tests on the lower-cased
    subject and body, the tone list built in a fixed order, and the primary tone chosen by
    priority. */
module ToneAnalyzer {
  import opened Text

  const FormalIndicators: seq<string> := ["dear sir", "dear madam", "to whom it may concern",
    "sincerely", "respectfully", "regards", "kindly", "hereby", "pursuant"]
  const CasualIndicators: seq<string> := ["hey", "hi there", "thanks", "cheers", "cool",
    "awesome", "gonna", "wanna"]
  const UrgentKeywords: seq<string> := ["urgent", "asap", "immediately", "critical", "emergency",
    "important", "time-sensitive", "action required", "respond now"]
  const PositiveWords: seq<string> := ["thank", "great", "excellent", "wonderful", "appreciate",
    "happy", "pleased", "glad"]
  const NegativeWords: seq<string> := ["sorry", "unfortunately", "disappointed", "concerned",
    "problem", "issue", "mistake", "error", "unhappy"]
  const GratitudeWords: seq<string> := ["thank", "appreciate", "grateful", "thanks"]
  const ApologyWords: seq<string> := ["sorry", "apologize", "apologies", "regret"]
  const QuestionIndicators: seq<string> := ["?", "could you", "would you", "can you",
    "please let me know"]

  /** The text every test runs on: `f"{subject} {body}".lower()`. */
  function AnalysisText(body: string, subject: string): (t: string)
    ensures |t| == |subject| + 1 + |body|
    ensures t[|subject|] == ' '
    ensures t == Lower(subject) + " " + Lower(body)
    ensures forall i :: 0 <= i < |t| ==> !('A' <= t[i] <= 'Z')
  {
    var t := Lower(subject + " " + body);
    assert forall i :: 0 <= i < |t| ==> t[i] == (Lower(subject) + " " + Lower(body))[i];
    t
  }

  lemma IndicatorListsDistinct()
    ensures Distinct(FormalIndicators) && Distinct(CasualIndicators)
  {
  }

  /** `_detect_formality`: compares how many distinct formal and casual phrases occur. */
  function Formality(text: string): (f: string)
    ensures f == "formal" <==> |PresentSet(text, FormalIndicators)| > |PresentSet(text, CasualIndicators)|
    ensures f == "casual" <==> |PresentSet(text, CasualIndicators)| > |PresentSet(text, FormalIndicators)|
    ensures f == "neutral" <==> |PresentSet(text, FormalIndicators)| == |PresentSet(text, CasualIndicators)|
    ensures f == "formal" || f == "casual" || f == "neutral"
  {
    IndicatorListsDistinct();
    CountPresentIsDistinctCount(text, FormalIndicators);
    CountPresentIsDistinctCount(text, CasualIndicators);
    var formalCount := CountPresent(text, FormalIndicators);
    var casualCount := CountPresent(text, CasualIndicators);
    if formalCount > casualCount then "formal"
    else if casualCount > formalCount then "casual"
    else "neutral"
  }

  /** `_is_urgent`: some entry of the list occurs in the text. */
  predicate IsUrgent(text: string): (b: bool)
    ensures b <==> CountPresent(text, UrgentKeywords) > 0
  {
    CountPresentPositive(text, UrgentKeywords);
    ContainsAny(text, UrgentKeywords)
  }

  /** `_detect_sentiment`: the side with strictly more words present, or "" on a tie
      (0 against 0 included). */
  function Sentiment(text: string): (s: string)
    ensures s == "positive" <==> CountPresent(text, PositiveWords) > CountPresent(text, NegativeWords)
    ensures s == "negative" <==> CountPresent(text, NegativeWords) > CountPresent(text, PositiveWords)
    ensures s == "" <==> CountPresent(text, PositiveWords) == CountPresent(text, NegativeWords)
    ensures s == "positive" || s == "negative" || s == ""
  {
    var positiveCount := CountPresent(text, PositiveWords);
    var negativeCount := CountPresent(text, NegativeWords);
    if positiveCount > negativeCount && positiveCount > 0 then "positive"
    else if negativeCount > positiveCount && negativeCount > 0 then "negative"
    else ""
  }

  /** `_is_grateful`: some entry of the list occurs in the text. */
  predicate IsGrateful(text: string): (b: bool)
    ensures b <==> CountPresent(text, GratitudeWords) > 0
  {
    CountPresentPositive(text, GratitudeWords);
    ContainsAny(text, GratitudeWords)
  }

  /** `_is_apologetic`: some entry of the list occurs in the text. */
  predicate IsApologetic(text: string): (b: bool)
    ensures b <==> CountPresent(text, ApologyWords) > 0
  {
    CountPresentPositive(text, ApologyWords);
    ContainsAny(text, ApologyWords)
  }

  /** `_is_inquisitive`: some entry of the list occurs in the text. */
  predicate IsInquisitive(text: string): (b: bool)
    ensures b <==> CountPresent(text, QuestionIndicators) > 0
  {
    CountPresentPositive(text, QuestionIndicators);
    ContainsAny(text, QuestionIndicators)
  }

  /** The tone names in the order `execute` may append them. */
  const ToneOrder: seq<string> := ["urgent", "positive", "negative", "grateful", "apologetic",
    "inquisitive"]

  /** Whether the test behind the k-th tone name holds of the text. */
  predicate HasTone(text: string, k: nat)
  {
    if k == 0 then IsUrgent(text)
    else if k == 1 then Sentiment(text) == "positive"
    else if k == 2 then Sentiment(text) == "negative"
    else if k == 3 then IsGrateful(text)
    else if k == 4 then IsApologetic(text)
    else if k == 5 then IsInquisitive(text)
    else false
  }

  /** Reference definition of the tone list: from position k of the tone order on, the names
      whose test holds, in order. */
  function FilterTones(text: string, k: nat): (r: seq<string>)
    requires k <= |ToneOrder|
    ensures |r| <= |ToneOrder| - k
    decreases |ToneOrder| - k
  {
    if k == |ToneOrder| then []
    else (if HasTone(text, k) then [ToneOrder[k]] else []) + FilterTones(text, k + 1)
  }

  function DetectedTones(text: string): seq<string>
  {
    FilterTones(text, 0)
  }

  function Optional(b: bool, tone: string): seq<string>
  {
    if b then [tone] else []
  }

  lemma FilterStep(text: string, k: nat)
    requires k < |ToneOrder|
    ensures FilterTones(text, k) == Optional(HasTone(text, k), ToneOrder[k]) + FilterTones(text, k + 1)
  {
  }

  /** The filter over the six names, written out one name at a time. */
  lemma DetectedTonesUnfold(text: string)
    ensures DetectedTones(text)
            == Optional(IsUrgent(text), "urgent") + (Optional(Sentiment(text) == "positive", "positive")
               + (Optional(Sentiment(text) == "negative", "negative") + (Optional(IsGrateful(text), "grateful")
               + (Optional(IsApologetic(text), "apologetic") + Optional(IsInquisitive(text), "inquisitive")))))
  {
    FilterStep(text, 0);
    FilterStep(text, 1);
    FilterStep(text, 2);
    FilterStep(text, 3);
    FilterStep(text, 4);
    FilterStep(text, 5);
    assert FilterTones(text, 6) == [];
    assert Optional(IsInquisitive(text), "inquisitive") + [] == Optional(IsInquisitive(text), "inquisitive");
  }

  /** `_determine_primary_tone`: the answer of some priority entry whose tone is present, or
      the formality; urgency beats everything. */
  function PrimaryTone(formality: string, tones: seq<string>): (p: string)
    ensures p == formality || exists k :: 0 <= k < |Priority| && Priority[k].0 in tones && p == Priority[k].1
    ensures "urgent" in tones ==> p == "urgent"
    ensures tones == [] ==> p == formality
  {
    if "urgent" in tones then assert Priority[0] == ("urgent", "urgent"); "urgent"
    else if "apologetic" in tones then assert Priority[1] == ("apologetic", "apologetic"); "apologetic"
    else if "grateful" in tones then assert Priority[2] == ("grateful", "grateful"); "grateful"
    else if "inquisitive" in tones then assert Priority[3] == ("inquisitive", "inquisitive"); "inquisitive"
    else if "positive" in tones then assert Priority[4] == ("positive", "friendly"); "friendly"
    else if "negative" in tones then assert Priority[5] == ("negative", "concerned"); "concerned"
    else formality
  }

  /** The priority table: each tone and the primary tone it yields, highest first. */
  const Priority: seq<(string, string)> := [("urgent", "urgent"), ("apologetic", "apologetic"),
    ("grateful", "grateful"), ("inquisitive", "inquisitive"), ("positive", "friendly"),
    ("negative", "concerned")]

  /** Reference definition: the first table entry whose tone was detected, else the fallback. */
  function FirstByPriority(table: seq<(string, string)>, tones: seq<string>, fallback: string): (p: string)
    ensures p == fallback || exists k :: 0 <= k < |table| && p == table[k].1
  {
    if table == [] then fallback
    else if table[0].0 in tones then table[0].1
    else
      var p := FirstByPriority(table[1..], tones, fallback);
      assert p != fallback ==> exists k :: 0 <= k < |table| - 1 && p == table[1..][k].1;
      p
  }

  lemma FirstCons(entry: (string, string), rest: seq<(string, string)>, tones: seq<string>, fallback: string)
    ensures FirstByPriority([entry] + rest, tones, fallback)
            == if entry.0 in tones then entry.1 else FirstByPriority(rest, tones, fallback)
  {
    assert ([entry] + rest)[1..] == rest;
  }

  /** The if-chain agrees with the priority table. */
  lemma PrimaryToneByPriority(formality: string, tones: seq<string>)
    ensures PrimaryTone(formality, tones) == FirstByPriority(Priority, tones, formality)
  {
    FirstCons(("negative", "concerned"), [], tones, formality);
    FirstCons(("positive", "friendly"), [("negative", "concerned")], tones, formality);
    FirstCons(("inquisitive", "inquisitive"), [("positive", "friendly"), ("negative", "concerned")],
              tones, formality);
    FirstCons(("grateful", "grateful"), [("inquisitive", "inquisitive"), ("positive", "friendly"),
              ("negative", "concerned")], tones, formality);
    FirstCons(("apologetic", "apologetic"), [("grateful", "grateful"), ("inquisitive", "inquisitive"),
              ("positive", "friendly"), ("negative", "concerned")], tones, formality);
    FirstCons(("urgent", "urgent"), [("apologetic", "apologetic"), ("grateful", "grateful"),
              ("inquisitive", "inquisitive"), ("positive", "friendly"), ("negative", "concerned")],
              tones, formality);
    assert Priority == [("urgent", "urgent")] + [("apologetic", "apologetic"), ("grateful", "grateful"),
              ("inquisitive", "inquisitive"), ("positive", "friendly"), ("negative", "concerned")];
  }

  /** The tool's result on success. */
  datatype ToneResult = ToneResult(primaryTone: string, formality: string, allTones: seq<string>,
                                   confidence: real)

  /** `ToneAnalyzer.execute`: the tone list is built by successive appends. */
  method Execute(body: string, subject: string) returns (r: ToneResult)
    ensures r.allTones == DetectedTones(AnalysisText(body, subject))
    ensures r.formality == Formality(AnalysisText(body, subject))
    ensures r.primaryTone == PrimaryTone(r.formality, r.allTones)
    ensures r.confidence == 0.8
  {
    var text := AnalysisText(body, subject);
    var tones: seq<string> := [];
    var formality := Formality(text);
    if IsUrgent(text) {
      tones := tones + ["urgent"];
    }
    assert tones == Optional(IsUrgent(text), "urgent");
    var sentiment := Sentiment(text);
    if sentiment != "" {
      tones := tones + [sentiment];
    }
    ghost var upToSentiment := Optional(Sentiment(text) == "positive", "positive")
                               + Optional(Sentiment(text) == "negative", "negative");
    assert tones == Optional(IsUrgent(text), "urgent") + upToSentiment;
    if IsGrateful(text) {
      tones := tones + ["grateful"];
    }
    assert tones == Optional(IsUrgent(text), "urgent") + upToSentiment + Optional(IsGrateful(text), "grateful");
    if IsApologetic(text) {
      tones := tones + ["apologetic"];
    }
    assert tones == Optional(IsUrgent(text), "urgent") + upToSentiment + Optional(IsGrateful(text), "grateful")
                    + Optional(IsApologetic(text), "apologetic");
    if IsInquisitive(text) {
      tones := tones + ["inquisitive"];
    }
    assert tones == Optional(IsUrgent(text), "urgent") + upToSentiment + Optional(IsGrateful(text), "grateful")
                    + Optional(IsApologetic(text), "apologetic") + Optional(IsInquisitive(text), "inquisitive");
    DetectedTonesUnfold(text);
    ConcatAssoc(Optional(IsUrgent(text), "urgent"), Optional(Sentiment(text) == "positive", "positive"),
                Optional(Sentiment(text) == "negative", "negative"), Optional(IsGrateful(text), "grateful"),
                Optional(IsApologetic(text), "apologetic"), Optional(IsInquisitive(text), "inquisitive"));
    r := ToneResult(PrimaryTone(formality, tones), formality, tones, 0.8);
  }

  lemma ConcatAssoc(a: seq<string>, b: seq<string>, c: seq<string>, d: seq<string>, e: seq<string>,
                    f: seq<string>)
    ensures a + (b + (c + (d + (e + f)))) == a + (b + c) + d + e + f
  {
  }

  lemma ToneOrderDistinct()
    ensures Distinct(ToneOrder)
  {
  }

  /** Every detected tone is a name of the tone order at or after position k. */
  lemma {:induction false} FilterMembers(text: string, k: nat)
    requires k <= |ToneOrder|
    ensures forall t :: t in FilterTones(text, k) ==> t in ToneOrder[k..]
    decreases |ToneOrder| - k
  {
    if k < |ToneOrder| {
      FilterStep(text, k);
      FilterMembers(text, k + 1);
      assert ToneOrder[k..] == [ToneOrder[k]] + ToneOrder[k + 1..];
    }
  }

  /** A name after position k is detected exactly when its test holds. */
  lemma {:induction false} FilterMembership(text: string, k: nat, j: nat)
    requires k <= j < |ToneOrder|
    ensures ToneOrder[j] in FilterTones(text, k) <==> HasTone(text, j)
    decreases j - k
  {
    ToneOrderDistinct();
    FilterStep(text, k);
    FilterMembers(text, k + 1);
    if k == j {
      assert ToneOrder[k] !in ToneOrder[k + 1..];
    } else {
      assert ToneOrder[j] != ToneOrder[k];
      FilterMembership(text, k + 1, j);
    }
  }

  /** The tone list never repeats a name. */
  lemma {:induction false} TonesDistinct(text: string, k: nat)
    requires k <= |ToneOrder|
    ensures Distinct(FilterTones(text, k))
    decreases |ToneOrder| - k
  {
    if k < |ToneOrder| {
      ToneOrderDistinct();
      FilterStep(text, k);
      TonesDistinct(text, k + 1);
      FilterMembers(text, k + 1);
      assert ToneOrder[k] !in FilterTones(text, k + 1) by {
        assert ToneOrder[k] !in ToneOrder[k + 1..];
      }
      if HasTone(text, k) {
        DistinctCons(ToneOrder[k], FilterTones(text, k + 1));
      } else {
        assert FilterTones(text, k) == FilterTones(text, k + 1);
      }
    }
  }

  /** At most one of "positive" and "negative" appears, and neither on a tie. */
  lemma AtMostOneSentiment(text: string)
    ensures !("positive" in DetectedTones(text) && "negative" in DetectedTones(text))
    ensures CountPresent(text, PositiveWords) == CountPresent(text, NegativeWords) ==>
              "positive" !in DetectedTones(text) && "negative" !in DetectedTones(text)
  {
    FilterMembership(text, 0, 1);
    FilterMembership(text, 0, 2);
  }

  /** The tone list has at most five entries: the two sentiments exclude each other. */
  lemma TonesBounded(text: string)
    ensures |DetectedTones(text)| <= 5
  {
    DetectedTonesUnfold(text);
  }

  lemma PrimaryToneOfNames(formality: string, tones: seq<string>)
    requires formality == "formal" || formality == "casual" || formality == "neutral"
    requires forall t :: t in tones ==> t in ToneOrder
    ensures PrimaryTone(formality, tones) == formality <==> tones == []
  {
    if tones != [] {
      assert tones[0] in ToneOrder;
    }
  }

  /** The primary tone falls back to the formality exactly when no tone was detected. */
  lemma PrimaryIsFormalityIffNoTones(text: string)
    ensures PrimaryTone(Formality(text), DetectedTones(text)) == Formality(text)
            <==> DetectedTones(text) == []
  {
    FilterMembers(text, 0);
    PrimaryToneOfNames(Formality(text), DetectedTones(text));
  }

  /** Any text mentioning "important" is urgent, and so is its primary tone. */
  lemma ImportantMeansUrgent(text: string)
    requires Contains(text, "important")
    ensures "urgent" in DetectedTones(text)
    ensures PrimaryTone(Formality(text), DetectedTones(text)) == "urgent"
  {
    assert "important" in UrgentKeywords;
    FilterMembership(text, 0, 0);
  }

  /** The four phrase tests are substring tests: surrounding text never switches one off. */
  lemma ToneTestsInContext(pre: string, text: string, post: string)
    ensures IsUrgent(text) ==> IsUrgent(pre + text + post)
    ensures IsGrateful(text) ==> IsGrateful(pre + text + post)
    ensures IsApologetic(text) ==> IsApologetic(pre + text + post)
    ensures IsInquisitive(text) ==> IsInquisitive(pre + text + post)
  {
    if IsUrgent(text) { ContainsAnyInContext(pre, text, post, UrgentKeywords); }
    if IsGrateful(text) { ContainsAnyInContext(pre, text, post, GratitudeWords); }
    if IsApologetic(text) { ContainsAnyInContext(pre, text, post, ApologyWords); }
    if IsInquisitive(text) { ContainsAnyInContext(pre, text, post, QuestionIndicators); }
  }
}
