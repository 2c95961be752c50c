/** The ImportanceScorer tool of backend/tools/importance_scorer.py: five additive factors,
    the reasons list, the importance threshold and the four levels. */
module ImportanceScorer {
  import opened Wrappers
  import opened Text
  import opened Json
  import opened EmailParser

  /** The category weight table; any other value gets 10. */
  const CategoryWeights: map<string, nat> := map["Work" := 30, "Important" := 30, "Financial" := 25,
    "Support" := 20, "Announcement" := 15, "Personal" := 10, "Newsletter" := 5, "Spam" := 0]
  const DefaultCategoryWeight: nat := 10

  const AuthorityIndicators: seq<string> := ["boss", "ceo", "manager", "director", "urgent", "important"]
  const OrganisationDomains: seq<string> := [".edu", ".gov", ".org"]
  const HighPriorityKeywords: seq<string> := ["urgent", "important", "asap", "critical", "action required"]
  const MediumPriorityKeywords: seq<string> := ["meeting", "deadline", "response needed", "reminder"]
  const UrgentBodyWords: seq<string> := ["urgent", "asap", "immediately"]

  /** The threshold for `is_important`. */
  const ImportantThreshold: nat := 50

  /** `_score_category`: the table weight of a string category, 10 for anything else that
      can be a dict key, and the TypeError of `dict.get` for a list or an object. */
  function CategoryWeight(category: Json): (r: Result<nat, string>)
    ensures r.Failure? <==> !Hashable(category)
    ensures r.Success? ==> r.value <= 30
    ensures category.JStr? && category.s in CategoryWeights ==> r == Success(CategoryWeights[category.s])
    ensures Hashable(category) && !(category.JStr? && category.s in CategoryWeights) ==>
              r == Success(DefaultCategoryWeight)
  {
    match category
    case JArr(_) => Failure("unhashable type: 'list'")
    case JObj(_) => Failure("unhashable type: 'dict'")
    case JStr(s) => Success(if s in CategoryWeights then CategoryWeights[s] else DefaultCategoryWeight)
    case _ => Success(DefaultCategoryWeight)
  }

  /** `_score_sender`. The address is lower-cased first, so a sender whose address is None
      makes `.lower()` raise. */
  function SenderScore(sender: Sender): (r: Result<nat, string>)
    ensures r.Failure? <==> sender.email.None?
    ensures r.Success? ==> r.value in {25, 15, 10, 0}
    ensures r.Success? ==>
              (r.value == 25 <==> ContainsAny(Lower(sender.name), AuthorityIndicators)
                                  || ContainsAny(Lower(sender.email.value), AuthorityIndicators))
    ensures r.Success? ==>
              (r.value == 15 <==> !ContainsAny(Lower(sender.name), AuthorityIndicators)
                                  && !ContainsAny(Lower(sender.email.value), AuthorityIndicators)
                                  && ContainsAny(Lower(sender.email.value), OrganisationDomains))
    ensures r.Success? ==>
              (r.value == 0 <==> !ContainsAny(Lower(sender.name), AuthorityIndicators)
                                 && !ContainsAny(Lower(sender.email.value), AuthorityIndicators)
                                 && !ContainsAny(Lower(sender.email.value), OrganisationDomains)
                                 && (Contains(Lower(sender.email.value), "noreply")
                                     || Contains(Lower(sender.email.value), "no-reply")))
  {
    match sender.email
    case None => Failure("'NoneType' object has no attribute 'lower'")
    case Some(address) =>
      var email := Lower(address);
      var name := Lower(sender.name);
      Success(if ContainsAny(name, AuthorityIndicators) || ContainsAny(email, AuthorityIndicators) then 25
              else if ContainsAny(email, OrganisationDomains) then 15
              else if Contains(email, "noreply") || Contains(email, "no-reply") then 0
              else 10)
  }

  /** `_score_subject`: high-priority keyword 20, medium 15, a question mark 10, else 5. */
  function SubjectScore(subject: string): (r: nat)
    ensures r in {20, 15, 10, 5}
    ensures r == 20 <==> ContainsAny(Lower(subject), HighPriorityKeywords)
    ensures r == 15 <==> !ContainsAny(Lower(subject), HighPriorityKeywords)
                         && ContainsAny(Lower(subject), MediumPriorityKeywords)
    ensures r == 10 <==> !ContainsAny(Lower(subject), HighPriorityKeywords)
                         && !ContainsAny(Lower(subject), MediumPriorityKeywords) && '?' in subject
  {
    var subjectLower := Lower(subject);
    if ContainsAny(subjectLower, HighPriorityKeywords) then 20
    else if ContainsAny(subjectLower, MediumPriorityKeywords) then 15
    else if '?' in subject then 10
    else 5
  }

  /** `_score_body`: urgent language 15, a question mark 10, fewer than 50 words 8, else 5. */
  function BodyScore(body: string): (r: nat)
    ensures r in {15, 10, 8, 5}
    ensures r == 15 <==> ContainsAny(Lower(body), UrgentBodyWords)
    ensures r == 10 <==> !ContainsAny(Lower(body), UrgentBodyWords) && '?' in body
    ensures r == 8 <==> !ContainsAny(Lower(body), UrgentBodyWords) && '?' !in body && RunCount(body) < 50
  {
    SplitCountsRuns(body);
    if ContainsAny(Lower(body), UrgentBodyWords) then 15
    else if '?' in body then 10
    else if |Split(body)| < 50 then 8
    else 5
  }

  /** Reference value of the metadata factor: 5 for a question, 3 for a phone number and
      2 for a short body. */
  function MetadataPoints(m: Metadata): nat
  {
    (if m.hasQuestion then 5 else 0) + (if m.hasPhone then 3 else 0) + (if m.wordCount < 50 then 2 else 0)
  }

  /** `_score_metadata`, adding to a local score step by step. */
  method ScoreMetadata(m: Metadata) returns (score: nat)
    ensures score == MetadataPoints(m)
    ensures score <= 10
  {
    score := 0;
    if m.hasQuestion {
      score := score + 5;
    }
    if m.hasPhone {
      score := score + 3;
    }
    if m.wordCount < 50 {
      score := score + 2;
    }
  }

  /** `_get_importance_level`: four bands, by the thresholds 70, 50 and 30. */
  function Level(score: int): (level: string)
    ensures level == "Critical" <==> score >= 70
    ensures level == "High" <==> 50 <= score < 70
    ensures level == "Medium" <==> 30 <= score < 50
    ensures level == "Low" <==> score < 30
  {
    if score >= 70 then "Critical"
    else if score >= 50 then "High"
    else if score >= 30 then "Medium"
    else "Low"
  }

  function LevelRank(level: string): nat
  {
    if level == "Critical" then 3 else if level == "High" then 2 else if level == "Medium" then 1 else 0
  }

  /** A higher score never gets a lower level, and a level is High or Critical exactly when
      the score reaches the importance threshold. */
  lemma LevelMonotone(s: int, t: int)
    requires s <= t
    ensures LevelRank(Level(s)) <= LevelRank(Level(t))
    ensures Level(t) == "High" || Level(t) == "Critical" <==> t >= ImportantThreshold
  {
  }

  datatype Factor = CategoryFactor | SenderFactor | SubjectFactor | BodyFactor | MetadataFactor

  function FactorIndex(f: Factor): nat
  {
    match f
    case CategoryFactor => 0
    case SenderFactor => 1
    case SubjectFactor => 2
    case BodyFactor => 3
    case MetadataFactor => 4
  }

  /** One entry of `reasons`: which factor added how many points (the sentence wording is not
      modelled). */
  datatype Reason = Reason(factor: Factor, points: nat)

  /** The tool's dict: the score, the flag, the reasons and the level, or the except branch's
      `success: False` with str(e). */
  datatype ImportanceResult =
    | Scored(score: nat, isImportant: bool, reasons: seq<Reason>, level: string)
    | ScoreFailed(error: string)
  {
    /** `importance_score` as the callers read it: 0 after a failure. */
    function Score(): nat
    {
      if Scored? then score else 0
    }

    /** `is_important` as the callers read it: False after a failure. */
    predicate Important()
    {
      Scored? && isImportant
    }
  }

  /** The five factor entries in factor order. */
  function FactorList(c: nat, s: nat, subject: nat, body: nat, metadata: nat): seq<Reason>
  {
    [Reason(CategoryFactor, c), Reason(SenderFactor, s), Reason(SubjectFactor, subject),
     Reason(BodyFactor, body), Reason(MetadataFactor, metadata)]
  }

  /** All five factor scores in factor order, or the first exception raised. */
  function Factors(email: ParsedEmail, category: Json): (r: Result<seq<Reason>, string>)
  {
    match CategoryWeight(category)
    case Failure(e) => Failure(e)
    case Success(c) =>
      match SenderScore(email.sender)
      case Failure(e) => Failure(e)
      case Success(s) =>
        Success(FactorList(c, s, SubjectScore(email.subject), BodyScore(email.body), MetadataPoints(email.metadata)))
  }

  function Total(rs: seq<Reason>): nat
  {
    if rs == [] then 0 else Total(rs[..|rs| - 1]) + rs[|rs| - 1].points
  }

  /** The factors that added points, in order. */
  function Positive(rs: seq<Reason>): (r: seq<Reason>)
    ensures |r| <= |rs|
  {
    if rs == [] then []
    else Positive(rs[..|rs| - 1]) + IfPositive(rs[|rs| - 1])
  }

  function IfPositive(x: Reason): seq<Reason>
  {
    if x.points > 0 then [x] else []
  }

  lemma PositiveSnoc(xs: seq<Reason>, x: Reason)
    ensures Positive(xs + [x]) == Positive(xs) + IfPositive(x)
    ensures Total(xs + [x]) == Total(xs) + x.points
  {
    assert (xs + [x])[..|xs|] == xs;
  }

  /** The total and the positive entries of the five factors, written out. */
  lemma FactorListSums(c: nat, s: nat, subject: nat, body: nat, metadata: nat)
    ensures Total(FactorList(c, s, subject, body, metadata)) == c + s + subject + body + metadata
    ensures Positive(FactorList(c, s, subject, body, metadata))
            == IfPositive(Reason(CategoryFactor, c)) + IfPositive(Reason(SenderFactor, s))
               + IfPositive(Reason(SubjectFactor, subject)) + IfPositive(Reason(BodyFactor, body))
               + IfPositive(Reason(MetadataFactor, metadata))
  {
    var p1 := [Reason(CategoryFactor, c)];
    var p2 := p1 + [Reason(SenderFactor, s)];
    var p3 := p2 + [Reason(SubjectFactor, subject)];
    var p4 := p3 + [Reason(BodyFactor, body)];
    assert FactorList(c, s, subject, body, metadata) == p4 + [Reason(MetadataFactor, metadata)];
    PositiveSnoc([], Reason(CategoryFactor, c));
    assert [] + [Reason(CategoryFactor, c)] == p1;
    PositiveSnoc(p1, Reason(SenderFactor, s));
    PositiveSnoc(p2, Reason(SubjectFactor, subject));
    PositiveSnoc(p3, Reason(BodyFactor, body));
    PositiveSnoc(p4, Reason(MetadataFactor, metadata));
  }

  /** Reference definition of the tool's result: the five factors summed, the threshold, the
      positive factors as reasons, and the level. */
  function Importance(email: ParsedEmail, category: Json): ImportanceResult
  {
    match Factors(email, category)
    case Failure(e) => ScoreFailed(e)
    case Success(fs) => Scored(Total(fs), Total(fs) >= ImportantThreshold, Positive(fs), Level(Total(fs)))
  }

  /** `ImportanceScorer.execute`: the score grows factor by factor and a reason is appended
      after each factor that added points. */
  method Execute(email: ParsedEmail, category: Json) returns (r: ImportanceResult)
    ensures r == Importance(email, category)
  {
    var score: nat := 0;
    var reasons: seq<Reason> := [];
    var categoryScore := CategoryWeight(category);
    ImportanceFails(email, category);
    if categoryScore.Failure? {
      return ScoreFailed(categoryScore.error);
    }
    score, reasons := AddFactor(score, reasons, Reason(CategoryFactor, categoryScore.value));
    assert reasons == IfPositive(Reason(CategoryFactor, categoryScore.value));
    var senderScore := SenderScore(email.sender);
    if senderScore.Failure? {
      return ScoreFailed(senderScore.error);
    }
    score, reasons := AddFactor(score, reasons, Reason(SenderFactor, senderScore.value));
    var subjectScore := SubjectScore(email.subject);
    score, reasons := AddFactor(score, reasons, Reason(SubjectFactor, subjectScore));
    var bodyScore := BodyScore(email.body);
    score, reasons := AddFactor(score, reasons, Reason(BodyFactor, bodyScore));
    var metadataScore := ScoreMetadata(email.metadata);
    score, reasons := AddFactor(score, reasons, Reason(MetadataFactor, metadataScore));
    ImportanceOf(email, category, categoryScore.value, senderScore.value);
    r := Scored(score, score >= ImportantThreshold, reasons, Level(score));
  }

  /** One factor step of `execute`: its points are added, and its reason appended when it
      added any. */
  method AddFactor(score: nat, reasons: seq<Reason>, factor: Reason) returns (score': nat, reasons': seq<Reason>)
    ensures score' == score + factor.points
    ensures reasons' == reasons + IfPositive(factor)
  {
    score' := score + factor.points;
    reasons' := reasons;
    if factor.points > 0 {
      reasons' := reasons' + [factor];
    }
  }

  /** The reference result when one of the two factors that can raise does. */
  lemma ImportanceFails(email: ParsedEmail, category: Json)
    ensures CategoryWeight(category).Failure? ==>
              Importance(email, category) == ScoreFailed(CategoryWeight(category).error)
    ensures CategoryWeight(category).Success? && SenderScore(email.sender).Failure? ==>
              Importance(email, category) == ScoreFailed(SenderScore(email.sender).error)
  {
  }

  /** The reference result once the two factors that can raise have returned. */
  lemma ImportanceOf(email: ParsedEmail, category: Json, c: nat, s: nat)
    requires CategoryWeight(category) == Success(c) && SenderScore(email.sender) == Success(s)
    ensures var total := c + s + SubjectScore(email.subject) + BodyScore(email.body) + MetadataPoints(email.metadata);
            Importance(email, category)
            == Scored(total, total >= ImportantThreshold,
                      IfPositive(Reason(CategoryFactor, c)) + IfPositive(Reason(SenderFactor, s))
                      + IfPositive(Reason(SubjectFactor, SubjectScore(email.subject)))
                      + IfPositive(Reason(BodyFactor, BodyScore(email.body)))
                      + IfPositive(Reason(MetadataFactor, MetadataPoints(email.metadata))),
                      Level(total))
  {
    FactorListSums(c, s, SubjectScore(email.subject), BodyScore(email.body), MetadataPoints(email.metadata));
  }

  /** A successful result is the reference definition applied to the five factor values. */
  lemma ScoredUnfold(email: ParsedEmail, category: Json)
    requires Importance(email, category).Scored?
    ensures CategoryWeight(category).Success? && SenderScore(email.sender).Success?
    ensures var fs := FactorList(CategoryWeight(category).value, SenderScore(email.sender).value,
                                 SubjectScore(email.subject), BodyScore(email.body), MetadataPoints(email.metadata));
            Importance(email, category) == Scored(Total(fs), Total(fs) >= ImportantThreshold, Positive(fs), Level(Total(fs)))
  {
  }

  /** A successful score lies between 10 and 100, and the email is important exactly when it
      reaches 50. */
  lemma ScoreBounds(email: ParsedEmail, category: Json)
    requires Importance(email, category).Scored?
    ensures 10 <= Importance(email, category).score <= 100
    ensures Importance(email, category).isImportant <==> Importance(email, category).score >= 50
  {
    ScoredUnfold(email, category);
    FactorListSums(CategoryWeight(category).value, SenderScore(email.sender).value,
                   SubjectScore(email.subject), BodyScore(email.body), MetadataPoints(email.metadata));
  }

  /** Entries appear in strictly increasing factor order. */
  predicate InFactorOrder(rs: seq<Reason>)
  {
    forall a, b :: 0 <= a < b < |rs| ==> FactorIndex(rs[a].factor) < FactorIndex(rs[b].factor)
  }

  /** Dropping the zero entries keeps the total. */
  lemma {:induction false} PositiveTotal(rs: seq<Reason>)
    ensures Total(Positive(rs)) == Total(rs)
  {
    if rs != [] {
      var init, last := rs[..|rs| - 1], rs[|rs| - 1];
      PositiveTotal(init);
      if last.points > 0 {
        PositiveSnoc(Positive(init), last);
      } else {
        assert Positive(init) + [] == Positive(init);
      }
    }
  }

  /** Dropping the zero entries keeps exactly the entries with points. */
  lemma {:induction false} PositiveMembers(rs: seq<Reason>)
    ensures forall x :: x in Positive(rs) <==> x in rs && x.points > 0
  {
    if rs != [] {
      var init, last := rs[..|rs| - 1], rs[|rs| - 1];
      assert rs == init + [last];
      PositiveMembers(init);
    }
  }

  /** Dropping the zero entries keeps the factor order. */
  lemma {:induction false} PositiveOrder(rs: seq<Reason>)
    requires InFactorOrder(rs)
    ensures InFactorOrder(Positive(rs))
  {
    if rs != [] {
      var init, last := rs[..|rs| - 1], rs[|rs| - 1];
      assert InFactorOrder(init);
      PositiveOrder(init);
      PositiveMembers(init);
      var head := Positive(init);
      if last.points > 0 {
        assert Positive(rs) == head + [last];
        forall a, b | 0 <= a < b < |Positive(rs)|
          ensures FactorIndex(Positive(rs)[a].factor) < FactorIndex(Positive(rs)[b].factor)
        {
          assert Positive(rs)[a] == head[a];
          if b < |head| {
            assert Positive(rs)[b] == head[b];
          } else {
            assert head[a] in init;
            var k :| 0 <= k < |init| && init[k] == head[a];
            assert rs[k] == head[a];
          }
        }
      } else {
        assert Positive(rs) == head;
      }
    }
  }

  /** The reasons are the positive factors in factor order; subject and body always count, so
      there are two to five of them, and their points add up to the score. */
  lemma ReasonsShape(email: ParsedEmail, category: Json)
    requires Importance(email, category).Scored?
    ensures var rs := Importance(email, category).reasons;
            2 <= |rs| <= 5
            && Reason(SubjectFactor, SubjectScore(email.subject)) in rs
            && Reason(BodyFactor, BodyScore(email.body)) in rs
            && InFactorOrder(rs)
            && Total(rs) == Importance(email, category).score
  {
    ScoredUnfold(email, category);
    FactorListShape(CategoryWeight(category).value, SenderScore(email.sender).value,
                    SubjectScore(email.subject), BodyScore(email.body), MetadataPoints(email.metadata));
  }

  /** `ReasonsShape` for any five factor values of which subject and body are positive. */
  lemma FactorListShape(c: nat, s: nat, subject: nat, body: nat, metadata: nat)
    requires subject > 0 && body > 0
    ensures var fs := FactorList(c, s, subject, body, metadata);
            var rs := Positive(fs);
            2 <= |rs| <= 5
            && Reason(SubjectFactor, subject) in rs && Reason(BodyFactor, body) in rs
            && InFactorOrder(rs) && Total(rs) == Total(fs)
  {
    var fs := FactorList(c, s, subject, body, metadata);
    FactorListSums(c, s, subject, body, metadata);
    assert InFactorOrder(fs);
    PositiveOrder(fs);
    PositiveTotal(fs);
    PositiveMembers(fs);
    assert fs[2] in fs && fs[3] in fs;
  }

  /** A list or object category, or a sender without an address, sends the tool into its
      except branch: score 0, not important, no level. */
  lemma FailureCases(email: ParsedEmail, category: Json)
    ensures Importance(email, category).ScoreFailed? <==> !Hashable(category) || email.sender.email.None?
    ensures Importance(email, category).ScoreFailed? ==>
              Importance(email, category).Score() == 0 && !Importance(email, category).Important()
  {
  }

  /** A successful Work score is at least 30 + 0 + 5 + 5 + 0 = 40. */
  lemma WorkScoresAtLeast40(email: ParsedEmail)
    requires Importance(email, JStr("Work")).Scored?
    ensures Importance(email, JStr("Work")).score >= 40
  {
    ImportanceFails(email, JStr("Work"));
    WorkWeight();
    ImportanceOf(email, JStr("Work"), 30, SenderScore(email.sender).value);
  }

  lemma WorkWeight()
    ensures CategoryWeight(JStr("Work")) == Success(30)
  {
    assert "Work" in CategoryWeights;
  }
}
