/** The Decision Agent of backend/agents/decision_agent.py: the importance score and the tone
    of an email, and the suggested actions built from them by a fixed rule table. */
module DecisionAgent {
  import opened Json
  import opened Text
  import opened EmailParser
  import IS = ImportanceScorer
  import TA = ToneAnalyzer

  const Name := "Decision Agent"

  /** The suggested actions; `Name` is the string the agent puts in its list. */
  datatype Action =
    | Delete | Unsubscribe | Highlight | PriorityInbox | ReplyAsap | Flag | NeedsReply | Track
    | CalendarReminder | Archive | MarkAsRead | ReadLater | Review
  {
    function Name(): string
    {
      match this
      case Delete => "delete"
      case Unsubscribe => "unsubscribe"
      case Highlight => "highlight"
      case PriorityInbox => "priority_inbox"
      case ReplyAsap => "reply_asap"
      case Flag => "flag"
      case NeedsReply => "needs_reply"
      case Track => "track"
      case CalendarReminder => "calendar_reminder"
      case Archive => "archive"
      case MarkAsRead => "mark_as_read"
      case ReadLater => "read_later"
      case Review => "review"
    }
  }

  /** Distinct actions have distinct names. */
  lemma NameInjective(a: Action, b: Action)
    requires a.Name() == b.Name()
    ensures a == b
  {
  }

  /** The list of strings the agent returns. */
  function ActionNames(actions: seq<Action>): (names: seq<string>)
    ensures |names| == |actions| && forall i :: 0 <= i < |actions| ==> names[i] == actions[i].Name()
  {
    if actions == [] then [] else [actions[0].Name()] + ActionNames(actions[1..])
  }

  /** `actions` when `cond` holds, nothing otherwise. */
  function When(cond: bool, actions: seq<Action>): seq<Action>
  {
    if cond then actions else []
  }

  /** The rules after the Spam check, each contributing its actions in table order, given
      which rule conditions hold. */
  function Fired(important: bool, urgent: bool, inquisitive: bool, work: bool, reminder: bool,
                 financial: bool, newsletter: bool): seq<Action>
  {
    When(important, [Highlight, PriorityInbox])
    + When(urgent, [ReplyAsap, Flag])
    + When(inquisitive, [NeedsReply])
    + When(work, [Track] + When(reminder, [CalendarReminder]))
    + When(financial, [Archive, MarkAsRead])
    + When(newsletter, [ReadLater, Archive])
  }

  /** The rule table applied to the importance flag and score, the tones and the category. */
  function RuleActions(important: bool, score: int, tones: seq<string>, category: Json): seq<Action>
  {
    Fired(important, "urgent" in tones, "inquisitive" in tones, category == JStr("Work"), score > 30,
          category == JStr("Financial"), category == JStr("Newsletter"))
  }

  /** Reference definition of `_decide_actions`: Spam is deleted and unsubscribed; otherwise
      the rule table, or Review when no rule fired. */
  function Actions(important: bool, score: int, tones: seq<string>, category: Json): seq<Action>
  {
    if category == JStr("Spam") then [Delete, Unsubscribe]
    else
      var fired := RuleActions(important, score, tones, category);
      if fired == [] then [Review] else fired
  }

  lemma AppendTwo(s: seq<Action>, x: Action, y: Action)
    ensures s + [x] + [y] == s + [x, y]
  {
  }

  /** `_decide_actions` over the two tool results: an early return for Spam, then the rule
      table, then Review when nothing was added. */
  method DecideActions(importance: IS.ImportanceResult, tone: TA.ToneResult, category: Json)
    returns (actions: seq<Action>)
    ensures actions == Actions(importance.Important(), importance.Score(), tone.allTones, category)
  {
    actions := [];
    if category == JStr("Spam") {
      actions := actions + [Delete];
      actions := actions + [Unsubscribe];
      return actions;
    }
    actions := ApplyRules(importance.Important(), importance.Score(), tone.allTones, category);
    if actions == [] {
      actions := actions + [Review];
    }
  }

  /** The rule part of `_decide_actions`: the list grows by conditional appends, rule by rule. */
  method ApplyRules(important: bool, score: int, tones: seq<string>, category: Json)
    returns (actions: seq<Action>)
    ensures actions == RuleActions(important, score, tones, category)
  {
    actions := [];
    var urgent, inquisitive := "urgent" in tones, "inquisitive" in tones;
    var work, financial, newsletter := category == JStr("Work"), category == JStr("Financial"),
                                       category == JStr("Newsletter");
    if important {
      actions := actions + [Highlight];
      actions := actions + [PriorityInbox];
      AppendTwo([], Highlight, PriorityInbox);
    }
    ghost var s1 := actions;
    assert s1 == When(important, [Highlight, PriorityInbox]);
    if urgent {
      actions := actions + [ReplyAsap];
      actions := actions + [Flag];
      AppendTwo(s1, ReplyAsap, Flag);
    }
    ghost var s2 := actions;
    assert s2 == s1 + When(urgent, [ReplyAsap, Flag]);
    if inquisitive {
      actions := actions + [NeedsReply];
    }
    ghost var s3 := actions;
    assert s3 == s2 + When(inquisitive, [NeedsReply]);
    if work {
      actions := actions + [Track];
      if score > 30 {
        actions := actions + [CalendarReminder];
        AppendTwo(s3, Track, CalendarReminder);
      }
    }
    ghost var s4 := actions;
    assert s4 == s3 + When(work, [Track] + When(score > 30, [CalendarReminder]));
    if financial {
      actions := actions + [Archive];
      actions := actions + [MarkAsRead];
      AppendTwo(s4, Archive, MarkAsRead);
    }
    ghost var s5 := actions;
    assert s5 == s4 + When(financial, [Archive, MarkAsRead]);
    if newsletter {
      actions := actions + [ReadLater];
      actions := actions + [Archive];
      AppendTwo(s5, ReadLater, Archive);
    }
    assert actions == s5 + When(newsletter, [ReadLater, Archive]);
  }

  /** The agent's success dict. */
  datatype Decision = Decision(isImportant: bool, importanceScore: nat, importanceLevel: string,
                               tone: string, formality: string, suggestedActions: seq<Action>,
                               toolsUsed: seq<string>)

  /** Reference definition of `process`: the scorer's result for the context's category, the
      tone analysis, and the actions both decide. */
  function Decide(email: ParsedEmail, category: Json): Decision
  {
    var importance := IS.Importance(email, category);
    var text := TA.AnalysisText(email.body, email.subject);
    Decision(importance.Important(), importance.Score(), if importance.Scored? then importance.level else "Low",
             TA.PrimaryTone(TA.Formality(text), TA.DetectedTones(text)), TA.Formality(text),
             Actions(importance.Important(), importance.Score(), TA.DetectedTones(text), category),
             ["ImportanceScorer", "ToneAnalyzer"])
  }

  /** `DecisionAgent.process`: scores the email for the context's category (JNull without one),
      analyses its tone, and decides the actions. */
  method Process(email: ParsedEmail, category: Json) returns (r: Decision)
    ensures var importance := IS.Importance(email, category);
            var text := TA.AnalysisText(email.body, email.subject);
            r.isImportant == importance.Important()
            && r.importanceScore == importance.Score()
            && r.importanceLevel == (if importance.Scored? then importance.level else "Low")
            && r.formality == TA.Formality(text)
            && r.tone == TA.PrimaryTone(TA.Formality(text), TA.DetectedTones(text))
            && r.suggestedActions
               == Actions(importance.Important(), importance.Score(), TA.DetectedTones(text), category)
            && r.toolsUsed == ["ImportanceScorer", "ToneAnalyzer"]
    ensures r == Decide(email, category)
  {
    var importance := IS.Execute(email, category);
    var tone := TA.Execute(email.body, email.subject);
    var actions := DecideActions(importance, tone, category);
    r := Decision(importance.Important(), importance.Score(),
                  if importance.Scored? then importance.level else "Low",
                  tone.primaryTone, tone.formality, actions, ["ImportanceScorer", "ToneAnalyzer"]);
  }

  /** Spam gets exactly delete and unsubscribe, whatever the score and the tones. */
  lemma SpamIsDeleted(important: bool, score: int, tones: seq<string>)
    ensures Actions(important, score, tones, JStr("Spam")) == [Delete, Unsubscribe]
  {
  }

  /** The list is never empty, and it is [Review] exactly when no rule fired. */
  lemma ReviewIffNoRule(important: bool, score: int, tones: seq<string>, category: Json)
    ensures |Actions(important, score, tones, category)| >= 1
    ensures Actions(important, score, tones, category) == [Review] <==>
              category != JStr("Spam") && !important && "urgent" !in tones && "inquisitive" !in tones
              && category !in {JStr("Work"), JStr("Financial"), JStr("Newsletter")}
  {
    var work, financial, newsletter := category == JStr("Work"), category == JStr("Financial"),
                                       category == JStr("Newsletter");
    FiredNoReview(important, "urgent" in tones, "inquisitive" in tones, work, score > 30, financial, newsletter);
    assert RuleActions(important, score, tones, category)
           == Fired(important, "urgent" in tones, "inquisitive" in tones, work, score > 30, financial, newsletter);
  }

  /** The rule table adds nothing exactly when none of its conditions holds, and never Review. */
  lemma FiredNoReview(important: bool, urgent: bool, inquisitive: bool, work: bool, reminder: bool,
                      financial: bool, newsletter: bool)
    ensures var fired := Fired(important, urgent, inquisitive, work, reminder, financial, newsletter);
            Review !in fired
            && (fired == [] <==> !important && !urgent && !inquisitive && !work && !financial && !newsletter)
  {
  }

  lemma DistinctAppend(xs: seq<Action>, ys: seq<Action>)
    requires Distinct(xs) && Distinct(ys)
    requires forall x :: x in xs ==> x !in ys
    ensures Distinct(xs + ys)
  {
    var r := xs + ys;
    forall a, b | 0 <= a < b < |r|
      ensures r[a] != r[b]
    {
      if b < |xs| {
        assert r[a] == xs[a] && r[b] == xs[b];
      } else if a >= |xs| {
        assert r[a] == ys[a - |xs|] && r[b] == ys[b - |xs|];
      } else {
        assert r[a] == xs[a] && r[a] in xs;
        assert r[b] == ys[b - |xs|] && r[b] in ys;
      }
    }
  }

  /** No action is suggested twice. */
  lemma ActionsDistinct(important: bool, score: int, tones: seq<string>, category: Json)
    ensures Distinct(Actions(important, score, tones, category))
  {
    if category == JStr("Spam") {
      assert Actions(important, score, tones, category) == [Delete, Unsubscribe];
      return;
    }
    var fired := RuleActions(important, score, tones, category);
    if fired == [] {
      assert Actions(important, score, tones, category) == [Review];
      return;
    }
    assert Actions(important, score, tones, category) == fired;
    FiredDistinct(important, "urgent" in tones, "inquisitive" in tones, category == JStr("Work"), score > 30,
                  category == JStr("Financial"), category == JStr("Newsletter"));
  }

  /** The rule table never adds an action twice when Financial and Newsletter exclude each
      other (both add Archive). */
  lemma FiredDistinct(important: bool, urgent: bool, inquisitive: bool, work: bool, reminder: bool,
                      financial: bool, newsletter: bool)
    requires !(financial && newsletter)
    ensures Distinct(Fired(important, urgent, inquisitive, work, reminder, financial, newsletter))
  {
    var a := When(important, [Highlight, PriorityInbox]);
    var b := When(urgent, [ReplyAsap, Flag]);
    var c := When(inquisitive, [NeedsReply]);
    var d := When(work, [Track] + When(reminder, [CalendarReminder]));
    var e := When(financial, [Archive, MarkAsRead]);
    var f := When(newsletter, [ReadLater, Archive]);
    assert Distinct(a) && Distinct(b) && Distinct(c) && Distinct(d) && Distinct(e) && Distinct(f);
    DistinctAppend(a, b);
    DistinctAppend(a + b, c);
    DistinctAppend(a + b + c, d);
    DistinctAppend(a + b + c + d, e);
    DistinctAppend(a + b + c + d + e, f);
  }

  /** The returned strings have no duplicates either. */
  lemma ActionNamesDistinct(important: bool, score: int, tones: seq<string>, category: Json)
    ensures Distinct(ActionNames(Actions(important, score, tones, category)))
  {
    var actions := Actions(important, score, tones, category);
    ActionsDistinct(important, score, tones, category);
    var names := ActionNames(actions);
    forall a, b | 0 <= a < b < |names|
      ensures names[a] != names[b]
    {
      if names[a] == names[b] {
        NameInjective(actions[a], actions[b]);
      }
    }
  }

  /** A reply is asked for exactly when the email is not Spam and its tones include urgent or
      inquisitive. */
  lemma ReplyTriggers(important: bool, score: int, tones: seq<string>, category: Json)
    ensures var actions := Actions(important, score, tones, category);
            (NeedsReply in actions || ReplyAsap in actions) <==>
              category != JStr("Spam") && ("urgent" in tones || "inquisitive" in tones)
  {
    FiredReply(important, "urgent" in tones, "inquisitive" in tones, category == JStr("Work"), score > 30,
               category == JStr("Financial"), category == JStr("Newsletter"));
  }

  /** Only the urgent and inquisitive rules add a reply action. */
  lemma FiredReply(important: bool, urgent: bool, inquisitive: bool, work: bool, reminder: bool,
                   financial: bool, newsletter: bool)
    ensures var fired := Fired(important, urgent, inquisitive, work, reminder, financial, newsletter);
            (NeedsReply in fired || ReplyAsap in fired) <==> urgent || inquisitive
  {
    var rest := When(work, [Track] + When(reminder, [CalendarReminder]))
                + When(financial, [Archive, MarkAsRead]) + When(newsletter, [ReadLater, Archive]);
    assert NeedsReply !in rest && ReplyAsap !in rest;
    assert Fired(important, urgent, inquisitive, work, reminder, financial, newsletter)
           == When(important, [Highlight, PriorityInbox]) + When(urgent, [ReplyAsap, Flag])
              + When(inquisitive, [NeedsReply]) + rest;
  }

  /** The coordinator tests the strings: "needs_reply" or "reply_asap" is among the names
      exactly when NeedsReply or ReplyAsap is among the actions. */
  lemma ReplyNamed(actions: seq<Action>)
    ensures ("needs_reply" in ActionNames(actions) || "reply_asap" in ActionNames(actions)) <==>
              (NeedsReply in actions || ReplyAsap in actions)
  {
    var names := ActionNames(actions);
    if "needs_reply" in names {
      var i :| 0 <= i < |names| && names[i] == "needs_reply";
      NameInjective(actions[i], NeedsReply);
    }
    if "reply_asap" in names {
      var i :| 0 <= i < |names| && names[i] == "reply_asap";
      NameInjective(actions[i], ReplyAsap);
    }
    if NeedsReply in actions {
      var i :| 0 <= i < |actions| && actions[i] == NeedsReply;
      assert names[i] == "needs_reply";
    }
    if ReplyAsap in actions {
      var i :| 0 <= i < |actions| && actions[i] == ReplyAsap;
      assert names[i] == "reply_asap";
    }
  }

  /** Once the scorer succeeds, a Work email always also gets a calendar reminder: its score
      is at least 40. */
  lemma WorkGetsCalendarReminder(email: ParsedEmail, tones: seq<string>)
    requires IS.Importance(email, JStr("Work")).Scored?
    ensures var importance := IS.Importance(email, JStr("Work"));
            Track in Actions(importance.Important(), importance.Score(), tones, JStr("Work"))
            && CalendarReminder in Actions(importance.Important(), importance.Score(), tones, JStr("Work"))
  {
    IS.WorkScoresAtLeast40(email);
    var importance := IS.Importance(email, JStr("Work"));
    var urgent, inquisitive := "urgent" in tones, "inquisitive" in tones;
    var fired := RuleActions(importance.Important(), importance.Score(), tones, JStr("Work"));
    assert fired == Fired(importance.Important(), urgent, inquisitive, true, true, false, false);
    FiredWork(importance.Important(), urgent, inquisitive);
    assert Actions(importance.Important(), importance.Score(), tones, JStr("Work")) == fired;
  }

  /** The Work rule with a score over 30 adds Track and then a calendar reminder. */
  lemma FiredWork(important: bool, urgent: bool, inquisitive: bool)
    ensures var fired := Fired(important, urgent, inquisitive, true, true, false, false);
            Track in fired && CalendarReminder in fired
  {
    var before := When(important, [Highlight, PriorityInbox]) + When(urgent, [ReplyAsap, Flag])
                  + When(inquisitive, [NeedsReply]);
    var fired := Fired(important, urgent, inquisitive, true, true, false, false);
    assert fired == before + [Track, CalendarReminder];
    assert fired[|before|] == Track && fired[|before| + 1] == CalendarReminder;
  }
}
