/** The Email Coordinator of backend/agents/email_coordinator.py: the stage sequence user ->
    reader -> classifier -> summarizer -> decision -> [reply] -> save, its failure policy, the
    reply gate and the assembled record. */
module EmailCoordinator {
  import opened Wrappers
  import opened Json
  import opened Errors
  import opened OpenAIClient
  import opened EmailParser
  import RA = ReaderAgent
  import CA = ClassifierAgent
  import SA = SummarizerAgent
  import DA = DecisionAgent
  import RP = ReplyAgent
  import TA = ToneAnalyzer
  import IS = ImportanceScorer

  const Name := "Email Coordinator"
  const DefaultUserId := "default_user"
  const UserMissingMessage := "Failed to create or retrieve user"

  /** The dict handed to `save_email`. */
  datatype StoredEmail = StoredEmail(
    userId: Json, sender: Option<string>, subject: string, body: string, receivedDate: Option<string>,
    category: Json, summary: Json, keyPoints: Json, actionItems: Json, isImportant: bool,
    importanceScore: nat, suggestedAction: seq<string>, suggestedReply: Option<RP.SuggestedReply>,
    tone: string)

  /** The specialist agents as the coordinator sees them: each `process` call, from the data
      and context it is handed to the dict it returns (or the OpenAIAPIError it raises). */
  datatype Agents = Agents(
    read: RawEmail -> RA.ReaderResult,
    classify: ParsedEmail -> Result<CA.Classification, ApiError>,
    summarize: (ParsedEmail, Json) -> Result<SA.Summary, ApiError>,
    decide: (ParsedEmail, Json) -> DA.Decision,
    reply: (ParsedEmail, RP.Context) -> Result<RP.ReplyResult, ApiError>)

  /** The two database calls: `get_or_create_user` found or created a user, and `save_email`
      returned a saved document with this id, or nothing. */
  datatype Database = Database(userFound: Json -> bool, save: StoredEmail -> Option<string>)

  /** The agents `__init__` creates, over one category table, parseaddr, AI service and
      json.loads. The summarizer and the decision agent read only the context's category. */
  ghost predicate IsSpecialists(agents: Agents, cats: seq<CA.Category>, parseAddr: ParseAddr, ai: AIService,
                          decode: Decoder)
  {
    && (forall d :: agents.read(d) == RA.Process(d, parseAddr))
    && (forall e :: agents.classify(e) == CA.Classify(e, cats, ai, decode))
    && (forall e, c :: agents.summarize(e, c) == SA.Summarize(e, c, ai, decode))
    && (forall e, c :: agents.decide(e, c) == DA.Decide(e, c))
    && (forall e, ctx :: agents.reply(e, ctx) == RP.Reply(e, ctx, ai, decode))
  }

  function Specialists(cats: seq<CA.Category>, parseAddr: ParseAddr, ai: AIService, decode: Decoder)
    : (agents: Agents)
    ensures IsSpecialists(agents, cats, parseAddr, ai, decode)
  {
    Agents(d => RA.Process(d, parseAddr), e => CA.Classify(e, cats, ai, decode),
           (e, c) => SA.Summarize(e, c, ai, decode), (e, c) => DA.Decide(e, c),
           (e, ctx) => RP.Reply(e, ctx, ai, decode))
  }

  /** One call the coordinator makes, with the data or context it passes. */
  datatype Stage =
    | LookUpUser(userId: Json)
    | Read(data: RawEmail)
    | Classify(email: ParsedEmail)
    | Summarize(email: ParsedEmail, context: RP.Context)
    | Decide(email: ParsedEmail, context: RP.Context)
    | Reply(email: ParsedEmail, context: RP.Context)
    | Save(record: StoredEmail)

  /** Why a run returned `success: False`. The two log lines raise a TypeError or ValueError
      whose text Python derives from the offending value; that text is not modelled. */
  datatype RunError =
    | UserMissing
    | ReaderFailed(readerError: string)
    | ConfidenceNotFormattable(confidence: Json)
    | KeyPointsNotJoinable(keyPoints: Json)
  {
    /** str(e) where the source builds the message itself. */
    function Message(): Option<string>
    {
      match this
      case UserMissing => Some(UserMissingMessage)
      case ReaderFailed(e) => Some("Reader Agent failed: " + e)
      case _ => None
    }
  }

  /** The dict of a completed run. */
  datatype Analysis = Analysis(
    emailId: Option<string>, parsedEmail: ParsedEmail, category: Json, classificationConfidence: Json,
    summary: Json, keyPoints: Json, actionItems: Json, isImportant: bool, importanceScore: nat,
    importanceLevel: string, tone: string, formality: Option<string>, suggestedActions: seq<string>,
    suggestedReply: Option<RP.SuggestedReply>, agentsUsed: seq<Option<string>>)

  /** `success: True` with the analysis, or `success: False` with the error and
      `agents_used: [coordinator name]`. */
  datatype Outcome = Completed(analysis: Analysis) | Failed(error: RunError, agentsUsed: seq<string>)

  /** What a run returns (or the OpenAIAPIError it raises) with the calls it made, in order. */
  datatype Run = Run(result: Result<Outcome, ApiError>, stages: seq<Stage>)

  function SummaryContext(category: Json): RP.Context
  {
    map["category" := category]
  }

  function DecisionContext(category: Json, summary: Json): RP.Context
  {
    map["category" := category, "summary" := summary]
  }

  function Strings(xs: seq<string>): seq<Json>
  {
    if xs == [] then [] else [JStr(xs[0])] + Strings(xs[1..])
  }

  function ReplyContext(category: Json, tone: string, summary: Json, actionItems: Json,
                        actions: seq<string>): RP.Context
  {
    map["category" := category, "tone" := JStr(tone), "summary" := summary, "action_items" := actionItems,
        "suggested_actions" := JArr(Strings(actions))]
  }

  /** `any(action in suggested_actions for action in ["needs_reply", "reply_asap"])`. */
  predicate ReplyWanted(actions: seq<string>)
  {
    "needs_reply" in actions || "reply_asap" in actions
  }

  /** The summary line is logged with `', '.join(key_points[:3])` when there are key points. */
  predicate KeyPointsLogRaises(keyPoints: Json)
  {
    Truthy(keyPoints) && !HeadJoinable(keyPoints)
  }

  function Record(userId: Json, email: ParsedEmail, category: Json, s: SA.Summary, d: DA.Decision,
                  reply: Option<RP.SuggestedReply>): StoredEmail
  {
    StoredEmail(userId, email.sender.email, email.subject, email.body, email.receivedDate, category,
                s.summary, s.keyPoints, s.actionItems, d.isImportant, d.importanceScore,
                DA.ActionNames(d.suggestedActions), reply, d.tone)
  }

  function AgentsUsed(reply: Option<RP.SuggestedReply>): seq<Option<string>>
  {
    [Some(RA.Name), Some(CA.Name), Some(SA.Name), Some(DA.Name), if reply.Some? then Some(RP.Name) else None]
  }

  /** Steps 5 and 6 and the result dict, once the decision is known. */
  function Finish(userId: Json, email: ParsedEmail, c: CA.Classification, s: SA.Summary, d: DA.Decision,
                  agents: Agents, db: Database, before: seq<Stage>): Run
  {
    var actions := DA.ActionNames(d.suggestedActions);
    var context := ReplyContext(c.category, d.tone, s.summary, s.actionItems, actions);
    var replied := if ReplyWanted(actions) then Some(agents.reply(email, context)) else None;
    if replied.Some? && replied.value.Failure? then Run(Failure(replied.value.error), before + [Reply(email, context)])
    else
      var reply := if replied.Some? && replied.value.value.needsReply then Some(replied.value.value.suggestedReply)
                   else None;
      var record := Record(userId, email, c.category, s, d, reply);
      var stages := if replied.Some? then before + [Reply(email, context), Save(record)] else before + [Save(record)];
      Run(Success(Completed(Analysis(db.save(record), email, c.category, c.confidence, s.summary, s.keyPoints,
                                     s.actionItems, d.isImportant, d.importanceScore, d.importanceLevel,
                                     d.tone, Some(d.formality), actions, reply, AgentsUsed(reply)))),
          stages)
  }

  /** Steps 3 and 4, once the classification is known and its confidence could be logged. */
  function AfterClassification(userId: Json, email: ParsedEmail, c: CA.Classification, agents: Agents,
                               db: Database, before: seq<Stage>): Run
  {
    var stage := Summarize(email, SummaryContext(c.category));
    match agents.summarize(email, c.category)
    case Failure(e) => Run(Failure(e), before + [stage])
    case Success(s) =>
      if KeyPointsLogRaises(s.keyPoints) then
        Run(Success(Failed(KeyPointsNotJoinable(s.keyPoints), [Name])), before + [stage])
      else
        Finish(userId, email, c, s, agents.decide(email, c.category), agents, db,
               before + [stage, Decide(email, DecisionContext(c.category, s.summary))])
  }

  /** Reference definition of `process_email`. */
  function Pipeline(data: RawEmail, userId: Json, agents: Agents, db: Database): Run
  {
    if !db.userFound(userId) then Run(Success(Failed(UserMissing, [Name])), [LookUpUser(userId)])
    else
      var read := agents.read(data);
      var stages := [LookUpUser(userId), Read(data)];
      if read.ReaderFailed? then Run(Success(Failed(ReaderFailed(read.error), [Name])), stages)
      else
        var email := read.parsedEmail;
        match agents.classify(email)
        case Failure(e) => Run(Failure(e), stages + [Classify(email)])
        case Success(c) =>
          if !FormatsAsFixed(c.confidence) then
            Run(Success(Failed(ConfidenceNotFormattable(c.confidence), [Name])), stages + [Classify(email)])
          else AfterClassification(userId, email, c, agents, db, stages + [Classify(email)])
  }

  /** `context.get("user_id") if context else "default_user"`. */
  function UserIdOf(context: RP.Context): Json
  {
    if context == map[] then JStr(DefaultUserId) else if "user_id" in context then context["user_id"] else JNull
  }

  /** The coordinator with the agents and the database handle `__init__` sets up. */
  class EmailCoordinator {
    const name: string := Name
    const agents: Agents
    const db: Database

    /** `__init__`: the specialists over the category table the classifier loads (`loaded`,
        or None when loading failed) and one AI service. */
    constructor(loaded: Option<seq<CA.Category>>, parseAddr: ParseAddr, ai: AIService, decode: Decoder,
                database: Database)
      ensures IsSpecialists(agents, loaded.GetOr([]), parseAddr, ai, decode)
      ensures db == database
    {
      agents := Specialists(loaded.GetOr([]), parseAddr, ai, decode);
      db := database;
    }

    /** `process_email`: each stage in turn, leaving at the first failure. */
    method ProcessEmail(data: RawEmail, userId: Json) returns (r: Result<Outcome, ApiError>, stages: seq<Stage>)
      ensures Run(r, stages) == Pipeline(data, userId, agents, db)
    {
      stages := [LookUpUser(userId)];
      if !db.userFound(userId) {
        return Success(Failed(UserMissing, [name])), stages;
      }
      stages := stages + [Read(data)];
      assert stages == [LookUpUser(userId), Read(data)];
      var read := agents.read(data);
      if read.ReaderFailed? {
        return Success(Failed(ReaderFailed(read.error), [name])), stages;
      }
      var email := read.parsedEmail;
      stages := stages + [Classify(email)];
      var classified := agents.classify(email);
      if classified.Failure? {
        return Failure(classified.error), stages;
      }
      var c := classified.value;
      if !FormatsAsFixed(c.confidence) {
        return Success(Failed(ConfidenceNotFormattable(c.confidence), [name])), stages;
      }
      r, stages := Analyse(userId, email, c, stages);
    }

    /** Steps 3 and 4: the summary with the category as context, its log line, and the
        decision with the category and the summary as context. */
    method Analyse(userId: Json, email: ParsedEmail, c: CA.Classification, before: seq<Stage>)
      returns (r: Result<Outcome, ApiError>, stages: seq<Stage>)
      ensures Run(r, stages) == AfterClassification(userId, email, c, agents, db, before)
    {
      stages := before + [Summarize(email, SummaryContext(c.category))];
      var summarized := agents.summarize(email, c.category);
      if summarized.Failure? {
        return Failure(summarized.error), stages;
      }
      var s := summarized.value;
      if KeyPointsLogRaises(s.keyPoints) {
        return Success(Failed(KeyPointsNotJoinable(s.keyPoints), [name])), stages;
      }
      stages := stages + [Decide(email, DecisionContext(c.category, s.summary))];
      var d := agents.decide(email, c.category);
      assert stages == before + [Summarize(email, SummaryContext(c.category)),
                                 Decide(email, DecisionContext(c.category, s.summary))];
      r, stages := Conclude(userId, email, c, s, d, stages);
    }

    /** Steps 5 and 6: the reply only when the decision asks for one, then the save, then the
        result dict. */
    method Conclude(userId: Json, email: ParsedEmail, c: CA.Classification, s: SA.Summary, d: DA.Decision,
                    before: seq<Stage>)
      returns (r: Result<Outcome, ApiError>, stages: seq<Stage>)
      ensures Run(r, stages) == Finish(userId, email, c, s, d, agents, db, before)
    {
      stages := before;
      var actions := DA.ActionNames(d.suggestedActions);
      var reply: Option<RP.SuggestedReply> := None;
      if ReplyWanted(actions) {
        var context := ReplyContext(c.category, d.tone, s.summary, s.actionItems, actions);
        stages := stages + [Reply(email, context)];
        var replied := agents.reply(email, context);
        if replied.Failure? {
          return Failure(replied.error), stages;
        }
        if replied.value.needsReply {
          reply := Some(replied.value.suggestedReply);
        }
      }
      var record := Record(userId, email, c.category, s, d, reply);
      stages := stages + [Save(record)];
      var saved := db.save(record);
      var agentsUsed := [Some(RA.Name), Some(CA.Name), Some(SA.Name), Some(DA.Name),
                         if reply.Some? then Some(RP.Name) else None];
      r := Success(Completed(Analysis(saved, email, c.category, c.confidence, s.summary, s.keyPoints,
                                      s.actionItems, d.isImportant, d.importanceScore, d.importanceLevel,
                                      d.tone, Some(d.formality), actions, reply, agentsUsed)));
    }

    /** `process`: the user id from the context, "default_user" without one. */
    method Process(data: RawEmail, context: RP.Context) returns (r: Result<Outcome, ApiError>, stages: seq<Stage>)
      ensures Run(r, stages) == Pipeline(data, UserIdOf(context), agents, db)
    {
      r, stages := ProcessEmail(data, UserIdOf(context));
    }
  }

  /** The position of each stage in the fixed order. */
  function Rank(stage: Stage): nat
  {
    match stage
    case LookUpUser(_) => 0
    case Read(_) => 1
    case Classify(_) => 2
    case Summarize(_, _) => 3
    case Decide(_, _) => 4
    case Reply(_, _) => 5
    case Save(_) => 6
  }

  /** The run starts with the user lookup and each call is the next one in the order; only the
      reply may be skipped between the decision and the save. */
  predicate InStageOrder(stages: seq<Stage>)
  {
    && |stages| >= 1 && Rank(stages[0]) == 0
    && forall i :: 0 <= i < |stages| - 1 ==>
         Rank(stages[i + 1]) == Rank(stages[i]) + 1 || (Rank(stages[i]) == 4 && Rank(stages[i + 1]) == 6)
  }

  predicate IsCompleted(run: Run)
  {
    run.result.Success? && run.result.value.Completed?
  }

  predicate Replied(stages: seq<Stage>)
  {
    exists i :: 0 <= i < |stages| && stages[i].Reply?
  }

  lemma InStageOrderAppend(stages: seq<Stage>, more: seq<Stage>)
    requires InStageOrder(stages) && more != []
    requires Rank(more[0]) == Rank(stages[|stages| - 1]) + 1
    requires forall i :: 0 <= i < |more| - 1 ==> Rank(more[i + 1]) == Rank(more[i]) + 1
    ensures InStageOrder(stages + more)
  {
    var all := stages + more;
    forall i | 0 <= i < |all| - 1
      ensures Rank(all[i + 1]) == Rank(all[i]) + 1 || (Rank(all[i]) == 4 && Rank(all[i + 1]) == 6)
    {
      if i < |stages| - 1 {
        assert all[i] == stages[i] && all[i + 1] == stages[i + 1];
      } else if i == |stages| - 1 {
        assert all[i] == stages[i] && all[i + 1] == more[0];
      } else {
        assert all[i] == more[i - |stages|] && all[i + 1] == more[i - |stages| + 1];
      }
    }
  }

  lemma InStageOrderSkipReply(stages: seq<Stage>, save: Stage)
    requires InStageOrder(stages) && Rank(stages[|stages| - 1]) == 4 && Rank(save) == 6
    ensures InStageOrder(stages + [save])
  {
    var all := stages + [save];
    forall i | 0 <= i < |all| - 1
      ensures Rank(all[i + 1]) == Rank(all[i]) + 1 || (Rank(all[i]) == 4 && Rank(all[i + 1]) == 6)
    {
      if i < |stages| - 1 {
        assert all[i] == stages[i] && all[i + 1] == stages[i + 1];
      } else {
        assert all[i] == stages[i] && all[i + 1] == save;
      }
    }
  }

  /** The calls the last two steps add, and when they complete the run. */
  lemma FinishStages(userId: Json, email: ParsedEmail, c: CA.Classification, s: SA.Summary, d: DA.Decision,
                     agents: Agents, db: Database, before: seq<Stage>)
    ensures var run := Finish(userId, email, c, s, d, agents, db, before);
            var actions := DA.ActionNames(d.suggestedActions);
            var context := ReplyContext(c.category, d.tone, s.summary, s.actionItems, actions);
            var replied := agents.reply(email, context);
            var reply := if replied.Success? && replied.value.needsReply then Some(replied.value.suggestedReply)
                         else None;
            && (ReplyWanted(actions) && replied.Failure? ==>
                  run.stages == before + [Reply(email, context)] && !IsCompleted(run))
            && (ReplyWanted(actions) && replied.Success? ==>
                  run.stages == before + [Reply(email, context), Save(Record(userId, email, c.category, s, d, reply))]
                  && IsCompleted(run))
            && (!ReplyWanted(actions) ==>
                  run.stages == before + [Save(Record(userId, email, c.category, s, d, None))] && IsCompleted(run))
  {
  }

  /** A run whose calls after the decision are `tail` keeps the order, and completes exactly
      when it ends with the save. */
  lemma TailInOrder(run: Run, before: seq<Stage>, tail: seq<Stage>)
    requires InStageOrder(before) && Rank(before[|before| - 1]) == 4
    requires run.stages == before + tail
    requires || (|tail| == 1 && tail[0].Reply? && !IsCompleted(run))
             || (|tail| == 2 && tail[0].Reply? && tail[1].Save? && IsCompleted(run))
             || (|tail| == 1 && tail[0].Save? && IsCompleted(run))
    ensures InStageOrder(run.stages) && (IsCompleted(run) <==> Rank(run.stages[|run.stages| - 1]) == 6)
  {
    assert run.stages[|run.stages| - 1] == tail[|tail| - 1];
    if |tail| == 2 {
      InStageOrderAppend(before, tail);
    } else if tail[0].Reply? {
      InStageOrderAppend(before, tail);
    } else {
      assert tail == [tail[0]];
      InStageOrderSkipReply(before, tail[0]);
    }
  }

  /** The last two steps keep the order, and end the run with the save unless the reply agent
      raises. */
  lemma FinishInOrder(userId: Json, email: ParsedEmail, c: CA.Classification, s: SA.Summary, d: DA.Decision,
                     agents: Agents, db: Database, before: seq<Stage>)
    requires InStageOrder(before) && Rank(before[|before| - 1]) == 4
    ensures var run := Finish(userId, email, c, s, d, agents, db, before);
            InStageOrder(run.stages) && (IsCompleted(run) <==> Rank(run.stages[|run.stages| - 1]) == 6)
  {
    var run := Finish(userId, email, c, s, d, agents, db, before);
    var actions := DA.ActionNames(d.suggestedActions);
    var context := ReplyContext(c.category, d.tone, s.summary, s.actionItems, actions);
    var replied := agents.reply(email, context);
    var reply := if replied.Success? && replied.value.needsReply then Some(replied.value.suggestedReply) else None;
    FinishStages(userId, email, c, s, d, agents, db, before);
    if !ReplyWanted(actions) {
      TailInOrder(run, before, [Save(Record(userId, email, c.category, s, d, None))]);
    } else if replied.Failure? {
      TailInOrder(run, before, [Reply(email, context)]);
    } else {
      TailInOrder(run, before, [Reply(email, context), Save(Record(userId, email, c.category, s, d, reply))]);
    }
  }

  lemma AfterClassificationInOrder(userId: Json, email: ParsedEmail, c: CA.Classification, agents: Agents,
                                   db: Database, before: seq<Stage>)
    requires InStageOrder(before) && Rank(before[|before| - 1]) == 2
    ensures var run := AfterClassification(userId, email, c, agents, db, before);
            InStageOrder(run.stages) && (IsCompleted(run) <==> Rank(run.stages[|run.stages| - 1]) == 6)
  {
    var stage := Summarize(email, SummaryContext(c.category));
    InStageOrderAppend(before, [stage]);
    var summarized := agents.summarize(email, c.category);
    if summarized.Success? && !KeyPointsLogRaises(summarized.value.keyPoints) {
      var s := summarized.value;
      var decide := Decide(email, DecisionContext(c.category, s.summary));
      InStageOrderAppend(before, [stage, decide]);
      FinishInOrder(userId, email, c, s, agents.decide(email, c.category), agents, db, before + [stage, decide]);
    }
  }

  /** Stages run strictly in the order user, reader, classifier, summarizer, decision, reply
      (only when wanted), save, and the save is reached exactly when the run completes. That a
      stage runs only when every earlier one succeeded is `EarlierStagesSucceeded`. */
  lemma StagesInOrder(data: RawEmail, userId: Json, agents: Agents, db: Database)
    ensures var run := Pipeline(data, userId, agents, db);
            InStageOrder(run.stages) && (IsCompleted(run) <==> Rank(run.stages[|run.stages| - 1]) == 6)
  {
    var run := Pipeline(data, userId, agents, db);
    if !db.userFound(userId) {
      assert run.stages == [LookUpUser(userId)];
    } else if agents.read(data).ReaderFailed? {
      assert run.stages == [LookUpUser(userId), Read(data)];
      assert InStageOrder(run.stages);
    } else {
      var email := agents.read(data).parsedEmail;
      var base := [LookUpUser(userId), Read(data), Classify(email)];
      assert InStageOrder(base);
      var classified := agents.classify(email);
      assert [LookUpUser(userId), Read(data)] + [Classify(email)] == base;
      if classified.Success? && FormatsAsFixed(classified.value.confidence) {
        assert run == AfterClassification(userId, email, classified.value, agents, db, base);
        AfterClassificationInOrder(userId, email, classified.value, agents, db, base);
      } else {
        assert run.stages == base;
      }
    }
  }

  /** The calls before the reply in a run that got past the key-points log line. */
  function FirstFive(data: RawEmail, userId: Json, email: ParsedEmail, c: CA.Classification, s: SA.Summary)
    : seq<Stage>
  {
    [LookUpUser(userId), Read(data), Classify(email), Summarize(email, SummaryContext(c.category)),
     Decide(email, DecisionContext(c.category, s.summary))]
  }

  /** A completed run passed every check, and is the last two steps after the first five. */
  lemma CompletedUnfold(data: RawEmail, userId: Json, agents: Agents, db: Database)
    requires IsCompleted(Pipeline(data, userId, agents, db))
    ensures db.userFound(userId) && agents.read(data).ReaderOk?
    ensures var email := agents.read(data).parsedEmail;
            agents.classify(email).Success? && FormatsAsFixed(agents.classify(email).value.confidence)
            && var c := agents.classify(email).value;
               agents.summarize(email, c.category).Success?
               && !KeyPointsLogRaises(agents.summarize(email, c.category).value.keyPoints)
               && var s := agents.summarize(email, c.category).value;
                  Pipeline(data, userId, agents, db)
                  == Finish(userId, email, c, s, agents.decide(email, c.category), agents, db,
                            FirstFive(data, userId, email, c, s))
  {
    var email := agents.read(data).parsedEmail;
    var c := agents.classify(email).value;
    assert Pipeline(data, userId, agents, db)
           == AfterClassification(userId, email, c, agents, db, [LookUpUser(userId), Read(data), Classify(email)]);
    var s := agents.summarize(email, c.category).value;
    assert [LookUpUser(userId), Read(data), Classify(email)]
           + [Summarize(email, SummaryContext(c.category)), Decide(email, DecisionContext(c.category, s.summary))]
           == FirstFive(data, userId, email, c, s);
  }

  /** What the last two steps put in a completed result. */
  lemma FinishCompleted(userId: Json, email: ParsedEmail, c: CA.Classification, s: SA.Summary, d: DA.Decision,
                        agents: Agents, db: Database, before: seq<Stage>)
    requires IsCompleted(Finish(userId, email, c, s, d, agents, db, before))
    ensures var run := Finish(userId, email, c, s, d, agents, db, before);
            var a := run.result.value.analysis;
            var actions := DA.ActionNames(d.suggestedActions);
            var context := ReplyContext(c.category, d.tone, s.summary, s.actionItems, actions);
            var record := Record(userId, email, c.category, s, d, a.suggestedReply);
            && a == Analysis(db.save(record), email, c.category, c.confidence, s.summary, s.keyPoints,
                             s.actionItems, d.isImportant, d.importanceScore, d.importanceLevel, d.tone,
                             Some(d.formality), actions, a.suggestedReply, AgentsUsed(a.suggestedReply))
            && (ReplyWanted(actions) ==> run.stages == before + [Reply(email, context), Save(record)]
                                         && agents.reply(email, context).Success?)
            && (!ReplyWanted(actions) ==> run.stages == before + [Save(record)] && a.suggestedReply.None?)
            && (a.suggestedReply.Some? ==>
                  ReplyWanted(actions) && agents.reply(email, context).value.needsReply
                  && a.suggestedReply == Some(agents.reply(email, context).value.suggestedReply))
  {
  }

  /** A run that returns `success: False` names only the coordinator and never reaches the
      save. No user stops it before anything else; a reader failure is reported with the
      reader's message; once the reader succeeds the other failures are the two log lines. */
  lemma FailurePolicy(data: RawEmail, userId: Json, agents: Agents, db: Database)
    ensures var run := Pipeline(data, userId, agents, db);
            run.result.Success? && run.result.value.Failed? ==>
              run.result.value.agentsUsed == [Name] && !run.stages[|run.stages| - 1].Save?
    ensures !db.userFound(userId) ==>
              Pipeline(data, userId, agents, db) == Run(Success(Failed(UserMissing, [Name])), [LookUpUser(userId)])
    ensures db.userFound(userId) && agents.read(data).ReaderFailed? ==>
              var run := Pipeline(data, userId, agents, db);
              run == Run(Success(Failed(ReaderFailed(agents.read(data).error), [Name])), [LookUpUser(userId), Read(data)])
              && run.result.value.error.Message() == Some("Reader Agent failed: " + agents.read(data).error)
    ensures var run := Pipeline(data, userId, agents, db);
            run.result.Success? && run.result.value.Failed? && run.result.value.error.ConfidenceNotFormattable? ==>
              run.stages[|run.stages| - 1].Classify? && !FormatsAsFixed(run.result.value.error.confidence)
              && agents.classify(run.stages[|run.stages| - 1].email)
                 .value.confidence == run.result.value.error.confidence
    ensures var run := Pipeline(data, userId, agents, db);
            run.result.Success? && run.result.value.Failed? && run.result.value.error.KeyPointsNotJoinable? ==>
              var last := run.stages[|run.stages| - 1];
              last.Summarize? && KeyPointsLogRaises(run.result.value.error.keyPoints)
              && agents.summarize(last.email, last.context["category"]).value.keyPoints
                 == run.result.value.error.keyPoints
  {
    StagesInOrder(data, userId, agents, db);
    if db.userFound(userId) && agents.read(data).ReaderOk? {
      var email := agents.read(data).parsedEmail;
      var base := [LookUpUser(userId), Read(data), Classify(email)];
      assert [LookUpUser(userId), Read(data)] + [Classify(email)] == base;
      var classified := agents.classify(email);
      if classified.Success? && FormatsAsFixed(classified.value.confidence) {
        var c := classified.value;
        assert Pipeline(data, userId, agents, db) == AfterClassification(userId, email, c, agents, db, base);
        var stage := Summarize(email, SummaryContext(c.category));
        assert stage.context["category"] == c.category;
      }
    }
  }

  /** A raised error is the one the last call returned: the classifier's, the summarizer's
      (for the context's category) or the reply agent's. */
  predicate RaisedByLastStage(run: Run, agents: Agents)
  {
    run.result.Failure? ==>
      |run.stages| > 0
      && var last := run.stages[|run.stages| - 1];
         var e := run.result.error;
         (last.Classify? && agents.classify(last.email) == Failure(e))
         || (last.Summarize? && "category" in last.context
             && agents.summarize(last.email, last.context["category"]) == Failure(e))
         || (last.Reply? && agents.reply(last.email, last.context) == Failure(e))
  }

  /** The run raises only what a stage raised, for the data and context that stage was given,
      and that stage is the last call. */
  lemma RaisedErrorsComeFromStages(data: RawEmail, userId: Json, agents: Agents, db: Database)
    ensures RaisedByLastStage(Pipeline(data, userId, agents, db), agents)
  {
    if db.userFound(userId) && agents.read(data).ReaderOk? {
      var email := agents.read(data).parsedEmail;
      var base := [LookUpUser(userId), Read(data), Classify(email)];
      assert [LookUpUser(userId), Read(data)] + [Classify(email)] == base;
      var classified := agents.classify(email);
      if classified.Success? && FormatsAsFixed(classified.value.confidence) {
        var c := classified.value;
        assert Pipeline(data, userId, agents, db) == AfterClassification(userId, email, c, agents, db, base);
        assert SummaryContext(c.category)["category"] == c.category;
      }
    }
  }

  /** The call went through: the user was found, the reader succeeded, the classifier answered
      with a confidence the log line can format, the summarizer answered with key points the
      log line can join, the reply agent answered. The decision and the save cannot fail. */
  predicate StageSucceeded(stage: Stage, agents: Agents, db: Database)
  {
    match stage
    case LookUpUser(u) => db.userFound(u)
    case Read(d) => agents.read(d).ReaderOk?
    case Classify(e) => agents.classify(e).Success? && FormatsAsFixed(agents.classify(e).value.confidence)
    case Summarize(e, ctx) =>
      "category" in ctx && agents.summarize(e, ctx["category"]).Success?
      && !KeyPointsLogRaises(agents.summarize(e, ctx["category"]).value.keyPoints)
    case Decide(_, _) => true
    case Reply(e, ctx) => agents.reply(e, ctx).Success?
    case Save(_) => true
  }

  /** A run whose calls are `before`, all of which succeeded, and then `last`, which succeeded
      exactly when the run completed, stopped at its first failing call. */
  lemma StopsAt(run: Run, before: seq<Stage>, last: Stage, agents: Agents, db: Database)
    requires run.stages == before + [last]
    requires forall i :: 0 <= i < |before| ==> StageSucceeded(before[i], agents, db)
    requires IsCompleted(run) <==> StageSucceeded(last, agents, db)
    ensures |run.stages| > 0
    ensures forall i :: 0 <= i < |run.stages| - 1 ==> StageSucceeded(run.stages[i], agents, db)
    ensures IsCompleted(run) <==> StageSucceeded(run.stages[|run.stages| - 1], agents, db)
  {
    assert forall i :: 0 <= i < |before| ==> run.stages[i] == before[i];
  }

  /** A run whose calls after `before` are `tail` stops at its first failing call when all of
      `before` succeeded and the tail is a failed reply, a successful reply and the save, or
      the save alone. */
  lemma TailStops(run: Run, before: seq<Stage>, tail: seq<Stage>, agents: Agents, db: Database)
    requires forall i :: 0 <= i < |before| ==> StageSucceeded(before[i], agents, db)
    requires run.stages == before + tail
    requires || (|tail| == 1 && tail[0].Reply? && !StageSucceeded(tail[0], agents, db) && !IsCompleted(run))
             || (|tail| == 2 && tail[0].Reply? && StageSucceeded(tail[0], agents, db) && tail[1].Save?
                 && IsCompleted(run))
             || (|tail| == 1 && tail[0].Save? && IsCompleted(run))
    ensures |run.stages| > 0
    ensures forall i :: 0 <= i < |run.stages| - 1 ==> StageSucceeded(run.stages[i], agents, db)
    ensures IsCompleted(run) <==> StageSucceeded(run.stages[|run.stages| - 1], agents, db)
  {
    if |tail| == 2 {
      var longer := before + [tail[0]];
      assert forall i :: 0 <= i < |longer| ==> StageSucceeded(longer[i], agents, db);
      assert run.stages == longer + [tail[1]];
      StopsAt(run, longer, tail[1], agents, db);
    } else {
      assert tail == [tail[0]];
      StopsAt(run, before, tail[0], agents, db);
    }
  }

  /** The last two steps, after calls that all succeeded, stop at the reply exactly when the
      reply agent raises. */
  lemma FinishStopsAtFailure(userId: Json, email: ParsedEmail, c: CA.Classification, s: SA.Summary,
                             d: DA.Decision, agents: Agents, db: Database, before: seq<Stage>)
    requires forall i :: 0 <= i < |before| ==> StageSucceeded(before[i], agents, db)
    ensures var run := Finish(userId, email, c, s, d, agents, db, before);
            && |run.stages| > 0
            && (forall i :: 0 <= i < |run.stages| - 1 ==> StageSucceeded(run.stages[i], agents, db))
            && (IsCompleted(run) <==> StageSucceeded(run.stages[|run.stages| - 1], agents, db))
  {
    var run := Finish(userId, email, c, s, d, agents, db, before);
    var actions := DA.ActionNames(d.suggestedActions);
    var context := ReplyContext(c.category, d.tone, s.summary, s.actionItems, actions);
    var replied := agents.reply(email, context);
    var reply := if replied.Success? && replied.value.needsReply then Some(replied.value.suggestedReply) else None;
    FinishStages(userId, email, c, s, d, agents, db, before);
    if !ReplyWanted(actions) {
      TailStops(run, before, [Save(Record(userId, email, c.category, s, d, None))], agents, db);
    } else if replied.Failure? {
      TailStops(run, before, [Reply(email, context)], agents, db);
    } else {
      TailStops(run, before, [Reply(email, context), Save(Record(userId, email, c.category, s, d, reply))], agents, db);
    }
  }

  /** A call is made only once every earlier call succeeded, and the run completes exactly
      when its last call succeeded too: a run that stops early stops at the call that failed. */
  lemma EarlierStagesSucceeded(data: RawEmail, userId: Json, agents: Agents, db: Database)
    ensures var run := Pipeline(data, userId, agents, db);
            && |run.stages| > 0
            && (forall i :: 0 <= i < |run.stages| - 1 ==> StageSucceeded(run.stages[i], agents, db))
            && (IsCompleted(run) <==> StageSucceeded(run.stages[|run.stages| - 1], agents, db))
  {
    var run := Pipeline(data, userId, agents, db);
    if !db.userFound(userId) {
      StopsAt(run, [], LookUpUser(userId), agents, db);
    } else if agents.read(data).ReaderFailed? {
      StopsAt(run, [LookUpUser(userId)], Read(data), agents, db);
    } else {
      var email := agents.read(data).parsedEmail;
      var firstTwo := [LookUpUser(userId), Read(data)];
      var base := firstTwo + [Classify(email)];
      var classified := agents.classify(email);
      if classified.Success? && FormatsAsFixed(classified.value.confidence) {
        var c := classified.value;
        assert run == AfterClassification(userId, email, c, agents, db, base);
        var stage := Summarize(email, SummaryContext(c.category));
        assert stage.context["category"] == c.category;
        assert forall i :: 0 <= i < |base| ==> StageSucceeded(base[i], agents, db);
        var summarized := agents.summarize(email, c.category);
        if summarized.Success? && !KeyPointsLogRaises(summarized.value.keyPoints) {
          var s := summarized.value;
          var decide := Decide(email, DecisionContext(c.category, s.summary));
          var before := base + [stage, decide];
          assert forall i :: 0 <= i < |before| ==> StageSucceeded(before[i], agents, db);
          FinishStopsAtFailure(userId, email, c, s, agents.decide(email, c.category), agents, db, before);
        } else {
          StopsAt(run, base, stage, agents, db);
        }
      } else {
        StopsAt(run, firstTwo, Classify(email), agents, db);
      }
    }
  }

  /** The converse of `RaisedErrorsComeFromStages`: when the last call raised, the run raises
      that same error. */
  lemma StageErrorPropagates(data: RawEmail, userId: Json, agents: Agents, db: Database)
    ensures var run := Pipeline(data, userId, agents, db);
            && |run.stages| > 0
            && var last := run.stages[|run.stages| - 1];
               && (last.Classify? && agents.classify(last.email).Failure? ==>
                     run.result == Failure(agents.classify(last.email).error))
               && (last.Summarize? && "category" in last.context
                   && agents.summarize(last.email, last.context["category"]).Failure? ==>
                     run.result == Failure(agents.summarize(last.email, last.context["category"]).error))
               && (last.Reply? && agents.reply(last.email, last.context).Failure? ==>
                     run.result == Failure(agents.reply(last.email, last.context).error))
  {
    if db.userFound(userId) && agents.read(data).ReaderOk? {
      var email := agents.read(data).parsedEmail;
      var base := [LookUpUser(userId), Read(data), Classify(email)];
      assert [LookUpUser(userId), Read(data)] + [Classify(email)] == base;
      var classified := agents.classify(email);
      if classified.Success? && FormatsAsFixed(classified.value.confidence) {
        var c := classified.value;
        assert Pipeline(data, userId, agents, db) == AfterClassification(userId, email, c, agents, db, base);
        assert SummaryContext(c.category)["category"] == c.category;
        var summarized := agents.summarize(email, c.category);
        if summarized.Success? && !KeyPointsLogRaises(summarized.value.keyPoints) {
          var s := summarized.value;
          var d := agents.decide(email, c.category);
          var before := FirstFive(data, userId, email, c, s);
          assert base + [Summarize(email, SummaryContext(c.category)), Decide(email, DecisionContext(c.category, s.summary))]
                 == before;
          assert Pipeline(data, userId, agents, db) == Finish(userId, email, c, s, d, agents, db, before);
          FinishStages(userId, email, c, s, d, agents, db, before);
        }
      }
    }
  }

  /** Calls that end with the decision, none of them a reply, followed by the reply (and maybe
      the save) when it is wanted and by the save alone otherwise. */
  lemma ReplyTail(stages: seq<Stage>, before: seq<Stage>, tail: seq<Stage>, wanted: bool)
    requires stages == before + tail && |before| == 5 && before[4].Decide?
    requires forall i :: 0 <= i < 5 ==> !before[i].Reply?
    requires if wanted then |tail| >= 1 && tail[0].Reply? else |tail| == 1 && tail[0].Save?
    ensures stages[4] == before[4]
    ensures Replied(stages) <==> wanted
    ensures Replied(stages) ==> |stages| > 5 && stages[5].Reply?
  {
    if wanted {
      assert stages[5] == tail[0];
    } else {
      assert forall i :: 0 <= i < |stages| ==> !stages[i].Reply? by {
        assert forall i :: 0 <= i < 5 ==> stages[i] == before[i];
        assert stages[5] == tail[0];
      }
    }
  }

  /** In every run, completed or not, the reply agent is called only right after the decision,
      and a run that reached the decision calls it exactly when that decision's actions contain
      needs_reply or reply_asap, whatever the call then returns. */
  lemma ReplyCalledIffWanted(data: RawEmail, userId: Json, agents: Agents, db: Database)
    ensures var run := Pipeline(data, userId, agents, db);
            Replied(run.stages) ==> |run.stages| > 5 && run.stages[4].Decide? && run.stages[5].Reply?
    ensures var run := Pipeline(data, userId, agents, db);
            |run.stages| > 4 ==>
              run.stages[4].Decide? && "category" in run.stages[4].context
              && var d := agents.decide(run.stages[4].email, run.stages[4].context["category"]);
                 (Replied(run.stages) <==> ReplyWanted(DA.ActionNames(d.suggestedActions)))
  {
    var run := Pipeline(data, userId, agents, db);
    if !db.userFound(userId) {
      assert run.stages == [LookUpUser(userId)];
    } else if agents.read(data).ReaderFailed? {
      assert run.stages == [LookUpUser(userId), Read(data)];
    } else {
      var email := agents.read(data).parsedEmail;
      var base := [LookUpUser(userId), Read(data), Classify(email)];
      assert [LookUpUser(userId), Read(data)] + [Classify(email)] == base;
      var classified := agents.classify(email);
      if classified.Success? && FormatsAsFixed(classified.value.confidence) {
        assert run == AfterClassification(userId, email, classified.value, agents, db, base);
        AfterClassificationReplyTail(userId, email, classified.value, agents, db, base);
      } else {
        assert run.stages == base;
      }
    }
  }

  /** The step of `ReplyCalledIffWanted` after the classification. */
  lemma AfterClassificationReplyTail(userId: Json, email: ParsedEmail, c: CA.Classification, agents: Agents,
                                     db: Database, base: seq<Stage>)
    requires |base| == 3 && forall i :: 0 <= i < 3 ==> !base[i].Reply?
    ensures var stages := AfterClassification(userId, email, c, agents, db, base).stages;
            && (Replied(stages) ==> |stages| > 5 && stages[4].Decide? && stages[5].Reply?)
            && (|stages| > 4 ==>
                  stages[4].Decide? && "category" in stages[4].context
                  && var d := agents.decide(stages[4].email, stages[4].context["category"]);
                     (Replied(stages) <==> ReplyWanted(DA.ActionNames(d.suggestedActions))))
  {
    var run := AfterClassification(userId, email, c, agents, db, base);
    var stage := Summarize(email, SummaryContext(c.category));
    var summarized := agents.summarize(email, c.category);
    if summarized.Success? && !KeyPointsLogRaises(summarized.value.keyPoints) {
      var s := summarized.value;
      var before := base + [stage, Decide(email, DecisionContext(c.category, s.summary))];
      assert run == Finish(userId, email, c, s, agents.decide(email, c.category), agents, db, before);
      FinishReplyTail(userId, email, c, s, agents.decide(email, c.category), agents, db, before);
    } else {
      assert run.stages == base + [stage];
      assert forall i :: 0 <= i < |run.stages| ==> !run.stages[i].Reply?;
    }
  }

  /** The step of `ReplyCalledIffWanted` for the last two steps. */
  lemma FinishReplyTail(userId: Json, email: ParsedEmail, c: CA.Classification, s: SA.Summary, d: DA.Decision,
                        agents: Agents, db: Database, before: seq<Stage>)
    requires |before| == 5 && before[4] == Decide(email, DecisionContext(c.category, s.summary))
    requires forall i :: 0 <= i < 5 ==> !before[i].Reply?
    ensures var stages := Finish(userId, email, c, s, d, agents, db, before).stages;
            && stages[4] == before[4]
            && (Replied(stages) <==> ReplyWanted(DA.ActionNames(d.suggestedActions)))
            && (Replied(stages) ==> |stages| > 5 && stages[5].Reply?)
  {
    var run := Finish(userId, email, c, s, d, agents, db, before);
    var actions := DA.ActionNames(d.suggestedActions);
    var context := ReplyContext(c.category, d.tone, s.summary, s.actionItems, actions);
    var replied := agents.reply(email, context);
    var reply := if replied.Success? && replied.value.needsReply then Some(replied.value.suggestedReply) else None;
    FinishStages(userId, email, c, s, d, agents, db, before);
    if !ReplyWanted(actions) {
      ReplyTail(run.stages, before, [Save(Record(userId, email, c.category, s, d, None))], false);
    } else if replied.Failure? {
      ReplyTail(run.stages, before, [Reply(email, context)], true);
    } else {
      ReplyTail(run.stages, before, [Reply(email, context), Save(Record(userId, email, c.category, s, d, reply))], true);
    }
  }

  /** With the real agents only an OpenAIAPIError escapes a run: every other failure inside an
      agent becomes its fallback. */
  lemma OnlyOpenAIErrorsEscape(data: RawEmail, userId: Json, agents: Agents, cats: seq<CA.Category>,
                               parseAddr: ParseAddr, ai: AIService, decode: Decoder, db: Database)
    requires IsSpecialists(agents, cats, parseAddr, ai, decode)
    ensures var run := Pipeline(data, userId, agents, db);
            run.result.Failure? ==> run.result.error.IsOpenAIApiError()
  {
    RaisedErrorsComeFromStages(data, userId, agents, db);
    SpecialistsRaiseOnlyOpenAI(Pipeline(data, userId, agents, db), agents, cats, parseAddr, ai, decode);
  }

  /** The step of `OnlyOpenAIErrorsEscape` about the agents alone. */
  lemma SpecialistsRaiseOnlyOpenAI(run: Run, agents: Agents, cats: seq<CA.Category>, parseAddr: ParseAddr,
                                   ai: AIService, decode: Decoder)
    requires IsSpecialists(agents, cats, parseAddr, ai, decode)
    requires RaisedByLastStage(run, agents)
    ensures run.result.Failure? ==> run.result.error.IsOpenAIApiError()
  {
    if run.result.Failure? {
      var e := run.result.error;
      var last := run.stages[|run.stages| - 1];
      if last.Classify? && agents.classify(last.email) == Failure(e) {
        CA.ClassifyOutcomes(last.email, cats, ai, decode);
      } else if last.Summarize? && "category" in last.context
                && agents.summarize(last.email, last.context["category"]) == Failure(e) {
        SA.SummarizeOutcomes(last.email, last.context["category"], ai, decode);
      } else {
        RP.ReplyOutcomes(last.email, last.context, ai, decode);
      }
    }
  }

  /** In a completed run the reply agent was called exactly when the actions contain
      needs_reply or reply_asap; a suggested reply only comes from that call; `agents_used`
      has five entries, the reply agent's name last exactly when there is a suggested reply. */
  lemma ReplyGate(data: RawEmail, userId: Json, agents: Agents, db: Database)
    requires IsCompleted(Pipeline(data, userId, agents, db))
    ensures var run := Pipeline(data, userId, agents, db);
            var a := run.result.value.analysis;
            (Replied(run.stages) <==> ReplyWanted(a.suggestedActions))
            && (a.suggestedReply.Some? ==> Replied(run.stages))
            && |a.agentsUsed| == 5
            && a.agentsUsed[..4] == [Some(RA.Name), Some(CA.Name), Some(SA.Name), Some(DA.Name)]
            && (a.agentsUsed[4] == Some(RP.Name) <==> a.suggestedReply.Some?)
            && (a.agentsUsed[4].None? <==> a.suggestedReply.None?)
  {
    CompletedUnfold(data, userId, agents, db);
    var run := Pipeline(data, userId, agents, db);
    var email := agents.read(data).parsedEmail;
    var c := agents.classify(email).value;
    var s := agents.summarize(email, c.category).value;
    var d := agents.decide(email, c.category);
    var before := FirstFive(data, userId, email, c, s);
    FinishCompleted(userId, email, c, s, d, agents, db, before);
    var actions := DA.ActionNames(d.suggestedActions);
    if ReplyWanted(actions) {
      assert run.stages[5].Reply?;
    } else {
      assert forall i :: 0 <= i < |run.stages| ==> !run.stages[i].Reply?;
    }
  }

  /** A completed run reports what the stages returned: the reader's email, the classifier's
      category and confidence, the summarizer's three values, the decision's fields with the
      actions as strings; and it saved those same values, its `email_id` being whatever the
      save returned. */
  lemma ResultCopiesStages(data: RawEmail, userId: Json, agents: Agents, db: Database)
    requires IsCompleted(Pipeline(data, userId, agents, db))
    ensures var run := Pipeline(data, userId, agents, db);
            var a := run.result.value.analysis;
            && agents.read(data).ReaderOk? && a.parsedEmail == agents.read(data).parsedEmail
            && agents.classify(a.parsedEmail).Success?
            && a.category == agents.classify(a.parsedEmail).value.category
            && a.classificationConfidence == agents.classify(a.parsedEmail).value.confidence
            && FormatsAsFixed(a.classificationConfidence)
            && agents.summarize(a.parsedEmail, a.category).Success?
            && a.summary == agents.summarize(a.parsedEmail, a.category).value.summary
            && a.keyPoints == agents.summarize(a.parsedEmail, a.category).value.keyPoints
            && a.actionItems == agents.summarize(a.parsedEmail, a.category).value.actionItems
            && !KeyPointsLogRaises(a.keyPoints)
            && var d := agents.decide(a.parsedEmail, a.category);
               a.isImportant == d.isImportant && a.importanceScore == d.importanceScore
               && a.importanceLevel == d.importanceLevel && a.tone == d.tone
               && a.formality == Some(d.formality) && a.suggestedActions == DA.ActionNames(d.suggestedActions)
               && var record := StoredEmail(userId, a.parsedEmail.sender.email, a.parsedEmail.subject,
                                            a.parsedEmail.body, a.parsedEmail.receivedDate, a.category,
                                            a.summary, a.keyPoints, a.actionItems, a.isImportant,
                                            a.importanceScore, a.suggestedActions, a.suggestedReply, a.tone);
                  run.stages[|run.stages| - 1] == Save(record) && a.emailId == db.save(record)
  {
    CompletedUnfold(data, userId, agents, db);
    var email := agents.read(data).parsedEmail;
    var c := agents.classify(email).value;
    var s := agents.summarize(email, c.category).value;
    FinishCompleted(userId, email, c, s, agents.decide(email, c.category), agents, db,
                    FirstFive(data, userId, email, c, s));
  }

  /** The five calls before the reply, in order, with the contexts built from the earlier
      results; the reply agent, when called, gets the category, tone, summary, action items
      and suggested actions of the result. */
  lemma StageContexts(data: RawEmail, userId: Json, agents: Agents, db: Database)
    requires IsCompleted(Pipeline(data, userId, agents, db))
    ensures var run := Pipeline(data, userId, agents, db);
            var a := run.result.value.analysis;
            |run.stages| >= 6
            && run.stages[..5] == [LookUpUser(userId), Read(data), Classify(a.parsedEmail),
                                   Summarize(a.parsedEmail, map["category" := a.category]),
                                   Decide(a.parsedEmail, map["category" := a.category, "summary" := a.summary])]
            && (Replied(run.stages) ==>
                  run.stages[5] == Reply(a.parsedEmail, ReplyContext(a.category, a.tone, a.summary,
                                                                     a.actionItems, a.suggestedActions)))
  {
    CompletedUnfold(data, userId, agents, db);
    var run := Pipeline(data, userId, agents, db);
    var email := agents.read(data).parsedEmail;
    var c := agents.classify(email).value;
    var s := agents.summarize(email, c.category).value;
    var d := agents.decide(email, c.category);
    var before := FirstFive(data, userId, email, c, s);
    FinishCompleted(userId, email, c, s, d, agents, db, before);
    assert run.stages[..5] == before;
    if !ReplyWanted(DA.ActionNames(d.suggestedActions)) {
      assert forall i :: 0 <= i < |run.stages| ==> !run.stages[i].Reply?;
    }
  }

  /** The save's outcome never changes the run: with another save function the same calls are
      made, the run completes or fails alike, and a completed result differs at most in its
      `email_id`. */
  lemma SaveDoesNotFailRun(data: RawEmail, userId: Json, agents: Agents, found: Json -> bool,
                           save1: StoredEmail -> Option<string>, save2: StoredEmail -> Option<string>)
    ensures var r1 := Pipeline(data, userId, agents, Database(found, save1));
            var r2 := Pipeline(data, userId, agents, Database(found, save2));
            r1.stages == r2.stages && (IsCompleted(r1) <==> IsCompleted(r2))
            && (!IsCompleted(r1) ==> r1 == r2)
            && (IsCompleted(r1) ==>
                  r1.result.value.analysis.(emailId := None) == r2.result.value.analysis.(emailId := None))
  {
    var db1 := Database(found, save1);
    var db2 := Database(found, save2);
    if found(userId) && agents.read(data).ReaderOk? {
      var email := agents.read(data).parsedEmail;
      var base := [LookUpUser(userId), Read(data), Classify(email)];
      assert [LookUpUser(userId), Read(data)] + [Classify(email)] == base;
      var classified := agents.classify(email);
      if classified.Success? && FormatsAsFixed(classified.value.confidence) {
        var c := classified.value;
        assert Pipeline(data, userId, agents, db1) == AfterClassification(userId, email, c, agents, db1, base);
        assert Pipeline(data, userId, agents, db2) == AfterClassification(userId, email, c, agents, db2, base);
        var summarized := agents.summarize(email, c.category);
        if summarized.Success? && !KeyPointsLogRaises(summarized.value.keyPoints) {
          var s := summarized.value;
          var d := agents.decide(email, c.category);
          var before := FirstFive(data, userId, email, c, s);
          assert base + [Summarize(email, SummaryContext(c.category)), Decide(email, DecisionContext(c.category, s.summary))]
                 == before;
          assert Pipeline(data, userId, agents, db1) == Finish(userId, email, c, s, d, agents, db1, before);
          assert Pipeline(data, userId, agents, db2) == Finish(userId, email, c, s, d, agents, db2, before);
        }
      }
    }
  }

  /** How a completed result's actions and reply come from the decision and reply agents. */
  predicate ReplyFromAgents(a: Analysis, agents: Agents)
  {
    && a.suggestedActions == DA.ActionNames(agents.decide(a.parsedEmail, a.category).suggestedActions)
    && (ReplyWanted(a.suggestedActions) ==>
          var answer := agents.reply(a.parsedEmail, ReplyContext(a.category, a.tone, a.summary, a.actionItems,
                                                                 a.suggestedActions));
          answer.Success? && (a.suggestedReply.Some? <==> answer.value.needsReply))
    && (!ReplyWanted(a.suggestedActions) ==> a.suggestedReply.None?)
  }

  /** A completed result keeps the decision's actions and the reply agent's answer. */
  lemma CompletedReplyFromAgents(data: RawEmail, userId: Json, agents: Agents, db: Database)
    requires IsCompleted(Pipeline(data, userId, agents, db))
    ensures ReplyFromAgents(Pipeline(data, userId, agents, db).result.value.analysis, agents)
  {
    CompletedUnfold(data, userId, agents, db);
    var email := agents.read(data).parsedEmail;
    var c := agents.classify(email).value;
    var s := agents.summarize(email, c.category).value;
    FinishCompleted(userId, email, c, s, agents.decide(email, c.category), agents, db,
                    FirstFive(data, userId, email, c, s));
  }

  /** With the real agents a completed run has a suggested reply exactly when the actions ask
      for one, which is exactly when the email is not Spam and its tones include urgent or
      inquisitive. */
  lemma RepliesFollowTone(data: RawEmail, userId: Json, agents: Agents, cats: seq<CA.Category>,
                          parseAddr: ParseAddr, ai: AIService, decode: Decoder, db: Database)
    requires IsSpecialists(agents, cats, parseAddr, ai, decode)
    requires IsCompleted(Pipeline(data, userId, agents, db))
    ensures var a := Pipeline(data, userId, agents, db).result.value.analysis;
            var tones := TA.DetectedTones(TA.AnalysisText(a.parsedEmail.body, a.parsedEmail.subject));
            (a.suggestedReply.Some? <==> ReplyWanted(a.suggestedActions))
            && (ReplyWanted(a.suggestedActions) <==>
                  a.category != JStr("Spam") && ("urgent" in tones || "inquisitive" in tones))
  {
    CompletedReplyFromAgents(data, userId, agents, db);
    SpecialistsReplyOnTone(Pipeline(data, userId, agents, db).result.value.analysis, agents, cats, parseAddr,
                           ai, decode);
  }

  /** The step of `RepliesFollowTone` about the agents alone. */
  lemma SpecialistsReplyOnTone(a: Analysis, agents: Agents, cats: seq<CA.Category>, parseAddr: ParseAddr,
                               ai: AIService, decode: Decoder)
    requires IsSpecialists(agents, cats, parseAddr, ai, decode)
    requires ReplyFromAgents(a, agents)
    ensures var tones := TA.DetectedTones(TA.AnalysisText(a.parsedEmail.body, a.parsedEmail.subject));
            (a.suggestedReply.Some? <==> ReplyWanted(a.suggestedActions))
            && (ReplyWanted(a.suggestedActions) <==>
                  a.category != JStr("Spam") && ("urgent" in tones || "inquisitive" in tones))
  {
    var d := agents.decide(a.parsedEmail, a.category);
    assert d == DA.Decide(a.parsedEmail, a.category);
    var importance := IS.Importance(a.parsedEmail, a.category);
    var tones := TA.DetectedTones(TA.AnalysisText(a.parsedEmail.body, a.parsedEmail.subject));
    DA.ReplyNamed(d.suggestedActions);
    DA.ReplyTriggers(importance.Important(), importance.Score(), tones, a.category);
    if ReplyWanted(a.suggestedActions) {
      RP.ReplyOutcomes(a.parsedEmail, ReplyContext(a.category, a.tone, a.summary, a.actionItems,
                                                   a.suggestedActions), ai, decode);
    }
  }
}
