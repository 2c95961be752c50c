# Email analysis pipeline, modelled in Dafny

This project models the analysis core of an AI email assistant's Python backend. One raw email
goes through a fixed sequence of specialist agents:

1. the Reader Agent, which validates the email and parses it with the EmailParser tool;
2. the Classifier Agent, which gives a category: from the AI service, or by keyword matching;
3. the Summarizer Agent, which gives a summary, key points and action items: from the AI
   service, or from the first sentence;
4. the Decision Agent, which gives an importance score (ImportanceScorer tool), a tone
   (ToneAnalyzer tool) and suggested actions from a rule table;
5. the Reply Agent, only when the actions ask for a reply, which gives a suggested reply: from
   the AI service, or from per-category templates;
6. a save to the database.

The Email Coordinator runs these stages, stops at the first failure and assembles the
record. The AI client wrapper picks a provider, builds the request, maps every SDK exception
to one fatal error class, and extracts JSON leniently from the model's answer. The error
taxonomy gives each error class its HTTP status.

Each source file has one module:

| module | source file |
|---|---|
| `Errors` | backend/utils/errors.py |
| `OpenAIClient` | backend/utils/openai_client.py |
| `EmailParser` | backend/tools/email_parser.py |
| `ReaderAgent` | backend/agents/reader_agent.py |
| `ToneAnalyzer` | backend/tools/tone_analyzer.py |
| `ImportanceScorer` | backend/tools/importance_scorer.py |
| `ClassifierAgent` | backend/agents/classifier_agent.py |
| `SummarizerAgent` | backend/agents/summarizer_agent.py |
| `DecisionAgent` | backend/agents/decision_agent.py |
| `ReplyAgent` | backend/agents/reply_agent.py |
| `EmailCoordinator` | backend/agents/email_coordinator.py |

Three helper modules support them: `Wrappers` (Option and Result), `Text` (substring tests,
ASCII lower-casing, strip, split), and `Json` (decoded JSON values and the few Python
operations the pipeline applies to them without checking their type).

## Collaborators

Collaborators the model cannot see are parameters:
- `email.utils.parseaddr` is an uninterpreted `string -> (string, string)`.
- `json.loads` is an uninterpreted `string -> Option<Json>`, with None for a decode error.
- The AI service, as an agent sees it, is `Prompt -> Result<string, ApiError>`. A `Prompt`
  carries the data each prompt is built from.
- The SDK call inside `generate_text` is `Request -> SdkOutcome`.
- The database is two functions: whether `get_or_create_user` found a user, and the id
  `save_email` returned (or None).

## Imperative and pure parts

Where the source updates state step by step, the model is imperative:
- `ToneAnalyzer.Execute` builds the tone list by appends.
- `ImportanceScorer.Execute` adds to the score and appends reasons, and
  `ImportanceScorer.ScoreMetadata` adds to a local score.
- `DecisionAgent.DecideActions` and `DecisionAgent.ApplyRules` build the action list by
  conditional appends.
- `ClassifierAgent.ClassifierAgent.FallbackClassification` is a search loop with an early
  return.
- The `EmailCoordinator.EmailCoordinator` class holds the agents and the database handle.
  `ProcessEmail` returns the run's result together with the sequence of calls it made, each
  with the data or context passed to it.

Each of these methods is proved equal to a reference function, and the properties are proved
as lemmas about that function.

## Where the code differs from a plain reading

The model follows the code in each of these places:
- Formality compares the number of distinct phrases present, not the number of occurrences.
- Metadata is read off the raw body, not the cleaned one.
- Python precedence makes the sender's name "Unknown" whenever parseaddr finds no address.
- The classifier lower-cases the text but not the keywords, so a keyword with an upper-case
  letter never matches.
- When the AI answers, its values are passed on unvalidated. So:
  - a list or object category makes the scorer fail (an unhashable dict key);
  - a confidence that `:.2f` cannot format, or key points that `', '.join(key_points[:3])`
    cannot join, make the coordinator's log lines raise, and the run returns `success: False`.
- The stage `success` checks for the classifier, summarizer and decision agent can never fire,
  because those agents always report success.

## Model

| member | source | states |
|---|---|---|
| Errors.NewApiError | backend/utils/errors.py:6-11 | An APIError keeps its message and status code (default 500) and is an instance of none of the three subclasses. |
| Errors.NewOpenAIApiError | backend/utils/errors.py:14-17 | An OpenAIAPIError has status 503 and is an APIError. |
| Errors.NewRateLimitExceededError | backend/utils/errors.py:20-24 | A RateLimitExceededError has status 429, carries `retry_after`, and is an APIError but not an OpenAIAPIError. |
| Errors.NewEmailProcessingError | backend/utils/errors.py:27-30 | An EmailProcessingError has status 400 and is an APIError but not an OpenAIAPIError. |
| Errors.SubclassesAreApiErrors | backend/utils/errors.py:14-27 | Every subclass instance is an APIError, so an `except APIError` catches all three; no error is an instance of two of the three subclasses. |
| Errors.ConstructorsSetStatus | backend/utils/errors.py:8-30 | Each constructor gives its class's status; APIError without a status gets 500. |
| OpenAIClient.New | backend/utils/openai_client.py:30-56 | Gemini is chosen exactly when its key is non-empty and its SDK is installed, OpenAI exactly when Gemini is not usable and OpenAI is; each model name; ValueError exactly when neither is usable; a failing SDK setup raises the fatal OpenAIAPIError("Could not initialize AI service"). |
| OpenAIClient.BuildRequest | backend/utils/openai_client.py:76-97 | Gemini gets the system instruction, "\n\n" and the prompt as one text, or the prompt alone without an instruction; OpenAI gets a system message only when there is an instruction, then the user message, for the configured model. |
| OpenAIClient.GenerateText | backend/utils/openai_client.py:58-111 | Success exactly when the SDK returns, with its text; any SDK exception becomes OpenAIAPIError("AI service is temporarily unavailable") with status 503. |
| OpenAIClient.JsonCandidate | backend/utils/openai_client.py:130-134 | When a '}' follows the first '{', the candidate runs from the first '{' to the last '}' inclusive, with no '{' before it and no '}' after it; otherwise it is the whole response. |
| OpenAIClient.JsonCandidateIsSubstring | backend/utils/openai_client.py:130-134 | The candidate handed to the decoder is always a substring of the response. |
| OpenAIClient.Missing | backend/utils/openai_client.py:141 | A field is listed as missing exactly when it is required and `field in value` is false. |
| OpenAIClient.ParseJsonResponse | backend/utils/openai_client.py:113-149 | An undecodable candidate is exactly the decode failure; a success is the decoded value and holds every required field; a missing-fields failure lists a non-empty set of exactly the absent required fields. |
| OpenAIClient.AnswerFields | backend/agents/classifier_agent.py:102-112 | The fields an agent reads exist exactly when parsing succeeded on an object; they are that object's fields and include every required field. |
| Json.In | backend/utils/openai_client.py:140-141 | `key in value` raises exactly on null, booleans and numbers, and on an object tests its keys. |
| EmailParser.ParseSender | backend/tools/email_parser.py:53-67 | Without a parsed address the name is "Unknown" and the email is the raw sender (None for null); with one, the email is the address and the name is the display name, or else the address up to its first '@' (the whole address when it has none). |
| EmailParser.SenderNameIsLocalPart | backend/tools/email_parser.py:65 | A nameless address `local@domain` is shown under exactly its local part. |
| EmailParser.MarkerLength | backend/tools/email_parser.py:80 | The anchored match has length 0, 3 or 4 and never exceeds the subject; a positive length covers a marker (some casing of "Re:", "Fw:" or "Fwd:"), and 0 means no prefix of the subject is a marker. |
| EmailParser.CleanSubject | backend/tools/email_parser.py:69-81 | The cleaned subject starts and ends with a non-whitespace character, or is empty; a subject with no marker prefix is only stripped, and one whose first k characters form a marker becomes the stripped rest after them. |
| EmailParser.CleanSubjectDropsMarker | backend/tools/email_parser.py:80-81 | Any casing of "Re:", "Fw:" or "Fwd:" in front is removed and the rest is stripped. |
| EmailParser.CleanSubjectKeepsSecondMarker | backend/tools/email_parser.py:80-81 | Only one marker goes: in "Re: Re: x" the second marker stays at the front. |
| EmailParser.Collapse | backend/tools/email_parser.py:94 | The result is no longer than the input, is empty only for empty input, starts with a space when the input starts with whitespace and with the input's first character otherwise, contains no whitespace but single spaces, and keeps the non-whitespace characters in order. |
| EmailParser.CollapseKeepsWords | backend/tools/email_parser.py:94 | Collapsing keeps the words `str.split()` finds: none is glued to its neighbour and none is split. |
| EmailParser.CollapseIdentity | backend/tools/email_parser.py:94 | A string that already has single spaces only comes back unchanged. |
| EmailParser.CutSignature | backend/tools/email_parser.py:96 | The result is the text before the first "--": a prefix of the input, with no "--" starting at any of its positions, followed in the input by "--" when something was cut, and the whole input when it has no "--". |
| EmailParser.CleanBody | backend/tools/email_parser.py:83-97 | The cleaned body has no whitespace at either end, no two whitespace characters in a row, no character of whitespace other than ' ', and no "--". |
| EmailParser.CleanBodyIdempotent | backend/tools/email_parser.py:94-97 | Cleaning a cleaned body changes nothing. |
| EmailParser.CleanBodyNoNewContent | backend/tools/email_parser.py:94-97 | The cleaned body is a substring of the whitespace-collapsed body. |
| EmailParser.PhoneInContext | backend/tools/email_parser.py:111 | A phone match stays a match when surrounded by text that starts and ends in non-word characters. |
| EmailParser.PhoneDetected | backend/tools/email_parser.py:111 | A 3-3-4 digit number with optional '-' or '.' separators, not glued to word characters on either side, sets `has_phone`. |
| EmailParser.ElevenDigitsAreNoPhone | backend/tools/email_parser.py:111 | Eleven digits in a row contain no phone match, because `\b` fails inside a digit run. |
| EmailParser.ExtractMetadata | backend/tools/email_parser.py:99-115 | `has_links` exactly when "http://" or "https://" occurs; `has_phone` exactly when the pattern matches; `word_count` is the number of maximal non-whitespace runs; `has_question` exactly when '?' occurs. |
| EmailParser.Execute | backend/tools/email_parser.py:22-51 | The parser fails exactly when the subject or the body is null, with the TypeError's text; otherwise the sender, subject and body are parsed and cleaned, metadata comes from the raw body, `has_attachments` defaults to false and `received_date` passes through. |
| ReaderAgent.Process | backend/agents/reader_agent.py:27-65 | A subject and a body that are both missing, null or empty give the validation error without parsing; a parser failure gives its error; success is exactly the parser's output with `tools_used` ["EmailParser"]; failures carry `tools_used` []; nothing raises. |
| ReaderAgent.ReadNeedsText | backend/agents/reader_agent.py:40-56 | A successful read had a non-empty subject or body, and neither was null. |
| ReaderAgent.NullSubjectReachesParser | backend/agents/reader_agent.py:40-47 | A null subject beside a real body passes the validation, and the parser's TypeError comes back instead. |
| ToneAnalyzer.AnalysisText | backend/tools/tone_analyzer.py:32 | The analysed text is the lower-cased subject, one space and the lower-cased body; it has no upper-case ASCII letter. |
| ToneAnalyzer.IndicatorListsDistinct | backend/tools/tone_analyzer.py:77-86 | The formal and casual phrase lists have no repeats, so counting present entries counts distinct phrases. |
| ToneAnalyzer.Formality | backend/tools/tone_analyzer.py:75-96 | "formal" exactly when more distinct formal phrases than casual ones are present, "casual" for the reverse, "neutral" on a tie (0 against 0 included). |
| ToneAnalyzer.Sentiment | backend/tools/tone_analyzer.py:107-126 | "positive" exactly when more positive words are present than negative ones, "negative" for the reverse, "" on a tie. |
| ToneAnalyzer.IsUrgent | backend/tools/tone_analyzer.py:98-105 | Urgent exactly when at least one urgency keyword entry occurs in the text. |
| ToneAnalyzer.IsGrateful | backend/tools/tone_analyzer.py:128-131 | Grateful exactly when at least one gratitude word occurs. |
| ToneAnalyzer.IsApologetic | backend/tools/tone_analyzer.py:133-136 | Apologetic exactly when at least one apology word occurs. |
| ToneAnalyzer.IsInquisitive | backend/tools/tone_analyzer.py:138-141 | Inquisitive exactly when a question indicator ('?' included) occurs. |
| ToneAnalyzer.ToneTestsInContext | backend/tools/tone_analyzer.py:98-141 | The four phrase tests are substring tests: text added on either side never switches one off. |
| ToneAnalyzer.DetectedTonesUnfold | backend/tools/tone_analyzer.py:41-55 | The tone list is urgent, the sentiment, grateful, apologetic and inquisitive, each included exactly when its test holds, in that order. |
| ToneAnalyzer.FirstByPriority | backend/tools/tone_analyzer.py:143-160 | The primary tone is the fallback or the answer of one of the priority table's entries. |
| ToneAnalyzer.PrimaryTone | backend/tools/tone_analyzer.py:143-160 | The primary tone is the formality or the answer of a priority entry whose tone is present; "urgent" in the list always wins; with no tones it is the formality. |
| ToneAnalyzer.PrimaryToneByPriority | backend/tools/tone_analyzer.py:143-160 | The if-chain equals the first entry of the priority table urgent > apologetic > grateful > inquisitive > positive ("friendly") > negative ("concerned") whose tone was detected, else the formality. |
| ToneAnalyzer.Execute | backend/tools/tone_analyzer.py:20-66 | The appended tone list is the reference tone list; the formality, the primary tone of that list, and confidence 0.8. |
| ToneAnalyzer.FilterMembers | backend/tools/tone_analyzer.py:41-55 | Every detected tone is one of the six tone names. |
| ToneAnalyzer.FilterMembership | backend/tools/tone_analyzer.py:41-55 | A tone name is in the list exactly when its test holds. |
| ToneAnalyzer.TonesDistinct | backend/tools/tone_analyzer.py:41-55 | The tone list never repeats a name. |
| ToneAnalyzer.AtMostOneSentiment | backend/tools/tone_analyzer.py:119-126 | Positive and negative never both appear, and neither appears on a tie. |
| ToneAnalyzer.TonesBounded | backend/tools/tone_analyzer.py:41-55 | At most five tones are detected. |
| ToneAnalyzer.PrimaryToneOfNames | backend/tools/tone_analyzer.py:143-160 | Over tone names and a formality value, the primary tone is the formality exactly when no tone was detected. |
| ToneAnalyzer.PrimaryIsFormalityIffNoTones | backend/tools/tone_analyzer.py:143-160 | For any text, the primary tone falls back to the formality exactly when the tone list is empty. |
| ToneAnalyzer.ImportantMeansUrgent | backend/tools/tone_analyzer.py:98-105 | A text containing "important" is urgent, and its primary tone is "urgent". |
| ImportanceScorer.CategoryWeight | backend/tools/importance_scorer.py:102-114 | A string category in the table gets its weight and any other hashable value gets 10; lists and objects raise; the weight is at most 30. |
| ImportanceScorer.SenderScore | backend/tools/importance_scorer.py:116-135 | A sender without an address raises; otherwise, in decision order: 25 exactly when an authority keyword is in the lower-cased name or address, else 15 exactly when the address has an organisation domain, else 0 exactly when it is a no-reply address, else 10. |
| ImportanceScorer.SubjectScore | backend/tools/importance_scorer.py:137-155 | In decision order: 20 exactly when a high-priority keyword occurs, else 15 exactly when a medium-priority keyword occurs, else 10 exactly when there is a '?', else 5. |
| ImportanceScorer.BodyScore | backend/tools/importance_scorer.py:157-173 | In decision order: 15 exactly when urgent wording occurs, else 10 exactly when there is a '?', else 8 exactly when there are fewer than 50 words, else 5. |
| ImportanceScorer.ScoreMetadata | backend/tools/importance_scorer.py:175-191 | The metadata score is 5 for a question plus 3 for a phone number plus 2 for fewer than 50 words, at most 10. |
| ImportanceScorer.Level | backend/tools/importance_scorer.py:193-202 | Critical exactly from 70, High exactly from 50 below 70, Medium exactly from 30 below 50, Low exactly below 30. |
| ImportanceScorer.LevelMonotone | backend/tools/importance_scorer.py:193-202 | A higher score never gets a lower level, and the level is High or Critical exactly when the score reaches 50. |
| ImportanceScorer.Execute | backend/tools/importance_scorer.py:38-100 | The step-by-step score and reasons equal the reference result: the five factors summed, `is_important` at 50, the positive factors as reasons, and the level; a raising factor gives the failure result. |
| ImportanceScorer.AddFactor | backend/tools/importance_scorer.py:53-81 | One factor step adds its points and appends its reason exactly when the points are positive. |
| ImportanceScorer.ScoreBounds | backend/tools/importance_scorer.py:50-84 | A successful score lies between 10 and 100, and the email is important exactly when the score reaches 50. |
| ImportanceScorer.PositiveTotal | backend/tools/importance_scorer.py:55-81 | Leaving out the zero-point factors keeps the total. |
| ImportanceScorer.PositiveMembers | backend/tools/importance_scorer.py:55-81 | The reasons are exactly the factors with positive points. |
| ImportanceScorer.PositiveOrder | backend/tools/importance_scorer.py:55-81 | Leaving out the zero-point factors keeps the factor order. |
| ImportanceScorer.ReasonsShape | backend/tools/importance_scorer.py:50-81 | The reasons are in factor order, always include the subject and body factors, number 2 to 5, and add up to the score. |
| ImportanceScorer.FailureCases | backend/tools/importance_scorer.py:94-100 | The scorer fails exactly for a list or object category or a sender without an address, and the callers then read score 0 and not important. |
| ImportanceScorer.WorkScoresAtLeast40 | backend/tools/importance_scorer.py:50-81 | A successful Work score is at least 30 + 0 + 5 + 5 + 0 = 40. |
| ClassifierAgent.FirstMatch | backend/agents/classifier_agent.py:131-142 | The first category in table order with at least one keyword match, or none exactly when no category matches. |
| ClassifierAgent.MatchCount | backend/agents/classifier_agent.py:132-133 | The number of keyword entries found is at most the number of keywords, and positive exactly when some keyword occurs in the text. |
| ClassifierAgent.MatchConfidence | backend/agents/classifier_agent.py:139 | min(0.2 * matches, 1.0) lies in (0, 1] for a match, and is 1.0 exactly from five matches on. |
| ClassifierAgent.Fallback | backend/agents/classifier_agent.py:123-152 | The keyword fallback uses the Keyword Matching tool, has a confidence in (0, 1], and is Personal / 0.5 / "Default classification" exactly when no category matches. |
| ClassifierAgent.ClassifierAgent.constructor | backend/agents/classifier_agent.py:23-46 | The agent's name, and the loaded category table, or an empty table when loading failed. |
| ClassifierAgent.ClassifierAgent.FallbackClassification | backend/agents/classifier_agent.py:123-152 | The search loop with its early return gives the reference fallback for the agent's table. |
| ClassifierAgent.ClassifierAgent.Process | backend/agents/classifier_agent.py:48-121 | The agent's method gives the reference classification for its table. |
| ClassifierAgent.ClassifyOutcomes | backend/agents/classifier_agent.py:94-121 | Only the service's OpenAIAPIError escapes, unchanged; the AI's three values come back unvalidated with ["OpenAI"] exactly when the answer parses with all fields; every other case is the keyword fallback. |
| ClassifierAgent.FallbackPicksFirstMatch | backend/agents/classifier_agent.py:131-142 | The first matching category wins, with confidence min(0.2 * n, 1.0) and reasoning "Matched n keywords". |
| ClassifierAgent.UppercaseKeywordNeverMatches | backend/agents/classifier_agent.py:128-133 | A keyword with an upper-case letter never matches, because only the text is lower-cased. |
| SummarizerAgent.FirstSentence | backend/agents/summarizer_agent.py:108-110 | The fallback sentence is 1 to 150 characters long, is a prefix of the body followed by '.', and has no '.' before its last character; it is the text up to the first '.' plus '.', or the first 150 characters of the body. |
| SummarizerAgent.Fallback | backend/agents/summarizer_agent.py:99-121 | The summary is the first sentence of a non-empty body, or the subject verbatim; the key points are [subject] when the subject is non-empty and [] otherwise; there are no action items; the tool is Text Truncation. |
| SummarizerAgent.Summarize | backend/agents/summarizer_agent.py:28-97 | Reference definition of `process`: the prompt is sent, the OpenAIAPIError is raised, a parsed answer gives its three values, every other case gives the fallback. Its properties are stated by SummarizeOutcomes. |
| SummarizerAgent.SummarizeOutcomes | backend/agents/summarizer_agent.py:39-97 | Only the service's OpenAIAPIError escapes, unchanged; the AI's three values come back verbatim with ["OpenAI"] exactly when the answer parses with all fields; every other case is the fallback. |
| SummarizerAgent.FallbackKeepsFirstSentence | backend/agents/summarizer_agent.py:108-110 | A body whose first '.' comes within its first 150 characters is summarised by exactly its text up to and including that '.'. |
| DecisionAgent.DecideActions | backend/agents/decision_agent.py:88-142 | The appended list is the reference rule table: [delete, unsubscribe] for Spam, or else the rules' actions, or [review] when no rule fired. |
| DecisionAgent.ApplyRules | backend/agents/decision_agent.py:108-136 | The appends add highlight and priority_inbox, reply_asap and flag, needs_reply, track (and calendar_reminder over 30), archive and mark_as_read, and read_later and archive, each for its condition and in table order. |
| DecisionAgent.Process | backend/agents/decision_agent.py:29-75 | The agent's result has the scorer's flag and score (False and 0 after a failure), its level or "Low", the tone analysis's primary tone and formality, and the decided actions. |
| DecisionAgent.SpamIsDeleted | backend/agents/decision_agent.py:103-106 | Spam gets exactly [delete, unsubscribe], whatever the score and the tones. |
| DecisionAgent.ReviewIffNoRule | backend/agents/decision_agent.py:138-140 | The list is never empty; it is [review] exactly when the email is not Spam, not important, not urgent, not inquisitive, and not Work, Financial or Newsletter. |
| DecisionAgent.ActionsDistinct | backend/agents/decision_agent.py:100-142 | No action is suggested twice. |
| DecisionAgent.ActionNamesDistinct | backend/agents/decision_agent.py:100-142 | The returned strings have no duplicates. |
| DecisionAgent.ReplyTriggers | backend/agents/decision_agent.py:103-120 | needs_reply or reply_asap is suggested exactly when the email is not Spam and its tones include urgent or inquisitive. |
| DecisionAgent.ReplyNamed | backend/agents/email_coordinator.py:126 | The coordinator's string test finds "needs_reply" or "reply_asap" exactly when those actions were decided. |
| DecisionAgent.WorkGetsCalendarReminder | backend/agents/decision_agent.py:123-126 | When the scorer succeeds, a Work email gets both track and calendar_reminder. |
| ReplyAgent.TemplatesFor | backend/agents/reply_agent.py:173-201 | Reference definition of the if/elif chain: the brief, standard and detailed templates of Work, Personal, Financial, Support, Newsletter or Announcement, and the rest. DetailedIsStandard, SenderIgnoredElsewhere and SenderNamedInWorkAndPersonal state its properties. |
| ReplyAgent.Fallback | backend/agents/reply_agent.py:162-214 | Reference definition of `_fallback_reply`: the templates of the context's category (Personal by default) filled with the subject and the sender's name. FallbackQuotesSubject, FallbackReadsOnlyCategory and FallbackReadsOnlySubjectAndSender state its properties. |
| ReplyAgent.FallbackQuotesSubject | backend/agents/reply_agent.py:162-214 | Every fallback version contains the subject in single quotes; the subject line is "Re: " and the subject; `needs_reply` is true and the tool is Template-Fallback. |
| ReplyAgent.DetailedIsStandard | backend/agents/reply_agent.py:193-201 | Newsletter, Announcement and every other category outside the named branches reuse the standard version as the detailed one; Work, Personal, Financial and Support have their own. |
| ReplyAgent.SenderIgnoredElsewhere | backend/agents/reply_agent.py:183-201 | Outside Work and Personal, the fallback is the same for every sender name. |
| ReplyAgent.SenderNamedInWorkAndPersonal | backend/agents/reply_agent.py:173-181 | The Work and Personal standard and detailed versions, and the Personal brief one, contain the sender's name. |
| ReplyAgent.FallbackReadsOnlyCategory | backend/agents/reply_agent.py:166-171 | The fallback reads only the context's category: changing any other key changes nothing. |
| ReplyAgent.FallbackReadsOnlySubjectAndSender | backend/agents/reply_agent.py:166-170 | Of the email the fallback reads only the subject and the sender's name: two emails that agree on those get the same fallback. |
| ReplyAgent.MissingContextDefaults | backend/agents/reply_agent.py:62-65 | Without a context the prompt has category Personal, tone neutral, an empty summary and no action items, and the fallback uses the Personal templates. |
| ReplyAgent.MissingCategoryKey | backend/agents/reply_agent.py:62-65 | In a non-empty context without a category, the prompt gets None as the category but the fallback still uses Personal. |
| ReplyAgent.Reply | backend/agents/reply_agent.py:47-160 | Reference definition of `process`: the prompt's join raises into the fallback, the OpenAIAPIError is raised, a parsed answer gives its four values, every other case falls back. Its properties are stated by ReplyOutcomes. |
| ReplyAgent.ReplyOutcomes | backend/agents/reply_agent.py:58-160 | Only the service's OpenAIAPIError escapes, unchanged; the AI's four values come back with `subject_reply` as the subject and ["OpenAI"] exactly when the prompt builds and the answer parses with all fields; every other case is the fallback; every success asks for a reply. |
| EmailCoordinator.Specialists | backend/agents/email_coordinator.py:29-38 | The five agents over one category table, parseaddr, AI service and decoder behave as the agent definitions. |
| EmailCoordinator.EmailCoordinator.constructor | backend/agents/email_coordinator.py:29-41 | The coordinator holds the specialist agents over the loaded category table (empty when loading failed) and the database handle. |
| EmailCoordinator.EmailCoordinator.ProcessEmail | backend/agents/email_coordinator.py:43-209 | The step-by-step run returns the reference result of `process_email` and makes the reference sequence of calls. |
| EmailCoordinator.EmailCoordinator.Analyse | backend/agents/email_coordinator.py:85-122 | Steps 3 and 4 (summary, its log line, decision) equal their reference definition. |
| EmailCoordinator.EmailCoordinator.Conclude | backend/agents/email_coordinator.py:124-192 | Steps 5 and 6 and the result dict equal their reference definition. |
| EmailCoordinator.EmailCoordinator.Process | backend/agents/email_coordinator.py:211-217 | `process` runs `process_email` with the context's user id, or "default_user" without a context. |
| EmailCoordinator.StagesInOrder | backend/agents/email_coordinator.py:61-166 | Calls go strictly in the order user, reader, classifier, summarizer, decision, reply (which may be skipped), save; the save is reached exactly when the run completes. |
| EmailCoordinator.EarlierStagesSucceeded | backend/agents/email_coordinator.py:61-166 | Every call before the last one succeeded: the user was found, the reader succeeded, the classifier answered with a formattable confidence, the summarizer answered with joinable key points, the reply agent answered. The run completes exactly when the last call succeeded too, so a run that stops early stops at the call that failed. |
| EmailCoordinator.FailurePolicy | backend/agents/email_coordinator.py:61-209 | A `success: False` result names only the coordinator and never follows a save. A missing user stops the run at the first call. A reader failure gives "Reader Agent failed: " and the reader's error. The other failures are the confidence and key-points log lines, raised for the values the classifier and summarizer returned. |
| EmailCoordinator.RaisedErrorsComeFromStages | backend/agents/email_coordinator.py:200-202 | A raised error is exactly what the last call raised: the classifier's, the summarizer's for the context's category, or the reply agent's. |
| EmailCoordinator.StageErrorPropagates | backend/agents/email_coordinator.py:200-202 | The converse: when the last call is the classifier, the summarizer or the reply agent and it raised, the run raises that same error. |
| EmailCoordinator.OnlyOpenAIErrorsEscape | backend/agents/email_coordinator.py:200-202 | With the real agents, only an OpenAIAPIError ever escapes a run. |
| EmailCoordinator.ReplyGate | backend/agents/email_coordinator.py:124-191 | In a completed run the reply agent was called exactly when the actions contain needs_reply or reply_asap; a suggested reply exists only after that call; `agents_used` has five entries, the first four being the agent names, and the last is the reply agent's name exactly when there is a suggested reply, None otherwise. |
| EmailCoordinator.ReplyCalledIffWanted | backend/agents/email_coordinator.py:124-138 | In every run, including one whose reply call raises, the reply agent is called only right after the decision, and a run that reached the decision calls it exactly when that decision's actions contain needs_reply or reply_asap. |
| EmailCoordinator.ResultCopiesStages | backend/agents/email_coordinator.py:143-192 | The result copies the reader's email, the classifier's category and confidence, the summarizer's three values, and the decision's fields (actions as strings); the last call saves exactly those values, and `email_id` is what the save returned. |
| EmailCoordinator.StageContexts | backend/agents/email_coordinator.py:87-134 | The summarizer gets {category}, the decision {category, summary}, and the reply agent the category, tone, summary, action items and suggested actions of the result. |
| EmailCoordinator.SaveDoesNotFailRun | backend/agents/email_coordinator.py:162-171 | Whatever the save returns, the run makes the same calls and completes or fails alike; completed results differ at most in `email_id`. |
| EmailCoordinator.CompletedReplyFromAgents | backend/agents/email_coordinator.py:124-141 | A completed result keeps the decision's actions; it has a suggested reply exactly when a reply was wanted and the reply agent's answer asked for one. |
| EmailCoordinator.RepliesFollowTone | backend/agents/email_coordinator.py:124-141 | With the real agents, a completed run has a suggested reply exactly when the actions ask for one, which is exactly when the email is not Spam and its tones include urgent or inquisitive. |

## Left out

- Logging `print`s, the Flask routes, the MongoDB layer (only the two calls above), the rate
  limiter and the frontend are not part of this model.
- Prompt wording, temperatures and token limits are not modelled. A prompt is the data it
  carries, and the AI service is an oracle over it.
- The text of an SDK answer and the internals of `parseaddr` and `json.loads` are
  uninterpreted functions.
- The regular expressions are written out by hand over ASCII. `\s` is Python's whitespace
  set, `\b` and `\d` are ASCII, and IGNORECASE and `.lower()` fold only ASCII letters.
- Floating point: a confidence is a `real`, so `0.2 * matches` is exact.
- Email fields are modelled as missing, null or a string. Other JSON types in the raw email,
  and a null `has_attachments`, are not modelled.
- Loading `email_categories.json` is not modelled: the classifier's table is a parameter, or
  empty when loading failed. The scorer's `self.categories` and the reply agent's
  `self.templates` are loaded but never read, so they are left out.
- The base classes `BaseAgent` and `BaseTool` are not part of this model. `use_tool` is taken
  to call the tool's `execute`.
- The agents are function values. The coordinator holds them as a datatype field, not as
  objects, and only their `process` behaviour is modelled.
- The except branches of `ToneAnalyzer.execute` and `DecisionAgent.process` are not modelled:
  nothing in them can raise for the values the pipeline passes.
- The coordinator's checks of the classifier's, summarizer's and decision agent's `success`
  flags are not modelled: those agents always return `success: True`. The reader check, the
  user check and the two log lines are modelled.
- The reply fallback's default sender name 'bạn' is not modelled: a parsed email always has a
  sender name.
- The provider's SDK setup is reduced to one flag saying whether it returned normally.
- EmailCoordinator.FailurePolicy: for the two log-line failures, the error text Python derives
  from the offending value is not modelled; the run records the value instead.
- OpenAIClient.Missing: states which fields are listed, not that they keep the required
  order.
- OpenAIClient.ParseJsonResponse: the ValueError messages are not modelled, only which error
  kind occurs.
- ImportanceScorer.Execute: the wording of each reason is not modelled, only its factor and
  points.
- ClassifierAgent.ClassifierAgent.constructor: the OpenAI client the source creates here is
  the shared AI service parameter instead.
