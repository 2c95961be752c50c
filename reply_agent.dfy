/** The Reply Agent of backend/agents/reply_agent.py: the AI reply with its fatal/fallback
    split, the context defaults, and the category templates of the fallback. */
module ReplyAgent {
  import opened Wrappers
  import opened Text
  import opened Json
  import opened Errors
  import opened OpenAIClient
  import opened EmailParser

  const Name := "Reply Agent"
  const RequiredFields: seq<string> := ["brief", "standard", "detailed", "subject_reply"]
  const BodyExcerptLength: nat := 800

  /** The context dict the caller passes; an empty dict is falsy, exactly like no context. */
  type Context = map<string, Json>

  /** The literal runs of the templates, named by category, version and position. */
  datatype TextKey =
    | WorkBrief1
    | WorkBrief2
    | WorkStandard1
    | WorkStandard2
    | WorkStandard3
    | WorkDetailed1
    | WorkDetailed2
    | WorkDetailed3
    | PersonalBrief1
    | PersonalBrief2
    | PersonalBrief3
    | PersonalStandard1
    | PersonalStandard2
    | PersonalStandard3
    | PersonalDetailed1
    | PersonalDetailed2
    | PersonalDetailed3
    | FinancialBrief1
    | FinancialBrief2
    | FinancialStandard1
    | FinancialStandard2
    | FinancialDetailed1
    | FinancialDetailed2
    | SupportBrief1
    | SupportBrief2
    | SupportStandard1
    | SupportStandard2
    | SupportDetailed1
    | SupportDetailed2
    | NewsletterBrief1
    | NewsletterBrief2
    | NewsletterStandard1
    | NewsletterStandard2
    | OtherBrief1
    | OtherBrief2
    | OtherStandard1
    | OtherStandard2

  /** The text of each literal run (the Vietnamese wording of the templates, verbatim). */
  function LiteralText(k: TextKey): string
  {
    match k
    case WorkBrief1 => "Cảm ơn email về "
    case WorkBrief2 => ". Tôi đã xem xét nội dung và sẽ thực hiện các bước cần thiết. Nếu có thắc mắc gì, tôi sẽ liên hệ lại ngay."
    case WorkStandard1 => "Kính gửi "
    case WorkStandard2 => ",\n\nCảm ơn bạn đã gửi email về "
    case WorkStandard3 => ". Tôi đã nắm được các yêu cầu và sẽ ưu tiên xử lý trong thời gian sớm nhất. Dự kiến hoàn thành trong vòng 1-2 ngày làm việc.\n\nNếu có bất kỳ thông tin bổ sung nào, vui lòng cho tôi biết.\n\nTrân trọng"
    case WorkDetailed1 => "Kính gửi "
    case WorkDetailed2 => ",\n\nCảm ơn bạn đã gửi email về "
    case WorkDetailed3 => ".\n\nTôi đã xem xét kỹ các nội dung và yêu cầu trong email. Tôi hiểu đây là vấn đề quan trọng và sẽ ưu tiên xử lý ngay.\n\nKế hoạch của tôi:\n1. Xem xét chi tiết các tài liệu/thông tin liên quan\n2. Thực hiện các hành động cần thiết\n3. Cập nhật tiến độ cho bạn trong vòng 1-2 ngày\n\nNếu có bất kỳ thông tin bổ sung hoặc yêu cầu gấp, đừng ngại liên hệ trực tiếp với tôi.\n\nTrân trọng"
    case PersonalBrief1 => "Chào "
    case PersonalBrief2 => "! Cảm ơn bạn đã nhắn. Về "
    case PersonalBrief3 => ", mình đồng ý và sẽ sắp xếp phù hợp. Hẹn sớm gặp lại bạn nhé!"
    case PersonalStandard1 => "Chào "
    case PersonalStandard2 => ",\n\nCảm ơn bạn đã gửi tin nhắn! Về "
    case PersonalStandard3 => ", mình rất vui và sẽ cố gắng sắp xếp thời gian phù hợp.\n\nMình sẽ xác nhận lại với bạn trong thời gian sớm nhất nhé. Nếu có gì thay đổi, mình sẽ báo bạn trước.\n\nHẹn sớm gặp lại!"
    case PersonalDetailed1 => "Chào "
    case PersonalDetailed2 => ",\n\nRất vui khi nhận được tin nhắn của bạn về "
    case PersonalDetailed3 => "!\n\nMình đã đọc kỹ nội dung và thấy rất hay. Mình hoàn toàn đồng ý với đề xuất của bạn và sẽ sắp xếp thời gian phù hợp nhất.\n\nMình sẽ kiểm tra lịch trình và xác nhận lại với bạn trong hôm nay hoặc ngày mai. Nếu có bất kỳ thay đổi nào, mình sẽ báo bạn biết trước.\n\nCảm ơn bạn đã nghĩ đến mình. Hẹn sớm gặp lại nhé!"
    case FinancialBrief1 => "Đã nhận được thông báo về "
    case FinancialBrief2 => ". Tôi sẽ kiểm tra và thanh toán đúng hạn. Cảm ơn đã nhắc nhở."
    case FinancialStandard1 => "Kính gửi,\n\nCảm ơn đã gửi thông báo về "
    case FinancialStandard2 => ".\n\nTôi đã ghi nhận thông tin và sẽ thực hiện thanh toán đúng hạn như yêu cầu. Nếu có bất kỳ vấn đề gì phát sinh, tôi sẽ liên hệ trực tiếp.\n\nTrân trọng"
    case FinancialDetailed1 => "Kính gửi,\n\nCảm ơn đã gửi thông báo về "
    case FinancialDetailed2 => ".\n\nTôi đã nhận được và ghi nhận đầy đủ các thông tin:\n- Số tiền cần thanh toán\n- Thời hạn thanh toán\n- Phương thức thanh toán\n\nTôi sẽ thực hiện thanh toán đúng hạn qua phương thức đã đăng ký. Nếu có bất kỳ thay đổi hoặc vấn đề gì phát sinh, tôi sẽ liên hệ trực tiếp với bộ phận hỗ trợ.\n\nTrân trọng"
    case SupportBrief1 => "Cảm ơn đã hỗ trợ về "
    case SupportBrief2 => ". Thông tin rất hữu ích. Nếu cần thêm hỗ trợ, tôi sẽ liên hệ lại."
    case SupportStandard1 => "Xin chào,\n\nCảm ơn đội ngũ hỗ trợ đã gửi thông tin về "
    case SupportStandard2 => ".\n\nThông tin bạn cung cấp rất hữu ích và giúp tôi giải quyết được vấn đề. Nếu có bất kỳ thắc mắc gì thêm, tôi sẽ liên hệ lại.\n\nCảm ơn sự hỗ trợ nhiệt tình!"
    case SupportDetailed1 => "Xin chào,\n\nCảm ơn đội ngũ hỗ trợ đã gửi thông tin chi tiết về "
    case SupportDetailed2 => ".\n\nTôi đã đọc kỹ hướng dẫn và thông tin bạn cung cấp. Các bước giải quyết rất rõ ràng và giúp tôi hiểu rõ hơn về vấn đề đang gặp phải.\n\nTôi sẽ thực hiện theo hướng dẫn và theo dõi tình hình. Nếu vấn đề vẫn còn hoặc có thắc mắc gì thêm, tôi sẽ liên hệ lại với đội hỗ trợ.\n\nCảm ơn sự hỗ trợ nhiệt tình và chuyên nghiệp!"
    case NewsletterBrief1 => "Cảm ơn đã chia sẻ thông tin về "
    case NewsletterBrief2 => ". Nội dung rất hữu ích và thú vị!"
    case NewsletterStandard1 => "Xin chào,\n\nCảm ơn đã gửi thông tin về "
    case NewsletterStandard2 => ".\n\nNội dung rất hữu ích và cập nhật. Tôi đánh giá cao việc được nhận những thông tin chất lượng như vậy.\n\nMong được tiếp tục nhận những bản tin trong tương lai!"
    case OtherBrief1 => "Đã nhận được email về "
    case OtherBrief2 => ". Cảm ơn."
    case OtherStandard1 => "Xin chào,\n\nĐã nhận được email của bạn về "
    case OtherStandard2 => ".\n\nCảm ơn đã gửi thông tin. Nếu có nội dung liên quan đến tôi, tôi sẽ xem xét và phản hồi khi cần thiết.\n\nTrân trọng"
  }

  /** One part of an f-string template: a literal run, `'{subject}'` (the subject between
      single quotes) or `{sender}`. */
  datatype Piece = Lit(key: TextKey) | QuotedSubject | SenderName

  type Template = seq<Piece>

  /** The three versions a category's branch of `_fallback_reply` builds. */
  datatype Templates = Templates(brief: Template, standard: Template, detailed: Template)

  /** `suggested_reply`: the AI's values are whatever JSON the model returned. */
  datatype SuggestedReply = SuggestedReply(brief: Json, standard: Json, detailed: Json, subject: Json)

  /** The agent's success dict: `needs_reply`, `suggested_reply` and `tools_used`. */
  datatype ReplyResult = ReplyResult(needsReply: bool, suggestedReply: SuggestedReply, toolsUsed: seq<string>)

  function Quoted(s: string): string
  {
    "'" + s + "'"
  }

  function PieceText(p: Piece, subject: string, sender: string): string
  {
    match p
    case Lit(key) => LiteralText(key)
    case QuotedSubject => Quoted(subject)
    case SenderName => sender
  }

  /** The f-string filled in with the subject and the sender's name. */
  function Render(t: Template, subject: string, sender: string): string
  {
    if t == [] then [] else PieceText(t[0], subject, sender) + Render(t[1..], subject, sender)
  }

  /** The templates of the if/elif chain, chosen by comparing the category with each name
      (a category that is not a string equals none of them). */
  function TemplatesFor(category: Json): Templates
  {
    if category == JStr("Work") then
      Templates([Lit(WorkBrief1), QuotedSubject, Lit(WorkBrief2)],
                [Lit(WorkStandard1), SenderName, Lit(WorkStandard2), QuotedSubject, Lit(WorkStandard3)],
                [Lit(WorkDetailed1), SenderName, Lit(WorkDetailed2), QuotedSubject, Lit(WorkDetailed3)])
    else if category == JStr("Personal") then
      Templates([Lit(PersonalBrief1), SenderName, Lit(PersonalBrief2), QuotedSubject, Lit(PersonalBrief3)],
                [Lit(PersonalStandard1), SenderName, Lit(PersonalStandard2), QuotedSubject, Lit(PersonalStandard3)],
                [Lit(PersonalDetailed1), SenderName, Lit(PersonalDetailed2), QuotedSubject, Lit(PersonalDetailed3)])
    else if category == JStr("Financial") then
      Templates([Lit(FinancialBrief1), QuotedSubject, Lit(FinancialBrief2)],
                [Lit(FinancialStandard1), QuotedSubject, Lit(FinancialStandard2)],
                [Lit(FinancialDetailed1), QuotedSubject, Lit(FinancialDetailed2)])
    else if category == JStr("Support") then
      Templates([Lit(SupportBrief1), QuotedSubject, Lit(SupportBrief2)],
                [Lit(SupportStandard1), QuotedSubject, Lit(SupportStandard2)],
                [Lit(SupportDetailed1), QuotedSubject, Lit(SupportDetailed2)])
    else if category == JStr("Newsletter") || category == JStr("Announcement") then
      Templates([Lit(NewsletterBrief1), QuotedSubject, Lit(NewsletterBrief2)], [Lit(NewsletterStandard1), QuotedSubject, Lit(NewsletterStandard2)], [Lit(NewsletterStandard1), QuotedSubject, Lit(NewsletterStandard2)])
    else
      Templates([Lit(OtherBrief1), QuotedSubject, Lit(OtherBrief2)], [Lit(OtherStandard1), QuotedSubject, Lit(OtherStandard2)], [Lit(OtherStandard1), QuotedSubject, Lit(OtherStandard2)])
  }

  /** `context.get(key) if context else default`: a missing key reads as None. */
  function ProcessValue(context: Context, key: string, default: Json): Json
  {
    if context == map[] then default else if key in context then context[key] else JNull
  }

  /** `context.get(key, default) if context else default`, as `_fallback_reply` reads it. */
  function FallbackValue(context: Context, key: string, default: Json): Json
  {
    if context == map[] then default else if key in context then context[key] else default
  }

  function ActionItems(context: Context): Json
  {
    ProcessValue(context, "action_items", JArr([]))
  }

  /** The data the reply prompt carries: category, tone, subject, sender name and address,
      summary, the first 800 characters of the body and the action items. */
  function PromptFor(email: ParsedEmail, context: Context): Prompt
  {
    ReplyPrompt(ProcessValue(context, "category", JStr("Personal")),
                ProcessValue(context, "tone", JStr("neutral")),
                email.subject, email.sender.name, email.sender.email,
                ProcessValue(context, "summary", JStr("")),
                email.body[..if |email.body| < BodyExcerptLength then |email.body| else BodyExcerptLength],
                ActionItems(context))
  }

  /** Reference definition of `_fallback_reply`: the category's templates filled in, the
      subject prefixed with "Re: ". The sender's name always exists on a parsed email, so the
      default name of the source is never used. */
  function Fallback(email: ParsedEmail, context: Context): ReplyResult
  {
    var t := TemplatesFor(FallbackValue(context, "category", JStr("Personal")));
    var subject := email.subject;
    var sender := email.sender.name;
    ReplyResult(true,
                SuggestedReply(JStr(Render(t.brief, subject, sender)), JStr(Render(t.standard, subject, sender)),
                               JStr(Render(t.detailed, subject, sender)), JStr("Re: " + subject)),
                ["Template-Fallback"])
  }

  /** `', '.join(action_items)` raises a TypeError inside the prompt, before the service is
      asked, when the items are truthy and not joinable. */
  predicate PromptRaises(context: Context)
  {
    Truthy(ActionItems(context)) && !Joinable(ActionItems(context))
  }

  /** Reference definition of `ReplyAgent.process`: the OpenAIAPIError of the service is
      raised, any other failure gives the fallback, and a good answer gives its four values
      with `subject_reply` as the subject. */
  function Reply(email: ParsedEmail, context: Context, ai: AIService, decode: Decoder)
    : (r: Result<ReplyResult, ApiError>)
  {
    if PromptRaises(context) then Success(Fallback(email, context))
    else match ai(PromptFor(email, context))
      case Failure(e) => if e.IsOpenAIApiError() then Failure(e) else Success(Fallback(email, context))
      case Success(response) =>
        match AnswerFields(response, RequiredFields, decode)
        case None => Success(Fallback(email, context))
        case Some(m) =>
          Success(ReplyResult(true, SuggestedReply(m["brief"], m["standard"], m["detailed"], m["subject_reply"]),
                              ["OpenAI"]))
  }

  /** Every piece of a template shows up in what it renders to. */
  lemma {:induction false} RenderContainsPiece(t: Template, subject: string, sender: string, p: Piece)
    requires p in t
    ensures Contains(Render(t, subject, sender), PieceText(p, subject, sender))
    decreases |t|
  {
    var head := PieceText(t[0], subject, sender);
    var rest := Render(t[1..], subject, sender);
    if t[0] == p {
      assert StartsWith(head, head);
      ContainsAppendRight(head, rest, head);
    } else {
      assert p in t[1..];
      RenderContainsPiece(t[1..], subject, sender, p);
      ContainsAppendLeft(head, rest, PieceText(p, subject, sender));
    }
  }

  /** A template without `{sender}` renders the same for every name. */
  lemma {:induction false} RenderIgnoresSender(t: Template, subject: string, n1: string, n2: string)
    requires SenderName !in t
    ensures Render(t, subject, n1) == Render(t, subject, n2)
    decreases |t|
  {
    if t != [] {
      assert t[0] in t;
      assert forall i :: 0 <= i < |t| - 1 ==> t[1..][i] == t[i + 1];
      PieceIgnoresSender(t[0], subject, n1, n2);
      RenderIgnoresSender(t[1..], subject, n1, n2);
    }
  }

  lemma PieceIgnoresSender(p: Piece, subject: string, n1: string, n2: string)
    requires p != SenderName
    ensures PieceText(p, subject, n1) == PieceText(p, subject, n2)
  {
    if p.Lit? {
      assert PieceText(p, subject, n1) == LiteralText(p.key) == PieceText(p, subject, n2);
    }
  }

  /** Every version of the fallback quotes the subject, and its subject line is "Re: " and the
      subject; the fallback always asks for a reply and names the templates as its tool. */
  lemma FallbackQuotesSubject(email: ParsedEmail, context: Context)
    ensures var r := Fallback(email, context);
            var q := Quoted(email.subject);
            r.needsReply && r.toolsUsed == ["Template-Fallback"]
            && r.suggestedReply.subject == JStr("Re: " + email.subject)
            && r.suggestedReply.brief.JStr? && Contains(r.suggestedReply.brief.s, q)
            && r.suggestedReply.standard.JStr? && Contains(r.suggestedReply.standard.s, q)
            && r.suggestedReply.detailed.JStr? && Contains(r.suggestedReply.detailed.s, q)
  {
    var t := TemplatesFor(FallbackValue(context, "category", JStr("Personal")));
    var subject, sender := email.subject, email.sender.name;
    RenderContainsPiece(t.brief, subject, sender, QuotedSubject);
    RenderContainsPiece(t.standard, subject, sender, QuotedSubject);
    RenderContainsPiece(t.detailed, subject, sender, QuotedSubject);
  }

  predicate HasOwnDetailed(category: Json)
  {
    category in {JStr("Work"), JStr("Personal"), JStr("Financial"), JStr("Support")}
  }

  /** Newsletter, Announcement and every category outside the five named branches reuse the
      standard version as the detailed one; Work, Personal, Financial and Support have a
      template of their own for it. */
  lemma DetailedIsStandard(category: Json, subject: string, sender: string)
    ensures var t := TemplatesFor(category);
            !HasOwnDetailed(category) ==> Render(t.detailed, subject, sender) == Render(t.standard, subject, sender)
    ensures var t := TemplatesFor(category);
            HasOwnDetailed(category) <==> t.detailed != t.standard
  {
  }

  /** Outside Work and Personal the templates do not use the sender's name: the fallback is
      the same for every sender. */
  lemma SenderIgnoredElsewhere(category: Json, subject: string, n1: string, n2: string)
    requires category != JStr("Work") && category != JStr("Personal")
    ensures var t := TemplatesFor(category);
            Render(t.brief, subject, n1) == Render(t.brief, subject, n2)
            && Render(t.standard, subject, n1) == Render(t.standard, subject, n2)
            && Render(t.detailed, subject, n1) == Render(t.detailed, subject, n2)
  {
    var t := TemplatesFor(category);
    RenderIgnoresSender(t.brief, subject, n1, n2);
    RenderIgnoresSender(t.standard, subject, n1, n2);
    RenderIgnoresSender(t.detailed, subject, n1, n2);
  }

  /** The Work and Personal templates address the sender by name in the standard and the
      detailed version (and, for Personal, the brief one too). */
  lemma SenderNamedInWorkAndPersonal(category: Json, subject: string, sender: string)
    requires category == JStr("Work") || category == JStr("Personal")
    ensures var t := TemplatesFor(category);
            Contains(Render(t.standard, subject, sender), sender)
            && Contains(Render(t.detailed, subject, sender), sender)
            && (category == JStr("Personal") ==> Contains(Render(t.brief, subject, sender), sender))
  {
    var t := TemplatesFor(category);
    RenderContainsPiece(t.standard, subject, sender, SenderName);
    RenderContainsPiece(t.detailed, subject, sender, SenderName);
    if category == JStr("Personal") {
      RenderContainsPiece(t.brief, subject, sender, SenderName);
    }
  }

  /** The fallback reads only the category of the context: the tone, summary and other keys
      change nothing. */
  lemma FallbackReadsOnlyCategory(email: ParsedEmail, context: Context, key: string, v: Json)
    requires key != "category"
    ensures Fallback(email, context[key := v]) == Fallback(email, context)
  {
    assert FallbackValue(context[key := v], "category", JStr("Personal"))
           == FallbackValue(context, "category", JStr("Personal"));
  }

  /** Of the email the fallback reads only the subject and the sender's name: the body, the
      address and the date change nothing. */
  lemma FallbackReadsOnlySubjectAndSender(e1: ParsedEmail, e2: ParsedEmail, context: Context)
    requires e1.subject == e2.subject && e1.sender.name == e2.sender.name
    ensures Fallback(e1, context) == Fallback(e2, context)
  {
  }

  /** Without a context the prompt uses category Personal, tone neutral, an empty summary and
      no action items, and the fallback uses the Personal templates. */
  lemma MissingContextDefaults(email: ParsedEmail)
    ensures var p := PromptFor(email, map[]);
            p.category == JStr("Personal") && p.tone == JStr("neutral")
            && p.summary == JStr("") && p.actionItems == JArr([])
    ensures !PromptRaises(map[])
    ensures Fallback(email, map[]).suggestedReply.brief
            == JStr(Render(TemplatesFor(JStr("Personal")).brief, email.subject, email.sender.name))
  {
  }

  /** A non-empty context without a category sends None to the service as the category but
      still falls back to the Personal templates. */
  lemma MissingCategoryKey(email: ParsedEmail, context: Context)
    requires context != map[] && "category" !in context
    ensures PromptFor(email, context).category == JNull
    ensures Fallback(email, context) == Fallback(email, map[])
  {
  }

  /** The four outcomes of `process`: only the service's OpenAIAPIError escapes; the AI's
      values come back unvalidated with ["OpenAI"]; a prompt that cannot be built, another error
      or a malformed answer gives the fallback. Every success asks for a reply. */
  lemma ReplyOutcomes(email: ParsedEmail, context: Context, ai: AIService, decode: Decoder)
    ensures var r := Reply(email, context, ai, decode);
            var answer := ai(PromptFor(email, context));
            (r.Failure? <==> !PromptRaises(context) && answer.Failure? && answer.error.IsOpenAIApiError())
            && (r.Failure? ==> r.error == answer.error)
            && (r.Success? ==> r.value.needsReply)
            && (PromptRaises(context) ==> r == Success(Fallback(email, context)))
            && (r.Success? && r.value.toolsUsed == ["OpenAI"] <==>
                  !PromptRaises(context) && answer.Success? && AnswerFields(answer.value, RequiredFields, decode).Some?)
            && (r.Success? && r.value.toolsUsed == ["OpenAI"] ==>
                  var m := AnswerFields(answer.value, RequiredFields, decode).value;
                  r.value.suggestedReply == SuggestedReply(m["brief"], m["standard"], m["detailed"], m["subject_reply"]))
            && (r.Success? && r.value.toolsUsed != ["OpenAI"] ==> r.value == Fallback(email, context))
  {
  }
}
