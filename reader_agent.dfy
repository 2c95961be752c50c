/** The Reader Agent of backend/agents/reader_agent.py: the "subject or body" check in front
    of the EmailParser tool, with every failure turned into a result value. */
module ReaderAgent {
  import opened EmailParser

  const Name := "Reader Agent"
  const EmptyEmailMessage := "Email must have at least subject or body"

  /** The agent's dict: `success` with `parsed_email`, or `success: False` with str(e).
      `toolsUsed` is ["EmailParser"] or []. */
  datatype ReaderResult =
    | ReaderOk(parsedEmail: ParsedEmail, toolsUsed: seq<string>)
    | ReaderFailed(error: string, toolsUsed: seq<string>)

  /** `not data.get(key)`: missing, null or the empty string. */
  predicate Falsy(f: Field)
  {
    f.Absent? || f.Null? || f == Str("")
  }

  /** `ReaderAgent.process`. It never raises: the validation error and a parser failure both
      become `ReaderFailed`. */
  function Process(data: RawEmail, parseAddr: ParseAddr): (r: ReaderResult)
    ensures Falsy(data.subject) && Falsy(data.body) ==> r == ReaderFailed(EmptyEmailMessage, [])
    ensures !(Falsy(data.subject) && Falsy(data.body)) && Execute(data, parseAddr).ParseError? ==>
              r == ReaderFailed(Execute(data, parseAddr).error, [])
    ensures r.ReaderOk? <==> !(Falsy(data.subject) && Falsy(data.body)) && Execute(data, parseAddr).Parsed?
    ensures r.ReaderOk? ==> r.parsedEmail == Execute(data, parseAddr).email && r.toolsUsed == ["EmailParser"]
  {
    if Falsy(data.subject) && Falsy(data.body) then ReaderFailed(EmptyEmailMessage, [])
    else match Execute(data, parseAddr)
      case ParseError(e) => ReaderFailed(e, [])
      case Parsed(email) => ReaderOk(email, ["EmailParser"])
  }

  /** A successful read had a non-empty subject or body string, and neither field was null. */
  lemma ReadNeedsText(data: RawEmail, parseAddr: ParseAddr)
    requires Process(data, parseAddr).ReaderOk?
    ensures (data.subject.Str? && data.subject.s != "") || (data.body.Str? && data.body.s != "")
    ensures !data.subject.Null? && !data.body.Null?
  {
    assert !(Falsy(data.subject) && Falsy(data.body));
    assert Execute(data, parseAddr).Parsed?;
  }

  /** A null subject next to a real body is not caught by the check; the parser's TypeError
      comes back instead. */
  lemma NullSubjectReachesParser(data: RawEmail, parseAddr: ParseAddr)
    requires data.subject.Null? && data.body.Str? && data.body.s != ""
    ensures Process(data, parseAddr) == ReaderFailed(NotAStringMessage, [])
  {
  }
}
