/**
 * The `ask_human` tool and the middleware that injects it and logs the
 * questions an agent asks. The graph interrupt is foreign: the value the
 * run is resumed with is an input here.
 */
module Questions {
  import opened Common

  // ---------------------------------------------------------------------------
  // Questions
  // ---------------------------------------------------------------------------

  datatype Priority = Blocking | High | Medium | NiceToHave

  /** The string value of each `QuestionPriority` member. */
  function PriorityValue(p: Priority): string {
    match p
    case Blocking => "blocking"
    case High => "high"
    case Medium => "medium"
    case NiceToHave => "nice_to_have"
  }

  /** `QuestionPriority(s)`: `None` where the enum raises `ValueError`. */
  function ParsePriority(s: string): (r: Option<Priority>)
    ensures r.Some? ==> PriorityValue(r.value) == s
    ensures r.None? <==> s != "blocking" && s != "high" && s != "medium" && s != "nice_to_have"
  {
    if s == "blocking" then Some(Blocking)
    else if s == "high" then Some(High)
    else if s == "medium" then Some(Medium)
    else if s == "nice_to_have" then Some(NiceToHave)
    else None
  }

  /** Parsing accepts exactly the four member values. */
  lemma ParsePriorityInverse(s: string, p: Priority)
    ensures ParsePriority(PriorityValue(p)) == Some(p)
    ensures ParsePriority(s) == Some(p) ==> s == PriorityValue(p)
  {
  }

  datatype QuestionOption = QuestionOption(id: string, optionLabel: string, description: Option<string>)

  /** A question; the `confidence` score is not modelled. */
  datatype Question = Question(
    id: string,
    text: string,
    priority: Priority,
    options: Option<seq<QuestionOption>>,
    context: map<string, string>,
    subject: Option<string>)

  // ---------------------------------------------------------------------------
  // Decimal rendering of option indices
  // ---------------------------------------------------------------------------

  predicate IsDigits(s: string) {
    forall k :: 0 <= k < |s| ==> '0' <= s[k] <= '9'
  }

  function DigitChar(d: nat): (c: char)
    requires d < 10
    ensures '0' <= c <= '9' && c as int - '0' as int == d
  {
    "0123456789"[d]
  }

  /** `str(n)` for a natural number: decimal digits without a leading zero. */
  function NatToString(n: nat): (s: string)
    ensures |s| >= 1 && IsDigits(s)
    ensures |s| == 1 <==> n < 10
    ensures s[0] == '0' <==> n == 0
  {
    if n < 10 then [DigitChar(n)] else NatToString(n / 10) + [DigitChar(n % 10)]
  }

  /** The value of a decimal digit string (`int(s)`). */
  function ParseDigits(s: string): nat
    requires IsDigits(s)
  {
    if s == [] then 0 else ParseDigits(s[..|s| - 1]) * 10 + (s[|s| - 1] as int - '0' as int)
  }

  /** Reading back a rendered index gives the index. */
  lemma {:induction false} ParseNatToString(n: nat)
    ensures ParseDigits(NatToString(n)) == n
  {
    if n >= 10 {
      var s := NatToString(n / 10);
      ParseNatToString(n / 10);
      assert (s + [DigitChar(n % 10)])[..|s|] == s;
    }
  }

  /** A digit string with a value of at least one when its first digit is not zero. */
  lemma {:induction false} LeadingDigitPositive(s: string)
    requires IsDigits(s) && |s| >= 1 && s[0] != '0'
    ensures ParseDigits(s) >= 1
    decreases |s|
  {
    if |s| > 1 {
      var init := s[..|s| - 1];
      assert init[0] == s[0];
      LeadingDigitPositive(init);
    }
  }

  /**
   * `NatToString` is the canonical rendering: every digit string without a
   * leading zero is the rendering of its own value.
   */
  lemma {:induction false} NatToStringCanonical(s: string)
    requires IsDigits(s) && |s| >= 1 && (|s| == 1 || s[0] != '0')
    ensures NatToString(ParseDigits(s)) == s
    decreases |s|
  {
    var n := ParseDigits(s);
    var d := s[|s| - 1] as int - '0' as int;
    if |s| == 1 {
      assert s[..0] == [] && ParseDigits(s[..0]) == 0;
      assert DigitChar(d) == s[0];
    } else {
      var init := s[..|s| - 1];
      assert init[0] == s[0];
      assert IsDigits(init);
      LeadingDigitPositive(init);
      NatToStringCanonical(init);
      assert n / 10 == ParseDigits(init) && n % 10 == d;
      assert DigitChar(d) == s[|s| - 1];
      assert s == init + [s[|s| - 1]];
    }
  }

  /** Different indices render differently, so option ids are distinct. */
  lemma NatToStringInjective(i: nat, j: nat)
    requires i != j
    ensures NatToString(i) != NatToString(j)
  {
    ParseNatToString(i);
    ParseNatToString(j);
  }

  // ---------------------------------------------------------------------------
  // Building the question inside `ask_human`
  // ---------------------------------------------------------------------------

  /** The options of a multiple-choice question: option `i` has id `str(i)`; no list, or an empty one, gives none. */
  function BuildOptions(options: Option<seq<string>>): (r: Option<seq<QuestionOption>>)
    ensures r.Some? <==> options.Some? && |options.value| > 0
    ensures r.Some? ==> |r.value| == |options.value|
    ensures r.Some? ==> forall i :: 0 <= i < |r.value| ==>
              r.value[i].optionLabel == options.value[i] && r.value[i].id == NatToString(i)
              && IsDigits(r.value[i].id) && ParseDigits(r.value[i].id) == i
              && r.value[i].description.None?
  {
    if options.None? || |options.value| == 0 then None
    else
      var opts := options.value;
      var built := seq(|opts|, i requires 0 <= i < |opts| => QuestionOption(NatToString(i), opts[i], None));
      assert forall i :: 0 <= i < |built| ==> ParseDigits(built[i].id) == i by {
        forall i | 0 <= i < |built| { ParseNatToString(i); }
      }
      Some(built)
  }

  /** Options built from one list never share an id. */
  lemma BuildOptionsDistinctIds(options: seq<string>, i: nat, j: nat)
    requires i < j < |options|
    ensures BuildOptions(Some(options)).value[i].id != BuildOptions(Some(options)).value[j].id
  {
    var r := BuildOptions(Some(options)).value;
    assert ParseDigits(r[i].id) == i && ParseDigits(r[j].id) == j;
  }

  /** The question's context: the file it concerns, when one is given and non-empty. */
  function ContextFor(contextFile: Option<string>): (c: map<string, string>)
    ensures Truthy(contextFile) ==> c == map["file" := contextFile.value]
    ensures !Truthy(contextFile) ==> c == map[]
  {
    if Truthy(contextFile) then map["file" := contextFile.value] else map[]
  }

  /** The `Question` built from the tool arguments; `id` is its generated identifier. */
  function BuildQuestion(id: string, question: string, priority: Priority, options: Option<seq<string>>,
                         contextFile: Option<string>, subject: Option<string>): (q: Question)
    ensures q.id == id && q.text == question && q.priority == priority && q.subject == subject
    ensures q.options == BuildOptions(options) && q.context == ContextFor(contextFile)
  {
    Question(id, question, priority, BuildOptions(options), ContextFor(contextFile), subject)
  }

  // ---------------------------------------------------------------------------
  // Answer resolution
  // ---------------------------------------------------------------------------

  /**
   * The value a run is resumed with. A dictionary keeps its `answers` entries
   * in insertion order (a missing key reads as no entries) and carries its
   * `str()` rendering; any other value carries its rendering too.
   */
  datatype Payload =
    | DictPayload(answers: seq<(string, string)>, rendered: string)
    | StrPayload(s: string)
    | OtherPayload(rendered: string)

  /** A Python dictionary never holds one key twice. */
  ghost predicate DistinctKeys(entries: seq<(string, string)>) {
    forall i, j :: 0 <= i < j < |entries| ==> entries[i].0 != entries[j].0
  }

  /** `answers[key]`, when `key in answers`. */
  function LookupAnswer(entries: seq<(string, string)>, key: string): (r: Option<string>)
    ensures r.Some? ==> (key, r.value) in entries
    ensures r.None? <==> forall e :: e in entries ==> e.0 != key
  {
    if entries == [] then None
    else if entries[0].0 == key then Some(entries[0].1)
    else LookupAnswer(entries[1..], key)
  }

  /** In a dictionary, the entry for a key is the only one, so the lookup returns its value. */
  lemma {:induction false} LookupFindsEntry(entries: seq<(string, string)>, key: string, v: string)
    requires DistinctKeys(entries)
    requires (key, v) in entries
    ensures LookupAnswer(entries, key) == Some(v)
    decreases |entries|
  {
    if entries[0] != (key, v) {
      if entries[0].0 == key {
        assert false;
      } else {
        var tail := entries[1..];
        assert (key, v) in tail;
        assert DistinctKeys(tail) by {
          forall i, j | 0 <= i < j < |tail| ensures tail[i].0 != tail[j].0 {
            assert tail[i] == entries[i + 1] && tail[j] == entries[j + 1];
          }
        }
        LookupFindsEntry(tail, key, v);
      }
    }
  }

  /** The answer `ask_human` returns for the question with id `questionId`. */
  function ResolveAnswer(response: Payload, questionId: string): (r: string)
    ensures response.StrPayload? ==> r == response.s
    ensures response.OtherPayload? ==> r == response.rendered
    ensures response.DictPayload? && (exists v :: (questionId, v) in response.answers) ==> (questionId, r) in response.answers
    ensures response.DictPayload? && (forall e :: e in response.answers ==> e.0 != questionId) && response.answers != [] ==>
              r == response.answers[0].1
    ensures response.DictPayload? && response.answers == [] ==> r == response.rendered
  {
    match response
    case DictPayload(answers, rendered) =>
      var own := LookupAnswer(answers, questionId);
      if own.Some? then own.value
      else if answers != [] then answers[0].1
      else rendered
    case StrPayload(s) => s
    case OtherPayload(rendered) => rendered
  }

  /** With a well-formed dictionary, the answer keyed by the question's own id is the one returned. */
  lemma ResolveOwnAnswer(answers: seq<(string, string)>, rendered: string, questionId: string, v: string)
    requires DistinctKeys(answers)
    requires (questionId, v) in answers
    ensures ResolveAnswer(DictPayload(answers, rendered), questionId) == v
  {
    LookupFindsEntry(answers, questionId, v);
  }

  /** What `ask_human` hands to the interrupt. */
  datatype InterruptRequest = InterruptRequest(kind: string, questions: seq<Question>)

  /** One call of `ask_human`: the interrupt request it raises and the answer it returns. */
  datatype AskOutcome = AskOutcome(request: InterruptRequest, answer: string)

  /**
   * `ask_human`: builds the question (with the generated id `questionId`),
   * interrupts with it, and resolves the resume value `response` against it.
   */
  function AskHuman(question: string, priority: Priority := Medium, options: Option<seq<string>> := None,
                    contextFile: Option<string> := None, subject: Option<string> := None,
                    questionId: string, response: Payload): (r: AskOutcome)
    ensures r.request.kind == "ask_human" && |r.request.questions| == 1
    ensures r.request.questions[0] == BuildQuestion(questionId, question, priority, options, contextFile, subject)
    ensures r.answer == ResolveAnswer(response, questionId)
  {
    var q := BuildQuestion(questionId, question, priority, options, contextFile, subject);
    AskOutcome(InterruptRequest("ask_human", [q]), ResolveAnswer(response, q.id))
  }

  // ---------------------------------------------------------------------------
  // Tool injection
  // ---------------------------------------------------------------------------

  /** A tool in the agent state; `None` for an object without a `name` attribute. */
  datatype Tool = Tool(name: Option<string>)

  const AskHumanName: string := "ask_human"
  const AskHumanTool: Tool := Tool(Some(AskHumanName))

  /** `{t.name for t in tools if hasattr(t, "name")}`. */
  function ToolNames(tools: seq<Tool>): (r: set<string>)
    ensures forall t :: t in tools && t.name.Some? ==> t.name.value in r
    ensures forall n :: n in r ==> Tool(Some(n)) in tools
  {
    set t | t in tools && t.name.Some? :: t.name.value
  }

  /** The tool list `modify_state` leaves behind. */
  function WithAskHuman(tools: seq<Tool>): (r: seq<Tool>)
    ensures AskHumanName in ToolNames(r)
    ensures |tools| <= |r| <= |tools| + 1 && r[..|tools|] == tools
    ensures |r| == |tools| <==> AskHumanName in ToolNames(tools)
  {
    if AskHumanName in ToolNames(tools) then tools
    else
      var r := tools + [AskHumanTool];
      assert AskHumanTool in r;
      r
  }

  /** Injecting the tool twice is the same as injecting it once. */
  lemma WithAskHumanIdempotent(tools: seq<Tool>)
    ensures WithAskHuman(WithAskHuman(tools)) == WithAskHuman(tools)
  {
  }

  /** The agent state dictionary; `tools == None` when it has no `"tools"` key. */
  class AgentState {
    var tools: Option<seq<Tool>>

    constructor(tools: Option<seq<Tool>>)
      ensures this.tools == tools
    {
      this.tools := tools;
    }
  }

  // ---------------------------------------------------------------------------
  // Question log
  // ---------------------------------------------------------------------------

  /** A value under one key of a tool call's `args`: missing, JSON `null`, a string, or any other JSON value. */
  datatype ArgValue = Absent | NullArg | StrArg(s: string) | OtherArg

  /**
   * The `confidence` argument: missing, a value pydantic reads as the finite
   * float `x`, or one it cannot read as a float (null, a list, a non-numeric
   * string, NaN or an infinity).
   */
  datatype ConfidenceArg = NoConfidence | Confidence(x: real) | NotAFloat

  /** The keys of a tool call's `args` that `process_response` reads. */
  datatype ToolArgs = ToolArgs(question: ArgValue, priority: ArgValue, confidence: ConfidenceArg, subject: ArgValue)

  const NoArgs := ToolArgs(Absent, Absent, NoConfidence, Absent)

  /** A tool call of the response; `None` for a missing `name` or `args` key. */
  datatype ToolCall = ToolCall(name: Option<string>, args: Option<ToolArgs>)

  /** The agent's response; `content` stands for everything but the tool calls. */
  datatype AIMessage = AIMessage(toolCalls: seq<ToolCall>, content: string)

  predicate IsAskHuman(tc: ToolCall) {
    tc.name == Some(AskHumanName)
  }

  function ArgsOf(tc: ToolCall): ToolArgs {
    tc.args.GetOr(NoArgs)
  }

  /** `QuestionPriority(args.get("priority", "medium"))`: `None` where the enum raises `ValueError`. */
  function PriorityArg(a: ArgValue): (r: Option<Priority>)
    ensures a.Absent? ==> r == Some(Medium)
    ensures a.NullArg? || a.OtherArg? ==> r.None?
    ensures a.StrArg? ==> r == ParsePriority(a.s)
  {
    match a
    case Absent => ParsePriority("medium")
    case StrArg(s) => ParsePriority(s)
    case _ => None
  }

  /** `text=args.get("question", "")` as the `str` field accepts it; `None` where validation fails. */
  function TextArg(a: ArgValue): (r: Option<string>)
    ensures a.Absent? ==> r == Some("")
    ensures a.StrArg? ==> r == Some(a.s)
    ensures a.NullArg? || a.OtherArg? ==> r.None?
  {
    match a
    case Absent => Some("")
    case StrArg(s) => Some(s)
    case _ => None
  }

  /** `subject=args.get("subject")` as the `str | None` field accepts it; `None` where validation fails. */
  function SubjectArg(a: ArgValue): (r: Option<Option<string>>)
    ensures a.Absent? || a.NullArg? ==> r == Some(None)
    ensures a.StrArg? ==> r == Some(Some(a.s))
    ensures a.OtherArg? ==> r.None?
  {
    match a
    case Absent => Some(None)
    case NullArg => Some(None)
    case StrArg(s) => Some(Some(s))
    case OtherArg => None
  }

  /** The `confidence` field accepts a missing value (default 0.5) or a float in [0, 1]. */
  function ConfidenceAccepted(c: ConfidenceArg): (r: bool)
    ensures c.NoConfidence? ==> r
    ensures c.Confidence? ==> (r <==> 0.0 <= c.x <= 1.0)
    ensures c.NotAFloat? ==> !r
  {
    match c
    case NoConfidence => true
    case Confidence(x) => 0.0 <= x <= 1.0
    case NotAFloat => false
  }

  /** The errors `process_response` can raise: the enum's `ValueError`, and pydantic's `ValidationError`. */
  datatype QuestionError = InvalidPriority(value: ArgValue) | InvalidQuestion

  /** Arguments from which `process_response` builds a question without raising. */
  predicate WellFormedArgs(args: ToolArgs) {
    PriorityArg(args.priority).Some? && TextArg(args.question).Some? && SubjectArg(args.subject).Some?
    && ConfidenceAccepted(args.confidence)
  }

  /** The error raised for arguments that are not well formed: the enum's, when the priority is bad. */
  function RejectionOf(args: ToolArgs): QuestionError {
    if PriorityArg(args.priority).None? then InvalidPriority(args.priority) else InvalidQuestion
  }

  /**
   * The `Question(...)` that `process_response` builds from one call's
   * arguments, with generated id `id`. The priority is converted while the
   * arguments are evaluated, so its error comes before any validation error.
   */
  function QuestionFromArgs(args: ToolArgs, id: string): (r: Result<Question, QuestionError>)
    ensures PriorityArg(args.priority).None? ==> r == Failure(InvalidPriority(args.priority))
    ensures PriorityArg(args.priority).Some? ==>
              (r.Success? <==> TextArg(args.question).Some? && SubjectArg(args.subject).Some? && ConfidenceAccepted(args.confidence))
    ensures r.Failure? && PriorityArg(args.priority).Some? ==> r.error == InvalidQuestion
    ensures r.Success? <==> WellFormedArgs(args)
    ensures r.Failure? ==> r.error == RejectionOf(args)
    ensures r.Success? ==>
              r.value.id == id && Some(r.value.text) == TextArg(args.question)
              && Some(r.value.priority) == PriorityArg(args.priority) && Some(r.value.subject) == SubjectArg(args.subject)
              && r.value.options.None? && r.value.context == map[]
  {
    var priority := PriorityArg(args.priority);
    if priority.None? then Failure(InvalidPriority(args.priority))
    else
      var text := TextArg(args.question);
      var subject := SubjectArg(args.subject);
      if text.None? || subject.None? || !ConfidenceAccepted(args.confidence) then Failure(InvalidQuestion)
      else Success(Question(id, text.value, priority.value, None, map[], subject.value))
  }

  /** A missing `priority` means `"medium"`, but an explicit `null` is rejected. */
  lemma NullPriorityIsNotMissing(q: ArgValue, s: ArgValue, id: string)
    requires TextArg(q).Some? && SubjectArg(s).Some?
    ensures QuestionFromArgs(ToolArgs(q, Absent, NoConfidence, s), id).Success?
    ensures QuestionFromArgs(ToolArgs(q, Absent, NoConfidence, s), id).value.priority == Medium
    ensures QuestionFromArgs(ToolArgs(q, NullArg, NoConfidence, s), id) == Failure(InvalidPriority(NullArg))
  {
  }

  /** The question log and, if logging stopped, the error the failing call raised. */
  datatype LogOutcome = LogOutcome(log: seq<Question>, rejected: Option<QuestionError>)

  /**
   * The log after processing `calls` in order, starting from `log`. The
   * question appended as entry `n` of the log gets the generated id `newId(n)`.
   * An `ask_human` call whose question cannot be built raises, so nothing after it is logged.
   */
  function LogCalls(log: seq<Question>, calls: seq<ToolCall>, newId: nat -> string): (r: LogOutcome)
    ensures |r.log| <= |log| + |calls|
    ensures calls == [] ==> r == LogOutcome(log, None)
    decreases |calls|
  {
    if calls == [] then LogOutcome(log, None)
    else
      var before := LogCalls(log, calls[..|calls| - 1], newId);
      var tc := calls[|calls| - 1];
      if before.rejected.Some? || !IsAskHuman(tc) then before
      else
        match QuestionFromArgs(ArgsOf(tc), newId(|before.log|))
        case Failure(e) => LogOutcome(before.log, Some(e))
        case Success(q) => LogOutcome(before.log + [q], None)
  }

  /** The `ask_human` calls among `calls`, in call order. */
  function AskCalls(calls: seq<ToolCall>): (r: seq<ToolCall>)
    ensures |r| <= |calls|
    ensures forall tc :: tc in r <==> tc in calls && IsAskHuman(tc)
  {
    if calls == [] then []
    else
      assert calls == calls[..|calls| - 1] + [calls[|calls| - 1]];
      AskCalls(calls[..|calls| - 1]) + (if IsAskHuman(calls[|calls| - 1]) then [calls[|calls| - 1]] else [])
  }

  /** Selecting the `ask_human` calls distributes over concatenation. */
  lemma {:induction false} AskCallsAppend(a: seq<ToolCall>, b: seq<ToolCall>)
    ensures AskCalls(a + b) == AskCalls(a) + AskCalls(b)
    decreases |b|
  {
    if b == [] {
      assert a + b == a;
    } else {
      var b' := b[..|b| - 1];
      assert (a + b)[..|a + b| - 1] == a + b';
      assert (a + b)[|a + b| - 1] == b[|b| - 1];
      AskCallsAppend(a, b');
    }
  }

  /** Every `ask_human` call among `calls` carries well-formed arguments. */
  predicate AskCallsWellFormed(calls: seq<ToolCall>) {
    forall tc :: tc in calls && IsAskHuman(tc) ==> WellFormedArgs(ArgsOf(tc))
  }

  /** No call raises exactly when every `ask_human` call carries well-formed arguments. */
  lemma {:induction false} LogAcceptsIff(log: seq<Question>, calls: seq<ToolCall>, newId: nat -> string)
    ensures LogCalls(log, calls, newId).rejected.None? <==> AskCallsWellFormed(calls)
    decreases |calls|
  {
    if calls != [] {
      var init := calls[..|calls| - 1];
      var tc := calls[|calls| - 1];
      LogAcceptsIff(log, init, newId);
      assert calls == init + [tc];
      assert forall c :: c in calls <==> c in init || c == tc;
    }
  }

  /**
   * When a call raises, it is the first `ask_human` call whose arguments are
   * not well formed; the error is that call's, and the log holds exactly
   * what the calls before it logged.
   */
  lemma {:induction false} FirstRejection(log: seq<Question>, calls: seq<ToolCall>, newId: nat -> string)
    requires LogCalls(log, calls, newId).rejected.Some?
    ensures exists k :: 0 <= k < |calls| && IsAskHuman(calls[k]) && !WellFormedArgs(ArgsOf(calls[k]))
              && (forall j :: 0 <= j < k && IsAskHuman(calls[j]) ==> WellFormedArgs(ArgsOf(calls[j])))
              && LogCalls(log, calls[..k], newId).rejected.None?
              && LogCalls(log, calls, newId) == LogOutcome(LogCalls(log, calls[..k], newId).log, Some(RejectionOf(ArgsOf(calls[k]))))
    decreases |calls|
  {
    var n := |calls| - 1;
    var init := calls[..n];
    var before := LogCalls(log, init, newId);
    if before.rejected.Some? {
      FirstRejection(log, init, newId);
      var k :| 0 <= k < |init| && IsAskHuman(init[k]) && !WellFormedArgs(ArgsOf(init[k]))
              && (forall j :: 0 <= j < k && IsAskHuman(init[j]) ==> WellFormedArgs(ArgsOf(init[j])))
              && LogCalls(log, init[..k], newId).rejected.None?
              && before == LogOutcome(LogCalls(log, init[..k], newId).log, Some(RejectionOf(ArgsOf(init[k]))));
      assert init[..k] == calls[..k];
      assert forall j :: 0 <= j <= k ==> init[j] == calls[j];
    } else {
      LogAcceptsIff(log, init, newId);
      forall j | 0 <= j < n && IsAskHuman(calls[j])
        ensures WellFormedArgs(ArgsOf(calls[j]))
      {
        assert calls[j] == init[j] && init[j] in init;
      }
      assert QuestionFromArgs(ArgsOf(calls[n]), newId(|before.log|)).Failure?;
    }
  }

  /** Once a call has been rejected, later calls change nothing. */
  lemma {:induction false} RejectionIsFinal(log: seq<Question>, calls: seq<ToolCall>, k: nat, newId: nat -> string)
    requires k <= |calls|
    requires LogCalls(log, calls[..k], newId).rejected.Some?
    ensures LogCalls(log, calls, newId) == LogCalls(log, calls[..k], newId)
    decreases |calls| - k
  {
    if k < |calls| {
      var n := |calls| - 1;
      assert calls[..n][..k] == calls[..k];
      RejectionIsFinal(log, calls[..n], k, newId);
    } else {
      assert calls[..k] == calls;
    }
  }

  /** The log only grows: the questions already asked stay, in place. */
  lemma {:induction false} LogAppendOnly(log: seq<Question>, calls: seq<ToolCall>, newId: nat -> string)
    ensures |LogCalls(log, calls, newId).log| >= |log|
    ensures LogCalls(log, calls, newId).log[..|log|] == log
    decreases |calls|
  {
    if calls != [] {
      LogAppendOnly(log, calls[..|calls| - 1], newId);
    }
  }

  /** `q` is the question logged for the call `tc`, with generated id `id`. */
  ghost predicate LoggedFrom(q: Question, tc: ToolCall, id: string) {
    q.id == id && Some(q.text) == TextArg(ArgsOf(tc).question) && Some(q.subject) == SubjectArg(ArgsOf(tc).subject)
    && Some(q.priority) == PriorityArg(ArgsOf(tc).priority)
    && q.options.None? && q.context == map[]
  }

  /**
   * Without a rejected call, the log gains one question per `ask_human`
   * call, in call order, carrying that call's text, priority and subject.
   */
  lemma {:induction false} LogMatchesAskCalls(log: seq<Question>, calls: seq<ToolCall>, newId: nat -> string)
    requires LogCalls(log, calls, newId).rejected.None?
    ensures |LogCalls(log, calls, newId).log| == |log| + |AskCalls(calls)|
    ensures forall j :: 0 <= j < |AskCalls(calls)| ==>
              LoggedFrom(LogCalls(log, calls, newId).log[|log| + j], AskCalls(calls)[j], newId(|log| + j))
    decreases |calls|
  {
    if calls != [] {
      var init := calls[..|calls| - 1];
      var before := LogCalls(log, init, newId);
      assert before.rejected.None?;
      LogMatchesAskCalls(log, init, newId);
      var tc := calls[|calls| - 1];
      if IsAskHuman(tc) {
        var after := LogCalls(log, calls, newId).log;
        var asks := AskCalls(calls);
        assert asks == AskCalls(init) + [tc];
        var built := QuestionFromArgs(ArgsOf(tc), newId(|before.log|));
        assert built.Success?;
        assert after == before.log + [built.value];
        forall j | 0 <= j < |asks|
          ensures LoggedFrom(after[|log| + j], asks[j], newId(|log| + j))
        {
          if j < |AskCalls(init)| {
            assert after[|log| + j] == before.log[|log| + j];
            assert asks[j] == AskCalls(init)[j];
          }
        }
      }
    }
  }

  /** Calls to other tools are ignored wherever they stand. */
  lemma {:induction false} OtherCallsIgnored(log: seq<Question>, a: seq<ToolCall>, c: ToolCall, b: seq<ToolCall>,
                                             newId: nat -> string)
    requires !IsAskHuman(c)
    ensures LogCalls(log, a + [c] + b, newId) == LogCalls(log, a + b, newId)
    decreases |b|
  {
    if b == [] {
      assert (a + [c] + b)[..|a|] == a;
      assert a + b == a;
    } else {
      var b' := b[..|b| - 1];
      assert (a + [c] + b)[..|a + [c] + b| - 1] == a + [c] + b';
      assert (a + b)[..|a + b| - 1] == a + b';
      OtherCallsIgnored(log, a, c, b', newId);
    }
  }

  // ---------------------------------------------------------------------------
  // Trajectory counters
  // ---------------------------------------------------------------------------

  /** The number of blocking questions in `qs`. */
  function CountBlocking(qs: seq<Question>): (n: nat)
    ensures n <= |qs|
  {
    if qs == [] then 0
    else CountBlocking(qs[..|qs| - 1]) + (if qs[|qs| - 1].priority == Blocking then 1 else 0)
  }

  /** The blocking count of a log is the sum over its parts. */
  lemma {:induction false} CountBlockingAppend(a: seq<Question>, b: seq<Question>)
    ensures CountBlocking(a + b) == CountBlocking(a) + CountBlocking(b)
    decreases |b|
  {
    if b == [] {
      assert a + b == a;
    } else {
      var b' := b[..|b| - 1];
      assert (a + b)[..|a + b| - 1] == a + b';
      CountBlockingAppend(a, b');
    }
  }

  /** Every question is blocking exactly when the two counters agree; none is when the count is zero. */
  lemma {:induction false} CountBlockingExtremes(qs: seq<Question>)
    ensures CountBlocking(qs) == |qs| <==> forall i :: 0 <= i < |qs| ==> qs[i].priority == Blocking
    ensures CountBlocking(qs) == 0 <==> forall i :: 0 <= i < |qs| ==> qs[i].priority != Blocking
    decreases |qs|
  {
    if qs != [] {
      var init := qs[..|qs| - 1];
      CountBlockingExtremes(init);
      assert forall i :: 0 <= i < |init| ==> init[i] == qs[i];
    }
  }

  /** The summary `get_trajectory_data` returns. */
  datatype TrajectoryData = TrajectoryData(
    questions: seq<Question>,
    answers: map<string, string>,
    totalQuestions: nat,
    blockingQuestions: nat)

  // ---------------------------------------------------------------------------
  // The middleware
  // ---------------------------------------------------------------------------

  class QuestionsMiddleware {
    var questionsAsked: seq<Question>
    var answersReceived: map<string, string>

    constructor()
      ensures questionsAsked == [] && answersReceived == map[]
    {
      questionsAsked := [];
      answersReceived := map[];
    }

    /** `modify_state`: makes sure the agent's tools include `ask_human`. */
    method ModifyState(state: AgentState) returns (r: AgentState)
      modifies state
      ensures r == state
      ensures state.tools == Some(WithAskHuman(old(state.tools).GetOr([])))
    {
      var existingTools := if state.tools.Some? then state.tools.value else [];
      var toolNames := ToolNames(existingTools);
      if AskHumanName !in toolNames {
        state.tools := Some(existingTools + [AskHumanTool]);
      }
      r := state;
    }

    /**
     * `process_response`: logs one question per `ask_human` call. A call whose
     * priority or question fields are rejected raises after the earlier calls'
     * questions have been logged.
     */
    method ProcessResponse(response: AIMessage, newId: nat -> string) returns (r: Result<AIMessage, QuestionError>)
      modifies this
      ensures answersReceived == old(answersReceived)
      ensures questionsAsked == LogCalls(old(questionsAsked), response.toolCalls, newId).log
      ensures LogCalls(old(questionsAsked), response.toolCalls, newId).rejected.None? ==> r == Success(response)
      ensures LogCalls(old(questionsAsked), response.toolCalls, newId).rejected.Some? ==>
                r == Failure(LogCalls(old(questionsAsked), response.toolCalls, newId).rejected.value)
      ensures r == Success(response) <==> AskCallsWellFormed(response.toolCalls)
      ensures r.Success? ==> |questionsAsked| == |old(questionsAsked)| + |AskCalls(response.toolCalls)|
    {
      var calls := response.toolCalls;
      var raised: Option<QuestionError> := None;
      var i := 0;
      while i < |calls| && raised.None?
        invariant 0 <= i <= |calls|
        invariant LogCalls(old(questionsAsked), calls[..i], newId) == LogOutcome(questionsAsked, raised)
        invariant answersReceived == old(answersReceived)
      {
        var tc := calls[i];
        assert calls[..i + 1][..i] == calls[..i];
        if tc.name == Some(AskHumanName) {
          var args := if tc.args.Some? then tc.args.value else NoArgs;
          var built := QuestionFromArgs(args, newId(|questionsAsked|));
          if built.Failure? {
            raised := Some(built.error);
          } else {
            questionsAsked := questionsAsked + [built.value];
          }
        }
        i := i + 1;
      }
      LogAcceptsIff(old(questionsAsked), calls, newId);
      if raised.Some? {
        // the exception propagates: the remaining calls are not looked at
        RejectionIsFinal(old(questionsAsked), calls, i, newId);
        r := Failure(raised.value);
      } else {
        assert calls[..i] == calls;
        LogMatchesAskCalls(old(questionsAsked), calls, newId);
        r := Success(response);
      }
    }

    /** `get_trajectory_data`: the log, the answers, and the two counters. */
    function GetTrajectoryData(): (d: TrajectoryData)
      reads this
      ensures d.questions == questionsAsked && d.answers == answersReceived
      ensures d.totalQuestions == |questionsAsked|
      ensures d.blockingQuestions == CountBlocking(questionsAsked) <= d.totalQuestions
      ensures d.blockingQuestions == 0 <==> forall i :: 0 <= i < |questionsAsked| ==> questionsAsked[i].priority != Blocking
    {
      CountBlockingExtremes(questionsAsked);
      TrajectoryData(questionsAsked, answersReceived, |questionsAsked|, CountBlocking(questionsAsked))
    }
  }

  /** An entry of an agent's middleware stack. */
  datatype Middleware = QuestionsLayer(layer: QuestionsMiddleware) | OtherLayer(name: string)

  /** `add_questions_support`: a fresh questions middleware at the head of the stack. */
  method AddQuestionsSupport(agentMiddleware: seq<Middleware>) returns (stack: seq<Middleware>, qm: QuestionsMiddleware)
    ensures fresh(qm) && qm.questionsAsked == [] && qm.answersReceived == map[]
    ensures |stack| == |agentMiddleware| + 1
    ensures stack[0] == QuestionsLayer(qm) && stack[1..] == agentMiddleware
  {
    qm := new QuestionsMiddleware();
    stack := [QuestionsLayer(qm)] + agentMiddleware;
  }
}
