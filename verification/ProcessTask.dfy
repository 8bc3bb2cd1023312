/**
 processTask: the bounded exchange with a model that may ask for tools.

 The model, the clock, the tools and the chat are inputs: whatever they do, the exchange stays within the
 policy. The k-th reply, and the clock reading taken after it, are arbitrary functions of k.
 */
module ProcessTask {
  import opened Options
  import opened Control
  import JsonScanner
  import Text

  /**
   A chat message: one of the assembled context, or one of those added on the way: what the assistant said,
   the results of its tools, and the notice that its answer was empty. The last two are user messages; the
   fixed wording around the results and of the notice is left to their names.
   */
  datatype Msg =
    | Context(role: string, content: string)
    | Assistant(content: string)
    | ToolResults(text: string)
    | AnswerWasEmpty

  datatype Response = Response(content: string, inputTokens: int, outputTokens: int)

  datatype ToolCall = ToolCall(name: string, arguments: string)

  datatype Envelope = Envelope(toolCalls: seq<ToolCall>, finalAnswer: string)

  /**
   What the task meets: the assembled messages (None when the history cannot be read), the model's k-th
   reply (None for an error), the k-th reading of the clock, the text of the tool results after the k-th
   reply, the JSON decoder, and whether the chat accepts the answer.
   */
  datatype Setting = Setting(
    context: Option<seq<Msg>>, replies: nat -> Option<Response>, clock: nat -> int,
    toolText: nat -> string, decode: string -> Option<Envelope>, accepts: bool)

  datatype Failure = LimitHit(limit: Limit) | HistoryUnreadable | ProviderFailed | EmptyReply | SendFailed

  /** The events of a task; `ToolsRun` stands for all the events of one round of tool calls. */
  datatype Event =
    | ContextAssembled
    | TurnStarted
    | TurnCompleted(inputTokens: int, outputTokens: int)
    | ToolsRun(calls: seq<ToolCall>)
    | LimitReached(limit: Limit)
    | ReplySent

  // ---------------------------------------------------- reading the model's replies

  /** parseToolProtocol as a function: the whole text, or else the first JSON object in it. */
  function Parsed(decode: string -> Option<Envelope>, content: string): Option<Envelope> {
    var whole := decode(Text.TrimSpace(content));
    if whole.Some? then whole
    else
      match JsonScanner.Extracted(content)
      case None => None
      case Some(found) => decode(found)
  }

  method ParseToolProtocol(decode: string -> Option<Envelope>, content: string) returns (r: Option<Envelope>)
    ensures r == Parsed(decode, content)
  {
    r := decode(Text.TrimSpace(content));
    if r.Some? {
      return;
    }
    var found := JsonScanner.ExtractJSONObject(content);
    if found.None? {
      return None;
    }
    r := decode(found.value);
  }

  /** A reply that decodes as a whole is taken as it is. */
  lemma WholeReplyIsParsed(decode: string -> Option<Envelope>, content: string)
    requires decode(Text.TrimSpace(content)).Some?
    ensures Parsed(decode, content) == decode(Text.TrimSpace(content))
  {
  }

  /**
   Otherwise a JSON object in the reply, after text without an opening brace and before any text, is what
   is decoded.
   */
  lemma WrappedObjectIsParsed(decode: string -> Option<Envelope>, pre: string, v: JsonScanner.Value, suf: string)
    requires '{' !in pre && v.Object? && JsonScanner.WellFormed(v)
    requires decode(Text.TrimSpace(pre + JsonScanner.Render(v) + suf)).None?
    ensures Parsed(decode, pre + JsonScanner.Render(v) + suf) == decode(JsonScanner.Render(v))
  {
    JsonScanner.WrittenObjectIsExtracted(pre, v, suf);
    hide JsonScanner.Extracted, JsonScanner.Render, JsonScanner.WellFormed, Text.TrimSpace;
  }

  /** Without an object that is balanced from the first brace on, such a reply is no protocol message. */
  lemma ProseIsNotParsed(decode: string -> Option<Envelope>, content: string)
    requires decode(Text.TrimSpace(content)).None?
    requires forall i, j :: 0 <= i < j <= |content| && content[i] == '{' ==> !JsonScanner.Balanced(content[i..j])
    ensures Parsed(decode, content).None?
  {
    JsonScanner.NothingBalancedNothingExtracted(content);
    hide JsonScanner.Extracted, JsonScanner.Balanced, Text.TrimSpace;
  }

  /** Trimming the reply first makes no difference. */
  lemma ParsedTrimmed(decode: string -> Option<Envelope>, content: string)
    ensures Parsed(decode, Text.TrimSpace(content)) == Parsed(decode, content)
  {
    JsonScanner.TrimmingIsHarmless(content);
    var pre, suf := Text.TrimTakesBlanks(content);
    Text.TrimmedStays(Text.TrimSpace(content));
    hide JsonScanner.Extracted, Text.TrimSpace, Text.IsTrimmed;
  }

  /** The k-th reply as the worker reads it. */
  function Reply(e: Setting, k: nat): string {
    if e.replies(k).Some? then Text.TrimSpace(e.replies(k).value.content) else ""
  }

  function Spoken(e: Setting, k: nat): Option<Envelope> {
    Parsed(e.decode, Reply(e, k))
  }

  predicate WantsTools(e: Setting, k: nat) {
    Spoken(e, k).Some? && Spoken(e, k).value.toolCalls != []
  }

  /** The text of the k-th reply that is meant for the user. */
  function Answer(e: Setting, k: nat): string {
    if Spoken(e, k).Some? then Text.TrimSpace(Spoken(e, k).value.finalAnswer) else Reply(e, k)
  }

  /** The reply follows the protocol, asks for no tools and answers nothing. */
  predicate SaysNothing(e: Setting, k: nat) {
    Spoken(e, k).Some? && !WantsTools(e, k) && Answer(e, k) == ""
  }

  /** The tokens of the first n replies. */
  function TokensOf(e: Setting, n: nat): int {
    if n == 0 then 0
    else
      TokensOf(e, n - 1)
      + if e.replies(n - 1).Some? then e.replies(n - 1).value.inputTokens + e.replies(n - 1).value.outputTokens else 0
  }

  // -------------------------------------------------------------- the specification

  predicate WithinTokens(p: Policy, tokens: int) {
    0 < p.maxTokens && tokens <= p.maxTokens
  }

  predicate WithinTime(p: Policy, e: Setting, reading: nat) {
    0 < p.maxWallTime && e.clock(reading) - e.clock(0) <= p.maxWallTime
  }

  /** What is said to the model after its k-th reply. */
  function FollowUp(e: Setting, k: nat): seq<Msg> {
    [Assistant(Reply(e, k)), if WantsTools(e, k) then ToolResults(e.toolText(k)) else AnswerWasEmpty]
  }

  /**
   The completions asked for, each with its messages. All but the first two conditions are about a
   completion after the first: it was asked for because the reply before it wanted tools, or said nothing
   where nothing had been said only once and at the end; it carries exactly two more messages; and it
   starts within the budgets of tokens and time.
   */
  predicate Exchange(p: Policy, e: Setting, asked: seq<seq<Msg>>) {
    && (asked != [] ==> |asked| <= p.maxTurns && e.context == Some(asked[0]) && WithinTime(p, e, 1))
    && forall k :: 0 < k < |asked| ==> Follows(p, e, asked, k)
  }

  predicate Follows(p: Policy, e: Setting, asked: seq<seq<Msg>>, k: nat)
    requires 0 < k < |asked|
  {
    && e.replies(k - 1).Some?
    && (WantsTools(e, k - 1) || (SaysNothing(e, k - 1) && k == |asked| - 1))
    && asked[k] == asked[k - 1] + FollowUp(e, k - 1)
    && WithinTokens(p, TokensOf(e, k))
    && WithinTime(p, e, k + 1)
  }

  /** The last completion was the one extra chance after a reply that said nothing. */
  predicate Extra(e: Setting, n: nat) {
    n >= 2 && SaysNothing(e, n - 2)
  }

  /** Another completion is called for after n of them. */
  predicate CallsForMore(e: Setting, n: nat)
    requires n > 0
  {
    !Extra(e, n) && (WantsTools(e, n - 1) || SaysNothing(e, n - 1))
  }

  /** The n-th completion came back in time and within the tokens. */
  predicate CameBack(p: Policy, e: Setting, n: nat)
    requires n > 0
  {
    e.replies(n - 1).Some? && WithinTime(p, e, n + 1) && WithinTokens(p, TokensOf(e, n))
  }

  /** How the task ends after n completions, and what it sends. */
  predicate Ends(p: Policy, e: Setting, n: nat, err: Option<Failure>, sent: seq<string>) {
    match err
    case None =>
      && n > 0 && CameBack(p, e, n) && !CallsForMore(e, n)
      && Answer(e, n - 1) != "" && e.accepts && sent == [Answer(e, n - 1)]
    case Some(SendFailed) =>
      n > 0 && CameBack(p, e, n) && !CallsForMore(e, n) && Answer(e, n - 1) != "" && !e.accepts && sent == []
    case Some(EmptyReply) =>
      n > 0 && CameBack(p, e, n) && !CallsForMore(e, n) && Answer(e, n - 1) == "" && sent == []
    case Some(ProviderFailed) =>
      n > 0 && e.replies(n - 1).None? && sent == []
    case Some(HistoryUnreadable) =>
      n == 0 && 0 < p.maxTurns && WithinTime(p, e, 1) && e.context.None? && sent == []
    case Some(LimitHit(Turns)) =>
      sent == [] && if n == 0 then p.maxTurns <= 0 else n == p.maxTurns && CameBack(p, e, n) && CallsForMore(e, n)
    case Some(LimitHit(WallTime)) =>
      sent == [] && !WithinTime(p, e, n + 1) && if n == 0 then 0 < p.maxTurns else e.replies(n - 1).Some?
    case Some(LimitHit(Tokens)) =>
      sent == [] && n > 0 && e.replies(n - 1).Some? && WithinTime(p, e, n + 1) && !WithinTokens(p, TokensOf(e, n))
  }

  function CompletedOf(e: Setting, k: nat): Event
    requires e.replies(k).Some?
  {
    TurnCompleted(e.replies(k).value.inputTokens, e.replies(k).value.outputTokens)
  }

  /** The tool round after the k-th reply, if it asks for one. */
  function ToolRound(e: Setting, k: nat): seq<Event> {
    if WantsTools(e, k) then [ToolsRun(Spoken(e, k).value.toolCalls)] else []
  }

  /** The events up to the start of the n-th completion. */
  function LogUpTo(e: Setting, n: nat): seq<Event>
    requires forall k :: 0 <= k < n - 1 ==> e.replies(k).Some?
  {
    if n == 0 then []
    else if n == 1 then [ContextAssembled, TurnStarted]
    else LogUpTo(e, n - 1) + [CompletedOf(e, n - 2)] + ToolRound(e, n - 2) + [TurnStarted]
  }

  /** The events after the last completion was started. */
  function LastEvents(e: Setting, n: nat, err: Option<Failure>): seq<Event>
    requires n > 0 && (err != Some(ProviderFailed) ==> e.replies(n - 1).Some?)
  {
    match err
    case None => [CompletedOf(e, n - 1), ReplySent]
    case Some(ProviderFailed) => []
    case Some(LimitHit(Turns)) => [CompletedOf(e, n - 1)] + ToolRound(e, n - 1) + [LimitReached(Turns)]
    case Some(LimitHit(WallTime)) => (if n == 1 then [] else [CompletedOf(e, n - 1)]) + [LimitReached(WallTime)]
    case Some(LimitHit(Tokens)) => [CompletedOf(e, n - 1), LimitReached(Tokens)]
    case Some(_) => [CompletedOf(e, n - 1)]
  }

  /** The whole event log of a task that ends after n completions. */
  function Log(e: Setting, n: nat, err: Option<Failure>): seq<Event>
    requires forall k :: 0 <= k < n - 1 ==> e.replies(k).Some?
    requires n > 0 && err != Some(ProviderFailed) ==> e.replies(n - 1).Some?
  {
    if n > 0 then LogUpTo(e, n) + LastEvents(e, n, err)
    else if err.Some? && err.value.LimitHit? then [LimitReached(err.value.limit)]
    else []
  }

  /** The task ends after n completions as specified, in what it returns, logs and sends. */
  predicate Settled(p: Policy, e: Setting, n: nat, err: Option<Failure>, events: seq<Event>, sent: seq<string>) {
    && (forall k :: 0 <= k < n - 1 ==> e.replies(k).Some?)
    && Ends(p, e, n, err, sent)
    && events == Log(e, n, err)
  }

  // -------------------------------------------------------------------- the method

  lemma LogGoesOn(e: Setting, n: nat)
    requires n > 0 && forall k :: 0 <= k < n ==> e.replies(k).Some?
    ensures LogUpTo(e, n + 1) == LogUpTo(e, n) + [CompletedOf(e, n - 1)] + ToolRound(e, n - 1) + [TurnStarted]
  {
  }

  /** n completions came back, the last in time and within the tokens, and its events are logged. */
  predicate Back(p: Policy, e: Setting, n: nat, log: seq<Event>, total: int)
    requires n > 0
  {
    && (forall k :: 0 <= k < n ==> e.replies(k).Some?)
    && CameBack(p, e, n) && total == TokensOf(e, n)
    && log == LogUpTo(e, n) + [CompletedOf(e, n - 1)]
  }

  lemma FailsToAnswer(p: Policy, e: Setting, n: nat)
    requires n > 0 && (forall k :: 0 <= k < n - 1 ==> e.replies(k).Some?) && e.replies(n - 1).None?
    ensures Settled(p, e, n, Some(ProviderFailed), LogUpTo(e, n), [])
  {
    assert LogUpTo(e, n) + [] == LogUpTo(e, n);
  }

  lemma TakesTooLong(p: Policy, e: Setting, n: nat)
    requires n > 1 && (forall k :: 0 <= k < n ==> e.replies(k).Some?) && !WithinTime(p, e, n + 1)
    ensures Settled(p, e, n, Some(LimitHit(WallTime)),
                    LogUpTo(e, n) + [CompletedOf(e, n - 1)] + [LimitReached(WallTime)], [])
  {
    var c := CompletedOf(e, n - 1);
    assert LogUpTo(e, n) + [c] + [LimitReached(WallTime)] == LogUpTo(e, n) + ([c] + [LimitReached(WallTime)]);
  }

  lemma SaysTooMuch(p: Policy, e: Setting, n: nat)
    requires n > 0 && (forall k :: 0 <= k < n ==> e.replies(k).Some?)
    requires WithinTime(p, e, n + 1) && !WithinTokens(p, TokensOf(e, n))
    ensures Settled(p, e, n, Some(LimitHit(Tokens)),
                    LogUpTo(e, n) + [CompletedOf(e, n - 1)] + [LimitReached(Tokens)], [])
  {
    var c := CompletedOf(e, n - 1);
    assert LogUpTo(e, n) + [c] + [LimitReached(Tokens)] == LogUpTo(e, n) + [c, LimitReached(Tokens)];
  }

  /** One further completion after n of them. */
  method AskAgain(p: Policy, e: Setting, n: nat, startedAt: int, events: seq<Event>, totalTokens: int)
      returns (err: Option<Failure>, log: seq<Event>, total: int)
    requires startedAt == e.clock(0) && n > 0 && totalTokens == TokensOf(e, n)
    requires forall k :: 0 <= k < n ==> e.replies(k).Some?
    requires events + [TurnStarted] == LogUpTo(e, n + 1)
    ensures if err.Some? then Settled(p, e, n + 1, err, log, []) else Back(p, e, n + 1, log, total)
  {
    hide Settled, LogUpTo;
    log, total := events + [TurnStarted], totalTokens;
    var resp := e.replies(n);
    if resp.None? {
      FailsToAnswer(p, e, n + 1);
      return Some(ProviderFailed), log, total;
    }
    log := log + [TurnCompleted(resp.value.inputTokens, resp.value.outputTokens)];
    var limit := CheckWallTime(p, startedAt, e.clock(n + 2));
    if limit.Some? {
      TakesTooLong(p, e, n + 1);
      return Some(LimitHit(limit.value)), log + [LimitReached(limit.value)], total;
    }
    total := total + resp.value.inputTokens + resp.value.outputTokens;
    limit := CheckTokenLimit(p, total);
    if limit.Some? {
      SaysTooMuch(p, e, n + 1);
      return Some(LimitHit(limit.value)), log + [LimitReached(limit.value)], total;
    }
    err := None;
  }

  /** The checks before the first completion, and that completion. */
  method AskFirst(p: Policy, e: Setting, startedAt: int)
      returns (err: Option<Failure>, asked: seq<seq<Msg>>, events: seq<Event>, total: int)
    requires startedAt == e.clock(0)
    ensures |asked| <= 1 && Exchange(p, e, asked)
    ensures err.Some? ==> Settled(p, e, |asked|, err, events, [])
    ensures err.None? ==> |asked| == 1 && Back(p, e, 1, events, total)
  {
    asked, events, total := [], [], 0;
    var usedTurns := 0;
    var limit := CheckTurnLimit(p, usedTurns);
    if limit.Some? {
      return Some(LimitHit(limit.value)), asked, events + [LimitReached(limit.value)], total;
    }
    limit := CheckWallTime(p, startedAt, e.clock(1));
    if limit.Some? {
      return Some(LimitHit(limit.value)), asked, events + [LimitReached(limit.value)], total;
    }
    if e.context.None? {
      return Some(HistoryUnreadable), asked, events, total;
    }
    events := events + [ContextAssembled] + [TurnStarted];
    asked := asked + [e.context.value];
    hide LogUpTo, Settled;
    FirstLog(e);
    var resp := e.replies(0);
    if resp.None? {
      FailsToAnswer(p, e, 1);
      return Some(ProviderFailed), asked, events, total;
    }
    limit := CheckWallTime(p, startedAt, e.clock(2));
    if limit.Some? {
      FirstTakesTooLong(p, e);
      return Some(LimitHit(limit.value)), asked, events + [LimitReached(limit.value)], total;
    }
    events := events + [TurnCompleted(resp.value.inputTokens, resp.value.outputTokens)];
    total := resp.value.inputTokens + resp.value.outputTokens;
    limit := CheckTokenLimit(p, total);
    if limit.Some? {
      SaysTooMuch(p, e, 1);
      return Some(LimitHit(limit.value)), asked, events + [LimitReached(limit.value)], total;
    }
    err := None;
  }

  lemma FirstLog(e: Setting)
    ensures LogUpTo(e, 1) == [ContextAssembled] + [TurnStarted]
    ensures e.replies(0).Some? ==> TokensOf(e, 1) == e.replies(0).value.inputTokens + e.replies(0).value.outputTokens
  {
  }

  lemma FirstTakesTooLong(p: Policy, e: Setting)
    requires e.replies(0).Some? && !WithinTime(p, e, 2)
    ensures Settled(p, e, 1, Some(LimitHit(WallTime)), LogUpTo(e, 1) + [LimitReached(WallTime)], [])
  {
    var l := [LimitReached(WallTime)];
    assert [] + l == l;
  }

  // ----------------------------------------------------------- the whole exchange

  /** The exchange so far: n completions, all but the last of which asked for tools, came back. */
  predicate Midway(p: Policy, e: Setting, asked: seq<seq<Msg>>, events: seq<Event>, total: int) {
    && asked != [] && Exchange(p, e, asked) && Back(p, e, |asked|, events, total)
    && forall k :: 0 <= k < |asked| - 1 ==> WantsTools(e, k)
  }

  /** The last reply calls for one more completion. */
  predicate Unsatisfied(e: Setting, n: nat)
    requires n > 0
  {
    WantsTools(e, n - 1) || SaysNothing(e, n - 1)
  }

  /** There are no turns left for it. */
  lemma RunsOut(p: Policy, e: Setting, asked: seq<seq<Msg>>, events: seq<Event>, total: int)
    requires Midway(p, e, asked, events, total) && |asked| >= p.maxTurns && Unsatisfied(e, |asked|)
    ensures Settled(p, e, |asked|, Some(LimitHit(Turns)),
                    events + ToolRound(e, |asked| - 1) + [LimitReached(Turns)], [])
  {
    hide *;
    Midways(p, e, asked, events, total);
    StillCalls(p, e, asked, events, total);
    OutOfTurns(p, e, |asked|, events, total);
  }

  lemma StillCalls(p: Policy, e: Setting, asked: seq<seq<Msg>>, events: seq<Event>, total: int)
    requires Midway(p, e, asked, events, total) && Unsatisfied(e, |asked|)
    ensures CallsForMore(e, |asked|)
  {
    hide Exchange, Back, WantsTools, Answer;
    NoExtraYet(e, |asked|);
  }

  lemma OutOfTurns(p: Policy, e: Setting, n: nat, events: seq<Event>, total: int)
    requires n > 0 && n == p.maxTurns && Back(p, e, n, events, total) && CallsForMore(e, n)
    ensures Settled(p, e, n, Some(LimitHit(Turns)), events + ToolRound(e, n - 1) + [LimitReached(Turns)], [])
  {
    hide ToolRound, LogUpTo, WantsTools, SaysNothing, CallsForMore, CameBack, Answer;
    var c, r, l := [CompletedOf(e, n - 1)], ToolRound(e, n - 1), [LimitReached(Turns)];
    assert LogUpTo(e, n) + c + r + l == LogUpTo(e, n) + (c + r + l);
  }

  lemma InTurns(p: Policy, e: Setting, asked: seq<seq<Msg>>)
    requires asked != [] && Exchange(p, e, asked)
    ensures |asked| <= p.maxTurns
  {
  }

  lemma NoExtraYet(e: Setting, n: nat)
    requires n > 0 && Unsatisfied(e, n) && forall k :: 0 <= k < n - 1 ==> WantsTools(e, k)
    ensures CallsForMore(e, n)
  {
  }

  /** There is a turn left for it. */
  lemma GoesOn(p: Policy, e: Setting, asked: seq<seq<Msg>>, events: seq<Event>, total: int)
    requires Midway(p, e, asked, events, total) && |asked| < p.maxTurns && Unsatisfied(e, |asked|)
    ensures Exchange(p, e, asked + [asked[|asked| - 1] + FollowUp(e, |asked| - 1)])
    ensures (forall k :: 0 <= k < |asked| ==> e.replies(k).Some?) && total == TokensOf(e, |asked|)
    ensures events + ToolRound(e, |asked| - 1) + [TurnStarted] == LogUpTo(e, |asked| + 1)
  {
    LogGoesOn(e, |asked|);
    hide WantsTools, SaysNothing, FollowUp, LogUpTo, ToolRound;
    ExchangeGoesOn(p, e, asked);
  }

  lemma ExchangeGoesOn(p: Policy, e: Setting, asked: seq<seq<Msg>>)
    requires asked != [] && Exchange(p, e, asked) && |asked| < p.maxTurns && CameBack(p, e, |asked|)
    requires forall k :: 0 <= k < |asked| - 1 ==> WantsTools(e, k)
    requires Unsatisfied(e, |asked|)
    ensures Exchange(p, e, asked + [asked[|asked| - 1] + FollowUp(e, |asked| - 1)])
  {
    hide WantsTools, SaysNothing, FollowUp, TokensOf, WithinTokens, WithinTime;
    var more := asked + [asked[|asked| - 1] + FollowUp(e, |asked| - 1)];
    forall k | 0 < k < |more|
      ensures Follows(p, e, more, k)
    {
      if k < |asked| {
        assert Follows(p, e, asked, k);
        assert WantsTools(e, k - 1);
      }
    }
  }

  lemma StartsMidway(p: Policy, e: Setting, asked: seq<seq<Msg>>, events: seq<Event>, total: int)
    requires |asked| == 1 && Exchange(p, e, asked) && Back(p, e, 1, events, total)
    ensures Midway(p, e, asked, events, total) && 1 <= p.maxTurns
  {
  }

  lemma Midways(p: Policy, e: Setting, asked: seq<seq<Msg>>, events: seq<Event>, total: int)
    requires Midway(p, e, asked, events, total)
    ensures Exchange(p, e, asked) && 0 < |asked| <= p.maxTurns
    ensures Back(p, e, |asked|, events, total) && e.replies(|asked| - 1).Some?
    ensures |asked| >= 2 ==> WantsTools(e, |asked| - 2)
  {
  }

  lemma NotExtra(e: Setting, n: nat)
    requires n > 0 && (n >= 2 ==> WantsTools(e, n - 2))
    ensures !Extra(e, n)
  {
  }

  lemma StaysMidway(p: Policy, e: Setting, asked: seq<seq<Msg>>, before: seq<Event>, earlier: int,
                    messages: seq<Msg>, events: seq<Event>, total: int)
    requires Midway(p, e, asked, before, earlier) && WantsTools(e, |asked| - 1)
    requires Exchange(p, e, asked + [messages]) && Back(p, e, |asked| + 1, events, total)
    ensures Midway(p, e, asked + [messages], events, total)
  {
    hide Exchange, Back, WantsTools;
  }

  /** The last reply calls for nothing more: it is delivered, or it is found to be empty. */
  lemma Settles(p: Policy, e: Setting, n: nat, events: seq<Event>)
    requires n > 0 && !CallsForMore(e, n) && exists total :: Back(p, e, n, events, total)
    ensures Answer(e, n - 1) == "" ==> Settled(p, e, n, Some(EmptyReply), events, [])
    ensures Answer(e, n - 1) != "" && !e.accepts ==> Settled(p, e, n, Some(SendFailed), events, [])
    ensures Answer(e, n - 1) != "" && e.accepts ==> Settled(p, e, n, None, events + [ReplySent], [Answer(e, n - 1)])
  {
    hide CallsForMore, Answer, LogUpTo, CameBack;
    var c := CompletedOf(e, n - 1);
    assert LogUpTo(e, n) + [c] + [ReplySent] == LogUpTo(e, n) + [c, ReplySent];
  }

  /** One more turn, if there is one left: what the model said, what it is told, and its next reply. */
  method NextTurn(p: Policy, e: Setting, startedAt: int, asked: seq<seq<Msg>>, messages: seq<Msg>,
                  ghost before: seq<Event>, events: seq<Event>, totalTokens: int)
      returns (err: Option<Failure>, next: seq<seq<Msg>>, log: seq<Event>, total: int)
    requires startedAt == e.clock(0) && Midway(p, e, asked, before, totalTokens) && Unsatisfied(e, |asked|)
    requires events == before + ToolRound(e, |asked| - 1)
    requires messages == asked[|asked| - 1] + FollowUp(e, |asked| - 1)
    ensures Exchange(p, e, next)
    ensures err.Some? ==> Settled(p, e, |next|, err, log, [])
    ensures err.None? ==> |next| == |asked| + 1 <= p.maxTurns && e.replies(|asked|).Some?
    ensures err.None? ==> Back(p, e, |next|, log, total)
    ensures err.None? && WantsTools(e, |asked| - 1) ==> Midway(p, e, next, log, total)
  {
    hide Settled, Back, Exchange, LogUpTo, ToolRound, FollowUp, WantsTools, SaysNothing;
    var usedTurns := |asked|;
    var limit := CheckTurnLimit(p, usedTurns);
    if limit.Some? {
      RunsOut(p, e, asked, before, totalTokens);
      return Some(LimitHit(limit.value)), asked, events + [LimitReached(limit.value)], totalTokens;
    }
    GoesOn(p, e, asked, before, totalTokens);
    next := asked + [messages];
    err, log, total := AskAgain(p, e, usedTurns, startedAt, events, totalTokens);
    if err.None? {
      LastCame(p, e, |next|, log, total);
      if WantsTools(e, usedTurns - 1) {
        StaysMidway(p, e, asked, before, totalTokens, messages, log, total);
      }
    }
  }

  lemma LastCame(p: Policy, e: Setting, n: nat, log: seq<Event>, total: int)
    requires n > 0 && Back(p, e, n, log, total)
    ensures e.replies(n - 1).Some?
  {
  }

  /** Reads the last reply: the text kept of it, and what it parses to. */
  method Read(e: Setting, n: nat) returns (said: string, finalReply: string, parsed: Option<Envelope>)
    requires n > 0 && e.replies(n - 1).Some?
    ensures said == Reply(e, n - 1) && parsed == Spoken(e, n - 1)
    ensures finalReply == if WantsTools(e, n - 1) then said else Answer(e, n - 1)
  {
    hide Parsed;
    said := Text.TrimSpace(e.replies(n - 1).value.content);
    finalReply := said;
    parsed := ParseToolProtocol(e.decode, finalReply);
    if parsed.Some? && parsed.value.toolCalls == [] {
      finalReply := Text.TrimSpace(parsed.value.finalAnswer);
    }
  }

  /** Runs tools and asks again for as long as the model wants tools. */
  method ToolLoop(p: Policy, e: Setting, startedAt: int, first: seq<seq<Msg>>, log: seq<Event>, tokens: int)
      returns (err: Option<Failure>, asked: seq<seq<Msg>>, events: seq<Event>, totalTokens: int)
    requires startedAt == e.clock(0) && |first| == 1 && Midway(p, e, first, log, tokens)
    ensures err.Some? ==> Exchange(p, e, asked) && Settled(p, e, |asked|, err, events, [])
    ensures err.None? ==> Midway(p, e, asked, events, totalTokens) && !WantsTools(e, |asked| - 1)
  {
    hide Settled, Back, Exchange, Midway, Answer, Reply, Spoken;
    err, asked, events, totalTokens := None, first, log, tokens;
    Midways(p, e, asked, events, totalTokens);
    var said, finalReply, parsed := Read(e, |asked|);
    while parsed.Some? && parsed.value.toolCalls != []
      invariant Midway(p, e, asked, events, totalTokens)
      invariant 0 < |asked| <= p.maxTurns && err.None?
      invariant parsed == Spoken(e, |asked| - 1) && said == Reply(e, |asked| - 1)
      decreases p.maxTurns - |asked|
    {
      ghost var before := events;
      var toolResultsText := e.toolText(|asked| - 1);
      events := events + [ToolsRun(parsed.value.toolCalls)];
      var messages := asked[|asked| - 1] + [Assistant(said), ToolResults(toolResultsText)];
      err, asked, events, totalTokens := NextTurn(p, e, startedAt, asked, messages, before, events, totalTokens);
      if err.Some? {
        return;
      }
      said, finalReply, parsed := Read(e, |asked|);
    }
  }

  /** A reply that follows the protocol but says nothing gets one more turn. */
  method LastChance(p: Policy, e: Setting, startedAt: int, before: seq<seq<Msg>>, log: seq<Event>, tokens: int)
      returns (err: Option<Failure>, asked: seq<seq<Msg>>, events: seq<Event>, finalReply: string)
    requires startedAt == e.clock(0) && Midway(p, e, before, log, tokens) && !WantsTools(e, |before| - 1)
    ensures Exchange(p, e, asked)
    ensures err.Some? ==> Settled(p, e, |asked|, err, events, [])
    ensures err.None? ==> asked != [] && finalReply == Answer(e, |asked| - 1) && !CallsForMore(e, |asked|)
    ensures err.None? ==> exists total :: Back(p, e, |asked|, events, total)
  {
    hide Settled, Back, Exchange, Midway, Reply, Parsed;
    err, asked, events := None, before, log;
    Midways(p, e, asked, events, tokens);
    NotExtra(e, |asked|);
    var totalTokens := tokens;
    var said, parsed;
    said, finalReply, parsed := Read(e, |asked|);
    if finalReply == "" && parsed.Some? {
      var messages := asked[|asked| - 1] + [Assistant(said), AnswerWasEmpty];
      err, asked, events, totalTokens := NextTurn(p, e, startedAt, asked, messages, events, events, totalTokens);
      if err.Some? {
        return;
      }
      said, finalReply, parsed := Read(e, |asked|);
      if parsed.Some? {
        finalReply := Text.TrimSpace(parsed.value.finalAnswer);
      }
    }
  }

  method ProcessTask(p: Policy, e: Setting)
      returns (err: Option<Failure>, asked: seq<seq<Msg>>, events: seq<Event>, sent: seq<string>)
    ensures Exchange(p, e, asked)
    ensures Settled(p, e, |asked|, err, events, sent)
  {
    hide Settled, Back, Exchange, Midway, Answer, WantsTools, CallsForMore, LogUpTo;
    var totalTokens, finalReply;
    sent := [];
    var startedAt := e.clock(0);
    err, asked, events, totalTokens := AskFirst(p, e, startedAt);
    if err.Some? {
      return;
    }
    StartsMidway(p, e, asked, events, totalTokens);
    err, asked, events, totalTokens := ToolLoop(p, e, startedAt, asked, events, totalTokens);
    if err.Some? {
      return;
    }
    err, asked, events, finalReply := LastChance(p, e, startedAt, asked, events, totalTokens);
    if err.Some? {
      return;
    }
    Settles(p, e, |asked|, events);
    if finalReply == "" {
      return Some(EmptyReply), asked, events, sent;
    }
    if !e.accepts {
      return Some(SendFailed), asked, events, sent;
    }
    return None, asked, events + [ReplySent], [finalReply];
  }

  // --------------------------------------------------------------- what follows

  function Started(events: seq<Event>): nat {
    if events == [] then 0 else Started(events[..|events| - 1]) + if events[|events| - 1].TurnStarted? then 1 else 0
  }

  function Completed(events: seq<Event>): nat {
    if events == [] then 0 else Completed(events[..|events| - 1]) + if events[|events| - 1].TurnCompleted? then 1 else 0
  }

  function ToolRounds(events: seq<Event>): nat {
    if events == [] then 0 else ToolRounds(events[..|events| - 1]) + if events[|events| - 1].ToolsRun? then 1 else 0
  }

  lemma {:induction false} CountsAdd(a: seq<Event>, b: seq<Event>)
    ensures Started(a + b) == Started(a) + Started(b)
    ensures Completed(a + b) == Completed(a) + Completed(b)
    ensures ToolRounds(a + b) == ToolRounds(a) + ToolRounds(b)
    decreases |b|
  {
    if b == [] {
      assert a + b == a;
    } else {
      assert (a + b)[..|a + b| - 1] == a + b[..|b| - 1];
      CountsAdd(a, b[..|b| - 1]);
    }
  }

  lemma CountOne(event: Event)
    ensures Started([event]) == (if event.TurnStarted? then 1 else 0)
    ensures Completed([event]) == (if event.TurnCompleted? then 1 else 0)
    ensures ToolRounds([event]) == (if event.ToolsRun? then 1 else 0)
  {
    assert [event][..0] == [];
  }

  lemma CountRound(e: Setting, k: nat)
    ensures var r := ToolRound(e, k); Started(r) == 0 && Completed(r) == 0 && ToolRounds(r) <= 1
  {
    if WantsTools(e, k) {
      CountOne(ToolRound(e, k)[0]);
    }
  }

  lemma {:induction false} CountUpTo(e: Setting, n: nat)
    requires forall k :: 0 <= k < n - 1 ==> e.replies(k).Some?
    ensures Started(LogUpTo(e, n)) == n
    ensures n > 0 ==> Completed(LogUpTo(e, n)) == n - 1 && ToolRounds(LogUpTo(e, n)) <= n - 1
  {
    CountOne(TurnStarted);
    CountOne(ContextAssembled);
    hide Started, Completed, ToolRounds, ToolRound;
    if n == 0 {
      CountsAdd([], []);
      assert [] + [] == LogUpTo(e, 0);
    } else if n == 1 {
      CountsAdd([ContextAssembled], [TurnStarted]);
      assert [ContextAssembled] + [TurnStarted] == LogUpTo(e, 1);
    } else {
      var before, c, r := LogUpTo(e, n - 1), [CompletedOf(e, n - 2)], ToolRound(e, n - 2);
      CountUpTo(e, n - 1);
      CountOne(CompletedOf(e, n - 2));
      CountRound(e, n - 2);
      CountsAdd(before, c);
      CountsAdd(before + c, r);
      CountsAdd(before + c + r, [TurnStarted]);
    }
  }

  /** The events after the last completion hold at most one turn.completed and one tool round. */
  lemma CountLast(e: Setting, n: nat, err: Option<Failure>)
    requires n > 0 && (err != Some(ProviderFailed) ==> e.replies(n - 1).Some?)
    ensures var last := LastEvents(e, n, err);
            && Started(last) == 0 && Completed(last) <= 1 && ToolRounds(last) <= 1
            && (err.None? ==> Completed(last) == 1 && ToolRounds(last) == 0)
  {
    if err != Some(ProviderFailed) {
      var c := [CompletedOf(e, n - 1)];
      CountOne(CompletedOf(e, n - 1));
      CountOne(ReplySent);
      CountsAdd(c, [ReplySent]);
      assert c + [ReplySent] == [CompletedOf(e, n - 1), ReplySent];
      if err.Some? && err.value.LimitHit? {
        CountLimit(e, n, err.value.limit);
      }
    }
  }

  lemma CountLimit(e: Setting, n: nat, l: Limit)
    requires n > 0 && e.replies(n - 1).Some?
    ensures var last := LastEvents(e, n, Some(LimitHit(l)));
            Started(last) == 0 && Completed(last) <= 1 && ToolRounds(last) <= 1
  {
    var c, r, reached := [CompletedOf(e, n - 1)], ToolRound(e, n - 1), [LimitReached(l)];
    CountOne(CompletedOf(e, n - 1));
    CountRound(e, n - 1);
    CountOne(LimitReached(l));
    CountsAdd(c, r);
    CountsAdd(c + r, reached);
    CountsAdd(c, reached);
    assert c + reached == [CompletedOf(e, n - 1), LimitReached(l)];
    assert [] + reached == reached;
  }

  /**
   Whatever the model does: at most MaxTurns completions and as many tool rounds; a turn started for each
   completion, and on success completed too; at most one reply, sent only on success, not empty and within
   the tokens.
   */
  lemma TaskStaysWithinPolicy(p: Policy, e: Setting, err: Option<Failure>, asked: seq<seq<Msg>>,
                              events: seq<Event>, sent: seq<string>)
    requires Exchange(p, e, asked) && Settled(p, e, |asked|, err, events, sent)
    ensures asked == [] || |asked| <= p.maxTurns
    ensures Started(events) == |asked| && ToolRounds(events) <= |asked|
    ensures Completed(events) <= |asked| <= Completed(events) + 1
    ensures err.None? ==> Completed(events) == |asked| > 0
    ensures err.None? <==> |sent| == 1
    ensures err.Some? <==> sent == []
    ensures |sent| == 1 ==> sent[0] != "" && WithinTokens(p, TokensOf(e, |asked|))
  {
    hide Exchange, Settled, Started, Completed, ToolRounds;
    if asked != [] {
      InTurns(p, e, asked);
    }
    EndIsSound(p, e, |asked|, err, events, sent);
    CountLog(p, e, |asked|, err, events, sent);
  }

  lemma EndIsSound(p: Policy, e: Setting, n: nat, err: Option<Failure>, events: seq<Event>, sent: seq<string>)
    requires Settled(p, e, n, err, events, sent)
    ensures err.None? <==> |sent| == 1
    ensures err.Some? <==> sent == []
    ensures err.None? ==> n > 0
    ensures |sent| == 1 ==> sent[0] != "" && WithinTokens(p, TokensOf(e, n))
  {
    hide Log, CallsForMore, Answer, WithinTime, WithinTokens;
  }

  lemma CountLog(p: Policy, e: Setting, n: nat, err: Option<Failure>, events: seq<Event>, sent: seq<string>)
    requires Settled(p, e, n, err, events, sent)
    ensures Started(events) == n && ToolRounds(events) <= n
    ensures Completed(events) <= n <= Completed(events) + 1
    ensures err.None? ==> Completed(events) == n
  {
    hide CallsForMore, Answer, WithinTime, WithinTokens, LogUpTo, LastEvents;
    if n > 0 {
      CountUpTo(e, n);
      CountLast(e, n, err);
      CountsAdd(LogUpTo(e, n), LastEvents(e, n, err));
      hide Started, Completed, ToolRounds;
    } else if err.value.LimitHit? {
      CountOne(LimitReached(err.value.limit));
    }
  }

  /** Each further completion carries the messages of the one before and exactly two more. */
  lemma {:induction false} MessagesGrowByTwo(p: Policy, e: Setting, asked: seq<seq<Msg>>, i: nat, j: nat)
    requires Exchange(p, e, asked) && i <= j < |asked|
    ensures asked[i] <= asked[j] && |asked[j]| == |asked[i]| + 2 * (j - i)
  {
    if i < j {
      MessagesGrowByTwo(p, e, asked, i, j - 1);
      assert Follows(p, e, asked, j);
    }
  }

  /** A task that ends after n completions did not call for another, so no longer exchange is possible. */
  lemma NoLongerExchange(p: Policy, e: Setting, asked: seq<seq<Msg>>, n: nat, err: Option<Failure>, sent: seq<string>)
    requires Exchange(p, e, asked) && Ends(p, e, n, err, sent)
    ensures |asked| <= n
  {
    hide Answer, CallsForMore, CameBack, WithinTokens, WithinTime, Follows;
    if 0 < n < |asked| {
      GoesOnAfter(p, e, asked, n);
      Returned(p, e, n);
    }
  }

  lemma Returned(p: Policy, e: Setting, n: nat)
    requires n > 0 && CameBack(p, e, n)
    ensures e.replies(n - 1).Some? && WithinTime(p, e, n + 1) && WithinTokens(p, TokensOf(e, n))
  {
  }

  /** Every completion but the last came back and called for the next. */
  lemma GoesOnAfter(p: Policy, e: Setting, asked: seq<seq<Msg>>, n: nat)
    requires Exchange(p, e, asked) && 0 < n < |asked|
    ensures CameBack(p, e, n) && CallsForMore(e, n)
  {
    hide WithinTokens, WithinTime, FollowUp;
    assert Follows(p, e, asked, n);
    if n > 1 {
      assert Follows(p, e, asked, n - 1);
      assert WantsTools(e, n - 2);
    }
    hide WantsTools;
  }

  lemma {:induction false} SameMessages(p: Policy, e: Setting, a: seq<seq<Msg>>, b: seq<seq<Msg>>, k: nat)
    requires Exchange(p, e, a) && Exchange(p, e, b) && k < |a| && k < |b|
    ensures a[k] == b[k]
  {
    if k > 0 {
      SameMessages(p, e, a, b, k - 1);
      assert Follows(p, e, a, k) && Follows(p, e, b, k);
    }
  }

  lemma OneEnd(p: Policy, e: Setting, n: nat, err: Option<Failure>, sent: seq<string>,
               otherErr: Option<Failure>, otherSent: seq<string>)
    requires Ends(p, e, n, err, sent) && Ends(p, e, n, otherErr, otherSent)
    ensures err == otherErr && sent == otherSent
  {
    hide WantsTools, Answer, CallsForMore, WithinTime, WithinTokens;
  }

  /** The specification leaves nothing open: the setting determines the outcome. */
  lemma OutcomeIsDetermined(p: Policy, e: Setting,
                            err: Option<Failure>, asked: seq<seq<Msg>>, events: seq<Event>, sent: seq<string>,
                            err': Option<Failure>, asked': seq<seq<Msg>>, events': seq<Event>, sent': seq<string>)
    requires Exchange(p, e, asked) && Settled(p, e, |asked|, err, events, sent)
    requires Exchange(p, e, asked') && Settled(p, e, |asked'|, err', events', sent')
    ensures err == err' && asked == asked' && events == events' && sent == sent'
  {
    hide Exchange, Ends, LogUpTo, LastEvents;
    NoLongerExchange(p, e, asked, |asked'|, err', sent');
    NoLongerExchange(p, e, asked', |asked|, err, sent);
    OneEnd(p, e, |asked|, err, sent, err', sent');
    forall k | 0 <= k < |asked|
      ensures asked[k] == asked'[k]
    {
      SameMessages(p, e, asked, asked', k);
    }
  }

  // ------------------------------------------------------- replies in plain prose

  /** The first reply came back within the limits. */
  predicate FirstCame(p: Policy, e: Setting, resp: Response) {
    && e.context.Some? && e.replies(0) == Some(resp) && 0 < p.maxTurns
    && 0 < p.maxWallTime && e.clock(1) - e.clock(0) <= p.maxWallTime && e.clock(2) - e.clock(0) <= p.maxWallTime
    && 0 < p.maxTokens && resp.inputTokens + resp.outputTokens <= p.maxTokens
  }

  /** The reply is no protocol message as a whole, but holds this one in the midst of other text. */
  predicate Wraps(e: Setting, content: string, pre: string, v: JsonScanner.Value, suf: string, said: Envelope) {
    && content == pre + JsonScanner.Render(v) + suf
    && '{' !in pre && v.Object? && JsonScanner.WellFormed(v)
    && e.decode(Text.TrimSpace(content)).None? && e.decode(JsonScanner.Render(v)) == Some(said)
  }

  lemma WrappedIsSpoken(e: Setting, resp: Response, pre: string, v: JsonScanner.Value, suf: string, said: Envelope)
    requires e.replies(0) == Some(resp) && Wraps(e, resp.content, pre, v, suf, said)
    ensures Spoken(e, 0) == Some(said)
  {
    WrappedObjectIsParsed(e.decode, pre, v, suf);
    ParsedTrimmed(e.decode, resp.content);
    hide Parsed, Text.TrimSpace, JsonScanner.Render, JsonScanner.WellFormed;
  }

  lemma FirstInTime(p: Policy, e: Setting, resp: Response)
    requires FirstCame(p, e, resp)
    ensures WithinTime(p, e, 1) && WithinTime(p, e, 2) && WithinTokens(p, TokensOf(e, 1)) && CameBack(p, e, 1)
  {
    assert TokensOf(e, 0) == 0;
  }

  /** There was a first completion. */
  lemma SomethingAsked(p: Policy, e: Setting, resp: Response, err: Option<Failure>, asked: seq<seq<Msg>>,
                       events: seq<Event>, sent: seq<string>)
    requires FirstCame(p, e, resp) && Settled(p, e, |asked|, err, events, sent)
    ensures asked != []
  {
    FirstInTime(p, e, resp);
    hide WithinTime, WithinTokens, CallsForMore, Answer, Log;
  }

  lemma SecondWasCalledFor(p: Policy, e: Setting, asked: seq<seq<Msg>>)
    requires Exchange(p, e, asked) && |asked| > 1
    ensures WantsTools(e, 0) || SaysNothing(e, 0)
  {
    hide WantsTools, SaysNothing, WithinTime, WithinTokens, FollowUp;
    assert Follows(p, e, asked, 1);
  }

  /** There is no second completion unless the first reply called for it. */
  lemma OnlyOne(p: Policy, e: Setting, asked: seq<seq<Msg>>)
    requires Exchange(p, e, asked) && asked != [] && !WantsTools(e, 0) && !SaysNothing(e, 0)
    ensures |asked| == 1 && !CallsForMore(e, 1)
  {
    if |asked| > 1 {
      SecondWasCalledFor(p, e, asked);
    }
  }

  /** An answer wrapped in prose is found, trimmed and sent. */
  lemma WrappedAnswerIsSent(p: Policy, e: Setting, err: Option<Failure>, asked: seq<seq<Msg>>, events: seq<Event>,
                            sent: seq<string>, resp: Response, pre: string, v: JsonScanner.Value, suf: string,
                            answer: string)
    requires Exchange(p, e, asked) && Settled(p, e, |asked|, err, events, sent)
    requires FirstCame(p, e, resp) && e.accepts && !Text.IsBlank(answer)
    requires Wraps(e, resp.content, pre, v, suf, Envelope([], answer))
    ensures err.None? && |asked| == 1 && sent == [Text.TrimSpace(answer)]
  {
    WrappedIsSpoken(e, resp, pre, v, suf, Envelope([], answer));
    Text.BlankIffNothing(answer);
    hide Wraps, Spoken, Text.TrimSpace, Text.IsBlank, Exchange, Settled;
    assert !WantsTools(e, 0) && !SaysNothing(e, 0) && Answer(e, 0) == Text.TrimSpace(answer) != "";
    SomethingAsked(p, e, resp, err, asked, events, sent);
    OnlyOne(p, e, asked);
    EndsAfterOne(p, e, resp, err, events, sent);
  }

  lemma EndsAfterOne(p: Policy, e: Setting, resp: Response, err: Option<Failure>, events: seq<Event>, sent: seq<string>)
    requires FirstCame(p, e, resp) && Settled(p, e, 1, err, events, sent) && !CallsForMore(e, 1)
    ensures if Answer(e, 0) == "" then err == Some(EmptyReply) && sent == []
            else if e.accepts then err.None? && sent == [Answer(e, 0)]
            else err == Some(SendFailed) && sent == []
  {
    FirstInTime(p, e, resp);
    hide FirstCame, CameBack, WithinTime, WithinTokens, CallsForMore, Answer, Log;
  }

  /** Tool calls wrapped in prose are run. */
  lemma WrappedToolsAreRun(p: Policy, e: Setting, err: Option<Failure>, asked: seq<seq<Msg>>, events: seq<Event>,
                           sent: seq<string>, resp: Response, pre: string, v: JsonScanner.Value, suf: string,
                           said: Envelope)
    requires Exchange(p, e, asked) && Settled(p, e, |asked|, err, events, sent)
    requires FirstCame(p, e, resp) && Wraps(e, resp.content, pre, v, suf, said) && said.toolCalls != []
    ensures ToolsRun(said.toolCalls) in events
  {
    WrappedIsSpoken(e, resp, pre, v, suf, said);
    hide Wraps, Spoken, Exchange;
    assert ToolRound(e, 0) == [ToolsRun(said.toolCalls)];
    SomethingAsked(p, e, resp, err, asked, events, sent);
    if |asked| == 1 {
      ToolsAtTheEnd(p, e, resp, err, events, sent);
    } else {
      hide ToolRound, Ends;
      EarlyEvents(e, |asked|);
      assert LogUpTo(e, 2) <= LogUpTo(e, |asked|) <= events;
    }
  }

  lemma ToolsAtTheEnd(p: Policy, e: Setting, resp: Response, err: Option<Failure>, events: seq<Event>,
                      sent: seq<string>)
    requires FirstCame(p, e, resp) && Settled(p, e, 1, err, events, sent) && WantsTools(e, 0)
    ensures ToolsRun(Spoken(e, 0).value.toolCalls) in events
  {
    FirstInTime(p, e, resp);
    hide WithinTime, WithinTokens, Answer, LogUpTo, Spoken;
    var last := LastEvents(e, 1, err);
    assert err == Some(LimitHit(Turns));
    assert last[1] == ToolsRun(Spoken(e, 0).value.toolCalls);
    assert last[1] in last;
  }

  lemma {:induction false} EarlyEvents(e: Setting, n: nat)
    requires n >= 2 && forall k :: 0 <= k < n - 1 ==> e.replies(k).Some?
    ensures LogUpTo(e, 2) <= LogUpTo(e, n)
    ensures WantsTools(e, 0) ==> ToolsRun(Spoken(e, 0).value.toolCalls) in LogUpTo(e, 2)
  {
    hide WantsTools, Spoken, CompletedOf;
    if n == 2 {
      assert LogUpTo(e, 2) == LogUpTo(e, 1) + [CompletedOf(e, 0)] + ToolRound(e, 0) + [TurnStarted];
      if WantsTools(e, 0) {
        assert ToolRound(e, 0)[0] in ToolRound(e, 0);
      }
    } else {
      EarlyEvents(e, n - 1);
      LogGoesOn(e, n - 1);
      hide LogUpTo, ToolRound;
    }
  }

  /** A reply of white space alone is an empty reply. */
  lemma BlankReplyIsEmpty(p: Policy, e: Setting, err: Option<Failure>, asked: seq<seq<Msg>>, events: seq<Event>,
                          sent: seq<string>, resp: Response)
    requires Exchange(p, e, asked) && Settled(p, e, |asked|, err, events, sent)
    requires FirstCame(p, e, resp) && Text.IsBlank(resp.content) && e.decode("").None?
    ensures err == Some(EmptyReply) && |asked| == 1 && sent == []
  {
    Text.BlankTrimsToNothing(resp.content);
    assert Reply(e, 0) == "" && Text.TrimSpace("") == "";
    ProseIsNotParsed(e.decode, "");
    assert Spoken(e, 0).None?;
    hide Spoken, Text.TrimSpace, Text.IsBlank, Exchange, Settled, Reply;
    SomethingAsked(p, e, resp, err, asked, events, sent);
    OnlyOne(p, e, asked);
    EndsAfterOne(p, e, resp, err, events, sent);
  }
}
