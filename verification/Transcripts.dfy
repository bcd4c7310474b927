/** The two transcripts of a worker: the output history kept by the agent, and the turns kept by its context manager,
    from which the prompt of every model call is rebuilt (internal/runtime/runtime.go:642-675,
    internal/runtime/worker_context.go:89-168, internal/runtime/orchestrator_context.go:72-176). */
module Transcripts {
  import opened Prelude
  import opened Messages

  /** A stored turn. `arguments` is the call recorded with an assistant turn; it survives its JSON encoding. */
  datatype Turn = Turn(turnID: nat, role: Role, content: string, toolCallID: string, toolName: string,
                       arguments: Option<ToolCall>, inputTokens: nat, outputTokens: nat)

  /** A message of the output history. */
  datatype AgentMessage = AgentMessage(role: Role, content: string, toolCalls: seq<ToolCall>, toolCallID: string)

  /** What happens in an agent loop: an input is heard, the model replies, a call is answered. */
  datatype Entry =
    | HeardUser(content: string)
    | HeardTool(id: string, name: string, content: string)
    | Said(content: string, calls: seq<ToolCall>, inputTokens: nat, outputTokens: nat)
    | Answered(id: string, name: string, result: string)

  /** Which call of a response is recorded: the worker records a single call, the orchestrator the first of any. */
  datatype Keeper = WorkerKeeps | OrchestratorKeeps

  function Kept(k: Keeper, calls: seq<ToolCall>): Option<ToolCall> {
    match k
    case WorkerKeeps => if |calls| == 1 then Some(calls[0]) else None
    case OrchestratorKeeps => if |calls| > 0 then Some(calls[0]) else None
  }

  function TurnOf(k: Keeper, e: Entry, id: nat): Turn {
    match e
    case HeardUser(content) => Turn(id, User, content, "", "", None, 0, 0)
    case HeardTool(call, name, content) => Turn(id, ToolRole, content, call, name, None, 0, 0)
    case Said(content, calls, i, o) =>
      var name := if k.OrchestratorKeeps? && |calls| > 0 then calls[0].name else "";
      Turn(id, Assistant, content, "", name, Kept(k, calls), i, o)
    case Answered(call, name, result) => Turn(id, ToolRole, result, call, name, None, 0, 0)
  }

  function HistoryOf(e: Entry): AgentMessage {
    match e
    case HeardUser(content) => AgentMessage(User, content, [], "")
    case HeardTool(call, _, content) => AgentMessage(ToolRole, content, [], call)
    case Said(content, calls, _, _) => AgentMessage(Assistant, content, calls, "")
    case Answered(call, _, result) => AgentMessage(ToolRole, result, [], call)
  }

  /** The turns of a run whose first turn gets the identifier `first`. */
  function TurnsOf(k: Keeper, es: seq<Entry>, first: nat): (r: seq<Turn>)
    ensures |r| == |es| && forall j | 0 <= j < |es| :: r[j] == TurnOf(k, es[j], first + j)
  {
    seq(|es|, j requires 0 <= j < |es| => TurnOf(k, es[j], first + j))
  }

  function HistoriesOf(es: seq<Entry>): (r: seq<AgentMessage>)
    ensures |r| == |es| && forall j | 0 <= j < |es| :: r[j] == HistoryOf(es[j])
  {
    seq(|es|, j requires 0 <= j < |es| => HistoryOf(es[j]))
  }

  /** The calls a rebuilt assistant message carries: the recorded one, unless its identifier is empty. */
  function RebuiltCalls(t: Turn): seq<ToolCall> {
    if t.arguments.Some? && |t.arguments.value.id| > 0 then [t.arguments.value] else []
  }

  function TurnMessage(t: Turn): seq<ChatMessage> {
    match t.role
    case System => []
    case User => [UserMessage(t.content)]
    case Assistant => [AssistantMessage(t.content, RebuiltCalls(t))]
    case ToolRole => [ToolMessage(t.toolCallID, t.content)]
  }

  function TurnMessages(ts: seq<Turn>): seq<ChatMessage> {
    if |ts| == 0 then [] else TurnMessages(ts[..|ts| - 1]) + TurnMessage(ts[|ts| - 1])
  }

  function HistoryMessage(m: AgentMessage): seq<ChatMessage> {
    match m.role
    case System => []
    case User => [UserMessage(m.content)]
    case Assistant => [AssistantMessage(m.content, m.toolCalls)]
    case ToolRole => [ToolMessage(m.toolCallID, m.content)]
  }

  function HistoryMessages(ms: seq<AgentMessage>): seq<ChatMessage> {
    if |ms| == 0 then [] else HistoryMessages(ms[..|ms| - 1]) + HistoryMessage(ms[|ms| - 1])
  }

  /** convertToLLMMessages. */
  method ConvertToLLMMessages(history: seq<AgentMessage>, systemPrompt: string) returns (r: seq<ChatMessage>)
    ensures r == Opening(systemPrompt) + HistoryMessages(history)
  {
    var builder := new MessageBuilder(systemPrompt);
    var k := 0;
    while k < |history|
      invariant 0 <= k <= |history|
      invariant fresh(builder) && builder.messages == Opening(systemPrompt) + HistoryMessages(history[..k])
    {
      var msg := history[k];
      assert history[..k + 1][..k] == history[..k];
      match msg.role {
        case System =>
        case User => builder := builder.AddUserMessage(msg.content);
        case Assistant => builder := builder.AddAssistantMessage(msg.content, msg.toolCalls);
        case ToolRole => builder := builder.AddToolResult(msg.toolCallID, msg.content);
      }
      k := k + 1;
    }
    assert history[..k] == history;
    r := builder.Build();
  }

  // ---------------------------------------------------------------- the two transcripts agree

  function Erased(ms: seq<ChatMessage>): (r: seq<ChatMessage>)
    ensures |r| == |ms| && forall j | 0 <= j < |ms| :: r[j] == ms[j].(toolCalls := [])
  {
    seq(|ms|, j requires 0 <= j < |ms| => ms[j].(toolCalls := []))
  }

  /** A response of at most one call, whose identifier is not empty. */
  predicate Single(calls: seq<ToolCall>) {
    |calls| == 0 || (|calls| == 1 && |calls[0].id| > 0)
  }

  ghost predicate AllSingle(es: seq<Entry>) {
    forall e | e in es && e.Said? :: Single(e.calls)
  }

  /** The message an entry leaves in the rebuilt prompt. */
  function Rebuilt(k: Keeper, e: Entry): ChatMessage {
    match e
    case HeardUser(content) => UserMessage(content)
    case HeardTool(call, _, content) => ToolMessage(call, content)
    case Said(content, calls, i, o) => AssistantMessage(content, RebuiltCalls(TurnOf(k, e, 0)))
    case Answered(call, _, result) => ToolMessage(call, result)
  }

  /** The message it leaves in the converted history: nothing is lost there. */
  function Converted(e: Entry): ChatMessage {
    match e
    case Said(content, calls, _, _) => AssistantMessage(content, calls)
    case _ => Rebuilt(WorkerKeeps, e)
  }

  function RebuiltAll(k: Keeper, es: seq<Entry>): (r: seq<ChatMessage>)
    ensures |r| == |es| && forall j | 0 <= j < |es| :: r[j] == Rebuilt(k, es[j])
  {
    seq(|es|, j requires 0 <= j < |es| => Rebuilt(k, es[j]))
  }

  function ConvertedAll(es: seq<Entry>): (r: seq<ChatMessage>)
    ensures |r| == |es| && forall j | 0 <= j < |es| :: r[j] == Converted(es[j])
  {
    seq(|es|, j requires 0 <= j < |es| => Converted(es[j]))
  }

  lemma EntryRebuilds(k: Keeper, e: Entry, id: nat)
    ensures TurnMessage(TurnOf(k, e, id)) == [Rebuilt(k, e)]
    ensures HistoryMessage(HistoryOf(e)) == [Converted(e)]
  {
  }

  lemma LastTurn(ts: seq<Turn>, t: Turn)
    ensures TurnMessages(ts + [t]) == TurnMessages(ts) + TurnMessage(t)
  {
    assert (ts + [t])[..|ts|] == ts;
  }

  /** What a turn is worth to the model: a system turn nothing, any other turn one message with its role and content. A
      tool turn names its call; an assistant turn carries the recorded call, if its identifier is not empty. */
  lemma TurnReads(ts: seq<Turn>, t: Turn)
    ensures TurnMessages([]) == []
    ensures t.role == System ==> TurnMessages(ts + [t]) == TurnMessages(ts)
    ensures t.role == User ==> TurnMessages(ts + [t]) == TurnMessages(ts) + [ChatMessage(User, t.content, [], "")]
    ensures t.role == ToolRole ==>
              TurnMessages(ts + [t]) == TurnMessages(ts) + [ChatMessage(ToolRole, t.content, [], t.toolCallID)]
    ensures t.role == Assistant && t.arguments.Some? && t.arguments.value.id != "" ==>
              TurnMessages(ts + [t]) == TurnMessages(ts) + [ChatMessage(Assistant, t.content, [t.arguments.value], "")]
    ensures t.role == Assistant && (t.arguments.None? || t.arguments.value.id == "") ==>
              TurnMessages(ts + [t]) == TurnMessages(ts) + [ChatMessage(Assistant, t.content, [], "")]
  {
    LastTurn(ts, t);
  }

  /** The same for a message of the output history; nothing of it is lost, unless it is a system message. */
  lemma HistoryReads(ms: seq<AgentMessage>, m: AgentMessage)
    ensures HistoryMessages([]) == []
    ensures m.role == System ==> HistoryMessages(ms + [m]) == HistoryMessages(ms)
    ensures m.role == User ==>
              HistoryMessages(ms + [m]) == HistoryMessages(ms) + [ChatMessage(User, m.content, [], "")]
    ensures m.role == Assistant ==>
              HistoryMessages(ms + [m]) == HistoryMessages(ms) + [ChatMessage(Assistant, m.content, m.toolCalls, "")]
    ensures m.role == ToolRole ==>
              HistoryMessages(ms + [m]) == HistoryMessages(ms) + [ChatMessage(ToolRole, m.content, [], m.toolCallID)]
  {
    assert (ms + [m])[..|ms|] == ms;
  }

  /** What an entry records as turn `id`, field by field. A worker records a call exactly if it is the only one, the
      orchestrator the first of any, with its name. */
  lemma EntryReads(k: Keeper, e: Entry, id: nat)
    ensures var t := TurnOf(k, e, id);
            && t.turnID == id
            && (e.HeardUser? ==>
                  t == Turn(id, User, e.content, "", "", None, 0, 0)
                  && HistoryOf(e) == AgentMessage(User, e.content, [], ""))
            && (e.HeardTool? ==>
                  t == Turn(id, ToolRole, e.content, e.id, e.name, None, 0, 0)
                  && HistoryOf(e) == AgentMessage(ToolRole, e.content, [], e.id))
            && (e.Answered? ==>
                  t == Turn(id, ToolRole, e.result, e.id, e.name, None, 0, 0)
                  && HistoryOf(e) == AgentMessage(ToolRole, e.result, [], e.id))
            && (e.Said? ==>
                  && t.role == Assistant && t.content == e.content && t.toolCallID == ""
                  && t.inputTokens == e.inputTokens && t.outputTokens == e.outputTokens
                  && HistoryOf(e) == AgentMessage(Assistant, e.content, e.calls, ""))
    ensures e.Said? && k == WorkerKeeps ==>
              && TurnOf(k, e, id).toolName == ""
              && TurnOf(k, e, id).arguments == if |e.calls| == 1 then Some(e.calls[0]) else None
    ensures e.Said? && k == OrchestratorKeeps ==>
              && TurnOf(k, e, id).toolName == (if |e.calls| > 0 then e.calls[0].name else "")
              && TurnOf(k, e, id).arguments == if |e.calls| > 0 then Some(e.calls[0]) else None
  {
  }

  /** Turns of one message each make those messages. */
  lemma {:induction false} OneMessageEach(ts: seq<Turn>, ms: seq<ChatMessage>)
    requires |ts| == |ms| && forall j | 0 <= j < |ts| :: TurnMessage(ts[j]) == [ms[j]]
    ensures TurnMessages(ts) == ms
  {
    if |ts| > 0 {
      var n := |ts| - 1;
      OneMessageEach(ts[..n], ms[..n]);
      assert ms == ms[..n] + [ms[n]];
    }
  }

  lemma {:induction false} OneMessageKept(hs: seq<AgentMessage>, ms: seq<ChatMessage>)
    requires |hs| == |ms| && forall j | 0 <= j < |hs| :: HistoryMessage(hs[j]) == [ms[j]]
    ensures HistoryMessages(hs) == ms
  {
    if |hs| > 0 {
      var n := |hs| - 1;
      OneMessageKept(hs[..n], ms[..n]);
      assert ms == ms[..n] + [ms[n]];
    }
  }

  lemma TurnsRebuild(k: Keeper, es: seq<Entry>, first: nat)
    ensures TurnMessages(TurnsOf(k, es, first)) == RebuiltAll(k, es)
  {
    var ts, ms := TurnsOf(k, es, first), RebuiltAll(k, es);
    forall j | 0 <= j < |ts| ensures TurnMessage(ts[j]) == [ms[j]] {
      EntryRebuilds(k, es[j], first + j);
    }
    OneMessageEach(ts, ms);
  }

  lemma HistoriesConvert(es: seq<Entry>)
    ensures HistoryMessages(HistoriesOf(es)) == ConvertedAll(es)
  {
    var hs, ms := HistoriesOf(es), ConvertedAll(es);
    forall j | 0 <= j < |hs| ensures HistoryMessage(hs[j]) == [ms[j]] {
      EntryRebuilds(WorkerKeeps, es[j], 0);
    }
    OneMessageKept(hs, ms);
  }

  /** One entry looks the same in both transcripts exactly when all its calls are kept. */
  lemma KeptExactly(k: Keeper, e: Entry)
    ensures Rebuilt(k, e).(toolCalls := []) == Converted(e).(toolCalls := [])
    ensures Rebuilt(k, e) == Converted(e) <==> !e.Said? || Single(e.calls)
  {
    if e.Said? {
      var left := Rebuilt(k, e).toolCalls;
      assert Converted(e).toolCalls == e.calls;
      if left == e.calls {
        assert |left| <= 1;
      }
      if Single(e.calls) {
        assert left == e.calls;
      }
    }
  }

  /** Whatever happened, the prompt rebuilt from the turns and the one converted from the history differ at most in the
      tool calls of assistant messages; they are equal exactly when every response had at most one call and that call a
      non-empty identifier. */
  lemma TranscriptsAgree(k: Keeper, es: seq<Entry>, first: nat, systemPrompt: string)
    ensures var rebuilt := Opening(systemPrompt) + TurnMessages(TurnsOf(k, es, first));
            var converted := Opening(systemPrompt) + HistoryMessages(HistoriesOf(es));
            && Erased(rebuilt) == Erased(converted)
            && (rebuilt == converted <==> AllSingle(es))
  {
    var o, t, h := Opening(systemPrompt), RebuiltAll(k, es), ConvertedAll(es);
    TurnsRebuild(k, es, first);
    HistoriesConvert(es);
    forall j | 0 <= j < |es| ensures Erased(t)[j] == Erased(h)[j] {
      KeptExactly(k, es[j]);
    }
    EqualIffSingle(k, es);
    OpeningCancels(o, t, h);
  }

  lemma OpeningCancels(o: seq<ChatMessage>, t: seq<ChatMessage>, h: seq<ChatMessage>)
    requires Erased(t) == Erased(h)
    ensures Erased(o + t) == Erased(o + h)
    ensures o + t == o + h <==> t == h
  {
    assert |t| == |Erased(t)| == |Erased(h)| == |h|;
    assert Erased(o + t) == Erased(o) + Erased(t);
    assert Erased(o + h) == Erased(o) + Erased(h);
    assert (o + t)[|o|..] == t && (o + h)[|o|..] == h;
  }

  lemma EqualIffSingle(k: Keeper, es: seq<Entry>)
    ensures RebuiltAll(k, es) == ConvertedAll(es) <==> AllSingle(es)
  {
    var t, h := RebuiltAll(k, es), ConvertedAll(es);
    forall j | 0 <= j < |es| ensures t[j] == h[j] <==> !es[j].Said? || Single(es[j].calls) {
      KeptExactly(k, es[j]);
    }
    if t == h {
      forall e | e in es && e.Said? ensures Single(e.calls) {
        var j :| 0 <= j < |es| && es[j] == e;
        assert t[j] == h[j];
      }
    }
  }

  // ---------------------------------------------------------------- pairing of calls and results

  /** One turn of the agent loop that goes on listening: an input, the response to it, an answer to each call. */
  datatype Round = Round(input: Entry, content: string, calls: seq<ToolCall>, inputTokens: nat, outputTokens: nat,
                         results: seq<string>)

  predicate IsInput(e: Entry) {
    e.HeardUser? || e.HeardTool?
  }

  predicate RoundOk(r: Round) {
    IsInput(r.input) && |r.results| == |r.calls|
  }

  function Answers(calls: seq<ToolCall>, results: seq<string>): (r: seq<Entry>)
    requires |results| == |calls|
    ensures |r| == |calls| && forall j | 0 <= j < |r| :: r[j] == Answered(calls[j].id, calls[j].name, results[j])
  {
    seq(|calls|, j requires 0 <= j < |calls| => Answered(calls[j].id, calls[j].name, results[j]))
  }

  function RoundEntries(r: Round): seq<Entry>
    requires RoundOk(r)
  {
    [r.input, Said(r.content, r.calls, r.inputTokens, r.outputTokens)] + Answers(r.calls, r.results)
  }

  function AllEntries(rs: seq<Round>): seq<Entry>
    requires forall r | r in rs :: RoundOk(r)
  {
    if |rs| == 0 then [] else AllEntries(rs[..|rs| - 1]) + RoundEntries(rs[|rs| - 1])
  }

  /** `t` is the answer to the one call of `m`. */
  predicate AnswersCall(m: ChatMessage, t: ChatMessage) {
    m.role == Assistant && |m.toolCalls| == 1 && t.role == ToolRole && t.toolCallID == m.toolCalls[0].id
  }

  predicate PairedAt(ms: seq<ChatMessage>, j: nat)
    requires j < |ms|
  {
    && (ms[j].role == ToolRole ==> j > 0 && AnswersCall(ms[j - 1], ms[j]))
    && (|ms[j].toolCalls| > 0 ==> j + 1 < |ms| && AnswersCall(ms[j], ms[j + 1]))
  }

  /** Every tool message directly follows the assistant message that carries its call, and every call is answered by the
      next message, hence exactly once. */
  ghost predicate WellPaired(ms: seq<ChatMessage>) {
    forall j: nat {:trigger PairedAt(ms, j)} | j < |ms| :: PairedAt(ms, j)
  }

  /** No call is waiting for its answer at the end. */
  predicate Settled(ms: seq<ChatMessage>) {
    |ms| > 0 ==> |ms[|ms| - 1].toolCalls| == 0
  }

  predicate CleanRound(r: Round) {
    r.input.HeardUser? && Single(r.calls)
  }

  lemma PairedLeft(a: seq<ChatMessage>, b: seq<ChatMessage>, j: nat)
    requires Settled(a) && j < |a|
    ensures PairedAt(a + b, j) <==> PairedAt(a, j)
  {
  }

  lemma PairedRight(a: seq<ChatMessage>, b: seq<ChatMessage>, j: nat)
    requires Settled(a) && j < |b|
    ensures PairedAt(a + b, |a| + j) <==> PairedAt(b, j)
  {
    assert (a + b)[|a| + j] == b[j];
    assert j == 0 && |a| > 0 ==> (a + b)[|a| + j - 1] == a[|a| - 1];
    assert j > 0 ==> (a + b)[|a| + j - 1] == b[j - 1];
    assert j + 1 < |b| ==> (a + b)[|a| + j + 1] == b[j + 1];
  }

  /** After a settled beginning, pairing is decided on each side alone. */
  lemma PairingSplits(a: seq<ChatMessage>, b: seq<ChatMessage>)
    requires Settled(a)
    ensures WellPaired(a + b) <==> WellPaired(a) && WellPaired(b)
  {
    if WellPaired(a + b) {
      forall j: nat | j < |a| ensures PairedAt(a, j) { PairedLeft(a, b, j); }
      forall j: nat | j < |b| ensures PairedAt(b, j) {
        assert PairedAt(a + b, |a| + j);
        PairedRight(a, b, j);
      }
    }
    if WellPaired(a) && WellPaired(b) {
      forall j: nat | j < |a + b| ensures PairedAt(a + b, j) {
        if j < |a| {
          PairedLeft(a, b, j);
        } else {
          assert PairedAt(b, j - |a|);
          PairedRight(a, b, j - |a|);
        }
      }
    }
  }

  /** A round on its own is paired exactly when it starts with a user input and has a single, named call or none. */
  lemma RoundPairs(r: Round)
    requires RoundOk(r)
    ensures WellPaired(RebuiltAll(WorkerKeeps, RoundEntries(r))) <==> CleanRound(r)
    ensures Settled(RebuiltAll(WorkerKeeps, RoundEntries(r)))
  {
    var es := RoundEntries(r);
    var b := RebuiltAll(WorkerKeeps, es);
    assert b[0] == Rebuilt(WorkerKeeps, es[0]) && b[1] == Rebuilt(WorkerKeeps, es[1]);
    assert |r.calls| > 0 ==> b[2] == Rebuilt(WorkerKeeps, es[2]) && b[|b| - 1] == Rebuilt(WorkerKeeps, es[|es| - 1]);
    if WellPaired(b) {
      assert PairedAt(b, 0);
      assert |r.calls| > 0 ==> PairedAt(b, 2);
    }
    if CleanRound(r) {
      assert |b| <= 3;
      forall j: nat | j < |b| ensures PairedAt(b, j) {}
    }
  }

  /** The prompt of a model call: an opening that carries no call, the rounds so far, and the input just heard. */
  function Prompt(opening: seq<ChatMessage>, rs: seq<Round>, input: Entry): seq<ChatMessage>
    requires forall r | r in rs :: RoundOk(r)
  {
    opening + RebuiltAll(WorkerKeeps, AllEntries(rs)) + [Rebuilt(WorkerKeeps, input)]
  }

  lemma PlainIsPaired(ms: seq<ChatMessage>)
    requires forall m | m in ms :: m.role != ToolRole && |m.toolCalls| == 0
    ensures WellPaired(ms) && Settled(ms)
  {
    forall j: nat | j < |ms| ensures PairedAt(ms, j) {
      assert ms[j] in ms;
    }
    assert |ms| > 0 ==> ms[|ms| - 1] in ms;
  }

  lemma RoundAfter(before: seq<ChatMessage>, r: Round)
    requires RoundOk(r) && Settled(before)
    ensures var b := RebuiltAll(WorkerKeeps, RoundEntries(r));
            Settled(before + b) && (WellPaired(before + b) <==> WellPaired(before) && CleanRound(r))
  {
    var b := RebuiltAll(WorkerKeeps, RoundEntries(r));
    RoundPairs(r);
    PairingSplits(before, b);
    assert (before + b)[|before + b| - 1] == b[|b| - 1];
  }

  ghost predicate AllClean(rs: seq<Round>) {
    forall r | r in rs :: CleanRound(r)
  }

  lemma LastClean(rs: seq<Round>)
    requires |rs| > 0
    ensures AllClean(rs) <==> AllClean(rs[..|rs| - 1]) && CleanRound(rs[|rs| - 1])
  {
    assert rs == rs[..|rs| - 1] + [rs[|rs| - 1]];
  }

  lemma {:induction false} RoundsPair(opening: seq<ChatMessage>, rs: seq<Round>)
    requires forall r | r in rs :: RoundOk(r)
    requires forall m | m in opening :: m.role != ToolRole && |m.toolCalls| == 0
    ensures var ms := opening + RebuiltAll(WorkerKeeps, AllEntries(rs));
            Settled(ms) && (WellPaired(ms) <==> AllClean(rs))
  {
    if |rs| == 0 {
      PlainIsPaired(opening);
      assert opening + RebuiltAll(WorkerKeeps, AllEntries(rs)) == opening;
    } else {
      var n := |rs| - 1;
      RoundsPair(opening, rs[..n]);
      RoundAfter(opening + RebuiltAll(WorkerKeeps, AllEntries(rs[..n])), rs[n]);
      RebuiltConcat(opening, AllEntries(rs[..n]), RoundEntries(rs[n]));
      LastClean(rs);
    }
  }

  lemma RebuiltConcat(o: seq<ChatMessage>, a: seq<Entry>, b: seq<Entry>)
    ensures o + RebuiltAll(WorkerKeeps, a + b) == (o + RebuiltAll(WorkerKeeps, a)) + RebuiltAll(WorkerKeeps, b)
  {
  }

  /** Every model call sees a well-paired prompt exactly when no child message has been heard and every response so far
      had at most one call, with a non-empty identifier. */
  lemma PromptWellPaired(opening: seq<ChatMessage>, rs: seq<Round>, input: Entry)
    requires forall r | r in rs :: RoundOk(r)
    requires IsInput(input)
    requires forall m | m in opening :: m.role != ToolRole && |m.toolCalls| == 0
    ensures WellPaired(Prompt(opening, rs, input)) <==> AllClean(rs) && input.HeardUser?
  {
    RoundsPair(opening, rs);
    PairingSplits(opening + RebuiltAll(WorkerKeeps, AllEntries(rs)), [Rebuilt(WorkerKeeps, input)]);
    assert PairedAt([Rebuilt(WorkerKeeps, input)], 0) <==> input.HeardUser?;
  }
}
