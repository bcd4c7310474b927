/** The agent loop of a worker (internal/runtime/runtime.go:335-638). Everything outside it is an oracle: the stream of
    inputs, the model's replies, what other tools answered, whether store calls fail. A moment of the run is named by
    the number the context manager has given out last. */
module AgentLoop {
  import opened Prelude
  import opened Tools
  import opened Messages
  import opened Transcripts
  import opened TurnLog
  import opened ContextManagers
  import opened Instances
  import opened Agents

  /** The decoded arguments of a call; what is missing is empty. */
  datatype Args = Args(state: string, result: string, message: string, description: string, code: string)

  datatype Response = Response(content: string, calls: seq<ToolCall>, inputTokens: nat, outputTokens: nat)

  datatype Oracle = Oracle(
    decode: string -> Args,
    model: nat -> Option<Response>,
    extra: nat -> string,
    answer: nat -> string,
    insertFails: nat -> bool,
    updateFails: nat -> bool)

  function SignalOf(state: string): Signal {
    if state == "BLOCKING" then Blocking
    else if state == "COMPLETED" then Signal.Completed
    else if state == "FAILED" then Signal.Failed
    else Unknown(state)
  }

  function ActionOf(o: Oracle, c: ToolCall): Action {
    var a := o.decode(c.arguments);
    if c.name == "SET_STATE" then SetState(SignalOf(a.state), a.result)
    else if c.name == "SEND_PARENT" then SendParent(a.message)
    else if c.name == "SPAWN_TASK" then SpawnTask(a.description)
    else if c.name == "EXECUTE_CMD" then ExecuteCmd(a.code)
    else UnknownTool
  }

  function Actions(o: Oracle, calls: seq<ToolCall>): (r: seq<Action>)
    ensures |r| == |calls| && forall j | 0 <= j < |r| :: r[j] == ActionOf(o, calls[j])
  {
    seq(|calls|, j requires 0 <= j < |calls| => ActionOf(o, calls[j]))
  }

  /** What a call is answered; `outside` is the answer of the tools that reach beyond the loop. */
  function ResultText(a: Action, outside: string): string {
    match a
    case SetState(Blocking, _) => "{\"status\": \"ok\", \"state\": \"BLOCKING\"}"
    case SetState(Completed, _) => "{\"status\": \"ok\", \"state\": \"COMPLETED\"}"
    case SetState(Failed, _) => "{\"status\": \"ok\", \"state\": \"FAILED\"}"
    case SetState(Unknown(name), _) => "{\"error\": \"unknown state: " + name + "\"}"
    case SendParent(m) => if |m| > 0 then outside else "{\"success\": false, \"error\": \"message is required\"}"
    case SpawnTask(d) => if |d| > 0 then outside else ""
    case ExecuteCmd(code) => if |code| > 0 then outside else "{\"success\": false, \"error\": \"code is required\"}"
    case UnknownTool => "{\"error\": \"unknown tool\"}"
  }

  /** The answers to a response, when its first answer becomes turn `first`. */
  function Results(o: Oracle, acts: seq<Action>, first: nat): (r: seq<string>)
    ensures |r| == |acts|
  {
    seq(|acts|, j requires 0 <= j < |acts| => ResultText(acts[j], o.answer(first + j)))
  }

  // ---------------------------------------------------------------- the last call that matters

  predicate SetsState(a: Action) { a.SetState? }

  predicate SetsKnownState(a: Action) { a.SetState? && !a.state.Unknown? }

  predicate EndsTask(a: Action) { a.SetState? && (a.state.Completed? || a.state.Failed?) }

  /** The position of the last action with property `p`, or -1. */
  function Last(acts: seq<Action>, p: Action -> bool): (i: int)
    ensures -1 <= i < |acts|
    ensures i >= 0 ==> p(acts[i])
    ensures forall j | i < j < |acts| :: !p(acts[j])
  {
    if |acts| == 0 then -1
    else if p(acts[|acts| - 1]) then |acts| - 1
    else Last(acts[..|acts| - 1], p)
  }

  lemma LastAfter(acts: seq<Action>, more: seq<Action>, p: Action -> bool)
    ensures Last(acts + more, p) == if Last(more, p) >= 0 then |acts| + Last(more, p) else Last(acts, p)
  {
    var i := Last(acts + more, p);
    var m, n := Last(more, p), Last(acts, p);
    assert i >= |acts| ==> (acts + more)[i] == more[i - |acts|];
    assert 0 <= i < |acts| ==> (acts + more)[i] == acts[i];
    assert m >= 0 ==> (acts + more)[|acts| + m] == more[m];
    assert n >= 0 ==> (acts + more)[n] == acts[n];
  }

  /** stateChange after a response: what the last SET_STATE asked for, known or not. */
  function ChangeOf(acts: seq<Action>): Signal {
    var i := Last(acts, SetsState);
    if i >= 0 then acts[i].state else NO_CHANGE
  }

  /** agent.State: BLOCKING or FREE by the last SET_STATE with a known state. */
  function StateAfter(before: AgentState, acts: seq<Action>): AgentState {
    var i := Last(acts, SetsKnownState);
    if i < 0 then before else if acts[i].state.Blocking? then BlockingState else Free
  }

  /** The status of the task: by the last call that ended it. */
  function StatusAfter(before: TaskStatus, acts: seq<Action>): TaskStatus {
    var i := Last(acts, EndsTask);
    if i < 0 then before else if acts[i].state.Completed? then TaskStatus.Completed else TaskStatus.Failed
  }

  /** The loop unregisters only if the last SET_STATE ended the task, and then that is the status of the task: an
      earlier COMPLETED that a later BLOCKING or unknown state overrode does not count. */
  lemma UnregisterMeansEnded(acts: seq<Action>, before: TaskStatus)
    ensures VerdictOf(ChangeOf(acts)) == Unregister <==>
            Last(acts, SetsState) >= 0 && Last(acts, SetsState) == Last(acts, EndsTask)
    ensures VerdictOf(ChangeOf(acts)) == Unregister ==>
            StatusAfter(before, acts) == if ChangeOf(acts).Completed? then TaskStatus.Completed else TaskStatus.Failed
    ensures VerdictOf(ChangeOf(acts)) == KeepListening <==>
            Last(acts, SetsState) >= 0 && acts[Last(acts, SetsState)].state == Blocking
  {
    var i, e := Last(acts, SetsState), Last(acts, EndsTask);
    if e >= 0 { assert SetsState(acts[e]) && e <= i; }
    if i >= 0 && EndsTask(acts[i]) { assert i <= e; }
  }

  /** COMPLETED is not final: a later BLOCKING in the same response keeps the loop running, with the task marked
      completed. */
  lemma CompletedThenBlocking(result: string)
    ensures var acts := [SetState(Signal.Completed, result), SetState(Blocking, "")];
            VerdictOf(ChangeOf(acts)) == KeepListening && StatusAfter(InProgress, acts) == TaskStatus.Completed
  {
    var acts := [SetState(Signal.Completed, result), SetState(Blocking, "")];
    assert Last(acts, SetsState) == 1;
    assert Last(acts, EndsTask) == 0;
  }

  predicate Completes(a: Action) { a.SetState? && a.state.Completed? }

  predicate Explains(a: Action) { a.SetState? && a.state.Failed? && |a.result| > 0 }

  /** The result of the task: from the last COMPLETED, even if FAILED came after it. */
  function ResultAfter(before: Option<string>, acts: seq<Action>): Option<string> {
    var i := Last(acts, Completes);
    if i < 0 then before else Some(acts[i].result)
  }

  /** The error of the task: from the last FAILED that gave a reason. */
  function ErrorAfter(before: Option<string>, acts: seq<Action>): Option<string> {
    var i := Last(acts, Explains);
    if i < 0 then before else Some(acts[i].result)
  }

  /** What tool calls write: the state of the agent, and the columns of the task. */
  datatype Marks = Marks(state: AgentState, columns: TaskColumns)

  function MarksAfter(m: Marks, acts: seq<Action>): Marks {
    Marks(StateAfter(m.state, acts),
          TaskColumns(StatusAfter(m.columns.status, acts), ResultAfter(m.columns.result, acts),
                      ErrorAfter(m.columns.error, acts)))
  }

  /** The position of the last call that ended the task and whose update of the row was not lost, or -1. */
  function LastSaved(acts: seq<Action>, lost: seq<bool>): (i: int)
    requires |acts| == |lost|
    ensures -1 <= i < |acts|
    ensures i >= 0 ==> EndsTask(acts[i]) && !lost[i]
    ensures forall j | i < j < |acts| :: !EndsTask(acts[j]) || lost[j]
  {
    var n := |acts| - 1;
    if n < 0 then -1 else if EndsTask(acts[n]) && !lost[n] then n else LastSaved(acts[..n], lost[..n])
  }

  /** The row: as the task was after that call. */
  function RowAfter(row: TaskColumns, m: Marks, acts: seq<Action>, lost: seq<bool>): TaskColumns
    requires |acts| == |lost|
  {
    var i := LastSaved(acts, lost);
    if i < 0 then row else MarksAfter(m, acts[..i + 1]).columns
  }

  function MarksStep(m: Marks, a: Action): Marks {
    Marks(if SetsKnownState(a) then (if a.state.Blocking? then BlockingState else Free) else m.state,
          TaskColumns(
            if EndsTask(a) then (if a.state.Completed? then TaskStatus.Completed else TaskStatus.Failed)
            else m.columns.status,
            if Completes(a) then Some(a.result) else m.columns.result,
            if Explains(a) then Some(a.result) else m.columns.error))
  }

  lemma StepLast(acts: seq<Action>, a: Action, m: Marks)
    ensures MarksAfter(m, acts + [a]) == MarksStep(MarksAfter(m, acts), a)
  {
    assert (acts + [a])[..|acts|] == acts;
  }

  lemma StepRow(acts: seq<Action>, lost: seq<bool>, a: Action, fails: bool, m: Marks, row: TaskColumns)
    requires |acts| == |lost|
    ensures RowAfter(row, m, acts + [a], lost + [fails])
            == if EndsTask(a) && !fails then MarksAfter(m, acts + [a]).columns else RowAfter(row, m, acts, lost)
  {
    var n := |acts|;
    assert (acts + [a])[..n] == acts && (lost + [fails])[..n] == lost && (acts + [a])[..n + 1] == acts + [a];
    var i := LastSaved(acts, lost);
    assert (acts + [a])[..i + 1] == acts[..i + 1];
  }

  // ---------------------------------------------------------------- one response

  /** Both transcripts, and the number of the last turn. */
  datatype Pages = Pages(history: seq<AgentMessage>, turns: seq<Turn>, turn: nat)

  /** Everything the loop of an agent writes. */
  datatype Scene = Scene(pages: Pages, marks: Marks, row: TaskColumns)

  function PagesOf(agent: WorkerAgent, context: ContextManager): Pages
    reads agent, context
  {
    Pages(agent.outputHistory, context.turns, context.currentTurnID)
  }

  function MarksOf(agent: WorkerAgent, task: TaskInstance): Marks
    reads agent, task
  {
    Marks(agent.state, task.Columns())
  }

  function Now(agent: WorkerAgent, task: TaskInstance, row: TaskRow, context: ContextManager): Scene
    reads agent, task, row, context
  {
    Scene(PagesOf(agent, context), MarksOf(agent, task), row.columns)
  }

  function Grown(p: Pages, es: seq<Entry>): Pages {
    Pages(p.history + HistoriesOf(es), p.turns + TurnsOf(WorkerKeeps, es, p.turn + 1), p.turn + |es|)
  }

  /** Both transcripts have grown by the same entries, and the calls so far have taken effect. */
  function After(from: Scene, es: seq<Entry>, acts: seq<Action>, lost: seq<bool>): Scene
    requires |acts| == |lost|
  {
    Scene(Grown(from.pages, es), MarksAfter(from.marks, acts), RowAfter(from.row, from.marks, acts, lost))
  }

  /** SET_STATE. The row is written only when the task ends, and the write may fail. */
  method ApplyState(agent: WorkerAgent, task: TaskInstance, row: TaskRow, state: Signal, result: string,
                    updateFails: bool)
    modifies agent`state, task`status, task`result, task`error, row
    ensures MarksOf(agent, task) == MarksStep(old(MarksOf(agent, task)), SetState(state, result))
    ensures row.columns
            == if EndsTask(SetState(state, result)) && !updateFails then task.Columns() else old(row.columns)
  {
    match state
    case Blocking => agent.SetBlocking(true);
    case Completed =>
      agent.SetBlocking(false);
      task.status, task.result := TaskStatus.Completed, Some(result);
      row.Update(task.Columns(), updateFails);
    case Failed =>
      agent.SetBlocking(false);
      task.status := TaskStatus.Failed;
      if |result| > 0 {
        task.error := Some(result);
      }
      row.Update(task.Columns(), updateFails);
    case Unknown(_) =>
  }

  /** Where the turn log was when the loop began. */
  datatype Start = Start(sound: bool, turns: nat, rows: Rows)

  /** The rows after the inserts of `ts`, each of which fails if the store does or the number is taken. */
  function Stored(o: Oracle, rows: Rows, ts: seq<Turn>): Rows {
    if |ts| == 0 then rows
    else var before, t := Stored(o, rows, ts[..|ts| - 1]), ts[|ts| - 1];
         if o.insertFails(t.turnID) || t.turnID in before then before else before[t.turnID := t]
  }

  lemma StoredGrows(o: Oracle, rows: Rows, ts: seq<Turn>, t: Turn)
    ensures Stored(o, rows, []) == rows
    ensures o.insertFails(t.turnID) || t.turnID in Stored(o, rows, ts) ==>
              Stored(o, rows, ts + [t]) == Stored(o, rows, ts)
    ensures !o.insertFails(t.turnID) && t.turnID !in Stored(o, rows, ts) ==>
              Stored(o, rows, ts + [t]) == Stored(o, rows, ts)[t.turnID := t]
  {
    assert (ts + [t])[..|ts|] == ts;
  }

  /** The log of this worker: every turn since the loop began has been inserted, and the log is sound if it was then. */
  ghost predicate Logs(context: ContextManager, o: Oracle, log: Start)
    reads context, context.table
  {
    && context.keeper == WorkerKeeps
    && (log.sound ==> context.Sound())
    && log.turns <= |context.turns|
    && context.table.rows == Stored(o, log.rows, context.turns[log.turns..])
  }

  /** An entry becomes a turn of its kind. */
  method AddTurn(context: ContextManager, e: Entry, fails: bool) returns (stored: bool)
    modifies context, context.table
    ensures context.Added(e, fails, stored)
  {
    match e {
      case HeardUser(content) => stored := context.AddUserTurn(content, fails);
      case HeardTool(id, name, content) => stored := context.AddToolResultTurn(id, name, content, fails);
      case Said(content, calls, inputTokens, outputTokens) =>
        stored := context.AddAssistantTurn(content, calls, inputTokens, outputTokens, fails);
      case Answered(id, name, result) => stored := context.AddToolResultTurn(id, name, result, fails);
    }
  }

  /** An entry enters both transcripts. */
  method Record(agent: WorkerAgent, context: ContextManager, e: Entry, o: Oracle, ghost log: Start)
    requires Logs(context, o, log)
    modifies agent`outputHistory, context, context.table
    ensures Logs(context, o, log)
    ensures agent.outputHistory == old(agent.outputHistory) + [HistoryOf(e)]
    ensures context.turns == old(context.turns) + [TurnOf(WorkerKeeps, e, old(context.currentTurnID) + 1)]
    ensures context.currentTurnID == old(context.currentTurnID) + 1
  {
    ghost var since := context.turns[log.turns..];
    agent.outputHistory := agent.outputHistory + [HistoryOf(e)];
    var stored := AddTurn(context, e, o.insertFails(context.currentTurnID + 1));
    ghost var turn := TurnOf(WorkerKeeps, e, context.currentTurnID);
    StoredGrows(o, log.rows, since, turn);
    assert context.turns[log.turns..] == since + [turn];
  }

  /** The same, told as part of a scene. */
  method Write(agent: WorkerAgent, task: TaskInstance, row: TaskRow, context: ContextManager, e: Entry, o: Oracle,
               ghost log: Start, ghost from: Scene, ghost es: seq<Entry>, ghost acts: seq<Action>,
               ghost lost: seq<bool>)
    requires |acts| == |lost| && Logs(context, o, log) && Now(agent, task, row, context) == After(from, es, acts, lost)
    modifies agent`outputHistory, context, context.table
    ensures Logs(context, o, log) && Now(agent, task, row, context) == After(from, es + [e], acts, lost)
    ensures context.currentTurnID == from.pages.turn + |es| + 1
  {
    Record(agent, context, e, o, log);
    Grow(es, e, from.pages);
  }

  /** One call: it takes effect, and its answer goes into both transcripts. */
  method AnswerOne(agent: WorkerAgent, task: TaskInstance, row: TaskRow, context: ContextManager, call: ToolCall,
                   action: Action, n: nat, o: Oracle, ghost log: Start, ghost from: Scene, ghost es: seq<Entry>,
                   ghost acts: seq<Action>, ghost lost: seq<bool>)
      returns (result: string)
    requires |acts| == |lost| && n == context.currentTurnID + 1
    requires Logs(context, o, log) && Now(agent, task, row, context) == After(from, es, acts, lost)
    modifies agent`state, agent`outputHistory, task`status, task`result, task`error, row, context, context.table
    ensures result == ResultText(action, o.answer(n))
    ensures Logs(context, o, log)
    ensures Now(agent, task, row, context)
            == After(from, es + [Answered(call.id, call.name, result)], acts + [action], lost + [o.updateFails(n)])
  {
    ghost var before := Now(agent, task, row, context);
    if action.SetState? {
      ApplyState(agent, task, row, action.state, action.result, o.updateFails(n));
    }
    result := ResultText(action, o.answer(n));
    var e := Answered(call.id, call.name, result);
    Record(agent, context, e, o, log);
    AfterCall(from, es, e, acts, action, lost, o.updateFails(n), before, Now(agent, task, row, context));
  }

  lemma AfterCall(from: Scene, es: seq<Entry>, e: Entry, acts: seq<Action>, a: Action, lost: seq<bool>, fails: bool,
                  before: Scene, now: Scene)
    requires |acts| == |lost| && before == After(from, es, acts, lost)
    requires now.pages == Pages(before.pages.history + [HistoryOf(e)],
                                before.pages.turns + [TurnOf(WorkerKeeps, e, before.pages.turn + 1)],
                                    before.pages.turn + 1)
    requires now.marks == MarksStep(before.marks, a)
    requires now.row == if EndsTask(a) && !fails then now.marks.columns else before.row
    ensures now == After(from, es + [e], acts + [a], lost + [fails])
  {
    Grow(es, e, from.pages);
    StepLast(acts, a, from.marks);
    StepRow(acts, lost, a, fails, from.marks, from.row);
  }

  /** Which updates of the row are lost, for calls answered from turn `first` on. */
  function Lost(o: Oracle, first: nat, n: nat): (r: seq<bool>)
    ensures |r| == n
  {
    seq(n, j requires 0 <= j < n => o.updateFails(first + j))
  }

  /** The calls of one response, answered in order. */
  method AnswerCalls(agent: WorkerAgent, task: TaskInstance, row: TaskRow, context: ContextManager,
                     calls: seq<ToolCall>, actions: seq<Action>, ghost first: nat, o: Oracle, ghost log: Start,
                     ghost from: Scene, ghost es: seq<Entry>, ghost acts: seq<Action>, ghost lost: seq<bool>)
      returns (change: Signal, results: seq<string>)
    requires |actions| == |calls| && |acts| == |lost| && first == from.pages.turn + |es| + 1
    requires Logs(context, o, log) && Now(agent, task, row, context) == After(from, es, acts, lost)
    modifies agent`state, agent`outputHistory, task`status, task`result, task`error, row, context, context.table
    ensures results == Results(o, actions, first)
    ensures Logs(context, o, log)
    ensures Now(agent, task, row, context)
            == After(from, es + Answers(calls, results), acts + actions, lost + Lost(o, first, |calls|))
    ensures change == ChangeOf(actions)
  {
    change, results := NO_CHANGE, [];
    var k := 0;
    ghost var told, done, gone := es, acts, lost;
    NothingAnswered(o, calls, actions, first, es, acts, lost);
    while k < |calls|
      invariant 0 <= k <= |calls| && |results| == k && |done| == |gone|
      invariant Logs(context, o, log) && Now(agent, task, row, context) == After(from, told, done, gone)
      invariant Partly(o, calls, actions, results, k, first, es, acts, lost, told, done, gone)
      invariant change == ChangeOf(actions[..k])
    {
      var n := context.currentTurnID + 1;
      var result := AnswerOne(agent, task, row, context, calls[k], actions[k], n, o, log, from, told, done, gone);
      OneMore(o, calls, actions, results, k, first, es, acts, lost, told, done, gone, from.pages.turn, n, result);
      change := NextChange(change, actions[k]);
      told, done, gone := told + [Answered(calls[k].id, calls[k].name, result)], done + [actions[k]],
          gone + [o.updateFails(n)];
      results := results + [result];
      k := k + 1;
    }
    AllAnswered(o, calls, actions, results, first, es, acts, lost, told, done, gone);
    assert actions[..k] == actions;
  }

  /** The first `k` calls have been answered. */
  ghost predicate Partly(o: Oracle, calls: seq<ToolCall>, actions: seq<Action>, results: seq<string>, k: nat,
                         first: nat, es: seq<Entry>, acts: seq<Action>, lost: seq<bool>, told: seq<Entry>,
                         done: seq<Action>, gone: seq<bool>)
    requires k <= |calls| == |actions| && |results| == k
  {
    && told == es + Answers(calls[..k], results)
    && done == acts + actions[..k]
    && gone == lost + Lost(o, first, k)
    && results == Results(o, actions[..k], first)
  }

  lemma NothingAnswered(o: Oracle, calls: seq<ToolCall>, actions: seq<Action>, first: nat, es: seq<Entry>,
                        acts: seq<Action>, lost: seq<bool>)
    requires |actions| == |calls|
    ensures Partly(o, calls, actions, [], 0, first, es, acts, lost, es, acts, lost)
  {
  }

  lemma AllAnswered(o: Oracle, calls: seq<ToolCall>, actions: seq<Action>, results: seq<string>, first: nat,
                    es: seq<Entry>, acts: seq<Action>, lost: seq<bool>, told: seq<Entry>, done: seq<Action>,
                    gone: seq<bool>)
    requires |actions| == |calls| == |results|
    requires Partly(o, calls, actions, results, |calls|, first, es, acts, lost, told, done, gone)
    ensures told == es + Answers(calls, results) && done == acts + actions && gone == lost + Lost(o, first, |calls|)
    ensures results == Results(o, actions, first)
  {
    assert calls[..|calls|] == calls && actions[..|calls|] == actions;
  }

  lemma OneMore(o: Oracle, calls: seq<ToolCall>, actions: seq<Action>, results: seq<string>, k: nat, first: nat,
                es: seq<Entry>, acts: seq<Action>, lost: seq<bool>, told: seq<Entry>, done: seq<Action>,
                gone: seq<bool>, turn: nat, n: nat, result: string)
    requires k < |calls| == |actions| && |results| == k && first == turn + |es| + 1 && n == turn + |told| + 1
    requires Partly(o, calls, actions, results, k, first, es, acts, lost, told, done, gone)
    requires result == ResultText(actions[k], o.answer(n))
    ensures Partly(o, calls, actions, results + [result], k + 1, first, es, acts, lost,
                   told + [Answered(calls[k].id, calls[k].name, result)], done + [actions[k]],
                       gone + [o.updateFails(n)])
    ensures NextChange(ChangeOf(actions[..k]), actions[k]) == ChangeOf(actions[..k + 1])
  {
    assert n == first + k;
    GrowAnswers(calls, results, k, result, es);
    GrowActions(o, actions, results, k, result, acts, first, n);
    assert Lost(o, first, k + 1) == Lost(o, first, k) + [o.updateFails(n)];
    Regroup(lost, Lost(o, first, k), [o.updateFails(n)]);
  }

  lemma Regroup<T>(a: seq<T>, b: seq<T>, c: seq<T>)
    ensures (a + b) + c == a + (b + c)
  {
  }

  lemma GrowActions(o: Oracle, actions: seq<Action>, results: seq<string>, k: nat, result: string, before: seq<Action>,
                    first: nat, n: nat)
    requires k < |actions| && results == Results(o, actions[..k], first) && n == first + k
    requires result == ResultText(actions[k], o.answer(n))
    ensures (before + actions[..k]) + [actions[k]] == before + actions[..k + 1]
    ensures results + [result] == Results(o, actions[..k + 1], first)
    ensures NextChange(ChangeOf(actions[..k]), actions[k]) == ChangeOf(actions[..k + 1])
  {
    assert actions[..k + 1][..k] == actions[..k];
  }

  lemma GrowAnswers(calls: seq<ToolCall>, results: seq<string>, k: nat, result: string, before: seq<Entry>)
    requires k < |calls| && |results| == k
    ensures (before + Answers(calls[..k], results)) + [Answered(calls[k].id, calls[k].name, result)]
            == before + Answers(calls[..k + 1], results + [result])
  {
  }

  lemma Grow(es: seq<Entry>, e: Entry, p: Pages)
    ensures var g, h := Grown(p, es), Grown(p, es + [e]);
            && h.history == g.history + [HistoryOf(e)]
            && h.turns == g.turns + [TurnOf(WorkerKeeps, e, g.turn + 1)]
            && h.turn == g.turn + 1
  {
    assert HistoriesOf(es + [e]) == HistoriesOf(es) + [HistoryOf(e)];
    assert TurnsOf(WorkerKeeps, es + [e], p.turn + 1)
           == TurnsOf(WorkerKeeps, es, p.turn + 1) + [TurnOf(WorkerKeeps, e, p.turn + 1 + |es|)];
  }

  // ---------------------------------------------------------------- the whole loop

  datatype Exit = StillWaiting | ModelFailed | Unregistered | NoStateChange

  /** What an input leaves in the transcripts; an input of an unknown kind is skipped. */
  function Heard(input: AgentInput): (r: seq<Entry>)
    ensures |r| <= 1 && forall e | e in r :: IsInput(e)
  {
    match input
    case TaskStart(content) => [HeardUser(content)]
    case ToolResult(id, name, content) => [HeardTool(id, name, content)]
    case Message(content) => [HeardUser(content)]
    case OtherInput(_) => []
  }

  function HeardAll(inputs: seq<AgentInput>): seq<Entry> {
    if |inputs| == 0 then [] else HeardAll(inputs[..|inputs| - 1]) + Heard(inputs[|inputs| - 1])
  }

  predicate RoundsOk(rs: seq<Round>) {
    forall r | r in rs :: RoundOk(r)
  }

  function AllActions(o: Oracle, rs: seq<Round>): seq<Action> {
    if |rs| == 0 then [] else AllActions(o, rs[..|rs| - 1]) + Actions(o, rs[|rs| - 1].calls)
  }

  function AllLost(o: Oracle, start: nat, rs: seq<Round>): (r: seq<bool>)
    requires RoundsOk(rs)
    ensures |r| == |AllActions(o, rs)|
  {
    if |rs| == 0 then []
    else var n := |rs| - 1;
         AllLost(o, start, rs[..n]) + LostIn(o, NextInput(start, rs[..n]), rs[n])
  }

  /** The same for a round whose input is turn `n`. */
  function LostIn(o: Oracle, n: nat, r: Round): (l: seq<bool>)
    ensures |l| == |r.calls|
  {
    Lost(o, n + 2, |r.calls|)
  }

  function InputsOf(rs: seq<Round>): seq<Entry> {
    if |rs| == 0 then [] else InputsOf(rs[..|rs| - 1]) + [rs[|rs| - 1].input]
  }

  function VerdictIn(o: Oracle, r: Round): Verdict {
    VerdictOf(ChangeOf(Actions(o, r.calls)))
  }

  ghost predicate Listening(o: Oracle, rs: seq<Round>) {
    forall r | r in rs :: VerdictIn(o, r) == KeepListening
  }

  /** The number of the turn of the input heard after the rounds `rs`. */
  function NextInput(start: nat, rs: seq<Round>): nat
    requires RoundsOk(rs)
  {
    start + |AllEntries(rs)| + 1
  }

  /** The response of a round is the model's, and every call got its own answer, in order. */
  predicate Told(o: Oracle, n: nat, r: Round) {
    && o.model(n) == Some(Response(r.content, r.calls, r.inputTokens, r.outputTokens))
    && r.results == Results(o, Actions(o, r.calls), n + 2)
  }

  predicate AllTold(o: Oracle, start: nat, rs: seq<Round>)
    requires RoundsOk(rs)
  {
    |rs| == 0 || (AllTold(o, start, rs[..|rs| - 1]) && Told(o, NextInput(start, rs[..|rs| - 1]), rs[|rs| - 1]))
  }

  /** The prompt of the model call for `input`: everything known at the start, the rounds before, the input. */
  function PromptFor(o: Oracle, systemPrompt: string, known: seq<ChatMessage>, start: nat, rs: seq<Round>, input: Entry)
    : seq<ChatMessage>
    requires RoundsOk(rs)
  {
    Prompt(Preamble(WorkerKeeps, systemPrompt, o.extra(NextInput(start, rs))) + known, rs, input)
  }

  function Prompts(o: Oracle, systemPrompt: string, known: seq<ChatMessage>, start: nat, rs: seq<Round>)
    : (r: seq<seq<ChatMessage>>)
    requires RoundsOk(rs)
    ensures |r| == |rs|
  {
    if |rs| == 0 then []
    else var n := |rs| - 1;
         Prompts(o, systemPrompt, known, start, rs[..n])
             + [PromptFor(o, systemPrompt, known, start, rs[..n], rs[n].input)]
  }

  lemma {:induction false} TurnMessagesConcat(a: seq<Turn>, b: seq<Turn>)
    ensures TurnMessages(a + b) == TurnMessages(a) + TurnMessages(b)
  {
    if |b| == 0 {
      assert a + b == a;
    } else {
      var n := |b| - 1;
      TurnMessagesConcat(a, b[..n]);
      assert (a + b)[..|a + b| - 1] == a + b[..n] && (a + b)[|a + b| - 1] == b[n];
      Regroup(TurnMessages(a), TurnMessages(b[..n]), TurnMessage(b[n]));
    }
  }

  lemma GrownTurns(p: Pages, es: seq<Entry>, added: seq<Turn>)
    requires added == TurnsOf(WorkerKeeps, es, p.turn + 1)
    ensures Grown(p, es).turns == p.turns + added
  {
  }

  /** What is rebuilt from the turns is what was known and what was told since. */
  lemma GrownRebuilds(p: Pages, es: seq<Entry>, added: seq<Turn>)
    requires Grown(p, es).turns == p.turns + added && TurnMessages(added) == RebuiltAll(WorkerKeeps, es)
    ensures TurnMessages(Grown(p, es).turns) == TurnMessages(p.turns) + RebuiltAll(WorkerKeeps, es)
  {
    TurnMessagesConcat(p.turns, added);
  }

  lemma PromptSplits(opening: seq<ChatMessage>, known: seq<ChatMessage>, rs: seq<Round>, input: Entry)
    requires RoundsOk(rs)
    ensures opening + (known + RebuiltAll(WorkerKeeps, AllEntries(rs) + [input])) == Prompt(opening + known, rs, input)
  {
    RebuiltConcat([], AllEntries(rs), [input]);
    assert RebuiltAll(WorkerKeeps, [input]) == [Rebuilt(WorkerKeeps, input)];
  }

  lemma BuiltPrompt(o: Oracle, systemPrompt: string, p: Pages, rs: seq<Round>, input: Entry)
    requires RoundsOk(rs)
    ensures var g := Grown(p, AllEntries(rs) + [input]);
            && g.turn == NextInput(p.turn, rs)
            && Preamble(WorkerKeeps, systemPrompt, o.extra(g.turn)) + TurnMessages(g.turns)
               == PromptFor(o, systemPrompt, TurnMessages(p.turns), p.turn, rs, input)
  {
    var es := AllEntries(rs) + [input];
    var added := TurnsOf(WorkerKeeps, es, p.turn + 1);
    GrownTurns(p, es, added);
    TurnsRebuild(WorkerKeeps, es, p.turn + 1);
    GrownRebuilds(p, es, added);
    PromptSplits(Preamble(WorkerKeeps, systemPrompt, o.extra(NextInput(p.turn, rs))), TurnMessages(p.turns), rs, input);
  }

  /** An input is heard, and the prompt for it is built. */
  method Ask(agent: WorkerAgent, task: TaskInstance, row: TaskRow, context: ContextManager, systemPrompt: string,
             input: Entry, o: Oracle, ghost log: Start, ghost from: Scene, ghost rs: seq<Round>,
             ghost acts: seq<Action>, ghost lost: seq<bool>)
      returns (prompt: seq<ChatMessage>, n: nat)
    requires RoundsOk(rs) && |acts| == |lost| && Logs(context, o, log)
    requires Now(agent, task, row, context) == After(from, AllEntries(rs), acts, lost)
    modifies agent`outputHistory, context, context.table
    ensures Logs(context, o, log) && Now(agent, task, row, context) == After(from, AllEntries(rs) + [input], acts, lost)
    ensures n == NextInput(from.pages.turn, rs)
    ensures prompt == PromptFor(o, systemPrompt, TurnMessages(from.pages.turns), from.pages.turn, rs, input)
  {
    Write(agent, task, row, context, input, o, log, from, AllEntries(rs), acts, lost);
    BuiltPrompt(o, systemPrompt, from.pages, rs, input);
    n := context.currentTurnID;
    prompt := context.BuildMessages(systemPrompt, o.extra(n));
  }

  /** The response to it enters the transcripts, and its calls are answered. */
  method Respond(agent: WorkerAgent, task: TaskInstance, row: TaskRow, context: ContextManager, input: Entry,
                 response: Response, ghost n: nat, o: Oracle, ghost log: Start, ghost from: Scene,
                 ghost es: seq<Entry>, ghost acts: seq<Action>, ghost lost: seq<bool>)
      returns (round: Round, change: Signal)
    requires |acts| == |lost| && n == from.pages.turn + |es| + 1 && o.model(n) == Some(response) && IsInput(input)
    requires Logs(context, o, log) && Now(agent, task, row, context) == After(from, es + [input], acts, lost)
    modifies agent`state, agent`outputHistory, task`status, task`result, task`error, row, context, context.table
    ensures RoundOk(round) && round.input == input && Told(o, n, round)
    ensures change == ChangeOf(Actions(o, round.calls))
    ensures Logs(context, o, log)
    ensures Now(agent, task, row, context)
            == After(from, es + RoundEntries(round), acts + Actions(o, round.calls), lost + LostIn(o, n, round))
  {
    var said := Said(response.content, response.calls, response.inputTokens, response.outputTokens);
    Write(agent, task, row, context, said, o, log, from, es + [input], acts, lost);
    ghost var told, first := es + [input] + [said], from.pages.turn + |es + [input] + [said]| + 1;
    var actions, results := Actions(o, response.calls), [];
    change, results := AnswerCalls(agent, task, row, context, response.calls, actions, first, o, log, from, told,
                                   acts, lost);
    round := RoundOf(input, response, results);
    RoundDone(o, n, first, from, es, told, acts, lost, input, response, actions, results,
              Now(agent, task, row, context));
  }

  function RoundOf(input: Entry, response: Response, results: seq<string>): Round {
    Round(input, response.content, response.calls, response.inputTokens, response.outputTokens, results)
  }

  lemma RoundDone(o: Oracle, n: nat, first: nat, from: Scene, es: seq<Entry>, told: seq<Entry>, acts: seq<Action>,
                  lost: seq<bool>, input: Entry, response: Response, actions: seq<Action>, results: seq<string>,
                  now: Scene)
    requires |acts| == |lost| && o.model(n) == Some(response) && IsInput(input)
    requires n == from.pages.turn + |es| + 1 && first == from.pages.turn + |told| + 1
    requires actions == Actions(o, response.calls) && results == Results(o, actions, first)
    requires told == es + [input]
             + [Said(response.content, response.calls, response.inputTokens, response.outputTokens)]
    requires now == After(from, told + Answers(response.calls, results), acts + actions,
                          lost + Lost(o, first, |response.calls|))
    ensures var r := RoundOf(input, response, results);
            && RoundOk(r) && Told(o, n, r)
            && now == After(from, es + RoundEntries(r), acts + Actions(o, r.calls), lost + LostIn(o, n, r))
  {
    assert first == n + 2;
    RoundAppended(es, RoundOf(input, response, results));
  }

  lemma RoundAppended(es: seq<Entry>, r: Round)
    requires RoundOk(r)
    ensures es + [r.input] + [Said(r.content, r.calls, r.inputTokens, r.outputTokens)] + Answers(r.calls, r.results)
            == es + RoundEntries(r)
  {
  }

  lemma NothingPending(es: seq<Entry>)
    ensures es + [] == es
  {
  }

  lemma GrowHeard(inputs: seq<AgentInput>, k: nat)
    requires k < |inputs|
    ensures |Heard(inputs[k])| == 0 ==> HeardAll(inputs[..k + 1]) == HeardAll(inputs[..k])
    ensures |Heard(inputs[k])| > 0 ==> HeardAll(inputs[..k + 1]) == HeardAll(inputs[..k]) + [Heard(inputs[k])[0]]
  {
    assert inputs[..k + 1][..k] == inputs[..k];
  }

  /** What a loop has done: its complete rounds, the input whose response failed, the prompts, and how it ended. */
  datatype Story = Story(rounds: seq<Round>, pending: seq<Entry>, prompts: seq<seq<ChatMessage>>, exit: Exit)

  function ExitOf(v: Verdict): Exit {
    match v
    case KeepListening => StillWaiting
    case Unregister => Unregistered
    case Leave => NoStateChange
  }

  /** The loop stops when a response fails, and otherwise as the calls of the last response decide. */
  function LastExit(o: Oracle, rs: seq<Round>, pending: seq<Entry>): Exit {
    if |pending| > 0 then ModelFailed
    else if |rs| == 0 then StillWaiting
    else ExitOf(VerdictIn(o, rs[|rs| - 1]))
  }

  /** The rounds after which the loop went on. */
  function Passed(s: Story): seq<Round> {
    if |s.pending| > 0 || |s.rounds| == 0 then s.rounds else s.rounds[..|s.rounds| - 1]
  }

  /** The story of a loop that heard `heard`, from the turn numbered `start` and after the messages `known`. */
  ghost predicate Faithful(o: Oracle, systemPrompt: string, known: seq<ChatMessage>, start: nat, heard: seq<Entry>,
                           s: Story) {
    && RoundsOk(s.rounds) && AllTold(o, start, s.rounds)
    && heard == (if |s.pending| == 0 then InputsOf(s.rounds) else InputsOf(s.rounds) + s.pending)
    && s.prompts == (if |s.pending| == 0 then Prompts(o, systemPrompt, known, start, s.rounds)
                     else Prompts(o, systemPrompt, known, start, s.rounds)
                          + [PromptFor(o, systemPrompt, known, start, s.rounds, s.pending[0])])
    && s.exit == LastExit(o, s.rounds, s.pending)
    && Listening(o, Passed(s))
    && (|s.pending| > 0 ==> |s.pending| == 1 && IsInput(s.pending[0]) && o.model(NextInput(start, s.rounds)) == None)
  }

  /** A story, and what it has written. */
  datatype Outcome = Outcome(story: Story, scene: Scene)

  function SceneOf(o: Oracle, from: Scene, s: Story): Scene
    requires RoundsOk(s.rounds)
  {
    After(from, AllEntries(s.rounds) + s.pending, AllActions(o, s.rounds), AllLost(o, from.pages.turn, s.rounds))
  }

  /** What a loop that began at `from` may have come to when it has heard `heard`. */
  ghost function Outcomes(o: Oracle, systemPrompt: string, from: Scene, heard: seq<Entry>): iset<Outcome> {
    iset x: Outcome |
      && Faithful(o, systemPrompt, TurnMessages(from.pages.turns), from.pages.turn, heard, x.story)
      && x.scene == SceneOf(o, from, x.story)
  }

  lemma StoryStarts(o: Oracle, systemPrompt: string, from: Scene)
    ensures Outcome(Story([], [], [], StillWaiting), from) in Outcomes(o, systemPrompt, from, [])
  {
    assert Grown(from.pages, []) == from.pages;
    assert MarksAfter(from.marks, []) == from.marks;
  }

  lemma WaitingIsListening(o: Oracle, rs: seq<Round>)
    requires LastExit(o, rs, []) == StillWaiting && (|rs| > 0 ==> Listening(o, rs[..|rs| - 1]))
    ensures Listening(o, rs)
  {
    if |rs| > 0 {
      assert rs == rs[..|rs| - 1] + [rs[|rs| - 1]];
    }
  }

  /** A loop that waits for input has nothing pending, and every round so far asked for BLOCKING. */
  lemma StoryWaits(o: Oracle, systemPrompt: string, from: Scene, heard: seq<Entry>, x: Outcome)
    requires x in Outcomes(o, systemPrompt, from, heard) && x.story.exit == StillWaiting
    ensures Faithful(o, systemPrompt, TurnMessages(from.pages.turns), from.pages.turn, heard, x.story)
    ensures |x.story.pending| == 0 && Listening(o, x.story.rounds)
    ensures x.scene == WaitingScene(o, from, x.story.rounds)
  {
    WaitingIsListening(o, x.story.rounds);
    NothingPending(AllEntries(x.story.rounds));
  }

  lemma RoundsGrow(o: Oracle, start: nat, rs: seq<Round>, r: Round)
    requires RoundsOk(rs) && RoundOk(r)
    ensures RoundsOk(rs + [r]) && (rs + [r])[..|rs|] == rs
    ensures AllTold(o, start, rs + [r]) <==> AllTold(o, start, rs) && Told(o, NextInput(start, rs), r)
    ensures InputsOf(rs + [r]) == InputsOf(rs) + [r.input]
    ensures AllEntries(rs + [r]) == AllEntries(rs) + RoundEntries(r)
    ensures AllActions(o, rs + [r]) == AllActions(o, rs) + Actions(o, r.calls)
    ensures AllLost(o, start, rs + [r]) == AllLost(o, start, rs) + LostIn(o, NextInput(start, rs), r)
  {
    assert (rs + [r])[..|rs|] == rs;
  }

  lemma PromptsGrow(o: Oracle, systemPrompt: string, known: seq<ChatMessage>, start: nat, rs: seq<Round>, r: Round)
    requires RoundsOk(rs) && RoundsOk(rs + [r])
    ensures Prompts(o, systemPrompt, known, start, rs + [r])
            == Prompts(o, systemPrompt, known, start, rs) + [PromptFor(o, systemPrompt, known, start, rs, r.input)]
  {
    assert (rs + [r])[..|rs|] == rs;
  }

  /** One more round. */
  lemma FaithfulGrows(o: Oracle, systemPrompt: string, known: seq<ChatMessage>, start: nat, heard: seq<Entry>, s: Story,
                      r: Round, prompt: seq<ChatMessage>)
    requires Faithful(o, systemPrompt, known, start, heard, s) && |s.pending| == 0 && Listening(o, s.rounds)
    requires RoundOk(r) && Told(o, NextInput(start, s.rounds), r)
    requires prompt == PromptFor(o, systemPrompt, known, start, s.rounds, r.input)
    ensures Faithful(o, systemPrompt, known, start, heard + [r.input], WithRound(o, s, r, prompt))
  {
    RoundsGrow(o, start, s.rounds, r);
    PromptsGrow(o, systemPrompt, known, start, s.rounds, r);
    var t := WithRound(o, s, r, prompt);
    assert Passed(t) == s.rounds && t.exit == LastExit(o, t.rounds, t.pending);
  }

  function WithRound(o: Oracle, s: Story, r: Round, prompt: seq<ChatMessage>): Story {
    Story(s.rounds + [r], [], s.prompts + [prompt], ExitOf(VerdictIn(o, r)))
  }

  function WithFailure(s: Story, input: Entry, prompt: seq<ChatMessage>): Story {
    Story(s.rounds, [input], s.prompts + [prompt], ModelFailed)
  }

  /** What a loop that waits has written so far. */
  function WaitingScene(o: Oracle, from: Scene, rs: seq<Round>): Scene
    requires RoundsOk(rs)
  {
    After(from, AllEntries(rs), AllActions(o, rs), AllLost(o, from.pages.turn, rs))
  }

  lemma SceneGrows(o: Oracle, from: Scene, s: Story, r: Round, n: nat, prompt: seq<ChatMessage>)
    requires RoundsOk(s.rounds) && RoundOk(r) && n == NextInput(from.pages.turn, s.rounds)
    ensures RoundsOk(s.rounds + [r])
    ensures SceneOf(o, from, WithRound(o, s, r, prompt))
            == After(from, AllEntries(s.rounds) + RoundEntries(r), AllActions(o, s.rounds) + Actions(o, r.calls),
                     AllLost(o, from.pages.turn, s.rounds) + LostIn(o, n, r))
  {
    RoundsGrow(o, from.pages.turn, s.rounds, r);
    NothingPending(AllEntries(s.rounds + [r]));
  }

  lemma IsOutcome(o: Oracle, systemPrompt: string, from: Scene, heard: seq<Entry>, s: Story, scene: Scene)
    requires Faithful(o, systemPrompt, TurnMessages(from.pages.turns), from.pages.turn, heard, s)
    requires scene == SceneOf(o, from, s)
    ensures Outcome(s, scene) in Outcomes(o, systemPrompt, from, heard)
  {
  }

  lemma StoryGrows(o: Oracle, systemPrompt: string, from: Scene, heard: seq<Entry>, s: Story, r: Round, n: nat,
                   prompt: seq<ChatMessage>, after: Scene)
    requires Faithful(o, systemPrompt, TurnMessages(from.pages.turns), from.pages.turn, heard, s)
    requires |s.pending| == 0 && Listening(o, s.rounds)
    requires RoundOk(r) && n == NextInput(from.pages.turn, s.rounds) && Told(o, n, r)
    requires prompt == PromptFor(o, systemPrompt, TurnMessages(from.pages.turns), from.pages.turn, s.rounds, r.input)
    requires after == After(from, AllEntries(s.rounds) + RoundEntries(r), AllActions(o, s.rounds) + Actions(o, r.calls),
                            AllLost(o, from.pages.turn, s.rounds) + LostIn(o, n, r))
    ensures Outcome(WithRound(o, s, r, prompt), after) in Outcomes(o, systemPrompt, from, heard + [r.input])
  {
    FaithfulGrows(o, systemPrompt, TurnMessages(from.pages.turns), from.pages.turn, heard, s, r, prompt);
    SceneGrows(o, from, s, r, n, prompt);
    IsOutcome(o, systemPrompt, from, heard + [r.input], WithRound(o, s, r, prompt), after);
  }

  /** One more input, and no response. */
  lemma FaithfulFails(o: Oracle, systemPrompt: string, known: seq<ChatMessage>, start: nat, heard: seq<Entry>, s: Story,
                      input: Entry, prompt: seq<ChatMessage>)
    requires Faithful(o, systemPrompt, known, start, heard, s) && |s.pending| == 0 && Listening(o, s.rounds)
    requires IsInput(input) && o.model(NextInput(start, s.rounds)) == None
    requires prompt == PromptFor(o, systemPrompt, known, start, s.rounds, input)
    ensures Faithful(o, systemPrompt, known, start, heard + [input], WithFailure(s, input, prompt))
  {
    var t := WithFailure(s, input, prompt);
    assert t.pending[0] == input && Passed(t) == s.rounds && t.exit == LastExit(o, t.rounds, t.pending);
  }

  lemma StoryFails(o: Oracle, systemPrompt: string, from: Scene, heard: seq<Entry>, s: Story, input: Entry,
                   prompt: seq<ChatMessage>, after: Scene)
    requires Faithful(o, systemPrompt, TurnMessages(from.pages.turns), from.pages.turn, heard, s)
    requires |s.pending| == 0 && Listening(o, s.rounds)
    requires IsInput(input) && o.model(NextInput(from.pages.turn, s.rounds)) == None
    requires prompt == PromptFor(o, systemPrompt, TurnMessages(from.pages.turns), from.pages.turn, s.rounds, input)
    requires after == After(from, AllEntries(s.rounds) + [input], AllActions(o, s.rounds),
                            AllLost(o, from.pages.turn, s.rounds))
    ensures Outcome(WithFailure(s, input, prompt), after) in Outcomes(o, systemPrompt, from, heard + [input])
  {
    FaithfulFails(o, systemPrompt, TurnMessages(from.pages.turns), from.pages.turn, heard, s, input, prompt);
    IsOutcome(o, systemPrompt, from, heard + [input], WithFailure(s, input, prompt), after);
  }

  /** One input, for a loop that is waiting for it. */
  method Serve(agent: WorkerAgent, task: TaskInstance, row: TaskRow, context: ContextManager, systemPrompt: string,
               input: Entry, o: Oracle, before: Story, ghost log: Start, ghost from: Scene, ghost heard: seq<Entry>)
      returns (story: Story)
    requires IsInput(input) && before.exit == StillWaiting && Logs(context, o, log)
    requires Outcome(before, Now(agent, task, row, context)) in Outcomes(o, systemPrompt, from, heard)
    modifies agent`state, agent`outputHistory, task`status, task`result, task`error, row, context, context.table
    ensures Logs(context, o, log)
    ensures Outcome(story, Now(agent, task, row, context)) in Outcomes(o, systemPrompt, from, heard + [input])
  {
    StoryWaits(o, systemPrompt, from, heard, Outcome(before, Now(agent, task, row, context)));
    var prompt, n := Ask(agent, task, row, context, systemPrompt, input, o, log, from, before.rounds,
                         AllActions(o, before.rounds), AllLost(o, from.pages.turn, before.rounds));
    var response := o.model(n);
    if response.None? {
      story := WithFailure(before, input, prompt);
      StoryFails(o, systemPrompt, from, heard, before, input, prompt, Now(agent, task, row, context));
    } else {
      var round, change := Respond(agent, task, row, context, input, response.value, n, o, log, from,
                                   AllEntries(before.rounds), AllActions(o, before.rounds),
                                   AllLost(o, from.pages.turn, before.rounds));
      story := Story(before.rounds + [round], [], before.prompts + [prompt], ExitOf(VerdictOf(change)));
      StoryGrows(o, systemPrompt, from, heard, before, round, n, prompt, Now(agent, task, row, context));
    }
  }

  /** The same for an input of any kind. */
  method ServeNext(agent: WorkerAgent, task: TaskInstance, row: TaskRow, context: ContextManager, systemPrompt: string,
                   inputs: seq<AgentInput>, k: nat, o: Oracle, before: Story, ghost log: Start, ghost from: Scene)
      returns (story: Story)
    requires k < |inputs| && before.exit == StillWaiting && Logs(context, o, log)
    requires Outcome(before, Now(agent, task, row, context)) in Outcomes(o, systemPrompt, from, HeardAll(inputs[..k]))
    modifies agent`state, agent`outputHistory, task`status, task`result, task`error, row, context, context.table
    ensures Logs(context, o, log)
    ensures Outcome(story, Now(agent, task, row, context)) in Outcomes(o, systemPrompt, from, HeardAll(inputs[..k + 1]))
  {
    GrowHeard(inputs, k);
    var heard := Heard(inputs[k]);
    story := before;
    if |heard| > 0 {
      story := Serve(agent, task, row, context, systemPrompt, heard[0], o, before, log, from, HeardAll(inputs[..k]));
    }
  }

  /** runAgentLoop on a stream of inputs of which no more than `inputs` has come. */
  method RunAgentLoop(agent: WorkerAgent, task: TaskInstance, row: TaskRow, context: ContextManager,
                      inputs: seq<AgentInput>, systemPrompt: string, o: Oracle)
      returns (story: Story, consumed: nat)
    requires context.keeper == WorkerKeeps
    modifies agent`state, agent`outputHistory, task`status, task`result, task`error, row, context, context.table
    ensures consumed <= |inputs| && (story.exit == StillWaiting ==> consumed == |inputs|)
    ensures old(context.Sound()) ==> context.Sound()
    ensures |old(context.turns)| <= |context.turns|
    ensures context.table.rows == Stored(o, old(context.table.rows), context.turns[|old(context.turns)|..])
    ensures Outcome(story, Now(agent, task, row, context))
            in Outcomes(o, systemPrompt, old(Now(agent, task, row, context)), HeardAll(inputs[..consumed]))
  {
    ghost var log := Start(context.Sound(), |context.turns|, context.table.rows);
    ghost var from := Now(agent, task, row, context);
    story, consumed := Story([], [], [], StillWaiting), 0;
    StoryStarts(o, systemPrompt, from);
    while consumed < |inputs| && story.exit == StillWaiting
      invariant consumed <= |inputs| && Logs(context, o, log)
      invariant Outcome(story, Now(agent, task, row, context))
                in Outcomes(o, systemPrompt, from, HeardAll(inputs[..consumed]))
    {
      story := ServeNext(agent, task, row, context, systemPrompt, inputs, consumed, o, story, log, from);
      consumed := consumed + 1;
    }
  }

  // ---------------------------------------------------------------- what a whole run comes to

  lemma LastDecides(before: seq<Action>, last: seq<Action>, state: AgentState, status: TaskStatus)
    ensures VerdictOf(ChangeOf(last)) == KeepListening ==> StateAfter(state, before + last) == BlockingState
    ensures VerdictOf(ChangeOf(last)) == Unregister ==>
              && StateAfter(state, before + last) == Free
              && StatusAfter(status, before + last) == if ChangeOf(last).Completed? then TaskStatus.Completed
                 else TaskStatus.Failed
  {
    var i, known, ends := Last(last, SetsState), Last(last, SetsKnownState), Last(last, EndsTask);
    if i >= 0 && !last[i].state.Unknown? {
      assert SetsKnownState(last[i]) && i <= known;
      assert SetsState(last[known]) && known <= i;
      LastAfter(before, last, SetsKnownState);
      assert (before + last)[|before| + i] == last[i];
    }
    if i >= 0 && EndsTask(last[i]) {
      assert i <= ends;
      assert SetsState(last[ends]) && ends <= i;
      LastAfter(before, last, EndsTask);
    }
  }

  /** A loop that waits for more after a response has left its agent BLOCKING. One that unregistered has left it FREE,
      and its task COMPLETED or FAILED as the last SET_STATE of the last response said, whatever was asked before. */
  lemma RunOutcome(o: Oracle, systemPrompt: string, from: Scene, heard: seq<Entry>, x: Outcome)
    requires x in Outcomes(o, systemPrompt, from, heard)
    ensures var rs, n, marks := x.story.rounds, |x.story.rounds|, x.scene.marks;
            && (x.story.exit == StillWaiting && n > 0 ==> marks.state == BlockingState)
            && (x.story.exit == Unregistered ==>
                  && n > 0 && marks.state == Free
                  && marks.columns.status
                     == if ChangeOf(Actions(o, rs[n - 1].calls)).Completed? then TaskStatus.Completed
                                             else TaskStatus.Failed)
  {
    OutcomeMeans(o, systemPrompt, from, heard, x);
    ScenesDecide(o, from, x.story.rounds);
  }

  /** What being an outcome means. */
  lemma OutcomeMeans(o: Oracle, systemPrompt: string, from: Scene, heard: seq<Entry>, x: Outcome)
    requires x in Outcomes(o, systemPrompt, from, heard)
    ensures Faithful(o, systemPrompt, TurnMessages(from.pages.turns), from.pages.turn, heard, x.story)
    ensures x.scene == SceneOf(o, from, x.story)
  {
  }

  lemma ScenesDecide(o: Oracle, from: Scene, rs: seq<Round>)
    ensures |rs| > 0 ==>
              var after, v := MarksAfter(from.marks, AllActions(o, rs)), VerdictIn(o, rs[|rs| - 1]);
              && (v == KeepListening ==> after.state == BlockingState)
              && (v == Unregister ==>
                    && after.state == Free
                    && after.columns.status
                       == if ChangeOf(Actions(o, rs[|rs| - 1].calls)).Completed? then TaskStatus.Completed
                                               else TaskStatus.Failed)
  {
    if |rs| > 0 {
      LastDecides(AllActions(o, rs[..|rs| - 1]), Actions(o, rs[|rs| - 1].calls), from.marks.state,
                  from.marks.columns.status);
    }
  }

  /** The row follows the last ending call whose update was stored: if that update of every ending call is stored, the
      row agrees with the task unless no call ended it. */
  lemma RowFollowsTask(row: TaskColumns, m: Marks, acts: seq<Action>, lost: seq<bool>)
    requires |acts| == |lost|
    ensures LastSaved(acts, lost) == Last(acts, EndsTask) >= 0 ==>
            RowAfter(row, m, acts, lost) == MarksAfter(m, acts).columns
    ensures Last(acts, EndsTask) < 0 ==> RowAfter(row, m, acts, lost) == row
  {
    var i := LastSaved(acts, lost);
    if i == Last(acts, EndsTask) >= 0 {
      var kept, rest := acts[..i + 1], acts[i + 1..];
      assert kept + rest == acts;
      LastAfter(kept, rest, EndsTask);
      QuietTail(kept, rest, m);
    }
  }

  /** Calls that do not end the task leave its columns alone. */
  lemma QuietTail(kept: seq<Action>, rest: seq<Action>, m: Marks)
    requires Last(rest, EndsTask) < 0
    ensures MarksAfter(m, kept + rest).columns == MarksAfter(m, kept).columns
  {
    var c, e := Last(rest, Completes), Last(rest, Explains);
    assert c < 0 || EndsTask(rest[c]);
    assert e < 0 || EndsTask(rest[e]);
    SameLast(kept, rest, EndsTask);
    SameLast(kept, rest, Completes);
    SameLast(kept, rest, Explains);
  }

  lemma SameLast(kept: seq<Action>, rest: seq<Action>, p: Action -> bool)
    requires Last(rest, p) < 0
    ensures Last(kept + rest, p) == Last(kept, p)
    ensures Last(kept, p) >= 0 ==> (kept + rest)[Last(kept, p)] == kept[Last(kept, p)]
  {
    LastAfter(kept, rest, p);
  }

  /** The loop of a fresh worker: the two transcripts rebuild the same messages but for the tool calls, and exactly the
      same if and only if every response had at most one call, with an identifier. */
  lemma FreshRunAgrees(before: Pages, rs: seq<Round>, pending: seq<Entry>, systemPrompt: string)
    requires RoundsOk(rs) && (forall e | e in pending :: IsInput(e)) && |before.history| == 0 && |before.turns| == 0
    ensures var after := Grown(before, AllEntries(rs) + pending);
            var rebuilt := Opening(systemPrompt) + TurnMessages(after.turns);
            var converted := Opening(systemPrompt) + HistoryMessages(after.history);
            && Erased(rebuilt) == Erased(converted)
            && (rebuilt == converted <==> forall r | r in rs :: Single(r.calls))
  {
    var es := AllEntries(rs) + pending;
    var after := Grown(before, es);
    StartsEmpty(before, es);
    AgreeingPages(es, before.turn + 1, systemPrompt, after.turns, after.history);
    RoundsSingle(rs);
    SingleSplits(AllEntries(rs), pending);
    InputsAreSingle(pending);
  }

  lemma AgreeingPages(es: seq<Entry>, first: nat, systemPrompt: string, turns: seq<Turn>, history: seq<AgentMessage>)
    requires turns == TurnsOf(WorkerKeeps, es, first) && history == HistoriesOf(es)
    ensures var rebuilt := Opening(systemPrompt) + TurnMessages(turns);
            var converted := Opening(systemPrompt) + HistoryMessages(history);
            Erased(rebuilt) == Erased(converted) && (rebuilt == converted <==> AllSingle(es))
  {
    TranscriptsAgree(WorkerKeeps, es, first, systemPrompt);
  }

  lemma StartsEmpty(before: Pages, es: seq<Entry>)
    requires |before.history| == 0 && |before.turns| == 0
    ensures Grown(before, es).history == HistoriesOf(es)
    ensures Grown(before, es).turns == TurnsOf(WorkerKeeps, es, before.turn + 1)
  {
  }

  lemma InputsAreSingle(es: seq<Entry>)
    requires forall e | e in es :: IsInput(e)
    ensures AllSingle(es)
  {
  }

  lemma SingleSplits(a: seq<Entry>, b: seq<Entry>)
    ensures AllSingle(a + b) <==> AllSingle(a) && AllSingle(b)
  {
    assert forall e :: e in a + b <==> e in a || e in b;
  }

  lemma RoundSingle(r: Round)
    requires RoundOk(r)
    ensures AllSingle(RoundEntries(r)) <==> Single(r.calls)
  {
    var es := RoundEntries(r);
    assert es[1] in es && es[1].calls == r.calls;
    forall e | e in es && e.Said? ensures e == es[1] {}
  }

  lemma {:induction false} RoundsSingle(rs: seq<Round>)
    requires RoundsOk(rs)
    ensures AllSingle(AllEntries(rs)) <==> forall r | r in rs :: Single(r.calls)
  {
    if |rs| > 0 {
      var n := |rs| - 1;
      RoundsSingle(rs[..n]);
      RoundSingle(rs[n]);
      SingleSplits(AllEntries(rs[..n]), RoundEntries(rs[n]));
      assert forall r :: r in rs <==> r in rs[..n] || r == rs[n];
    }
  }

  /** Every prompt of a fresh worker is well paired exactly when it was asked for a user input and every round before it
      was for one too and had at most one call, with an identifier. */
  lemma PromptsPaired(o: Oracle, systemPrompt: string, from: Scene, heard: seq<Entry>, x: Outcome, k: nat)
    requires x in Outcomes(o, systemPrompt, from, heard) && |from.pages.turns| == 0 && k < |x.story.prompts|
    ensures |x.story.prompts| == |heard|
    ensures WellPaired(x.story.prompts[k]) <==> AllClean(x.story.rounds[..k]) && heard[k].HeardUser?
  {
    var rs, start := x.story.rounds, from.pages.turn;
    InputsAt(rs, k);
    if k < |rs| {
      PromptsAt(o, systemPrompt, [], start, rs, k);
      assert RoundOk(rs[k]) && RoundsOk(rs[..k]);
      PairedPrompt(o, systemPrompt, start, rs[..k], rs[k].input);
    } else {
      assert rs[..k] == rs;
      PairedPrompt(o, systemPrompt, start, rs, x.story.pending[0]);
    }
  }

  lemma PairedPrompt(o: Oracle, systemPrompt: string, start: nat, rs: seq<Round>, input: Entry)
    requires RoundsOk(rs) && IsInput(input)
    ensures WellPaired(PromptFor(o, systemPrompt, [], start, rs, input))
            <==> AllClean(rs) && input.HeardUser?
  {
    var preamble := Preamble(WorkerKeeps, systemPrompt, o.extra(NextInput(start, rs)));
    assert preamble + [] == preamble;
    PreambleIsPlain(systemPrompt, o.extra(NextInput(start, rs)));
    PromptWellPaired(preamble, rs, input);
  }

  lemma PreambleIsPlain(systemPrompt: string, extra: string)
    ensures forall m | m in Preamble(WorkerKeeps, systemPrompt, extra) :: m.role != ToolRole && |m.toolCalls| == 0
  {
  }

  lemma {:induction false} InputsAt(rs: seq<Round>, k: nat)
    ensures |InputsOf(rs)| == |rs|
    ensures k < |rs| ==> InputsOf(rs)[k] == rs[k].input
  {
    if |rs| > 0 {
      InputsAt(rs[..|rs| - 1], k);
    }
  }

  lemma {:induction false} PromptsAt(o: Oracle, systemPrompt: string, known: seq<ChatMessage>, start: nat,
                                     rs: seq<Round>, k: nat)
    requires RoundsOk(rs) && k < |rs|
    ensures Prompts(o, systemPrompt, known, start, rs)[k]
            == PromptFor(o, systemPrompt, known, start, rs[..k], rs[k].input)
  {
    var n := |rs| - 1;
    assert rs == rs[..n] + [rs[n]];
    PromptsGrow(o, systemPrompt, known, start, rs[..n], rs[n]);
    if k < n {
      PromptsAt(o, systemPrompt, known, start, rs[..n], k);
      assert rs[..n][..k] == rs[..k] && rs[..n][k] == rs[k];
    }
  }
}
