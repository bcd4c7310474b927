/** The context managers of workers and of the orchestrator (internal/runtime/worker_context.go,
    internal/runtime/orchestrator_context.go). They differ in which call of a response they record. */
module ContextManagers {
  import opened Prelude
  import opened Messages
  import opened Transcripts
  import opened TurnLog

  /** The rows of one instance or session in the database; UNIQUE on the turn number. */
  class TurnTable {
    var rows: Rows

    constructor ()
      ensures rows == map[]
    {
      rows := map[];
    }

    method Insert(t: Turn, storeFails: bool) returns (ok: bool)
      modifies this
      ensures ok <==> !storeFails && t.turnID !in old(rows)
      ensures rows == if ok then old(rows)[t.turnID := t] else old(rows)
    {
      if storeFails || t.turnID in rows {
        return false;
      }
      rows := rows[t.turnID := t];
      return true;
    }

    /** SELECT ... ORDER BY turn_id. */
    method Select() returns (ts: seq<Turn>)
      requires Keyed(rows)
      ensures Listing(ts, rows)
    {
      ts := [];
      var left := rows.Keys;
      while |left| > 0
        invariant left <= rows.Keys && Ascending(ts)
        invariant forall j | 0 <= j < |ts| :: ts[j].turnID in rows && rows[ts[j].turnID] == ts[j]
        invariant forall id | id in rows.Keys - left :: rows[id] in ts
        invariant forall j, id | 0 <= j < |ts| && id in left :: ts[j].turnID < id
        decreases |left|
      {
        var least := Least(left);
        Listed(ts, rows, left, least);
        ts := ts + [rows[least]];
        left := left - {least};
      }
    }
  }

  lemma Listed(ts: seq<Turn>, rows: Rows, left: set<nat>, least: nat)
    requires Keyed(rows) && least in left && left <= rows.Keys
    requires forall id | id in rows.Keys - left :: rows[id] in ts
    ensures forall id | id in rows.Keys - (left - {least}) :: rows[id] in ts + [rows[least]]
  {
    forall id | id in rows.Keys - (left - {least}) ensures rows[id] in ts + [rows[least]] {
      assert id == least || id in rows.Keys - left;
    }
  }

  method Least(ids: set<nat>) returns (m: nat)
    requires |ids| > 0
    ensures m in ids && forall id | id in ids :: m <= id
  {
    m :| m in ids;
    var rest := ids - {m};
    while |rest| > 0
      invariant m in ids && rest <= ids
      invariant forall id | id in ids :: id in rest || m <= id
      decreases |rest|
    {
      var id :| id in rest;
      if id < m { m := id; }
      rest := rest - {id};
    }
  }

  /** What is appended to the extra context before it is injected as a user message. */
  function Instruction(k: Keeper): string {
    match k
    case WorkerKeeps =>
      "\n\n---\n\nProceed with the task above, using the context provided if relevant."
    case OrchestratorKeeps =>
      "\n\n---\n\nProceed with the conversation, using the context provided if relevant."
  }

  lemma InstructionReads()
    ensures Instruction(WorkerKeeps)
            == "\n\n---\n\nProceed with the task above, using the context provided if relevant."
    ensures Instruction(OrchestratorKeeps)
            == "\n\n---\n\nProceed with the conversation, using the context provided if relevant."
  {
  }

  function Preamble(k: Keeper, systemPrompt: string, extra: string): seq<ChatMessage> {
    Opening(systemPrompt) + if |extra| > 0 then [UserMessage(extra + Instruction(k))] else []
  }

  /** The message of one turn; a system turn has none. */
  method AppendTurn(builder: MessageBuilder, turn: Turn)
    modifies builder
    ensures builder.messages == if turn.role == System then old(builder.messages)
            else old(builder.messages) + TurnMessage(turn)
  {
    var same;
    match turn.role
    case System =>
    case User => same := builder.AddUserMessage(turn.content);
    case Assistant =>
      var toolCalls: seq<ToolCall> := [];
      if turn.arguments.Some? && |turn.arguments.value.id| > 0 {
        toolCalls := [turn.arguments.value];
      }
      same := builder.AddAssistantMessage(turn.content, toolCalls);
    case ToolRole => same := builder.AddToolResult(turn.toolCallID, turn.content);
  }

  /** Adding a turn is an append and, at once, the end of its insert. */
  lemma AddIsLogged(before: Log, k: Keeper, e: Entry, ok: bool, after: Log)
    requires |before.pending| == 0 && |after.pending| == 0
    requires var t := TurnOf(k, e, before.current + 1);
             && after.memory == before.memory + [t] && after.current == before.current + 1
             && after.rows == (if ok then before.rows[t.turnID := t] else before.rows)
             && (ok ==> t.turnID !in before.rows)
    ensures var appended := Appended(before, k, e);
            var event := if ok then InsertDone(0) else InsertFailed(0);
            CanLog(appended, event) && after == Logged(appended, event)
  {
    var appended := Appended(before, k, e);
    assert appended.pending == [TurnOf(k, e, before.current + 1)] && Without(appended.pending, 0) == after.pending;
  }

  lemma AddStaysSound(before: Log, k: Keeper, e: Entry, event: LogEvent)
    requires before in SoundLogs() && CanLog(Appended(before, k, e), event)
    ensures Logged(Appended(before, k, e), event) in SoundLogs() && before.current + 1 !in before.rows
  {
    CoveredKept(before, Append(k, e));
    CoveredKept(Appended(before, k, e), event);
  }

  lemma NextTurn(preamble: seq<ChatMessage>, turns: seq<Turn>, k: nat)
    requires k < |turns|
    ensures var before, after := preamble + TurnMessages(turns[..k]), preamble + TurnMessages(turns[..k + 1]);
            if turns[k].role == System then after == before else after == before + TurnMessage(turns[k])
  {
    assert turns[..k + 1] == turns[..k] + [turns[k]];
    LastTurn(turns[..k], turns[k]);
  }

  /** How a prompt begins: with the system prompt if there is one, then with the extra context and the keeper's
      instruction as one user message if there is any. */
  lemma PreambleReads(k: Keeper, systemPrompt: string, extra: string)
    ensures Preamble(k, systemPrompt, extra)
            == (if systemPrompt == "" then [] else [ChatMessage(System, systemPrompt, [], "")])
               + (if extra == "" then [] else [ChatMessage(User, extra + Instruction(k), [], "")])
  {
  }

  class ContextManager {
    const keeper: Keeper
    const table: TurnTable
    var turns: seq<Turn>
    var currentTurnID: nat

    constructor (keeper: Keeper, table: TurnTable)
      ensures this.keeper == keeper && this.table == table && turns == [] && currentTurnID == 0
    {
      this.keeper, this.table := keeper, table;
      turns, currentTurnID := [], 0;
    }

    /** The manager and its table as a log without pending inserts: every method below waits for its insert. */
    ghost function AsLog(): Log
      reads this, table
    {
      Log(turns, currentTurnID, table.rows, [])
    }

    /** No interleaving of appends and inserts can run into a refused insert (TurnLog.ViolationIffCounterBehind). */
    ghost predicate Sound()
      reads this, table
    {
      AsLog() in SoundLogs()
    }

    method LoadHistory(readFails: bool) returns (ok: bool)
      requires Keyed(table.rows)
      modifies this
      ensures ok == !readFails
      ensures !ok ==> AsLog() == old(AsLog())
      ensures ok ==> Listing(turns, table.rows) && AsLog() == Reloaded(old(AsLog()), turns) && Sound()
      ensures ok ==> currentTurnID == if |turns| > 0 then turns[|turns| - 1].turnID else old(currentTurnID)
    {
      if readFails {
        return false;
      }
      var listing := table.Select();
      turns := listing;
      if |listing| > 0 {
        currentTurnID := listing[|listing| - 1].turnID;
        ListingEnds(listing, table.rows);
      }
      return true;
    }

    /** Takes the next number, appends in memory, then inserts; the insert may fail, the memory stays. */
    method Add(e: Entry, storeFails: bool) returns (ok: bool)
      modifies this, table
      ensures turns == old(turns) + [TurnOf(keeper, e, old(currentTurnID) + 1)]
      ensures currentTurnID == old(currentTurnID) + 1
      ensures ok <==> !storeFails && currentTurnID !in old(table.rows)
      ensures table.rows == if ok then old(table.rows)[currentTurnID := turns[|turns| - 1]] else old(table.rows)
      ensures var appended := Appended(old(AsLog()), keeper, e);
              var event := if ok then InsertDone(0) else InsertFailed(0);
              CanLog(appended, event) && AsLog() == Logged(appended, event)
      ensures old(Sound()) ==> Sound() && (ok <==> !storeFails)
    {
      ghost var before := AsLog();
      currentTurnID := currentTurnID + 1;
      var turn := TurnOf(keeper, e, currentTurnID);
      turns := turns + [turn];
      ok := table.Insert(turn, storeFails);
      AddIsLogged(before, keeper, e, ok, AsLog());
      if before in SoundLogs() {
        AddStaysSound(before, keeper, e, if ok then InsertDone(0) else InsertFailed(0));
      }
    }

    /** What an added turn leaves: the next number, the turn in memory, and its row if the insert succeeds. In a sound
        log an insert fails only if the store does. */
    twostate predicate Added(e: Entry, storeFails: bool, ok: bool)
      reads this, table
    {
      && turns == old(turns) + [TurnOf(keeper, e, old(currentTurnID) + 1)]
      && currentTurnID == old(currentTurnID) + 1
      && (ok <==> !storeFails && currentTurnID !in old(table.rows))
      && table.rows == (if ok then old(table.rows)[currentTurnID := TurnOf(keeper, e, currentTurnID)]
                        else old(table.rows))
      && (old(Sound()) ==> Sound() && (ok <==> !storeFails))
    }

    method AddUserTurn(content: string, storeFails: bool) returns (ok: bool)
      modifies this, table
      ensures Added(HeardUser(content), storeFails, ok)
      ensures turns == old(turns) + [Turn(currentTurnID, User, content, "", "", None, 0, 0)]
    {
      ok := Add(HeardUser(content), storeFails);
    }

    method AddAssistantTurn(content: string, calls: seq<ToolCall>, inputTokens: nat, outputTokens: nat,
                            storeFails: bool)
        returns (ok: bool)
      modifies this, table
      ensures Added(Said(content, calls, inputTokens, outputTokens), storeFails, ok)
      ensures |turns| == |old(turns)| + 1
      ensures var t := turns[|turns| - 1];
              && t.role == Assistant && t.content == content && t.turnID == currentTurnID
              && t.inputTokens == inputTokens && t.outputTokens == outputTokens
      ensures keeper == WorkerKeeps ==>
                turns[|turns| - 1].arguments == if |calls| == 1 then Some(calls[0]) else None
      ensures keeper == OrchestratorKeeps ==>
                turns[|turns| - 1].arguments == if |calls| > 0 then Some(calls[0]) else None
    {
      ok := Add(Said(content, calls, inputTokens, outputTokens), storeFails);
    }

    method AddToolResultTurn(id: string, name: string, result: string, storeFails: bool) returns (ok: bool)
      modifies this, table
      ensures Added(Answered(id, name, result), storeFails, ok)
      ensures turns == old(turns) + [Turn(currentTurnID, ToolRole, result, id, name, None, 0, 0)]
    {
      ok := Add(Answered(id, name, result), storeFails);
    }

    /** The messages before those of the turns. */
    method OpenPrompt(systemPrompt: string, extra: string) returns (builder: MessageBuilder)
      ensures fresh(builder) && builder.messages == Preamble(keeper, systemPrompt, extra)
    {
      builder := new MessageBuilder(systemPrompt);
      if |extra| > 0 {
        builder := builder.AddUserMessage(extra + Instruction(keeper));
      }
    }

    method BuildMessages(systemPrompt: string, extra: string) returns (r: seq<ChatMessage>)
      ensures r == Preamble(keeper, systemPrompt, extra) + TurnMessages(turns)
      ensures r == (if systemPrompt == "" then [] else [ChatMessage(System, systemPrompt, [], "")])
                   + (if extra == "" then [] else [ChatMessage(User, extra + Instruction(keeper), [], "")])
                   + TurnMessages(turns)
    {
      var builder := OpenPrompt(systemPrompt, extra);
      ghost var preamble := builder.messages;
      assert preamble + TurnMessages(turns[..0]) == preamble;
      var k := 0;
      while k < |turns|
        invariant 0 <= k <= |turns|
        invariant fresh(builder) && builder.messages == preamble + TurnMessages(turns[..k])
      {
        NextTurn(preamble, turns, k);
        AppendTurn(builder, turns[k]);
        k := k + 1;
      }
      assert turns[..k] == turns;
      r := builder.Build();
      PreambleReads(keeper, systemPrompt, extra);
    }

    method Clear()
      modifies this
      ensures AsLog() == Cleared(old(AsLog()))
      ensures turns == [] && currentTurnID == 0 && table.rows == old(table.rows)
    {
      turns, currentTurnID := [], 0;
    }
  }
}
