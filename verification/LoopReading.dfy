/** What a run of the agent loop comes to, read off the strings of the tool calls (internal/runtime/runtime.go:335-638):
    the names of the tools, their decoded arguments, the texts of the answers and of the prompts. */
module LoopReading {
  import opened Prelude
  import opened Tools
  import opened Messages
  import opened Transcripts
  import opened ContextManagers
  import opened Instances
  import opened Agents
  import opened AgentLoop

  // ---------------------------------------------------------------- one call

  lemma StepReads(o: Oracle, before: Marks, c: ToolCall, a: Args, after: Marks)
    requires a == o.decode(c.arguments) && after == MarksStep(before, ActionOf(o, c))
    ensures c.name == "SET_STATE" && a.state == "BLOCKING" ==> after == Marks(BlockingState, before.columns)
    ensures c.name == "SET_STATE" && a.state == "COMPLETED" ==>
              after == Marks(Free, TaskColumns(TaskStatus.Completed, Some(a.result), before.columns.error))
    ensures c.name == "SET_STATE" && a.state == "FAILED" ==>
              after == Marks(Free, TaskColumns(TaskStatus.Failed, before.columns.result,
                                               if a.result == "" then before.columns.error else Some(a.result)))
    ensures c.name != "SET_STATE" || (a.state != "BLOCKING" && a.state != "COMPLETED" && a.state != "FAILED") ==>
              after == before
  {
  }

  /** What a call does to the state of the agent and the columns of its task, after any calls before it. */
  lemma CallReads(o: Oracle, m: Marks, acts: seq<Action>, c: ToolCall)
    ensures MarksAfter(m, []) == m
    ensures var a, before, after := o.decode(c.arguments), MarksAfter(m, acts), MarksAfter(m, acts + Actions(o, [c]));
            && (c.name == "SET_STATE" && a.state == "BLOCKING" ==> after == Marks(BlockingState, before.columns))
            && (c.name == "SET_STATE" && a.state == "COMPLETED" ==>
                  after == Marks(Free, TaskColumns(TaskStatus.Completed, Some(a.result), before.columns.error)))
            && (c.name == "SET_STATE" && a.state == "FAILED" ==>
                  after == Marks(Free, TaskColumns(TaskStatus.Failed, before.columns.result,
                                                   if a.result == "" then before.columns.error else Some(a.result))))
            && (c.name != "SET_STATE" || (a.state != "BLOCKING" && a.state != "COMPLETED" && a.state != "FAILED") ==>
                  after == before)
  {
    CallSteps(o, m, acts, c);
    StepReads(o, MarksAfter(m, acts), c, o.decode(c.arguments), MarksAfter(m, acts + Actions(o, [c])));
  }

  lemma CallSteps(o: Oracle, m: Marks, acts: seq<Action>, c: ToolCall)
    ensures MarksAfter(m, acts + Actions(o, [c])) == MarksStep(MarksAfter(m, acts), ActionOf(o, c))
  {
    assert Actions(o, [c]) == [ActionOf(o, c)];
    StepLast(acts, ActionOf(o, c), m);
  }

  /** What a call is answered, when `outside` is what the world beyond the loop answers. */
  lemma AnswerReads(o: Oracle, c: ToolCall, a: Args, outside: string, answer: string)
    requires a == o.decode(c.arguments) && answer == ResultText(ActionOf(o, c), outside)
    ensures && (c.name == "SET_STATE" && a.state == "BLOCKING" ==>
                  answer == "{\"status\": \"ok\", \"state\": \"BLOCKING\"}")
            && (c.name == "SET_STATE" && a.state == "COMPLETED" ==>
                  answer == "{\"status\": \"ok\", \"state\": \"COMPLETED\"}")
            && (c.name == "SET_STATE" && a.state == "FAILED" ==>
                  answer == "{\"status\": \"ok\", \"state\": \"FAILED\"}")
            && (c.name == "SET_STATE" && a.state != "BLOCKING" && a.state != "COMPLETED" && a.state != "FAILED" ==>
                  answer == "{\"error\": \"unknown state: " + a.state + "\"}")
            && (c.name == "SEND_PARENT" ==>
                  answer == if a.message == "" then "{\"success\": false, \"error\": \"message is required\"}"
                            else outside)
            && (c.name == "SPAWN_TASK" ==> answer == if a.description == "" then "" else outside)
            && (c.name == "EXECUTE_CMD" ==>
                  answer == if a.code == "" then "{\"success\": false, \"error\": \"code is required\"}"
                            else outside)
            && (c.name != "SET_STATE" && c.name != "SEND_PARENT" && c.name != "SPAWN_TASK"
                && c.name != "EXECUTE_CMD" ==>
                  answer == "{\"error\": \"unknown tool\"}")
  {
  }

  /** The kinds of calls that matter, by name and argument. */
  lemma KindsRead(o: Oracle, c: ToolCall)
    ensures SetsState(ActionOf(o, c)) <==> c.name == "SET_STATE"
    ensures Completes(ActionOf(o, c)) <==> c.name == "SET_STATE" && o.decode(c.arguments).state == "COMPLETED"
    ensures EndsTask(ActionOf(o, c)) <==>
            c.name == "SET_STATE" && (o.decode(c.arguments).state == "COMPLETED"
                                      || o.decode(c.arguments).state == "FAILED")
    ensures Explains(ActionOf(o, c)) <==>
            c.name == "SET_STATE" && o.decode(c.arguments).state == "FAILED" && o.decode(c.arguments).result != ""
    ensures SetsKnownState(ActionOf(o, c)) <==>
            c.name == "SET_STATE" && (o.decode(c.arguments).state == "BLOCKING"
                                      || o.decode(c.arguments).state == "COMPLETED"
                                      || o.decode(c.arguments).state == "FAILED")
  {
  }

  /** And what they carry. */
  lemma CarriesRead(o: Oracle, c: ToolCall)
    requires c.name == "SET_STATE"
    ensures ActionOf(o, c).result == o.decode(c.arguments).result
    ensures ActionOf(o, c).state == Blocking <==> o.decode(c.arguments).state == "BLOCKING"
    ensures ActionOf(o, c).state == Signal.Completed <==> o.decode(c.arguments).state == "COMPLETED"
    ensures ActionOf(o, c).state == Signal.Failed <==> o.decode(c.arguments).state == "FAILED"
  {
  }

  // ---------------------------------------------------------------- the calls of a run

  /** Call `j` of round `k` is one with property `p`, and no later call is. */
  predicate LastOf(o: Oracle, rs: seq<Round>, k: nat, j: nat, p: Action -> bool) {
    && k < |rs| && j < |rs[k].calls| && p(ActionOf(o, rs[k].calls[j]))
    && forall k', j' | k <= k' < |rs| && 0 <= j' < |rs[k'].calls| && (k' > k || j' > j) ::
         !p(ActionOf(o, rs[k'].calls[j']))
  }

  predicate NoneOf(o: Oracle, rs: seq<Round>, p: Action -> bool) {
    forall k, j | 0 <= k < |rs| && 0 <= j < |rs[k].calls| :: !p(ActionOf(o, rs[k].calls[j]))
  }

  predicate NoneIn(o: Oracle, calls: seq<ToolCall>, p: Action -> bool) {
    forall i | 0 <= i < |calls| :: !p(ActionOf(o, calls[i]))
  }

  lemma LastHere(o: Oracle, calls: seq<ToolCall>, j: nat, p: Action -> bool)
    requires j < |calls| && p(ActionOf(o, calls[j])) && forall i | j < i < |calls| :: !p(ActionOf(o, calls[i]))
    ensures Last(Actions(o, calls), p) == j && Actions(o, calls)[j] == ActionOf(o, calls[j])
  {
    assert Actions(o, calls)[j] == ActionOf(o, calls[j]);
  }

  lemma NoneHere(o: Oracle, calls: seq<ToolCall>, p: Action -> bool)
    requires NoneIn(o, calls, p)
    ensures Last(Actions(o, calls), p) < 0
  {
  }

  lemma LastOnTheRight(a: seq<Action>, b: seq<Action>, p: Action -> bool, j: nat)
    requires Last(b, p) == j
    ensures Last(a + b, p) == |a| + j && (a + b)[|a| + j] == b[j]
  {
    LastAfter(a, b, p);
  }

  lemma LastRoundOnly(o: Oracle, rs: seq<Round>, p: Action -> bool, j: nat, i: nat)
    requires |rs| > 0 && LastOf(o, rs, |rs| - 1, j, p) && i == |AllActions(o, rs[..|rs| - 1])| + j
    ensures Last(AllActions(o, rs), p) == i && AllActions(o, rs)[i] == ActionOf(o, rs[|rs| - 1].calls[j])
  {
    var n := |rs| - 1;
    LastHere(o, rs[n].calls, j, p);
    LastOnTheRight(AllActions(o, rs[..n]), Actions(o, rs[n].calls), p, j);
  }

  lemma LastEarlier(o: Oracle, rs: seq<Round>, k: nat, j: nat, p: Action -> bool)
    requires LastOf(o, rs, k, j, p) && k < |rs| - 1
    ensures LastOf(o, rs[..|rs| - 1], k, j, p) && NoneIn(o, rs[|rs| - 1].calls, p)
  {
  }

  /** `i` is the position of the call among all calls of the run. */
  lemma {:induction false} LastCall(o: Oracle, rs: seq<Round>, k: nat, j: nat, p: Action -> bool, i: nat)
    requires LastOf(o, rs, k, j, p) && i == |AllActions(o, rs[..k])| + j
    ensures Last(AllActions(o, rs), p) == i && AllActions(o, rs)[i] == ActionOf(o, rs[k].calls[j])
  {
    var n := |rs| - 1;
    if k == n {
      LastRoundOnly(o, rs, p, j, i);
    } else {
      LastEarlier(o, rs, k, j, p);
      NoneHere(o, rs[n].calls, p);
      Prefix(rs, k);
      LastCall(o, rs[..n], k, j, p, i);
      StillLast(AllActions(o, rs[..n]), Actions(o, rs[n].calls), p, i);
    }
  }

  lemma Prefix<T>(s: seq<T>, k: nat)
    requires k < |s| - 1
    ensures s[..|s| - 1][..k] == s[..k] && s[..|s| - 1][k] == s[k]
  {
  }

  lemma StillLast(a: seq<Action>, b: seq<Action>, p: Action -> bool, i: nat)
    requires Last(b, p) < 0 && Last(a, p) == i
    ensures Last(a + b, p) == i && (a + b)[i] == a[i]
  {
    LastAfter(a, b, p);
  }

  lemma NoneEarlier(o: Oracle, rs: seq<Round>, p: Action -> bool)
    requires NoneOf(o, rs, p) && |rs| > 0
    ensures NoneOf(o, rs[..|rs| - 1], p) && NoneIn(o, rs[|rs| - 1].calls, p)
  {
  }

  lemma {:induction false} NoCall(o: Oracle, rs: seq<Round>, p: Action -> bool)
    requires NoneOf(o, rs, p)
    ensures Last(AllActions(o, rs), p) < 0
  {
    if |rs| > 0 {
      var n := |rs| - 1;
      NoneEarlier(o, rs, p);
      NoneHere(o, rs[n].calls, p);
      SameLast(AllActions(o, rs[..n]), Actions(o, rs[n].calls), p);
      NoCall(o, rs[..n], p);
    }
  }

  lemma MarksOfRun(o: Oracle, systemPrompt: string, from: Scene, heard: seq<Entry>, x: Outcome)
    requires x in Outcomes(o, systemPrompt, from, heard)
    ensures RoundsOk(x.story.rounds)
    ensures x.scene.marks == MarksAfter(from.marks, AllActions(o, x.story.rounds))
  {
    OutcomeMeans(o, systemPrompt, from, heard, x);
  }

  /** The status of the task after a run: what the last COMPLETED or FAILED of all its calls said. */
  lemma StatusReads(o: Oracle, systemPrompt: string, from: Scene, heard: seq<Entry>, x: Outcome, k: nat, j: nat)
    requires x in Outcomes(o, systemPrompt, from, heard)
    requires var rs := x.story.rounds;
             && k < |rs| && j < |rs[k].calls| && rs[k].calls[j].name == "SET_STATE"
             && o.decode(rs[k].calls[j].arguments).state in {"COMPLETED", "FAILED"}
             && forall k', j' | k <= k' < |rs| && 0 <= j' < |rs[k'].calls| && (k' > k || j' > j) ::
                  rs[k'].calls[j'].name == "SET_STATE" ==>
                    o.decode(rs[k'].calls[j'].arguments).state !in {"COMPLETED", "FAILED"}
    ensures x.scene.marks.columns.status
            == if o.decode(x.story.rounds[k].calls[j].arguments).state == "COMPLETED" then TaskStatus.Completed
               else TaskStatus.Failed
  {
    var rs := x.story.rounds;
    forall k', j' | k <= k' < |rs| && 0 <= j' < |rs[k'].calls| && (k' > k || j' > j)
      ensures !EndsTask(ActionOf(o, rs[k'].calls[j']))
    {
      KindsRead(o, rs[k'].calls[j']);
    }
    KindsRead(o, rs[k].calls[j]);
    CarriesRead(o, rs[k].calls[j]);
    LastCall(o, rs, k, j, EndsTask, |AllActions(o, rs[..k])| + j);
    MarksOfRun(o, systemPrompt, from, heard, x);
  }

  /** Its result: from the last COMPLETED. */
  lemma ResultReads(o: Oracle, systemPrompt: string, from: Scene, heard: seq<Entry>, x: Outcome, k: nat, j: nat)
    requires x in Outcomes(o, systemPrompt, from, heard)
    requires var rs := x.story.rounds;
             && k < |rs| && j < |rs[k].calls| && rs[k].calls[j].name == "SET_STATE"
             && o.decode(rs[k].calls[j].arguments).state == "COMPLETED"
             && forall k', j' | k <= k' < |rs| && 0 <= j' < |rs[k'].calls| && (k' > k || j' > j) ::
                  rs[k'].calls[j'].name == "SET_STATE" ==>
                    o.decode(rs[k'].calls[j'].arguments).state != "COMPLETED"
    ensures x.scene.marks.columns.result == Some(o.decode(x.story.rounds[k].calls[j].arguments).result)
  {
    var rs := x.story.rounds;
    forall k', j' | k <= k' < |rs| && 0 <= j' < |rs[k'].calls| && (k' > k || j' > j)
      ensures !Completes(ActionOf(o, rs[k'].calls[j']))
    {
      KindsRead(o, rs[k'].calls[j']);
    }
    KindsRead(o, rs[k].calls[j]);
    CarriesRead(o, rs[k].calls[j]);
    LastCall(o, rs, k, j, Completes, |AllActions(o, rs[..k])| + j);
    MarksOfRun(o, systemPrompt, from, heard, x);
  }

  /** Its error: from the last FAILED that gave a reason. */
  lemma ErrorReads(o: Oracle, systemPrompt: string, from: Scene, heard: seq<Entry>, x: Outcome, k: nat, j: nat)
    requires x in Outcomes(o, systemPrompt, from, heard)
    requires var rs := x.story.rounds;
             && k < |rs| && j < |rs[k].calls| && rs[k].calls[j].name == "SET_STATE"
             && o.decode(rs[k].calls[j].arguments).state == "FAILED"
             && o.decode(rs[k].calls[j].arguments).result != ""
             && forall k', j' | k <= k' < |rs| && 0 <= j' < |rs[k'].calls| && (k' > k || j' > j) ::
                  rs[k'].calls[j'].name == "SET_STATE" && o.decode(rs[k'].calls[j'].arguments).state == "FAILED" ==>
                    o.decode(rs[k'].calls[j'].arguments).result == ""
    ensures x.scene.marks.columns.error == Some(o.decode(x.story.rounds[k].calls[j].arguments).result)
  {
    var rs := x.story.rounds;
    forall k', j' | k <= k' < |rs| && 0 <= j' < |rs[k'].calls| && (k' > k || j' > j)
      ensures !Explains(ActionOf(o, rs[k'].calls[j']))
    {
      KindsRead(o, rs[k'].calls[j']);
    }
    KindsRead(o, rs[k].calls[j]);
    CarriesRead(o, rs[k].calls[j]);
    LastCall(o, rs, k, j, Explains, |AllActions(o, rs[..k])| + j);
    MarksOfRun(o, systemPrompt, from, heard, x);
  }

  /** The state of the agent: by the last SET_STATE with a known state. */
  lemma StateReads(o: Oracle, systemPrompt: string, from: Scene, heard: seq<Entry>, x: Outcome, k: nat, j: nat)
    requires x in Outcomes(o, systemPrompt, from, heard)
    requires var rs := x.story.rounds;
             && k < |rs| && j < |rs[k].calls| && rs[k].calls[j].name == "SET_STATE"
             && o.decode(rs[k].calls[j].arguments).state in {"BLOCKING", "COMPLETED", "FAILED"}
             && forall k', j' | k <= k' < |rs| && 0 <= j' < |rs[k'].calls| && (k' > k || j' > j) ::
                  rs[k'].calls[j'].name == "SET_STATE" ==>
                    o.decode(rs[k'].calls[j'].arguments).state !in {"BLOCKING", "COMPLETED", "FAILED"}
    ensures x.scene.marks.state
            == if o.decode(x.story.rounds[k].calls[j].arguments).state == "BLOCKING" then BlockingState else Free
  {
    var rs := x.story.rounds;
    forall k', j' | k <= k' < |rs| && 0 <= j' < |rs[k'].calls| && (k' > k || j' > j)
      ensures !SetsKnownState(ActionOf(o, rs[k'].calls[j']))
    {
      KindsRead(o, rs[k'].calls[j']);
    }
    KindsRead(o, rs[k].calls[j]);
    CarriesRead(o, rs[k].calls[j]);
    LastCall(o, rs, k, j, SetsKnownState, |AllActions(o, rs[..k])| + j);
    MarksOfRun(o, systemPrompt, from, heard, x);
  }

  /** What no call of a run asks for stays as it was before the run: if none ends the task, its columns and its row. */
  lemma UntouchedTask(o: Oracle, systemPrompt: string, from: Scene, heard: seq<Entry>, x: Outcome)
    requires x in Outcomes(o, systemPrompt, from, heard)
    requires var rs := x.story.rounds;
             forall k, j | 0 <= k < |rs| && 0 <= j < |rs[k].calls| :: rs[k].calls[j].name == "SET_STATE" ==>
               o.decode(rs[k].calls[j].arguments).state !in {"COMPLETED", "FAILED"}
    ensures x.scene.marks.columns == from.marks.columns && x.scene.row == from.row
  {
    var rs := x.story.rounds;
    forall k, j | 0 <= k < |rs| && 0 <= j < |rs[k].calls| ensures !EndsTask(ActionOf(o, rs[k].calls[j])) {
      KindsRead(o, rs[k].calls[j]);
    }
    NoCall(o, rs, EndsTask);
    QuietRun(o, systemPrompt, from, heard, x);
  }

  lemma QuietRun(o: Oracle, systemPrompt: string, from: Scene, heard: seq<Entry>, x: Outcome)
    requires x in Outcomes(o, systemPrompt, from, heard)
    requires Last(AllActions(o, x.story.rounds), EndsTask) < 0
    ensures x.scene.marks.columns == from.marks.columns && x.scene.row == from.row
  {
    OutcomeMeans(o, systemPrompt, from, heard, x);
    var acts := AllActions(o, x.story.rounds);
    assert acts == [] + acts;
    QuietTail([], acts, from.marks);
    RowFollowsTask(from.row, from.marks, acts, AllLost(o, from.pages.turn, x.story.rounds));
  }

  lemma UntouchedResult(o: Oracle, systemPrompt: string, from: Scene, heard: seq<Entry>, x: Outcome)
    requires x in Outcomes(o, systemPrompt, from, heard)
    requires var rs := x.story.rounds;
             forall k, j | 0 <= k < |rs| && 0 <= j < |rs[k].calls| :: rs[k].calls[j].name == "SET_STATE" ==>
               o.decode(rs[k].calls[j].arguments).state != "COMPLETED"
    ensures x.scene.marks.columns.result == from.marks.columns.result
  {
    var rs := x.story.rounds;
    forall k, j | 0 <= k < |rs| && 0 <= j < |rs[k].calls| ensures !Completes(ActionOf(o, rs[k].calls[j])) {
      KindsRead(o, rs[k].calls[j]);
    }
    NoCall(o, rs, Completes);
    MarksOfRun(o, systemPrompt, from, heard, x);
  }

  lemma UntouchedError(o: Oracle, systemPrompt: string, from: Scene, heard: seq<Entry>, x: Outcome)
    requires x in Outcomes(o, systemPrompt, from, heard)
    requires var rs := x.story.rounds;
             forall k, j | 0 <= k < |rs| && 0 <= j < |rs[k].calls| ::
               rs[k].calls[j].name == "SET_STATE" && o.decode(rs[k].calls[j].arguments).state == "FAILED" ==>
                 o.decode(rs[k].calls[j].arguments).result == ""
    ensures x.scene.marks.columns.error == from.marks.columns.error
  {
    var rs := x.story.rounds;
    forall k, j | 0 <= k < |rs| && 0 <= j < |rs[k].calls| ensures !Explains(ActionOf(o, rs[k].calls[j])) {
      KindsRead(o, rs[k].calls[j]);
    }
    NoCall(o, rs, Explains);
    MarksOfRun(o, systemPrompt, from, heard, x);
  }

  lemma UntouchedState(o: Oracle, systemPrompt: string, from: Scene, heard: seq<Entry>, x: Outcome)
    requires x in Outcomes(o, systemPrompt, from, heard)
    requires var rs := x.story.rounds;
             forall k, j | 0 <= k < |rs| && 0 <= j < |rs[k].calls| :: rs[k].calls[j].name == "SET_STATE" ==>
               o.decode(rs[k].calls[j].arguments).state !in {"BLOCKING", "COMPLETED", "FAILED"}
    ensures x.scene.marks.state == from.marks.state
  {
    var rs := x.story.rounds;
    forall k, j | 0 <= k < |rs| && 0 <= j < |rs[k].calls| ensures !SetsKnownState(ActionOf(o, rs[k].calls[j])) {
      KindsRead(o, rs[k].calls[j]);
    }
    NoCall(o, rs, SetsKnownState);
    MarksOfRun(o, systemPrompt, from, heard, x);
  }

  // ---------------------------------------------------------------- how a run ends

  /** The last SET_STATE of a response decides it. */
  lemma LastInResponse(o: Oracle, calls: seq<ToolCall>, j: nat)
    requires j < |calls| && calls[j].name == "SET_STATE"
    requires forall i | j < i < |calls| :: calls[i].name != "SET_STATE"
    ensures ChangeOf(Actions(o, calls)) == ActionOf(o, calls[j]).state
    ensures Actions(o, calls) == Actions(o, calls[..j]) + Actions(o, [calls[j]]) + Actions(o, calls[j + 1..])
    ensures Last(Actions(o, calls[j + 1..]), SetsState) < 0
  {
    forall i | 0 <= i < |calls| ensures SetsState(ActionOf(o, calls[i])) <==> calls[i].name == "SET_STATE" {
      KindsRead(o, calls[i]);
    }
    LastHere(o, calls, j, SetsState);
    ActionsSplit(o, calls, j);
    NoneHere(o, calls[j + 1..], SetsState);
  }

  lemma ActionsSplit(o: Oracle, calls: seq<ToolCall>, j: nat)
    requires j < |calls|
    ensures Actions(o, calls) == Actions(o, calls[..j]) + Actions(o, [calls[j]]) + Actions(o, calls[j + 1..])
  {
  }

  /** Calls that set no state change nothing. */
  lemma QuietCalls(acts: seq<Action>, rest: seq<Action>, m: Marks)
    requires Last(rest, SetsState) < 0
    ensures MarksAfter(m, acts + rest) == MarksAfter(m, acts)
  {
    var e, s := Last(rest, EndsTask), Last(rest, SetsKnownState);
    assert e < 0 || SetsState(rest[e]);
    assert s < 0 || SetsState(rest[s]);
    QuietTail(acts, rest, m);
    SameLast(acts, rest, SetsKnownState);
  }

  lemma LastEffect(o: Oracle, before: seq<Action>, calls: seq<ToolCall>, j: nat, m: Marks)
    requires j < |calls| && calls[j].name == "SET_STATE"
    requires forall i | j < i < |calls| :: calls[i].name != "SET_STATE"
    ensures MarksAfter(m, before + Actions(o, calls))
            == MarksAfter(m, before + Actions(o, calls[..j]) + Actions(o, [calls[j]]))
  {
    LastInResponse(o, calls, j);
    var a, b, rest := Actions(o, calls[..j]), Actions(o, [calls[j]]), Actions(o, calls[j + 1..]);
    assert before + Actions(o, calls) == (before + a + b) + rest;
    QuietCalls(before + a + b, rest, m);
  }

  lemma LastRound(o: Oracle, systemPrompt: string, from: Scene, heard: seq<Entry>, x: Outcome)
    requires x in Outcomes(o, systemPrompt, from, heard) && |x.story.rounds| > 0 && |x.story.pending| == 0
    ensures var n := |x.story.rounds| - 1;
            var acts := Actions(o, x.story.rounds[n].calls);
            && x.story.exit == ExitOf(VerdictOf(ChangeOf(acts)))
            && x.scene.marks == MarksAfter(from.marks, AllActions(o, x.story.rounds[..n]) + acts)
  {
    OutcomeMeans(o, systemPrompt, from, heard, x);
    MarksOfRun(o, systemPrompt, from, heard, x);
  }

  lemma ExitReads(o: Oracle, calls: seq<ToolCall>, j: nat)
    requires j < |calls| && calls[j].name == "SET_STATE"
    requires forall i | j < i < |calls| :: calls[i].name != "SET_STATE"
    ensures var state, exit := o.decode(calls[j].arguments).state, ExitOf(VerdictOf(ChangeOf(Actions(o, calls))));
            && (exit == Unregistered <==> state == "COMPLETED" || state == "FAILED")
            && (exit == StillWaiting <==> state == "BLOCKING")
            && exit != ModelFailed
  {
    LastInResponse(o, calls, j);
    CarriesRead(o, calls[j]);
  }

  lemma EffectReads(o: Oracle, acts: seq<Action>, calls: seq<ToolCall>, j: nat, m: Marks, a: Args)
    requires j < |calls| && calls[j].name == "SET_STATE" && a == o.decode(calls[j].arguments)
    requires forall i | j < i < |calls| :: calls[i].name != "SET_STATE"
    ensures var now, before := MarksAfter(m, acts + Actions(o, calls)), MarksAfter(m, acts + Actions(o, calls[..j]));
            && (a.state == "COMPLETED" ==>
                  now == Marks(Free, TaskColumns(TaskStatus.Completed, Some(a.result), before.columns.error)))
            && (a.state == "FAILED" ==>
                  now == Marks(Free, TaskColumns(TaskStatus.Failed, before.columns.result,
                                                 if a.result == "" then before.columns.error else Some(a.result))))
            && (a.state == "BLOCKING" ==> now == Marks(BlockingState, before.columns))
            && (a.state != "COMPLETED" && a.state != "FAILED" && a.state != "BLOCKING" ==> now == before)
  {
    LastEffect(o, acts, calls, j, m);
    CallReads(o, m, acts + Actions(o, calls[..j]), calls[j]);
  }

  /** How a run ends whose last response was answered, by the last SET_STATE of that response. COMPLETED and FAILED
      unregister with that status, and with the result or the error given; BLOCKING waits for more; any other state
      leaves, with agent and task as they were before that call. */
  lemma LastWordDecides(o: Oracle, systemPrompt: string, from: Scene, heard: seq<Entry>, x: Outcome, j: nat)
    requires x in Outcomes(o, systemPrompt, from, heard) && |x.story.rounds| > 0 && |x.story.pending| == 0
    requires var calls := x.story.rounds[|x.story.rounds| - 1].calls;
             && j < |calls| && calls[j].name == "SET_STATE"
             && forall i | j < i < |calls| :: calls[i].name != "SET_STATE"
    ensures var n, now := |x.story.rounds| - 1, x.scene.marks;
            var calls := x.story.rounds[n].calls;
            var a := o.decode(calls[j].arguments);
            var before := MarksAfter(from.marks, AllActions(o, x.story.rounds[..n]) + Actions(o, calls[..j]));
            && (a.state == "COMPLETED" ==>
                  && x.story.exit == Unregistered
                  && now == Marks(Free, TaskColumns(TaskStatus.Completed, Some(a.result), before.columns.error)))
            && (a.state == "FAILED" ==>
                  && x.story.exit == Unregistered
                  && now == Marks(Free, TaskColumns(TaskStatus.Failed, before.columns.result,
                                                    if a.result == "" then before.columns.error else Some(a.result))))
            && (a.state == "BLOCKING" ==>
                  x.story.exit == StillWaiting && now == Marks(BlockingState, before.columns))
            && (a.state != "COMPLETED" && a.state != "FAILED" && a.state != "BLOCKING" ==>
                  x.story.exit == NoStateChange && now == before)
  {
    var n := |x.story.rounds| - 1;
    LastRound(o, systemPrompt, from, heard, x);
    var calls := x.story.rounds[n].calls;
    ExitReads(o, calls, j);
    EffectReads(o, AllActions(o, x.story.rounds[..n]), calls, j, from.marks, o.decode(calls[j].arguments));
  }

  /** A response without a SET_STATE leaves, and changes nothing. */
  lemma SilenceLeaves(o: Oracle, systemPrompt: string, from: Scene, heard: seq<Entry>, x: Outcome)
    requires x in Outcomes(o, systemPrompt, from, heard) && |x.story.rounds| > 0 && |x.story.pending| == 0
    requires forall c | c in x.story.rounds[|x.story.rounds| - 1].calls :: c.name != "SET_STATE"
    ensures x.story.exit == NoStateChange
    ensures x.scene.marks == MarksAfter(from.marks, AllActions(o, x.story.rounds[..|x.story.rounds| - 1]))
  {
    var n := |x.story.rounds| - 1;
    LastRound(o, systemPrompt, from, heard, x);
    NoWord(o, x.story.rounds[n].calls);
    QuietCalls(AllActions(o, x.story.rounds[..n]), Actions(o, x.story.rounds[n].calls), from.marks);
  }

  lemma NoWord(o: Oracle, calls: seq<ToolCall>)
    requires forall c | c in calls :: c.name != "SET_STATE"
    ensures Last(Actions(o, calls), SetsState) < 0
    ensures ExitOf(VerdictOf(ChangeOf(Actions(o, calls)))) == NoStateChange
  {
    forall i | 0 <= i < |calls| ensures !SetsState(Actions(o, calls)[i]) {
      KindsRead(o, calls[i]);
    }
  }

  /** The loop went on after a response only if its last SET_STATE was BLOCKING. */
  lemma WentOn(o: Oracle, systemPrompt: string, from: Scene, heard: seq<Entry>, x: Outcome, k: nat) returns (j: nat)
    requires x in Outcomes(o, systemPrompt, from, heard) && k < |x.story.rounds|
    requires k < |x.story.rounds| - 1 || |x.story.pending| > 0
    ensures var calls := x.story.rounds[k].calls;
            && j < |calls| && calls[j].name == "SET_STATE" && o.decode(calls[j].arguments).state == "BLOCKING"
            && forall i | j < i < |calls| :: calls[i].name != "SET_STATE"
  {
    PassedListens(o, systemPrompt, from, heard, x, k);
    var calls := x.story.rounds[k].calls;
    j := Last(Actions(o, calls), SetsState);
    LastIsBlocking(o, calls);
  }

  lemma PassedListens(o: Oracle, systemPrompt: string, from: Scene, heard: seq<Entry>, x: Outcome, k: nat)
    requires x in Outcomes(o, systemPrompt, from, heard) && k < |x.story.rounds|
    requires k < |x.story.rounds| - 1 || |x.story.pending| > 0
    ensures VerdictIn(o, x.story.rounds[k]) == KeepListening
  {
    OutcomeMeans(o, systemPrompt, from, heard, x);
    assert Passed(x.story)[k] == x.story.rounds[k];
    assert x.story.rounds[k] in Passed(x.story);
  }

  lemma LastIsBlocking(o: Oracle, calls: seq<ToolCall>)
    requires VerdictOf(ChangeOf(Actions(o, calls))) == KeepListening
    ensures var j := Last(Actions(o, calls), SetsState);
            && j >= 0 && calls[j].name == "SET_STATE" && o.decode(calls[j].arguments).state == "BLOCKING"
            && forall i | j < i < |calls| :: calls[i].name != "SET_STATE"
  {
    var j := Last(Actions(o, calls), SetsState);
    forall i | 0 <= i < |calls| ensures calls[i].name == "SET_STATE" <==> SetsState(Actions(o, calls)[i]) {
      KindsRead(o, calls[i]);
    }
    CarriesRead(o, calls[j]);
  }

  /** And it ends by a failed model call exactly when an input is left without an answer, the last one heard. */
  lemma FailureReads(o: Oracle, systemPrompt: string, from: Scene, heard: seq<Entry>, x: Outcome)
    requires x in Outcomes(o, systemPrompt, from, heard)
    ensures x.story.exit == ModelFailed <==> |x.story.pending| > 0
    ensures |heard| == |x.story.rounds| + |x.story.pending|
    ensures |x.story.pending| > 0 ==> |heard| > 0 && x.story.pending == [heard[|heard| - 1]]
  {
    EndOf(o, systemPrompt, TurnMessages(from.pages.turns), from.pages.turn, heard, x.story);
  }

  lemma EndOf(o: Oracle, systemPrompt: string, known: seq<ChatMessage>, start: nat, heard: seq<Entry>, s: Story)
    requires Faithful(o, systemPrompt, known, start, heard, s)
    ensures s.exit == ModelFailed <==> |s.pending| > 0
    ensures |heard| == |s.rounds| + |s.pending|
    ensures |s.pending| > 0 ==> |heard| > 0 && s.pending == [heard[|heard| - 1]]
  {
    HeardCounts(s.rounds, s.pending, heard);
  }

  lemma HeardCounts(rs: seq<Round>, pending: seq<Entry>, heard: seq<Entry>)
    requires heard == (if |pending| == 0 then InputsOf(rs) else InputsOf(rs) + pending) && |pending| <= 1
    ensures |heard| == |rs| + |pending|
    ensures |pending| > 0 ==> |heard| > 0 && pending == [heard[|heard| - 1]]
  {
    InputsAt(rs, 0);
  }

  /** A loop that has heard nothing has done nothing and waits. */
  lemma SilenceReads(o: Oracle, systemPrompt: string, from: Scene, x: Outcome)
    requires x in Outcomes(o, systemPrompt, from, [])
    ensures x.story == Story([], [], [], StillWaiting) && x.scene.marks == from.marks && x.scene.row == from.row
  {
    OutcomeMeans(o, systemPrompt, from, [], x);
    FailureReads(o, systemPrompt, from, [], x);
    assert MarksAfter(from.marks, []) == from.marks;
  }

  // ---------------------------------------------------------------- the row

  /** The flag that says whether the update of call `j` of round `k` was lost is that of the call's own answer. */
  lemma {:induction false} LostAt(o: Oracle, start: nat, rs: seq<Round>, k: nat, j: nat, i: nat, n: nat)
    requires RoundsOk(rs) && k < |rs| && j < |rs[k].calls| && i == |AllActions(o, rs[..k])| + j
    requires RoundsOk(rs[..k]) && n == NextInput(start, rs[..k]) + 2 + j
    ensures i < |AllLost(o, start, rs)| && AllLost(o, start, rs)[i] == o.updateFails(n)
  {
    var m := |rs| - 1;
    if k < m {
      Prefix(rs, k);
      LostAt(o, start, rs[..m], k, j, i, n);
      LostEarlier(o, start, rs, i);
    } else {
      LostLast(o, start, rs, j, i, n);
    }
  }

  lemma LostEarlier(o: Oracle, start: nat, rs: seq<Round>, i: nat)
    requires RoundsOk(rs) && |rs| > 0 && i < |AllLost(o, start, rs[..|rs| - 1])|
    ensures i < |AllLost(o, start, rs)| && AllLost(o, start, rs)[i] == AllLost(o, start, rs[..|rs| - 1])[i]
  {
  }

  lemma LostLast(o: Oracle, start: nat, rs: seq<Round>, j: nat, i: nat, n: nat)
    requires RoundsOk(rs) && |rs| > 0 && j < |rs[|rs| - 1].calls| && i == |AllActions(o, rs[..|rs| - 1])| + j
    requires n == NextInput(start, rs[..|rs| - 1]) + 2 + j
    ensures i < |AllLost(o, start, rs)| && AllLost(o, start, rs)[i] == o.updateFails(n)
  {
    var m := |rs| - 1;
    var before, last := AllLost(o, start, rs[..m]), LostIn(o, NextInput(start, rs[..m]), rs[m]);
    LostHere(o, NextInput(start, rs[..m]), rs[m], j, n);
    assert (before + last)[|before| + j] == last[j];
  }

  lemma LostHere(o: Oracle, input: nat, r: Round, j: nat, n: nat)
    requires j < |r.calls| && n == input + 2 + j
    ensures LostIn(o, input, r)[j] == o.updateFails(n)
  {
  }

  /** If the update of the last call that ended the task was not lost, the row has the columns of the task after the
      run; `n` is the number of the turn that holds its answer. */
  lemma RowReads(o: Oracle, systemPrompt: string, from: Scene, heard: seq<Entry>, x: Outcome, k: nat, j: nat, n: nat)
    requires x in Outcomes(o, systemPrompt, from, heard)
    requires var rs := x.story.rounds;
             && k < |rs| && j < |rs[k].calls| && rs[k].calls[j].name == "SET_STATE"
             && o.decode(rs[k].calls[j].arguments).state in {"COMPLETED", "FAILED"}
             && forall k', j' | k <= k' < |rs| && 0 <= j' < |rs[k'].calls| && (k' > k || j' > j) ::
                  rs[k'].calls[j'].name == "SET_STATE" ==>
                    o.decode(rs[k'].calls[j'].arguments).state !in {"COMPLETED", "FAILED"}
    requires RoundsOk(x.story.rounds[..k]) && n == from.pages.turn + |AllEntries(x.story.rounds[..k])| + 3 + j
    requires !o.updateFails(n)
    ensures x.scene.row == x.scene.marks.columns
  {
    var rs := x.story.rounds;
    forall k', j' | k <= k' < |rs| && 0 <= j' < |rs[k'].calls| && (k' > k || j' > j)
      ensures !EndsTask(ActionOf(o, rs[k'].calls[j']))
    {
      KindsRead(o, rs[k'].calls[j']);
    }
    KindsRead(o, rs[k].calls[j]);
    RowOfRun(o, systemPrompt, from, heard, x);
    RowIsSaved(o, from, rs, k, j, |AllActions(o, rs[..k])| + j, n);
  }

  lemma RowOfRun(o: Oracle, systemPrompt: string, from: Scene, heard: seq<Entry>, x: Outcome)
    requires x in Outcomes(o, systemPrompt, from, heard)
    ensures RoundsOk(x.story.rounds)
    ensures x.scene.marks == MarksAfter(from.marks, AllActions(o, x.story.rounds))
    ensures x.scene.row == RowAfter(from.row, from.marks, AllActions(o, x.story.rounds),
                                    AllLost(o, from.pages.turn, x.story.rounds))
  {
    OutcomeMeans(o, systemPrompt, from, heard, x);
  }

  lemma RowIsSaved(o: Oracle, from: Scene, rs: seq<Round>, k: nat, j: nat, i: nat, n: nat)
    requires RoundsOk(rs) && LastOf(o, rs, k, j, EndsTask) && i == |AllActions(o, rs[..k])| + j
    requires RoundsOk(rs[..k]) && n == NextInput(from.pages.turn, rs[..k]) + 2 + j && !o.updateFails(n)
    ensures RowAfter(from.row, from.marks, AllActions(o, rs), AllLost(o, from.pages.turn, rs))
            == MarksAfter(from.marks, AllActions(o, rs)).columns
  {
    LastCall(o, rs, k, j, EndsTask, i);
    LostAt(o, from.pages.turn, rs, k, j, i, n);
    SavedLast(from.row, from.marks, AllActions(o, rs), AllLost(o, from.pages.turn, rs), i);
  }

  lemma SavedLast(row: TaskColumns, m: Marks, acts: seq<Action>, lost: seq<bool>, i: nat)
    requires |acts| == |lost| && Last(acts, EndsTask) == i && !lost[i]
    ensures RowAfter(row, m, acts, lost) == MarksAfter(m, acts).columns
  {
    RowFollowsTask(row, m, acts, lost);
  }

  // ---------------------------------------------------------------- what the loop heard, said and wrote

  /** What the loop hears of one more input: a task start or a message as the user, a tool result as that tool's, and
      nothing of any other kind. */
  lemma InputReads(inputs: seq<AgentInput>, input: AgentInput)
    ensures HeardAll([]) == []
    ensures input.TaskStart? || input.Message? ==>
              HeardAll(inputs + [input]) == HeardAll(inputs) + [HeardUser(input.content)]
    ensures input.ToolResult? ==>
              HeardAll(inputs + [input]) == HeardAll(inputs) + [HeardTool(input.id, input.name, input.content)]
    ensures input.OtherInput? ==> HeardAll(inputs + [input]) == HeardAll(inputs)
  {
    assert (inputs + [input])[..|inputs|] == inputs;
  }

  /** What a round tells: its input, the response with all its calls, and an answer to each, in order. */
  lemma RoundTells(rs: seq<Round>, r: Round)
    requires RoundsOk(rs) && RoundOk(r)
    ensures RoundsOk(rs + [r]) && AllEntries([]) == []
    ensures AllEntries(rs + [r])
            == AllEntries(rs) + [r.input, Said(r.content, r.calls, r.inputTokens, r.outputTokens)]
               + Answers(r.calls, r.results)
  {
    assert (rs + [r])[..|rs|] == rs;
  }

  /** What the model is told of an entry. A response keeps its call if there is only one and it has an identifier. */
  lemma MessageReads(e: Entry)
    ensures var m := Rebuilt(WorkerKeeps, e);
            && (e.HeardUser? ==> m == ChatMessage(User, e.content, [], ""))
            && (e.HeardTool? ==> m == ChatMessage(ToolRole, e.content, [], e.id))
            && (e.Answered? ==> m == ChatMessage(ToolRole, e.result, [], e.id))
            && (e.Said? ==> m == ChatMessage(Assistant, e.content,
                                             if |e.calls| == 1 && e.calls[0].id != "" then e.calls else [], ""))
  {
    if e.Said? && |e.calls| == 1 {
      assert e.calls == [e.calls[0]];
    }
  }

  /** Each round answers the input heard at its position, with what the model said at that turn. */
  lemma {:induction false} ToldAt(o: Oracle, start: nat, rs: seq<Round>, k: nat)
    requires RoundsOk(rs) && AllTold(o, start, rs) && k < |rs|
    ensures RoundsOk(rs[..k]) && Told(o, NextInput(start, rs[..k]), rs[k])
  {
    var n := |rs| - 1;
    if k < n {
      ToldAt(o, start, rs[..n], k);
      assert rs[..n][..k] == rs[..k];
    }
  }

  lemma RoundIs(o: Oracle, start: nat, rs: seq<Round>, k: nat, n: nat)
    requires RoundsOk(rs) && AllTold(o, start, rs) && k < |rs| && RoundsOk(rs[..k]) && n == NextInput(start, rs[..k])
    ensures |InputsOf(rs)| == |rs| && InputsOf(rs)[k] == rs[k].input && |rs[k].results| == |rs[k].calls|
    ensures o.model(n) == Some(Response(rs[k].content, rs[k].calls, rs[k].inputTokens, rs[k].outputTokens))
  {
    ToldAt(o, start, rs, k);
    InputsAt(rs, k);
    assert rs[k] in rs;
  }

  /** Round `k` answers input `k`, with what the model said at the turn `n` of that input, and answers every call. */
  lemma RoundReads(o: Oracle, systemPrompt: string, from: Scene, heard: seq<Entry>, x: Outcome, k: nat, n: nat)
    requires x in Outcomes(o, systemPrompt, from, heard) && k < |x.story.rounds|
    requires RoundsOk(x.story.rounds[..k]) && n == NextInput(from.pages.turn, x.story.rounds[..k])
    ensures var r := x.story.rounds[k];
            && k < |heard| && r.input == heard[k]
            && o.model(n) == Some(Response(r.content, r.calls, r.inputTokens, r.outputTokens))
            && |r.results| == |r.calls|
  {
    OutcomeMeans(o, systemPrompt, from, heard, x);
    RoundIs(o, from.pages.turn, x.story.rounds, k, n);
  }

  lemma ResultAt(o: Oracle, systemPrompt: string, from: Scene, heard: seq<Entry>, x: Outcome, k: nat, j: nat, n: nat)
    requires x in Outcomes(o, systemPrompt, from, heard)
    requires k < |x.story.rounds| && j < |x.story.rounds[k].calls|
    requires RoundsOk(x.story.rounds[..k]) && n == from.pages.turn + |AllEntries(x.story.rounds[..k])| + 3 + j
    ensures |x.story.rounds[k].results| == |x.story.rounds[k].calls|
    ensures x.story.rounds[k].results[j] == ResultText(ActionOf(o, x.story.rounds[k].calls[j]), o.answer(n))
  {
    var rs := x.story.rounds;
    OutcomeMeans(o, systemPrompt, from, heard, x);
    ToldAt(o, from.pages.turn, rs, k);
    ResultIn(o, NextInput(from.pages.turn, rs[..k]), rs[k], j, n);
  }

  lemma ResultIn(o: Oracle, input: nat, r: Round, j: nat, n: nat)
    requires Told(o, input, r) && j < |r.calls| && n == input + 2 + j
    ensures |r.results| == |r.calls| && r.results[j] == ResultText(ActionOf(o, r.calls[j]), o.answer(n))
  {
    assert r.results == Results(o, Actions(o, r.calls), input + 2);
  }

  /** Every call of every response has its answer, at its place: a SET_STATE the acknowledgement of its state or an
      error that names it, a tool with a missing argument its error, or nothing for SPAWN_TASK, a tool with its argument
      what the tool answered, and any other name an error. `n` is the number of the turn that holds the answer. */
  lemma AnswersRead(o: Oracle, systemPrompt: string, from: Scene, heard: seq<Entry>, x: Outcome, k: nat, j: nat,
                    n: nat)
    requires x in Outcomes(o, systemPrompt, from, heard)
    requires k < |x.story.rounds| && j < |x.story.rounds[k].calls|
    requires RoundsOk(x.story.rounds[..k]) && n == from.pages.turn + |AllEntries(x.story.rounds[..k])| + 3 + j
    ensures |x.story.rounds[k].results| == |x.story.rounds[k].calls|
    ensures var c, answer := x.story.rounds[k].calls[j], x.story.rounds[k].results[j];
            var a := o.decode(c.arguments);
            && (c.name == "SET_STATE" && a.state == "BLOCKING" ==>
                  answer == "{\"status\": \"ok\", \"state\": \"BLOCKING\"}")
            && (c.name == "SET_STATE" && a.state == "COMPLETED" ==>
                  answer == "{\"status\": \"ok\", \"state\": \"COMPLETED\"}")
            && (c.name == "SET_STATE" && a.state == "FAILED" ==>
                  answer == "{\"status\": \"ok\", \"state\": \"FAILED\"}")
            && (c.name == "SET_STATE" && a.state != "BLOCKING" && a.state != "COMPLETED" && a.state != "FAILED" ==>
                  answer == "{\"error\": \"unknown state: " + a.state + "\"}")
            && (c.name == "SEND_PARENT" ==>
                  answer == if a.message == "" then "{\"success\": false, \"error\": \"message is required\"}"
                            else o.answer(n))
            && (c.name == "SPAWN_TASK" ==> answer == if a.description == "" then "" else o.answer(n))
            && (c.name == "EXECUTE_CMD" ==>
                  answer == if a.code == "" then "{\"success\": false, \"error\": \"code is required\"}"
                            else o.answer(n))
            && (c.name != "SET_STATE" && c.name != "SEND_PARENT" && c.name != "SPAWN_TASK"
                && c.name != "EXECUTE_CMD" ==>
                  answer == "{\"error\": \"unknown tool\"}")
  {
    ResultAt(o, systemPrompt, from, heard, x, k, j, n);
    var r := x.story.rounds[k];
    AnswerReads(o, r.calls[j], o.decode(r.calls[j].arguments), o.answer(n), r.results[j]);
  }

  /** How transcripts grow: what was there before stays, and the same entries follow in both, the turns numbered on. */
  lemma GrownReads(from: Pages, es: seq<Entry>, now: Pages)
    requires now == Grown(from, es)
    ensures now == Pages(from.history + HistoriesOf(es), from.turns + TurnsOf(WorkerKeeps, es, from.turn + 1),
                         from.turn + |es|)
  {
  }

  /** Both transcripts of a run have grown by the entries of its rounds and, if the model failed, the input left without
      an answer. */
  lemma TranscriptsRead(o: Oracle, systemPrompt: string, from: Scene, heard: seq<Entry>, x: Outcome)
    requires x in Outcomes(o, systemPrompt, from, heard)
    ensures RoundsOk(x.story.rounds)
    ensures x.scene.pages == Grown(from.pages, AllEntries(x.story.rounds) + x.story.pending)
  {
    OutcomeMeans(o, systemPrompt, from, heard, x);
  }

  // ---------------------------------------------------------------- what the model is asked

  lemma BuiltReads(systemPrompt: string, extra: string, known: seq<ChatMessage>, rs: seq<Round>, input: Entry,
                   prompt: seq<ChatMessage>)
    requires RoundsOk(rs) && prompt == Prompt(Preamble(WorkerKeeps, systemPrompt, extra) + known, rs, input)
    ensures prompt
            == (if systemPrompt == "" then [] else [ChatMessage(System, systemPrompt, [], "")])
               + (if extra == "" then [] else [ChatMessage(User, extra + Instruction(WorkerKeeps), [], "")])
               + known + RebuiltAll(WorkerKeeps, AllEntries(rs)) + [Rebuilt(WorkerKeeps, input)]
  {
    PreambleReads(WorkerKeeps, systemPrompt, extra);
  }

  /** The prompts of a story, one by one. */
  lemma PromptOf(o: Oracle, systemPrompt: string, known: seq<ChatMessage>, start: nat, rs: seq<Round>,
                 pending: seq<Entry>, k: nat)
    requires RoundsOk(rs) && |pending| <= 1 && k < |rs| + |pending|
    ensures var heard := if |pending| == 0 then InputsOf(rs) else InputsOf(rs) + pending;
            var prompts := if |pending| == 0 then Prompts(o, systemPrompt, known, start, rs)
                           else Prompts(o, systemPrompt, known, start, rs)
                                + [PromptFor(o, systemPrompt, known, start, rs, pending[0])];
            && k <= |rs| && |prompts| == |heard| == |rs| + |pending|
            && prompts[k] == PromptFor(o, systemPrompt, known, start, rs[..k], heard[k])
  {
    InputsAt(rs, k);
    if k < |rs| {
      PromptsAt(o, systemPrompt, known, start, rs, k);
    } else {
      assert rs[..k] == rs;
    }
  }

  lemma PromptIs(o: Oracle, systemPrompt: string, from: Scene, heard: seq<Entry>, x: Outcome, known: seq<ChatMessage>,
                 rs: seq<Round>, k: nat)
    requires x in Outcomes(o, systemPrompt, from, heard) && k < |x.story.prompts|
    requires k <= |x.story.rounds| && known == TurnMessages(from.pages.turns) && rs == x.story.rounds[..k]
    ensures |x.story.prompts| == |heard| && RoundsOk(rs)
    ensures x.story.prompts[k] == PromptFor(o, systemPrompt, known, from.pages.turn, rs, heard[k])
  {
    OutcomeMeans(o, systemPrompt, from, heard, x);
    InputsAt(x.story.rounds, 0);
    PromptOf(o, systemPrompt, known, from.pages.turn, x.story.rounds, x.story.pending, k);
  }

  lemma PromptForReads(o: Oracle, systemPrompt: string, known: seq<ChatMessage>, start: nat, rs: seq<Round>,
                       input: Entry, n: nat)
    requires RoundsOk(rs) && n == start + |AllEntries(rs)| + 1
    ensures PromptFor(o, systemPrompt, known, start, rs, input)
            == (if systemPrompt == "" then [] else [ChatMessage(System, systemPrompt, [], "")])
               + (if o.extra(n) == "" then [] else [ChatMessage(User, o.extra(n) + Instruction(WorkerKeeps), [], "")])
               + known + RebuiltAll(WorkerKeeps, AllEntries(rs)) + [Rebuilt(WorkerKeeps, input)]
  {
    assert NextInput(start, rs) == n;
    BuiltReads(systemPrompt, o.extra(n), known, rs, input,
               Prompt(Preamble(WorkerKeeps, systemPrompt, o.extra(n)) + known, rs, input));
  }

  /** What the model is asked for input `k`, in order: the system prompt, if there is one; what the oracle gave as
      context at this moment, with the instruction of a worker, if it gave any; what the turns from before the run are
      worth; what was told in the rounds `rs` before; the input. `n` is the number of the input's turn. */
  lemma PromptReads(o: Oracle, systemPrompt: string, from: Scene, heard: seq<Entry>, x: Outcome, k: nat,
                    rs: seq<Round>, n: nat)
    requires x in Outcomes(o, systemPrompt, from, heard) && k < |x.story.prompts| && k <= |x.story.rounds|
    requires rs == x.story.rounds[..k] && RoundsOk(rs) && n == from.pages.turn + |AllEntries(rs)| + 1
    ensures |x.story.prompts| == |heard|
    ensures x.story.prompts[k]
            == (if systemPrompt == "" then [] else [ChatMessage(System, systemPrompt, [], "")])
               + (if o.extra(n) == "" then [] else [ChatMessage(User, o.extra(n) + Instruction(WorkerKeeps), [], "")])
               + TurnMessages(from.pages.turns) + RebuiltAll(WorkerKeeps, AllEntries(rs))
               + [Rebuilt(WorkerKeeps, heard[k])]
  {
    var known := TurnMessages(from.pages.turns);
    PromptIs(o, systemPrompt, from, heard, x, known, rs, k);
    PromptForReads(o, systemPrompt, known, from.pages.turn, rs, heard[k], n);
  }
}
