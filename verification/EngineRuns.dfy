/** Runs of the engine, and the invariant over all of them. */
module EngineRuns {
  import opened Prelude
  import opened Tasks
  import opened Tools
  import opened Engine
  import opened EngineInvariant
  import opened LedgerProof
  import opened RunningProof

  datatype Run = Run(states: seq<State>, events: seq<Event>)

  datatype Transition<S, E> = Transition(before: S, event: E, after: S)

  ghost predicate StepIn<S(!new), E(!new)>(states: seq<S>, events: seq<E>, steps: iset<Transition<S, E>>, k: int)
    requires |states| == |events| + 1 && 0 <= k < |events|
  {
    Transition(states[k], events[k], states[k + 1]) in steps
  }

  /** Consecutive states are linked by the events between them. */
  ghost predicate Linked<S(!new), E(!new)>(states: seq<S>, events: seq<E>, steps: iset<Transition<S, E>>) {
    && |states| == |events| + 1
    && forall k {:trigger StepIn(states, events, steps, k)} | 0 <= k < |events| :: StepIn(states, events, steps, k)
  }

  ghost function Transitions(c: Config): iset<Transition<State, Event>> {
    iset x: Transition<State, Event> | Enabled(c, x.before, x.event) && x.after == Apply(c, x.before, x.event)
  }

  ghost predicate IsRun(c: Config, r: Run) {
    Linked(r.states, r.events, Transitions(c)) && r.states[0] == Init(c)
  }

  lemma LinkMore<S(!new), E(!new)>(states: seq<S>, events: seq<E>, steps: iset<Transition<S, E>>, e: E, t: S)
    requires Linked(states, events, steps) && Transition(states[|events|], e, t) in steps
    ensures Linked(states + [t], events + [e], steps)
  {
    forall k | 0 <= k < |events| + 1 ensures StepIn(states + [t], events + [e], steps, k) {
      assert k < |events| ==> StepIn(states, events, steps, k);
    }
  }

  /** What the ledger looks at: neither phases, nor input contents, the registry or containers. */
  function LedgerView(s: State): State {
    s.(phase := map[], inbox := map[], registry := map[], containers := map[], dockerIds := {}, releasing := multiset{},
       owner := map[])
  }

  ghost predicate SameLedger(s: State, t: State) {
    LedgerView(t) == LedgerView(s) && t.inbox.Keys == s.inbox.Keys
  }

  lemma LedgerFrame(c: Config, s: State, t: State)
    requires Ledger(c, s) && SameLedger(s, t)
    ensures Ledger(c, t)
  {
    assert t.place == s.place && t.worker == s.worker && t.parent == s.parent && t.level == s.level && t.heap == s.heap;
    assert t.assignee == s.assignee && t.pool == s.pool && t.agentRows == s.agentRows && t.closed == s.closed;
  }

  lemma SetupFrame(s: State, w: WorkerId, u: SetupEvent)
    requires SetupEnabled(s, w, u)
    ensures SameLedger(s, SetupStep(s, w, u))
  {
    if u.Greet? { assert SetupStep(s, w, u).inbox.Keys == s.inbox.Keys; }
  }

  lemma GotoFrame(s: State, w: WorkerId, at: Phase)
    requires BusyAt(s, w)
    ensures SameLedger(s, Goto(s, w, at))
  {
  }

  lemma UnregisterFrame(s: State, a: AgentId)
    ensures SameLedger(s, UnregisterAgent(s, a))
  {
  }

  lemma DecideFrame(s: State, w: WorkerId, v: Verdict)
    requires BusyAt(s, w)
    ensures SameLedger(s, Decided(s, w, v))
  {
    match v
    case KeepListening => GotoFrame(s, w, Listening(false));
    case Leave => GotoFrame(s, w, Leaving);
    case Unregister =>
      GotoFrame(s, w, Leaving);
      UnregisterFrame(Goto(s, w, Leaving), s.worker[w].agent);
  }

  lemma LoopFrame(s: State, w: WorkerId, l: LoopEvent)
    requires LoopEnabled(s, w, l)
    ensures SameLedger(s, LoopStep(s, w, l))
  {
    match l
    case Hear => assert LoopStep(s, w, l).inbox.Keys == s.inbox.Keys;
    case Respond(calls) => GotoFrame(s, w, if |calls| == 0 then Leaving else Acting(calls, NO_CHANGE));
    case ModelFails => GotoFrame(s, w, Leaving);
    case Decide => DecideFrame(s, w, VerdictOf(s.phase[w].change));
  }

  lemma GotoKeepsLedger(c: Config, s: State, w: WorkerId, at: Phase)
    requires Ledger(c, s) && BusyAt(s, w)
    ensures Ledger(c, Goto(s, w, at))
  {
    LedgerFrame(c, s, Goto(s, w, at));
  }

  lemma InboxKeepsLedger(c: Config, s: State, a: AgentId, inputs: seq<Input>)
    requires Ledger(c, s) && a in s.inbox
    ensures Ledger(c, SetInbox(s, a, inputs))
  {
    assert SetInbox(s, a, inputs).inbox.Keys == s.inbox.Keys;
    LedgerFrame(c, s, SetInbox(s, a, inputs));
  }

  lemma PushKeepsLedger(c: Config, s: State, w: WorkerId)
    requires Ledger(c, s) && CallEnabled(s, w, PushInput)
    ensures Ledger(c, CallStep(c, s, w, PushInput))
  {
    var at, t := s.phase[w], CallStep(c, s, w, PushInput);
    GotoKeepsLedger(c, s, w, t.phase[w]);
    InboxKeepsLedger(c, Goto(s, w, t.phase[w]), at.target, t.inbox[at.target]);
    assert t == SetInbox(Goto(s, w, t.phase[w]), at.target, t.inbox[at.target]);
  }

  /** A child is one level below its parent, which has been started. */
  lemma ChildIsPlaced(c: Config, s: State, w: WorkerId)
    requires AssignedIn(s) && BusyAt(s, w) && s.phase[w].Inserting? && PhaseOk(c, s, w)
    ensures var i := s.worker[w].task; i in s.assignee && i in s.level && s.level[i] + 1 <= c.maxDepth
  {
  }

  lemma InsertChildKeepsLedger(c: Config, s: State, w: WorkerId, task: Task)
    requires Ledger(c, s) && CallEnabled(s, w, InsertChild(task)) && PhaseOk(c, s, w)
    ensures Ledger(c, CallStep(c, s, w, InsertChild(task)))
  {
    var at := CallPhase(c, s, w, InsertChild(task));
    ChildIsPlaced(c, s, w);
    GotoKeepsLedger(c, s, w, at);
    InsertKeepsLedger(c, Goto(s, w, at), task, Some(s.worker[w].task), CreatedBy(w));
    assert CallStep(c, s, w, InsertChild(task))
           == InsertRow(Goto(s, w, at), task, Some(s.worker[w].task), CreatedBy(w));
  }

  lemma SendChildKeepsLedger(c: Config, s: State, w: WorkerId)
    requires Ledger(c, s) && Newborn(s.place, s.phase) && CallEnabled(s, w, SendChild)
    ensures Ledger(c, CallStep(c, s, w, SendChild))
  {
    var at, i := CallPhase(c, s, w, SendChild), s.phase[w].child;
    assert s.place[i] == CreatedBy(w);
    GotoKeepsLedger(c, s, w, at);
    SendKeepsLedger(c, Goto(s, w, at), i);
    assert CallStep(c, s, w, SendChild) == ToChannel(Goto(s, w, at), i).(roots := s.roots - {i});
  }

  lemma CallKeepsLedger(c: Config, s: State, w: WorkerId, t: CallEvent)
    requires Ledger(c, s) && Newborn(s.place, s.phase) && CallEnabled(s, w, t) && PhaseOk(c, s, w)
    ensures Ledger(c, CallStep(c, s, w, t))
  {
    if t.InsertChild? {
      InsertChildKeepsLedger(c, s, w, t.task);
    } else if t.SendChild? {
      SendChildKeepsLedger(c, s, w);
    } else if t.PushInput? {
      PushKeepsLedger(c, s, w);
    } else {
      GotoKeepsLedger(c, s, w, CallPhase(c, s, w, t));
      assert CallStep(c, s, w, t) == Goto(s, w, CallPhase(c, s, w, t));
    }
  }

  lemma StepKeepsLedger(c: Config, s: State, e: Event)
    requires Inv(c, s) && Enabled(c, s, e)
    ensures Ledger(c, Apply(c, s, e))
  {
    match e
    case Daemon(d) => DaemonKeepsLedger(c, s, d);
    case Pool(w, p) => PoolKeepsLedger(c, s, w, p);
    case Setup(w, u) =>
      SetupFrame(s, w, u);
      LedgerFrame(c, s, SetupStep(s, w, u));
    case Loop(w, l) =>
      LoopFrame(s, w, l);
      LedgerFrame(c, s, LoopStep(s, w, l));
    case Call(w, t) =>
      assert PhaseOk(c, s, w);
      CallKeepsLedger(c, s, w, t);
  }

  lemma StepKeepsRunning(c: Config, s: State, e: Event)
    requires Inv(c, s) && Enabled(c, s, e)
    ensures Running(c, Apply(c, s, e))
  {
    match e
    case Daemon(d) => DaemonKeepsRunning(c, s, d);
    case Pool(w, p) => PoolKeepsRunning(c, s, w, p);
    case Setup(w, u) =>
      assert PhaseOkAt(c, s, w);
      SetupKeepsRunning(c, s, w, u);
    case Loop(w, l) =>
      assert PhaseOkAt(c, s, w);
      LoopKeepsRunning(c, s, w, l);
    case Call(w, t) =>
      assert PhaseOkAt(c, s, w);
      CallKeepsRunning(c, s, w, t);
  }

  lemma StepKeepsInv(c: Config, s: State, e: Event)
    requires Inv(c, s) && Enabled(c, s, e)
    ensures Inv(c, Apply(c, s, e))
  {
    StepKeepsLedger(c, s, e);
    StepKeepsRunning(c, s, e);
  }

  lemma RunStep(c: Config, r: Run, k: nat)
    requires IsRun(c, r) && k < |r.events|
    ensures Enabled(c, r.states[k], r.events[k])
    ensures r.states[k + 1] == Apply(c, r.states[k], r.events[k])
  {
    assert StepIn(r.states, r.events, Transitions(c), k);
  }

  /** The states that satisfy the invariant. */
  ghost function Good(c: Config): iset<State> {
    iset s: State | Inv(c, s)
  }

  ghost predicate Stays<T(!new)>(states: seq<T>, good: iset<T>, k: int) {
    0 <= k < |states| - 1 && states[k] in good ==> states[k + 1] in good
  }

  lemma AlongStates<T(!new)>(states: seq<T>, good: iset<T>, k: nat)
    requires k < |states| && states[0] in good
    requires forall j {:trigger Stays(states, good, j)} :: Stays(states, good, j)
    ensures states[k] in good
  {
    var j := 0;
    while j < k
      invariant j <= k && states[j] in good
    {
      assert Stays(states, good, j);
      j := j + 1;
    }
  }

  lemma StepOfRunKeepsInv(c: Config, r: Run, k: int)
    requires IsRun(c, r)
    ensures Stays(r.states, Good(c), k)
  {
    if 0 <= k < |r.events| && r.states[k] in Good(c) {
      RunStep(c, r, k);
      StepKeepsInv(c, r.states[k], r.events[k]);
    }
  }

  /** The invariant holds in every state of every run. */
  lemma RunKeepsInv(c: Config, r: Run, k: nat)
    requires IsRun(c, r) && k < |r.states|
    ensures r.states[k] in Good(c)
  {
    InitInv(c);
    assert Init(c) in Good(c);
    forall j ensures Stays(r.states, Good(c), j) {
      StepOfRunKeepsInv(c, r, j);
    }
    AlongStates(r.states, Good(c), k);
  }

  /** Some run ends in `s`. */
  ghost predicate Reachable(c: Config, s: State) {
    exists r :: IsRun(c, r) && r.states[|r.events|] == s
  }

  lemma ReachableInv(c: Config, s: State)
    requires Reachable(c, s)
    ensures Inv(c, s)
  {
    var r :| IsRun(c, r) && r.states[|r.events|] == s;
    RunKeepsInv(c, r, |r.events|);
  }

  // The parts of the invariant in a reachable state, one at a time.

  lemma ReachableTasks(c: Config, s: State)
    requires Reachable(c, s)
    ensures StoredIn(s) && HeldIn(s) && Newborn(s.place, s.phase)
  {
    ReachableInv(c, s);
  }

  lemma ReachableTree(c: Config, s: State)
    requires Reachable(c, s)
    ensures RootedIn(c, s)
  {
    ReachableInv(c, s);
  }

  lemma ReachableQueue(c: Config, s: State)
    requires Reachable(c, s)
    ensures SortedIn(s) && AskingIn(c, s)
  {
    ReachableInv(c, s);
  }

  lemma ReachableStaff(c: Config, s: State)
    requires Reachable(c, s)
    ensures StaffedIn(c, s)
  {
    ReachableInv(c, s);
  }

  lemma ReachableAssignments(c: Config, s: State)
    requires Reachable(c, s)
    ensures AssignedIn(s) && ListedIn(s)
  {
    ReachableInv(c, s);
  }

  lemma ReachableContainers(c: Config, s: State)
    requires Reachable(c, s)
    ensures OwnedIn(s) && ContainedIn(s)
  {
    ReachableInv(c, s);
  }

  lemma ReachablePhase(c: Config, s: State, w: WorkerId)
    requires Reachable(c, s) && BusyAt(s, w)
    ensures PhaseOk(c, s, w)
  {
    ReachableInv(c, s);
  }
}
