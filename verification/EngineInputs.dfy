/** The input queues over a run: nothing is lost, duplicated or reordered once it has been accepted
    (internal/runtime/runtime.go:318-342, 515-521, 789-813, internal/services/agent/agent_pool.go:358-367). */
module EngineInputs {
  import opened Prelude
  import opened Tools
  import opened Engine
  import opened EngineInvariant
  import opened EngineRuns
  import Agents

  /** What waits in the input queue of agent `a`, who may not exist yet. */
  function Queued(s: State, a: AgentId): seq<Input> {
    if a in s.inbox then s.inbox[a] else []
  }

  /** What event `e` makes agent `a` hear: the head of its queue. */
  function HeardOf(s: State, e: Event, a: AgentId): seq<Input> {
    if e.Loop? && LoopEnabled(s, e.w, e.l) && e.l.Hear? && s.worker[e.w].agent == a then [s.inbox[a][0]] else []
  }

  /** What event `e` gets accepted for agent `a`: the start of its task, or the message of a child if there is room. */
  function SentOf(s: State, e: Event, a: AgentId): seq<Input> {
    if e.Setup? && SetupEnabled(s, e.w, e.u) && e.u.Greet? && s.worker[e.w].agent == a then
      [TaskStart(s.worker[e.w].task)]
    else if e.Call? && CallEnabled(s, e.w, e.t) && e.t.PushInput? && s.phase[e.w].target == a
            && |Queued(s, a)| < Agents.INPUT_CAPACITY then [ChildMessage(s.worker[e.w].task, s.phase[e.w].text)]
    else []
  }

  ghost predicate Balanced(s: State, e: Event, t: State, a: AgentId) {
    Queued(s, a) + SentOf(s, e, a) == HeardOf(s, e, a) + Queued(t, a)
  }

  lemma QuietEvent(s: State, e: Event, t: State, a: AgentId)
    requires |SentOf(s, e, a)| == 0 && |HeardOf(s, e, a)| == 0 && Queued(t, a) == Queued(s, a)
    ensures Balanced(s, e, t, a)
  {
  }

  lemma DaemonKeepsInboxes(c: Config, s: State, d: DaemonEvent)
    requires DaemonEnabled(c, s, d)
    ensures DaemonStep(c, s, d).inbox == s.inbox
  {
    if d.Answer? { AnswerKeepsInboxes(s); }
  }

  lemma AnswerKeepsInboxes(s: State)
    requires |s.dequeueCh| > 0
    ensures AnswerRequest(s).inbox == s.inbox
  {
  }

  lemma PoolKeepsQueued(c: Config, s: State, w: WorkerId, p: PoolEvent, a: AgentId)
    requires StaffedIn(c, s) && PoolEnabled(c, s, w, p)
    ensures Queued(PoolStep(c, s, w, p), a) == Queued(s, a)
  {
    var t := PoolStep(c, s, w, p);
    match p
    case SpawnAgent(b) =>
      assert b !in s.inbox;
      assert t.inbox == s.inbox[b := []];
    case Receive => assert t.inbox == s.inbox;
    case _ => assert t.inbox == s.inbox;
  }

  lemma SetupIsBalanced(s: State, w: WorkerId, u: SetupEvent, a: AgentId)
    requires SetupEnabled(s, w, u)
    ensures Balanced(s, Setup(w, u), SetupStep(s, w, u), a)
  {
    var t, b := SetupStep(s, w, u), s.worker[w].agent;
    if u.Greet? {
      assert t.inbox == s.inbox[b := s.inbox[b] + [TaskStart(s.worker[w].task)]];
    } else {
      assert t.inbox == s.inbox;
      QuietEvent(s, Setup(w, u), t, a);
    }
  }

  lemma LoopIsBalanced(s: State, w: WorkerId, l: LoopEvent, a: AgentId)
    requires LoopEnabled(s, w, l)
    ensures Balanced(s, Loop(w, l), LoopStep(s, w, l), a)
  {
    var t, b := LoopStep(s, w, l), s.worker[w].agent;
    if l.Hear? {
      assert t.inbox == s.inbox[b := s.inbox[b][1..]];
      assert s.inbox[b] == [s.inbox[b][0]] + s.inbox[b][1..];
    } else {
      if l.Decide? { DecideKeepsInboxes(s, w, VerdictOf(s.phase[w].change)); }
      assert t.inbox == s.inbox;
      QuietEvent(s, Loop(w, l), t, a);
    }
  }

  lemma DecideKeepsInboxes(s: State, w: WorkerId, v: Verdict)
    requires BusyAt(s, w)
    ensures Decided(s, w, v).inbox == s.inbox
  {
  }

  lemma CallIsBalanced(c: Config, s: State, w: WorkerId, t: CallEvent, a: AgentId)
    requires CallEnabled(s, w, t)
    ensures Balanced(s, Call(w, t), CallStep(c, s, w, t), a)
  {
    var u := CallStep(c, s, w, t);
    if t.PushInput? {
      var b := s.phase[w].target;
      assert u.inbox == s.inbox[b := Agents.Delivered(s.inbox[b], ChildMessage(s.worker[w].task, s.phase[w].text))];
    } else {
      assert u.inbox == s.inbox;
      QuietEvent(s, Call(w, t), u, a);
    }
  }

  lemma StepIsBalanced(c: Config, s: State, e: Event, a: AgentId)
    requires StaffedIn(c, s) && Enabled(c, s, e)
    ensures Balanced(s, e, Apply(c, s, e), a)
  {
    match e
    case Daemon(d) =>
      DaemonKeepsInboxes(c, s, d);
      QuietEvent(s, e, Apply(c, s, e), a);
    case Pool(w, p) =>
      PoolKeepsQueued(c, s, w, p, a);
      QuietEvent(s, e, Apply(c, s, e), a);
    case Setup(w, u) => SetupIsBalanced(s, w, u, a);
    case Loop(w, l) => LoopIsBalanced(s, w, l, a);
    case Call(w, t) => CallIsBalanced(c, s, w, t, a);
  }

  /** Everything agent `a` has heard before moment `k`, in order. */
  function HeardBy(r: Run, k: nat, a: AgentId): seq<Input>
    requires |r.states| == |r.events| + 1 && k < |r.states|
  {
    if k == 0 then [] else HeardBy(r, k - 1, a) + HeardOf(r.states[k - 1], r.events[k - 1], a)
  }

  /** Everything accepted for it before moment `k`, in order. */
  function SentTo(r: Run, k: nat, a: AgentId): seq<Input>
    requires |r.states| == |r.events| + 1 && k < |r.states|
  {
    if k == 0 then [] else SentTo(r, k - 1, a) + SentOf(r.states[k - 1], r.events[k - 1], a)
  }

  lemma RunStepIsBalanced(c: Config, r: Run, k: nat, a: AgentId)
    requires IsRun(c, r) && k < |r.events|
    ensures Balanced(r.states[k], r.events[k], r.states[k + 1], a)
  {
    RunKeepsInv(c, r, k);
    RunStep(c, r, k);
    StepIsBalanced(c, r.states[k], r.events[k], a);
  }

  ghost predicate Conserved(r: Run, k: nat, a: AgentId)
    requires |r.states| == |r.events| + 1 && k < |r.states|
  {
    SentTo(r, k, a) == HeardBy(r, k, a) + Queued(r.states[k], a)
  }

  lemma ConservedAtStart(c: Config, r: Run, a: AgentId)
    requires IsRun(c, r)
    ensures Conserved(r, 0, a)
  {
    assert r.states[0].inbox == Init(c).inbox == map[];
  }

  lemma ConservedStep(c: Config, r: Run, k: nat, a: AgentId)
    requires IsRun(c, r) && k < |r.events| && Conserved(r, k, a)
    ensures Conserved(r, k + 1, a)
  {
    RunStepIsBalanced(c, r, k, a);
    var s, e, t := r.states[k], r.events[k], r.states[k + 1];
    Rebalance(SentTo(r, k, a), HeardBy(r, k, a), Queued(s, a), Queued(t, a), SentOf(s, e, a), HeardOf(s, e, a));
  }

  /** Over every run, what an agent has heard and what still waits for it is exactly what was accepted for it, in the
      order of acceptance, each input once. */
  lemma InputsConserved(c: Config, r: Run, k: nat, a: AgentId)
    requires IsRun(c, r) && k < |r.states|
    ensures SentTo(r, k, a) == HeardBy(r, k, a) + Queued(r.states[k], a)
  {
    var good := iset m: nat | m < |r.states| && Conserved(r, m, a);
    ConservedAtStart(c, r, a);
    forall m: nat | m < k && m in good ensures m + 1 in good {
      ConservedStep(c, r, m, a);
    }
    CountUp(good, k);
  }
}
