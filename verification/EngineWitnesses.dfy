/** Runs that show what the engine does not prevent, a container left behind and a queue with a class inversion, and the
    configurations that have such runs. */
module EngineWitnesses {
  import opened Prelude
  import opened Tasks
  import opened Engine
  import opened EngineRuns
  import opened EngineExits

  /** A reachable state and one more event. */
  lemma Extend(c: Config, s: State, e: Event) returns (t: State)
    requires Reachable(c, s) && Enabled(c, s, e)
    ensures Reachable(c, t) && t == Apply(c, s, e)
  {
    var r :| IsRun(c, r) && r.states[|r.events|] == s;
    t := Apply(c, s, e);
    assert Transition(s, e, t) in Transitions(c);
    ExtendRun(c, r, e, t);
  }

  lemma ExtendRun(c: Config, r: Run, e: Event, t: State)
    requires IsRun(c, r) && Transition(r.states[|r.events|], e, t) in Transitions(c)
    ensures Reachable(c, t)
  {
    var u := Run(r.states + [t], r.events + [e]);
    LinkMore(r.states, r.events, Transitions(c), e, t);
    assert IsRun(c, u) && u.states[|u.events|] == t;
  }

  lemma DaemonExtends(c: Config, s: State, d: DaemonEvent) returns (t: State)
    requires Reachable(c, s) && DaemonEnabled(c, s, d)
    ensures Reachable(c, t) && t == DaemonStep(c, s, d)
  {
    t := Extend(c, s, Daemon(d));
  }

  lemma PoolExtends(c: Config, s: State, w: WorkerId, p: PoolEvent) returns (t: State)
    requires Reachable(c, s) && PoolEnabled(c, s, w, p)
    ensures Reachable(c, t) && t == PoolStep(c, s, w, p)
  {
    t := Extend(c, s, Pool(w, p));
  }

  lemma SetupExtends(c: Config, s: State, w: WorkerId, u: SetupEvent) returns (t: State)
    requires Reachable(c, s) && SetupEnabled(s, w, u)
    ensures Reachable(c, t) && t == SetupStep(s, w, u)
  {
    t := Extend(c, s, Setup(w, u));
  }

  lemma LoopExtends(c: Config, s: State, w: WorkerId, l: LoopEvent) returns (t: State)
    requires Reachable(c, s) && LoopEnabled(s, w, l)
    ensures Reachable(c, t) && t == LoopStep(s, w, l)
  {
    t := Extend(c, s, Loop(w, l));
  }

  lemma InitReachable(c: Config)
    ensures Reachable(c, Init(c))
  {
    var r := Run([Init(c)], []);
    assert IsRun(c, r) && r.states[|r.events|] == Init(c);
  }

  /** Nothing has happened except to tasks. */
  predicate Untouched(c: Config, s: State) {
    && s.worker == (map w | w in c.workers :: Polling) && s.phase == map[] && s.dequeueCh == []
    && s.agentRows == {} && s.pool == map[] && s.inbox == map[]
    && s.registry == map[] && s.containers == map[] && s.dockerIds == {}
  }

  /** A root task is created, sent and taken into the queue, which becomes `q`. */
  lemma Admit(c: Config, s: State, task: Task, now: int, q: seq<InstanceId>) returns (t: State)
    requires Reachable(c, s) && Untouched(c, s) && s.enqueueCh == [] && 0 <= c.maxDepth && |s.queue| < c.maxQueue
    requires task.id !in s.parent && now >= task.created
    requires multiset(q) == multiset(s.queue + [task.id])
    requires var heap := s.heap[task.id := Rescored(task, now)];
             (forall k | 0 <= k < |q| :: q[k] in heap) && Ordered(View(heap, q))
    ensures Reachable(c, t) && Untouched(c, t) && t.enqueueCh == [] && t.queue == q
    ensures t.heap == s.heap[task.id := Rescored(task, now)] && t.parent == s.parent[task.id := None]
  {
    var created := DaemonExtends(c, s, InsertRoot(task));
    assert created.heap == s.heap[task.id := task] && created.queue == s.queue && created.enqueueCh == [];
    var sent := DaemonExtends(c, created, SendRoot(task.id));
    assert sent.heap == created.heap && sent.queue == s.queue && sent.enqueueCh == [task.id];
    assert sent.heap[task.id := Rescored(task, now)] == s.heap[task.id := Rescored(task, now)];
    t := DaemonExtends(c, sent, Accept(now, q));
  }

  const HOUR := 60 * NANOS_PER_MINUTE

  lemma HourScores(created: int)
    ensures Score(Low, created, created + HOUR) == 1.0
    ensures Score(Normal, created, created) == 1.0
  {
    assert AgeMinutes(created, created + HOUR) == HOUR as real / NANOS_PER_MINUTE as real == 60.0;
    assert AgeMinutes(created, created) == 0.0;
  }

  /** A low task accepted at the age of an hour stands ahead of a normal task accepted at once. SpawnRootTask takes any
      priority; its callers in internal/runtime/session.go:333-340 and SpawnSubTask's in internal/runtime/runtime.go:569
      pass the normal one, so the run needs another caller. */
  lemma InversionHappens(c: Config) returns (s: State)
    requires 0 <= c.maxDepth && 2 <= c.maxQueue
    ensures Reachable(c, s) && s.queue == [0, 1] && 0 in s.heap && 1 in s.heap
    ensures s.heap[0].priority == Low && s.heap[1].priority == Normal
    ensures Class(s.heap[0].priority) < Class(s.heap[1].priority)
  {
    InitReachable(c);
    HourScores(0);
    HourScores(HOUR);
    var low, high := Task(0, Any, Low, 0, 0.0), Task(1, Any, Normal, HOUR, 0.0);
    var one := Admit(c, Init(c), low, HOUR, [0]);
    var heap := one.heap[1 := Rescored(high, HOUR)];
    assert View(heap, [0, 1]) == [Rescored(low, HOUR), Rescored(high, HOUR)];
    s := Admit(c, one, high, HOUR, [0, 1]);
  }

  /** Worker `w` runs task `i` with agent `a` and has got as far as `at`. */
  predicate RunsAt(s: State, w: WorkerId, i: InstanceId, a: AgentId, at: Phase) {
    && w in s.worker && s.worker[w] == Busy(i, a)
    && w in s.phase && s.phase[w] == at
    && a in s.pool && s.pool[a] == w
  }

  /** Worker `w` gets the one task of the queue, and an agent for it. */
  lemma Begin(c: Config, s: State, w: WorkerId, i: InstanceId) returns (t: State)
    requires Reachable(c, s) && Untouched(c, s) && w in c.workers && 0 < c.maxAgents && s.queue == [i]
    ensures Reachable(c, t) && RunsAt(t, w, i, 0, Starting) && 0 in t.inbox && t.inbox[0] == []
    ensures t.containers == map[] && t.dockerIds == {}
  {
    var asked := PoolExtends(c, s, w, Ask);
    assert asked.dequeueCh == [w] && asked.queue == [i] && asked.pool == map[] && asked.agentRows == {};
    var answered := DaemonExtends(c, asked, Answer);
    assert w in answered.worker && answered.worker[w] == Replied(Some(i));
    assert answered.pool == map[] && answered.agentRows == {};
    var held := PoolExtends(c, answered, w, Receive);
    assert w in held.worker && held.worker[w] == Holding(i) && held.pool == map[] && held.agentRows == {};
    t := PoolExtends(c, held, w, SpawnAgent(0));
  }

  /** The worker makes a container and registers its agent. */
  lemma Prepare(c: Config, s: State, w: WorkerId, i: InstanceId) returns (t: State)
    requires Reachable(c, s) && RunsAt(s, w, i, 0, Starting) && 0 in s.inbox && s.inbox[0] == []
    requires i !in s.containers && 0 !in s.dockerIds
    ensures Reachable(c, t) && RunsAt(t, w, i, 0, Greeting) && 0 in t.inbox && t.inbox[0] == []
    ensures 0 in t.registry && t.registry[0] == Entry(i, Some(0)) && i in t.containers && t.containers[i] == 0
  {
    var made := SetupExtends(c, s, w, CreateContainer(Some(0)));
    assert RunsAt(made, w, i, 0, Creating(Some(0))) && made.inbox == s.inbox && made.containers == s.containers[i := 0];
    t := SetupExtends(c, made, w, Register);
    assert t.inbox == made.inbox && t.containers == made.containers;
  }

  /** It starts its loop, hears its task, and the model fails. */
  lemma LoseModel(c: Config, s: State, w: WorkerId, i: InstanceId) returns (t: State)
    requires Reachable(c, s) && RunsAt(s, w, i, 0, Greeting) && 0 in s.inbox && s.inbox[0] == []
    ensures Reachable(c, t) && RunsAt(t, w, i, 0, Leaving) && t.registry == s.registry && t.containers == s.containers
  {
    var greeted := SetupExtends(c, s, w, Greet);
    assert RunsAt(greeted, w, i, 0, Listening(true)) && 0 in greeted.inbox && |greeted.inbox[0]| == 1;
    assert greeted.registry == s.registry && greeted.containers == s.containers;
    var heard := LoopExtends(c, greeted, w, Hear);
    assert RunsAt(heard, w, i, 0, Prompting(true)) && heard.registry == s.registry && heard.containers == s.containers;
    t := LoopExtends(c, heard, w, ModelFails);
  }

  /** The container of a task whose first model call fails stays behind, in any configuration that can run a task at
      all. */
  lemma LeakHappens(c: Config, w: WorkerId) returns (s: State, a: AgentId, i: InstanceId)
    requires w in c.workers && 0 < c.maxAgents && 0 < c.maxQueue && 0 <= c.maxDepth
    ensures Reachable(c, s) && Stranded(s, a) && a in s.registry && s.registry[a].task == i
    ensures i in s.containers && s.registry[a].container == Some(s.containers[i]) && !Attended(s, i)
  {
    InitReachable(c);
    a, i := 0, 0;
    var queued := Admit(c, Init(c), Task(i, Any, Normal, 0, 0.0), 0, [i]);
    var begun := Begin(c, queued, w, i);
    var prepared := Prepare(c, begun, w, i);
    s := LoseModel(c, prepared, w, i);
    ReachableInv(c, s);
    assert Holds(s, a, i);
    UnattendedIffStranded(c, s, i);
  }

  // ---------------------------------------------------------------- exactly when a leak is possible

  predicate CanRunTasks(c: Config) {
    |c.workers| > 0 && 0 < c.maxAgents && 0 < c.maxQueue && 0 <= c.maxDepth
  }

  /** No worker has been given a task. */
  predicate Inert(c: Config, s: State) {
    && s.queue == [] && s.phase == map[]
    && (c.maxDepth < 0 ==> s.enqueueCh == [])
    && (forall w | w in s.worker :: s.worker[w] == Polling || s.worker[w] == Waiting || s.worker[w] == Replied(None))
  }

  lemma InertDaemon(c: Config, s: State, d: DaemonEvent)
    requires Inert(c, s) && (c.maxQueue <= 0 || c.maxDepth < 0) && DaemonEnabled(c, s, d)
    ensures Inert(c, DaemonStep(c, s, d))
  {
    var t := DaemonStep(c, s, d);
    if d.Answer? {
      assert t.worker == s.worker[s.dequeueCh[0] := Replied(None)] && t.queue == [] && t.phase == s.phase;
    }
  }

  lemma InertPool(c: Config, s: State, w: WorkerId, p: PoolEvent)
    requires Inert(c, s) && PoolEnabled(c, s, w, p)
    ensures Inert(c, PoolStep(c, s, w, p))
  {
    var t := PoolStep(c, s, w, p);
    assert p.Ask? || p.Receive?;
    assert t.worker == s.worker[w := if p.Ask? then Waiting else Polling];
  }

  lemma InertStep(c: Config, s: State, e: Event)
    requires Inert(c, s) && (c.maxQueue <= 0 || c.maxDepth < 0) && Enabled(c, s, e)
    ensures Inert(c, Apply(c, s, e))
  {
    match e
    case Daemon(d) => InertDaemon(c, s, d);
    case Pool(w, p) => InertPool(c, s, w, p);
    case Setup(w, _) => assert false;
    case Loop(w, _) => assert false;
    case Call(w, _) => assert false;
  }

  lemma InertRun(c: Config, r: Run, k: nat)
    requires IsRun(c, r) && k < |r.states| && (c.maxQueue <= 0 || c.maxDepth < 0)
    ensures Inert(c, r.states[k])
  {
    var inert := iset m: nat | m < |r.states| && Inert(c, r.states[m]);
    assert Inert(c, Init(c));
    forall m: nat | m < k && m in inert ensures m + 1 in inert {
      RunStep(c, r, m);
      InertStep(c, r.states[m], r.events[m]);
    }
    CountUp(inert, k);
  }

  /** A loop can be abandoned only in a configuration that can run tasks. */
  lemma AbandonedNeedsTasks(c: Config, r: Run, k: nat, a: AgentId)
    requires IsRun(c, r) && k < |r.events| && AbandonsAt(r, k, a)
    ensures CanRunTasks(c)
  {
    var s, w := r.states[k], r.events[k].w;
    RunKeepsInv(c, r, k);
    assert BusyAt(s, w) && w in c.workers;
    assert |s.pool| > 0 by { assert s.worker[w].agent in s.pool; }
    if c.maxQueue <= 0 || c.maxDepth < 0 {
      InertRun(c, r, k);
    }
  }

  /** Some run leaves an entry behind, and some run a container that nobody will see to, if and only if the
      configuration can run tasks at all: nothing short of that prevents it. */
  lemma LeakIff(c: Config)
    ensures (exists s, a :: Reachable(c, s) && Stranded(s, a)) <==> CanRunTasks(c)
    ensures (exists s, i :: Reachable(c, s) && i in s.containers && !Attended(s, i)) <==> CanRunTasks(c)
  {
    if CanRunTasks(c) {
      var w :| w in c.workers;
      var s, a, i := LeakHappens(c, w);
      assert Reachable(c, s) && Stranded(s, a);
      assert Reachable(c, s) && i in s.containers && !Attended(s, i);
    }
    if s, a :| Reachable(c, s) && Stranded(s, a) {
      StrandedNeedsTasks(c, s, a);
    }
    if s, i :| Reachable(c, s) && i in s.containers && !Attended(s, i) {
      ReachableInv(c, s);
      UnattendedIffStranded(c, s, i);
      var a :| Holds(s, a, i) && Stranded(s, a);
      StrandedNeedsTasks(c, s, a);
    }
  }

  lemma StrandedNeedsTasks(c: Config, s: State, a: AgentId)
    requires Reachable(c, s) && Stranded(s, a)
    ensures CanRunTasks(c)
  {
    var r :| IsRun(c, r) && r.states[|r.events|] == s;
    StrandedIffAbandoned(c, r, |r.events|, a);
    var j: nat :| j < |r.events| && AbandonsAt(r, j, a);
    AbandonedNeedsTasks(c, r, j, a);
  }

  // ---------------------------------------------------------------- exactly when an inversion is possible

  /** Some task stands ahead of one of a strictly higher class. */
  ghost predicate Inverted(s: State) {
    exists j, k :: InvertedAt(s, j, k)
  }

  predicate InvertedAt(s: State, j: int, k: int) {
    && 0 <= j < k < |s.queue| && s.queue[j] in s.heap && s.queue[k] in s.heap
    && Class(s.heap[s.queue[j]].priority) < Class(s.heap[s.queue[k]].priority)
  }

  predicate QueueFits(c: Config, s: State) {
    |s.queue| <= c.maxQueue || |s.queue| == 0
  }

  lemma FitsDaemon(c: Config, s: State, d: DaemonEvent)
    requires QueueFits(c, s) && DaemonEnabled(c, s, d)
    ensures QueueFits(c, DaemonStep(c, s, d))
  {
    if d.Accept? {
      SameSize(d.queue, s.queue + [s.enqueueCh[0]]);
    }
    if d.Answer? {
      assert AnswerRequest(s).queue == if |s.queue| == 0 then s.queue else s.queue[1..];
    }
  }

  lemma FitsStep(c: Config, s: State, e: Event)
    requires QueueFits(c, s) && Enabled(c, s, e)
    ensures QueueFits(c, Apply(c, s, e))
  {
    match e
    case Daemon(d) => FitsDaemon(c, s, d);
    case Pool(w, p) => PoolKeepsQueue(c, s, w, p);
    case Setup(w, u) => SetupKeepsQueue(s, w, u);
    case Loop(w, l) => LoopKeepsQueue(s, w, l);
    case Call(w, t) => CallKeepsQueue(c, s, w, t);
  }

  lemma PoolKeepsQueue(c: Config, s: State, w: WorkerId, p: PoolEvent)
    requires PoolEnabled(c, s, w, p)
    ensures PoolStep(c, s, w, p).queue == s.queue
  {
    if p.Receive? { ReceiveKeepsQueue(s, w); }
  }

  lemma ReceiveKeepsQueue(s: State, w: WorkerId)
    requires w in s.worker && s.worker[w].Replied?
    ensures ReceiveReply(s, w).queue == s.queue
  {
  }

  lemma SetupKeepsQueue(s: State, w: WorkerId, u: SetupEvent)
    requires SetupEnabled(s, w, u)
    ensures SetupStep(s, w, u).queue == s.queue
  {
    SetupFrame(s, w, u);
  }

  lemma LoopKeepsQueue(s: State, w: WorkerId, l: LoopEvent)
    requires LoopEnabled(s, w, l)
    ensures LoopStep(s, w, l).queue == s.queue
  {
    LoopFrame(s, w, l);
  }

  lemma CallKeepsQueue(c: Config, s: State, w: WorkerId, t: CallEvent)
    requires CallEnabled(s, w, t)
    ensures CallStep(c, s, w, t).queue == s.queue
  {
  }

  /** The queue never holds more than MaxQueueSize tasks. */
  lemma QueueNeverOverflows(c: Config, r: Run, k: nat)
    requires IsRun(c, r) && k < |r.states|
    ensures QueueFits(c, r.states[k])
  {
    var fits := iset m: nat | m < |r.states| && QueueFits(c, r.states[m]);
    assert Init(c).queue == [];
    forall m: nat | m < k && m in fits ensures m + 1 in fits {
      RunStep(c, r, m);
      FitsStep(c, r.states[m], r.events[m]);
    }
    CountUp(fits, k);
  }

  /** Some run inverts two classes if and only if tasks are accepted at all and two of them fit into the queue. */
  lemma InversionIff(c: Config)
    ensures (exists s :: Reachable(c, s) && Inverted(s)) <==> 0 <= c.maxDepth && 2 <= c.maxQueue
  {
    if 0 <= c.maxDepth && 2 <= c.maxQueue {
      var s := InversionHappens(c);
      assert InvertedAt(s, 0, 1);
    }
    if s :| Reachable(c, s) && Inverted(s) {
      var r :| IsRun(c, r) && r.states[|r.events|] == s;
      var j, k :| InvertedAt(s, j, k);
      QueueNeverOverflows(c, r, |r.events|);
      if c.maxDepth < 0 {
        InertRun(c, r, |r.events|);
      }
    }
  }
}
