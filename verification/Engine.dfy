/** The task engine as a transition system: the queue loop, the workers, the agent pool, the callback registry and the
    dedicated containers, interleaved in any order. One event is one atomic action of one goroutine. The language
    model, Docker, the identifier generators and the clock are oracles: their answers are parameters of the events. */
module Engine {
  import opened Prelude
  import opened Tasks
  import opened TaskTree
  import opened Containers
  import opened Tools
  import Agents

  const CHANNEL_CAPACITY := 100

  datatype Config = Config(workers: set<WorkerId>, maxAgents: int, maxQueue: int, maxDepth: int)

  datatype Input = TaskStart(task: InstanceId) | ChildMessage(child: InstanceId, text: string)

  /** Where a worker stands inside executeTask. `todo` are the calls still to process, `change` is stateChange. */
  datatype Phase =
    | Starting
    | Creating(container: Option<ContainerId>)
    | Greeting
    | Listening(first: bool)
    | Prompting(first: bool)
    | Acting(todo: seq<Action>, change: Signal)
    | Walking(todo: seq<Action>, change: Signal, current: InstanceId, count: nat)
    | Inserting(todo: seq<Action>, change: Signal, depth: nat)
    | Sending(todo: seq<Action>, change: Signal, child: InstanceId)
    | Messaging(todo: seq<Action>, change: Signal, text: string, target: AgentId, stage: Stage)
    | Leaving

  /** SEND_PARENT after the registry search: entry re-read, agent looked up, input pushed. */
  datatype Stage = Found | Checked | LookedUp

  datatype Worker =
    | Polling
    | Waiting
    | Replied(reply: Option<InstanceId>)
    | Holding(task: InstanceId)
    | Returning(task: InstanceId)
    | Busy(task: InstanceId, agent: AgentId)

  datatype Entry = Entry(task: InstanceId, container: Option<ContainerId>)

  /** Where a task instance is. */
  datatype Place =
    | Created
    | CreatedBy(w: WorkerId)
    | InChannel
    | InQueue
    | InReply(w: WorkerId)
    | HeldBy(w: WorkerId)
    | RunBy(w: WorkerId)
    | Finished
    | Dropped
    | Rejected

  /** Who answers for a container in the manager's map. */
  datatype Owner = Creator(w: WorkerId) | Registered(a: AgentId) | Releaser

  datatype State = State(
    // task_instances rows and the task objects in memory
    parent: Parents,
    heap: map<InstanceId, Task>,
    assignee: map<InstanceId, AgentId>,
    roots: set<InstanceId>,
    finished: set<InstanceId>,
    dropped: set<InstanceId>,
    rejected: set<InstanceId>,
    // the global queue
    enqueueCh: seq<InstanceId>,
    dequeueCh: seq<WorkerId>,
    queue: seq<InstanceId>,
    // workers and agents; `pool` maps an agent to the worker that spawned it
    worker: map<WorkerId, Worker>,
    phase: map<WorkerId, Phase>,
    agentRows: set<AgentId>,
    pool: map<AgentId, WorkerId>,
    closed: set<AgentId>,
    inbox: map<AgentId, seq<Input>>,
    // callbacks and containers
    registry: map<AgentId, Entry>,
    containers: ContainerMap,
    dockerIds: set<ContainerId>,
    releasing: multiset<InstanceId>,
    // history variables, read by no guard: the level of each row, the place of each instance, container owners
    level: map<InstanceId, nat>,
    place: map<InstanceId, Place>,
    owner: map<InstanceId, Owner>)

  function Init(c: Config): State {
    State(map[], map[], map[], {}, {}, {}, {},
          [], [], [],
          map w | w in c.workers :: Polling, map[], {}, map[], {}, map[],
          map[], map[], {}, multiset{},
          map[], map[], map[])
  }

  datatype SpawnFailure = AtCapacity | IdCollision(a: AgentId) | StoreError

  /** The goroutines outside the workers: task creators, the queue loop, container releases. */
  datatype DaemonEvent =
    | InsertRoot(task: Task)
    | SendRoot(i: InstanceId)
    | RejectRoot(i: InstanceId)
    | Accept(now: int, queue: seq<InstanceId>)
    | Refuse
    | Answer
    | Release(i: InstanceId)

  /** A worker between tasks. */
  datatype PoolEvent =
    | Ask
    | Receive
    | SpawnAgent(a: AgentId)
    | SpawnFails(why: SpawnFailure)
    | GiveBack
    | RemoveAgent

  /** A worker before its agent loop. */
  datatype SetupEvent =
    | Abort
    | CreateContainer(made: Option<ContainerId>)
    | Register
    | Greet
    | GreetFails

  /** One round of the agent loop, the tool calls apart. */
  datatype LoopEvent =
    | Hear
    | Respond(calls: seq<Action>)
    | ModelFails
    | Decide

  /** The atomic parts of answering one tool call. */
  datatype CallEvent =
    | Skip
    | Execute
    | StartWalk
    | Climb
    | EndWalk
    | InsertFails
    | FindParent(target: Option<AgentId>)
    | CheckTarget
    | LookUpTarget
    | InsertChild(task: Task)
    | SendChild
    | PushInput

  datatype Event =
    | Daemon(d: DaemonEvent)
    | Pool(w: WorkerId, p: PoolEvent)
    | Setup(w: WorkerId, u: SetupEvent)
    | Loop(w: WorkerId, l: LoopEvent)
    | Call(w: WorkerId, t: CallEvent)

  /** Event `e` is one of worker `w`. */
  predicate OfWorker(e: Event, w: WorkerId) {
    !e.Daemon? && e.w == w
  }

  predicate BusyAt(s: State, w: WorkerId) {
    w in s.worker && s.worker[w].Busy? && w in s.phase
  }

  function View(heap: map<InstanceId, Task>, q: seq<InstanceId>): (v: seq<Task>)
    requires forall k | 0 <= k < |q| :: q[k] in heap
    ensures |v| == |q| && forall k | 0 <= k < |q| :: v[k] == heap[q[k]]
  {
    seq(|q|, k requires 0 <= k < |q| => heap[q[k]])
  }

  function Rescored(t: Task, now: int): Task {
    t.(score := Score(t.priority, t.created, now))
  }

  /** A call that is answered on the spot: an unknown tool, a missing argument, or a message to the orchestrator
      because the task has no parent. SET_STATE is answered on the spot too. */
  predicate AnsweredAtOnce(s: State, task: InstanceId, a: Action)
    requires task in s.parent
  {
    match a
    case SetState(_, _) => true
    case SendParent(m) => |m| == 0 || s.parent[task] == None
    case SpawnTask(d) => |d| == 0
    case ExecuteCmd(code) => |code| == 0
    case UnknownTool => true
  }

  ghost predicate DaemonEnabled(c: Config, s: State, d: DaemonEvent) {
    match d
    case InsertRoot(t) => t.id !in s.parent
    case SendRoot(i) => i in s.roots && 0 <= c.maxDepth && |s.enqueueCh| < CHANNEL_CAPACITY
    case RejectRoot(i) => i in s.roots && 0 > c.maxDepth
    case Accept(now, q) =>
      && |s.enqueueCh| > 0
      && |s.queue| < c.maxQueue
      && var i := s.enqueueCh[0];
         && i in s.heap && now >= s.heap[i].created
         && multiset(q) == multiset(s.queue + [i])
         && (forall k | 0 <= k < |q| :: q[k] in s.heap)
         && Ordered(View(s.heap[i := Rescored(s.heap[i], now)], q))
    case Refuse => |s.enqueueCh| > 0 && |s.queue| >= c.maxQueue
    case Answer => |s.dequeueCh| > 0
    case Release(i) => i in s.releasing
  }

  predicate PoolEnabled(c: Config, s: State, w: WorkerId, p: PoolEvent) {
    && w in s.worker
    && var k := s.worker[w];
       match p
       case Ask => k.Polling? && |s.dequeueCh| < CHANNEL_CAPACITY
       case Receive => k.Replied?
       case SpawnAgent(a) => k.Holding? && Agents.Admits(s.pool.Keys, s.agentRows, c.maxAgents, a)
       case SpawnFails(AtCapacity) => k.Holding? && |s.pool| >= c.maxAgents
       case SpawnFails(IdCollision(a)) => k.Holding? && |s.pool| < c.maxAgents && a in s.agentRows
       case SpawnFails(StoreError) => k.Holding? && |s.pool| < c.maxAgents
       case GiveBack => k.Returning? && |s.enqueueCh| < CHANNEL_CAPACITY
       case RemoveAgent => BusyAt(s, w) && s.phase[w].Leaving?
  }

  predicate SetupEnabled(s: State, w: WorkerId, u: SetupEvent) {
    && BusyAt(s, w)
    && var k, at := s.worker[w], s.phase[w];
       match u
       case Abort => at.Starting?
       case CreateContainer(made) => at.Starting? && (made.Some? ==> made.value !in s.dockerIds)
       case Register => at.Creating?
       case Greet => at.Greeting? && k.agent in s.inbox && |s.inbox[k.agent]| < Agents.INPUT_CAPACITY
       case GreetFails => at.Greeting? && k.agent in s.inbox && |s.inbox[k.agent]| >= Agents.INPUT_CAPACITY
  }

  predicate LoopEnabled(s: State, w: WorkerId, l: LoopEvent) {
    && BusyAt(s, w)
    && var k, at := s.worker[w], s.phase[w];
       match l
       case Hear => at.Listening? && k.agent in s.inbox && |s.inbox[k.agent]| > 0
       case Respond(calls) => at.Prompting?
       case ModelFails => at.Prompting?
       case Decide => at.Acting? && |at.todo| == 0
  }

  /** The calls of a response are answered in order; `head` is the one being answered. */
  predicate CallEnabled(s: State, w: WorkerId, t: CallEvent) {
    && BusyAt(s, w)
    && s.worker[w].task in s.parent
    && var at := s.phase[w];
       var acting := at.Acting? && |at.todo| > 0;
       match t
       case Skip => acting && AnsweredAtOnce(s, s.worker[w].task, at.todo[0])
       case Execute => acting && at.todo[0].ExecuteCmd? && |at.todo[0].code| > 0
       case StartWalk => acting && at.todo[0].SpawnTask? && |at.todo[0].description| > 0
       case Climb => at.Walking? && at.current in s.parent && s.parent[at.current].Some?
       case EndWalk => at.Walking? && (at.current !in s.parent || s.parent[at.current].None?)
       case InsertFails => at.Inserting?
       case FindParent(target) =>
         && acting && at.todo[0].SendParent? && |at.todo[0].message| > 0
         && s.parent[s.worker[w].task].Some?
         && var p := s.parent[s.worker[w].task].value;
            (match target
             case Some(a) => a in s.registry && s.registry[a].task == p
             case None => forall a | a in s.registry :: s.registry[a].task != p)
       case CheckTarget => at.Messaging? && at.stage.Found?
       case LookUpTarget => at.Messaging? && at.stage.Checked?
       case InsertChild(task) => at.Inserting? && task.id !in s.parent
       case SendChild => at.Sending? && |s.enqueueCh| < CHANNEL_CAPACITY
       case PushInput => at.Messaging? && at.stage.LookedUp? && at.target in s.inbox
  }

  ghost predicate Enabled(c: Config, s: State, e: Event) {
    match e
    case Daemon(d) => DaemonEnabled(c, s, d)
    case Pool(w, p) => PoolEnabled(c, s, w, p)
    case Setup(w, u) => SetupEnabled(s, w, u)
    case Loop(w, l) => LoopEnabled(s, w, l)
    case Call(w, t) => CallEnabled(s, w, t)
  }

  /** Worker `w` moves on inside executeTask. */
  function Goto(s: State, w: WorkerId, at: Phase): State
    requires BusyAt(s, w)
  {
    s.(phase := s.phase[w := at])
  }

  function InsertRow(s: State, t: Task, above: Option<InstanceId>, at: Place): State {
    s.(parent := s.parent[t.id := above], heap := s.heap[t.id := t], place := s.place[t.id := at],
       level := s.level[t.id := if above.Some? && above.value in s.level then s.level[above.value] + 1 else 0])
  }

  function ToChannel(s: State, i: InstanceId): State {
    s.(enqueueCh := s.enqueueCh + [i], place := s.place[i := InChannel])
  }

  /** The enqueue arm of the queue loop: score, append, sort. */
  function AcceptTask(s: State, now: int, q: seq<InstanceId>): State
    requires |s.enqueueCh| > 0 && s.enqueueCh[0] in s.heap
  {
    var i := s.enqueueCh[0];
    s.(enqueueCh := s.enqueueCh[1..], queue := q, heap := s.heap[i := Rescored(s.heap[i], now)],
       place := s.place[i := InQueue])
  }

  /** The enqueue arm when the queue is full: the error is logged and the task forgotten. */
  function RefuseTask(s: State): State
    requires |s.enqueueCh| > 0
  {
    var i := s.enqueueCh[0];
    s.(enqueueCh := s.enqueueCh[1..], dropped := s.dropped + {i}, place := s.place[i := Dropped])
  }

  /** The dequeue arm. Workers ask for any type, so the pick is the head. */
  function AnswerRequest(s: State): State
    requires |s.dequeueCh| > 0
  {
    var w, q := s.dequeueCh[0], s.queue;
    s.(dequeueCh := s.dequeueCh[1..],
       worker := s.worker[w := Replied(if |q| == 0 then None else Some(q[0]))],
       queue := if |q| == 0 then q else q[1..],
       place := if |q| == 0 then s.place else s.place[q[0] := InReply(w)])
  }

  function ReceiveReply(s: State, w: WorkerId): State
    requires w in s.worker && s.worker[w].Replied?
  {
    var reply := s.worker[w].reply;
    s.(worker := s.worker[w := if reply.None? then Polling else Holding(reply.value)],
       place := if reply.None? then s.place else s.place[reply.value := HeldBy(w)])
  }

  /** SpawnAgent followed by the first lines of executeTask, which assign the task to the agent. */
  function StartTask(s: State, w: WorkerId, a: AgentId): State
    requires w in s.worker && s.worker[w].Holding?
  {
    var i := s.worker[w].task;
    s.(worker := s.worker[w := Busy(i, a)], phase := s.phase[w := Starting], agentRows := s.agentRows + {a},
       pool := s.pool[a := w],
       inbox := s.inbox[a := []], assignee := s.assignee[i := a], place := s.place[i := RunBy(w)])
  }

  function ObtainContainer(s: State, w: WorkerId, made: Option<ContainerId>): State
    requires BusyAt(s, w)
  {
    var i := s.worker[w].task;
    var m := Obtained(s.containers, i, made);
    Goto(s, w, Creating(if i in m then Some(m[i]) else None))
      .(containers := m, dockerIds := s.dockerIds + (if made.Some? then {made.value} else {}),
        owner := if i in m then s.owner[i := Creator(w)] else s.owner)
  }

  function RegisterAgent(s: State, w: WorkerId): State
    requires BusyAt(s, w) && s.phase[w].Creating?
  {
    var i, a, made := s.worker[w].task, s.worker[w].agent, s.phase[w].container;
    Goto(s, w, Greeting)
      .(registry := s.registry[a := Entry(i, made)],
        owner := if made.Some? then s.owner[i := Registered(a)] else s.owner)
  }

  function SetInbox(s: State, a: AgentId, inputs: seq<Input>): State {
    s.(inbox := s.inbox[a := inputs])
  }

  /** Unregistering drops the entry and starts a goroutine that will release the container, if there is one. */
  function UnregisterAgent(s: State, a: AgentId): State {
    var held := a in s.registry && s.registry[a].container.Some?;
    s.(registry := s.registry - {a},
       releasing := if held then s.releasing + multiset{s.registry[a].task} else s.releasing,
       owner := if held then s.owner[s.registry[a].task := Releaser] else s.owner)
  }

  /** Removing an agent the pool does not know leaves the pool and its stop channel alone. */
  function EndTask(s: State, w: WorkerId): State
    requires BusyAt(s, w)
  {
    var i, a := s.worker[w].task, s.worker[w].agent;
    s.(worker := s.worker[w := Polling], phase := s.phase - {w}, pool := s.pool - {a},
       closed := if a in s.pool then s.closed + {a} else s.closed,
       finished := s.finished + {i}, place := s.place[i := Finished])
  }

  /** The calls left after the head call has been answered. */
  function Next(todo: seq<Action>, change: Signal): Phase {
    if |todo| == 0 then Acting([], change) else Acting(todo[1..], NextChange(change, todo[0]))
  }

  ghost function DaemonStep(c: Config, s: State, d: DaemonEvent): State
    requires DaemonEnabled(c, s, d)
  {
    match d
    case InsertRoot(t) => InsertRow(s, t, None, Created).(roots := s.roots + {t.id})
    case SendRoot(i) => ToChannel(s, i).(roots := s.roots - {i})
    case RejectRoot(i) =>
      s.(roots := s.roots - {i}, rejected := s.rejected + {i}, place := s.place[i := Rejected])
    case Accept(now, q) => AcceptTask(s, now, q)
    case Refuse => RefuseTask(s)
    case Answer => AnswerRequest(s)
    case Release(i) =>
      s.(containers := s.containers - {i}, releasing := s.releasing - multiset{i}, owner := s.owner - {i})
  }

  function PoolStep(c: Config, s: State, w: WorkerId, p: PoolEvent): State
    requires PoolEnabled(c, s, w, p)
  {
    match p
    case Ask => s.(worker := s.worker[w := Waiting], dequeueCh := s.dequeueCh + [w])
    case Receive => ReceiveReply(s, w)
    case SpawnAgent(a) => StartTask(s, w, a)
    case SpawnFails(why) => s.(worker := s.worker[w := Returning(s.worker[w].task)])
    case GiveBack => ToChannel(s, s.worker[w].task).(worker := s.worker[w := Polling])
    case RemoveAgent => EndTask(s, w)
  }

  function SetupStep(s: State, w: WorkerId, u: SetupEvent): State
    requires SetupEnabled(s, w, u)
  {
    var a := s.worker[w].agent;
    match u
    case Abort => Goto(s, w, Leaving)
    case CreateContainer(made) => ObtainContainer(s, w, made)
    case Register => RegisterAgent(s, w)
    case Greet => SetInbox(Goto(s, w, Listening(true)), a, s.inbox[a] + [TaskStart(s.worker[w].task)])
    case GreetFails => Goto(s, w, Leaving)
  }

  function Decided(s: State, w: WorkerId, v: Verdict): State
    requires BusyAt(s, w)
  {
    match v
    case KeepListening => Goto(s, w, Listening(false))
    case Leave => Goto(s, w, Leaving)
    case Unregister => UnregisterAgent(Goto(s, w, Leaving), s.worker[w].agent)
  }

  function LoopStep(s: State, w: WorkerId, l: LoopEvent): State
    requires LoopEnabled(s, w, l)
  {
    var a, at := s.worker[w].agent, s.phase[w];
    match l
    case Hear => SetInbox(Goto(s, w, Prompting(at.first)), a, s.inbox[a][1..])
    case Respond(calls) => Goto(s, w, if |calls| == 0 then Leaving else Acting(calls, NO_CHANGE))
    case ModelFails => Goto(s, w, Leaving)
    case Decide => Decided(s, w, VerdictOf(at.change))
  }

  /** The phase after a call event. */
  function CallPhase(c: Config, s: State, w: WorkerId, t: CallEvent): Phase
    requires CallEnabled(s, w, t)
  {
    var at := s.phase[w];
    match t
    case Skip => Next(at.todo, at.change)
    case Execute => Next(at.todo, at.change)
    case StartWalk => Walking(at.todo, at.change, s.worker[w].task, 0)
    case Climb => Walking(at.todo, at.change, s.parent[at.current].value, at.count + 1)
    case EndWalk =>
      if at.count + 1 > c.maxDepth then Next(at.todo, at.change) else Inserting(at.todo, at.change, at.count + 1)
    case InsertFails => Next(at.todo, at.change)
    case FindParent(None) => Next(at.todo, at.change)
    case FindParent(Some(a)) => Messaging(at.todo, at.change, at.todo[0].message, a, Found)
    case CheckTarget => if at.target in s.registry then at.(stage := Checked) else Next(at.todo, at.change)
    case LookUpTarget => if at.target in s.pool then at.(stage := LookedUp) else Next(at.todo, at.change)
    case InsertChild(task) => Sending(at.todo, at.change, task.id)
    case SendChild => Next(at.todo, at.change)
    case PushInput => Next(at.todo, at.change)
  }

  /** Most call events only move the worker on; three also touch the store, the queue or an inbox. */
  function CallStep(c: Config, s: State, w: WorkerId, t: CallEvent): State
    requires CallEnabled(s, w, t)
  {
    var at, i := s.phase[w], s.worker[w].task;
    var moved := Goto(s, w, CallPhase(c, s, w, t));
    match t
    case InsertChild(task) => InsertRow(moved, task, Some(i), CreatedBy(w))
    case SendChild => ToChannel(moved, at.child)
    case PushInput => SetInbox(moved, at.target, Agents.Delivered(s.inbox[at.target], ChildMessage(i, at.text)))
    case _ => moved
  }

  ghost function Apply(c: Config, s: State, e: Event): State
    requires Enabled(c, s, e)
  {
    match e
    case Daemon(d) => DaemonStep(c, s, d)
    case Pool(w, p) => PoolStep(c, s, w, p)
    case Setup(w, u) => SetupStep(s, w, u)
    case Loop(w, l) => LoopStep(s, w, l)
    case Call(w, t) => CallStep(c, s, w, t)
  }
}
