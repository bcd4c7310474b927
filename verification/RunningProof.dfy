/** Every event keeps what is known about the inside of executeTask. */
module RunningProof {
  import opened Prelude
  import opened Tasks
  import opened TaskTree
  import opened Tools
  import opened Engine
  import opened EngineInvariant
  import opened RunningMoves

  // ---------------------------------------------------------------- outside the workers

  ghost predicate PhaseOkAt(c: Config, s: State, w: WorkerId) {
    BusyAt(s, w) && PhaseOk(c, s, w)
  }

  /** What Running looks at. */
  function RunningView(s: State): State {
    s.(heap := map[], roots := {}, finished := {}, dropped := {}, rejected := {}, enqueueCh := [], dequeueCh := [],
       queue := [], agentRows := {}, pool := map[], closed := {})
  }

  lemma RunningFrame(c: Config, s: State, t: State)
    requires Running(c, s) && RunningView(t) == RunningView(s)
    ensures Running(c, t)
  {
    assert t.phase == s.phase && t.worker == s.worker && t.registry == s.registry && t.inbox == s.inbox;
    PhasedQuiet(c, s, t);
  }

  /** A task moves between shared places, or to or from a worker without an agent. */
  lemma PlaceKeepsRunning(c: Config, s: State, i: InstanceId, p: Place)
    requires Running(c, s) && (i in s.place ==> !s.place[i].CreatedBy?) && !p.CreatedBy?
    ensures Running(c, s.(place := s.place[i := p]))
  {
    NewbornMove(s.place, s.phase, i, p);
    PhasedQuiet(c, s, s.(place := s.place[i := p]));
  }

  /** A worker without an agent moves on. */
  lemma WorkerKeepsRunning(c: Config, s: State, w: WorkerId, k: Worker)
    requires Running(c, s) && w in s.worker && !s.worker[w].Busy? && !k.Busy?
    ensures Running(c, s.(worker := s.worker[w := k]))
  {
    var t := s.(worker := s.worker[w := k]);
    OwnedMove(s.owner, s.containers, s.worker, s.phase, s.registry, s.releasing, w, t.worker, t.phase);
    PhasedQuiet(c, s, t);
  }

  lemma SharedKeepsRunning(c: Config, s: State, t: State, i: InstanceId, p: Place)
    requires Running(c, s) && (i in s.place ==> !s.place[i].CreatedBy?) && !p.CreatedBy?
    requires RunningView(t) == RunningView(s.(place := s.place[i := p]))
    ensures Running(c, t)
  {
    PlaceKeepsRunning(c, s, i, p);
    RunningFrame(c, s.(place := s.place[i := p]), t);
  }

  lemma IdleKeepsRunning(c: Config, s: State, t: State, w: WorkerId, k: Worker)
    requires Running(c, s) && w in s.worker && !s.worker[w].Busy? && !k.Busy?
    requires RunningView(t) == RunningView(s.(worker := s.worker[w := k]))
    ensures Running(c, t)
  {
    WorkerKeepsRunning(c, s, w, k);
    RunningFrame(c, s.(worker := s.worker[w := k]), t);
  }

  lemma HandedKeepsRunning(c: Config, s: State, t: State, i: InstanceId, p: Place, w: WorkerId, k: Worker)
    requires Running(c, s) && (i in s.place ==> !s.place[i].CreatedBy?) && !p.CreatedBy?
    requires w in s.worker && !s.worker[w].Busy? && !k.Busy?
    requires RunningView(t) == RunningView(s.(place := s.place[i := p], worker := s.worker[w := k]))
    ensures Running(c, t)
  {
    PlaceKeepsRunning(c, s, i, p);
    IdleKeepsRunning(c, s.(place := s.place[i := p]), t, w, k);
  }

  lemma InsertRootKeepsRunning(c: Config, s: State, task: Task)
    requires Running(c, s) && task.id !in s.parent && s.place.Keys == s.parent.Keys && s.level.Keys == s.parent.Keys
    ensures Running(c, InsertRow(s, task, None, Created).(roots := s.roots + {task.id}))
  {
    NewbornMove(s.place, s.phase, task.id, Created);
    PhasedQuiet(c, s, InsertRow(s, task, None, Created).(roots := s.roots + {task.id}));
  }

  lemma ReleaseKeepsRunning(c: Config, s: State, i: InstanceId)
    requires Running(c, s) && i in s.releasing
    ensures Running(c, DaemonStep(c, s, Release(i)))
  {
    var t := DaemonStep(c, s, Release(i));
    OwnedRelease(s.owner, s.containers, s.worker, s.phase, s.registry, s.releasing, i);
    ContainedRelease(s.containers, s.dockerIds, s.registry, s.assignee.Keys, i);
    forall w | BusyAt(t, w) ensures PhaseOk(c, t, w) {
      assert BusyAt(s, w) && PhaseOk(c, s, w);
      ReleaseSparesOthers(c, s, t, w, i);
    }
  }

  /** The container being released is nobody's: its owner is the releaser. */
  lemma ReleaseSparesOthers(c: Config, s: State, t: State, w: WorkerId, i: InstanceId)
    requires OwnedIn(s) && BusyAt(s, w) && PhaseOk(c, s, w) && i in s.releasing
    requires t == s.(containers := s.containers - {i}, releasing := t.releasing, owner := t.owner)
    ensures PhaseOk(c, t, w)
  {
    if s.phase[w].Creating? {
      assert s.phase[w].container.Some? ==> s.worker[w].task != i;
    }
  }

  lemma ReplyKeepsRunning(c: Config, s: State)
    requires StoredIn(s) && Running(c, s) && |s.dequeueCh| > 0 && |s.queue| > 0
    requires s.dequeueCh[0] in s.worker && s.worker[s.dequeueCh[0]] == Waiting
    ensures Running(c, AnswerRequest(s))
  {
    var w, i := s.dequeueCh[0], s.queue[0];
    assert i in s.queue && s.place[i] == InQueue;
    HandedKeepsRunning(c, s, AnswerRequest(s), i, InReply(w), w, Replied(Some(i)));
  }

  lemma AnswerKeepsRunning(c: Config, s: State)
    requires StoredIn(s) && AskingIn(c, s) && Running(c, s) && |s.dequeueCh| > 0
    ensures Running(c, AnswerRequest(s))
  {
    var w := s.dequeueCh[0];
    assert w in s.dequeueCh;
    if |s.queue| == 0 {
      IdleKeepsRunning(c, s, AnswerRequest(s), w, Replied(None));
    } else {
      ReplyKeepsRunning(c, s);
    }
  }

  lemma AcceptKeepsRunning(c: Config, s: State, now: int, q: seq<InstanceId>)
    requires StoredIn(s) && Running(c, s) && |s.enqueueCh| > 0 && s.enqueueCh[0] in s.heap
    ensures Running(c, AcceptTask(s, now, q)) && Running(c, RefuseTask(s))
  {
    var i := s.enqueueCh[0];
    assert i in s.enqueueCh && s.place[i] == InChannel;
    SharedKeepsRunning(c, s, AcceptTask(s, now, q), i, InQueue);
    SharedKeepsRunning(c, s, RefuseTask(s), i, Dropped);
  }

  lemma RootKeepsRunning(c: Config, s: State, i: InstanceId)
    requires StoredIn(s) && Running(c, s) && i in s.roots
    ensures Running(c, ToChannel(s, i).(roots := s.roots - {i}))
    ensures Running(c, s.(roots := s.roots - {i}, rejected := s.rejected + {i}, place := s.place[i := Rejected]))
  {
    assert s.place[i] == Created;
    SharedKeepsRunning(c, s, ToChannel(s, i).(roots := s.roots - {i}), i, InChannel);
    SharedKeepsRunning(c, s, s.(roots := s.roots - {i}, rejected := s.rejected + {i}, place := s.place[i := Rejected]),
                       i, Rejected);
  }

  lemma DaemonKeepsRunning(c: Config, s: State, d: DaemonEvent)
    requires StoredIn(s) && RootedIn(c, s) && AskingIn(c, s) && Running(c, s) && DaemonEnabled(c, s, d)
    ensures Running(c, DaemonStep(c, s, d))
  {
    match d
    case InsertRoot(task) => InsertRootKeepsRunning(c, s, task);
    case SendRoot(i) => RootKeepsRunning(c, s, i);
    case RejectRoot(i) => RootKeepsRunning(c, s, i);
    case Accept(now, q) => AcceptKeepsRunning(c, s, now, q);
    case Refuse =>
      assert s.enqueueCh[0] in s.enqueueCh;
      AcceptKeepsRunning(c, s, 0, []);
    case Answer => AnswerKeepsRunning(c, s);
    case Release(i) => ReleaseKeepsRunning(c, s, i);
  }

  // ---------------------------------------------------------------- workers between tasks

  /** A task that has not been assigned has no children. */
  lemma NewTaskIsChildless(c: Config, s: State, i: InstanceId)
    requires RootedIn(c, s) && i !in s.assignee
    ensures Childless(s.parent, i)
  {
    forall k | k in s.parent ensures s.parent[k] != Some(i) {
      assert ParentStarted(s.parent, s.assignee, k);
    }
  }

  lemma StartSparesOthers(c: Config, s: State, w: WorkerId, a: AgentId, v: WorkerId)
    requires InPhase(s.worker, s.phase) && StaffedIn(c, s) && w in s.worker && s.worker[w].Holding? && v != w
    requires a !in s.agentRows && s.worker[w].task !in s.assignee && PhaseOkAt(c, s, v)
    ensures PhaseOkAt(c, StartTask(s, w, a), v)
  {
    assert s.worker[v].agent in s.agentRows;
    PhaseFrame(c, s, StartTask(s, w, a), v);
  }

  lemma StartKeepsPhased(c: Config, s: State, w: WorkerId, a: AgentId)
    requires RootedIn(c, s) && StaffedIn(c, s) && AssignedIn(s)
    requires InPhase(s.worker, s.phase) && Phased(c, s) && ListedIn(s) && ContainedIn(s)
    requires w in s.worker && s.worker[w].Holding? && a !in s.agentRows && s.worker[w].task !in s.assignee
    ensures Phased(c, StartTask(s, w, a))
  {
    var t := StartTask(s, w, a);
    NewTaskIsChildless(c, s, s.worker[w].task);
    forall v | BusyAt(t, v) ensures PhaseOk(c, t, v) {
      if v == w {
        assert a !in s.registry;
      } else {
        assert BusyAt(s, v) && PhaseOk(c, s, v);
        StartSparesOthers(c, s, w, a, v);
      }
    }
  }

  lemma StartKeepsCallbacks(s: State, w: WorkerId, a: AgentId)
    requires Callbacks(s) && w in s.worker && s.worker[w].Holding?
    requires s.worker[w].task in s.place && s.place[s.worker[w].task] == HeldBy(w) && s.worker[w].task !in s.assignee
    ensures Callbacks(StartTask(s, w, a))
  {
    var t := StartTask(s, w, a);
    NewbornMove(s.place, s.phase, s.worker[w].task, RunBy(w));
    NewbornPhase(t.place, s.phase, w, Starting);
    OwnedMove(s.owner, s.containers, s.worker, s.phase, s.registry, s.releasing, w, t.worker, t.phase);
  }

  lemma StartKeepsRunning(c: Config, s: State, w: WorkerId, a: AgentId)
    requires Ledger(c, s) && Running(c, s)
    requires w in s.worker && s.worker[w].Holding? && a !in s.agentRows
    ensures Running(c, StartTask(s, w, a))
  {
    assert s.worker[w].task in s.place && s.place[s.worker[w].task] == HeldBy(w);
    StartKeepsCallbacks(s, w, a);
    StartKeepsPhased(c, s, w, a);
  }

  lemma EndKeepsRunning(c: Config, s: State, w: WorkerId)
    requires HeldIn(s) && Running(c, s) && BusyAt(s, w) && s.phase[w].Leaving?
    ensures Running(c, EndTask(s, w))
  {
    var t := EndTask(s, w);
    NewbornMove(s.place, s.phase, s.worker[w].task, Finished);
    NewbornPhase(t.place, s.phase, w, Leaving);
    OwnedMove(s.owner, s.containers, s.worker, s.phase, s.registry, s.releasing, w, t.worker, t.phase);
    forall v | BusyAt(t, v) ensures PhaseOk(c, t, v) {
      assert BusyAt(s, v) && PhaseOk(c, s, v);
      PhaseFrame(c, s, t, v);
    }
  }

  lemma ReceiveKeepsRunning(c: Config, s: State, w: WorkerId)
    requires HeldIn(s) && Running(c, s) && w in s.worker && s.worker[w].Replied?
    ensures Running(c, ReceiveReply(s, w))
  {
    if s.worker[w].reply.None? {
      IdleKeepsRunning(c, s, ReceiveReply(s, w), w, Polling);
    } else {
      var i := s.worker[w].reply.value;
      assert s.place[i] == InReply(w);
      HandedKeepsRunning(c, s, ReceiveReply(s, w), i, HeldBy(w), w, Holding(i));
    }
  }

  lemma GiveBackKeepsRunning(c: Config, s: State, w: WorkerId)
    requires HeldIn(s) && Running(c, s) && w in s.worker && s.worker[w].Returning?
    ensures Running(c, ToChannel(s, s.worker[w].task).(worker := s.worker[w := Polling]))
  {
    var i := s.worker[w].task;
    assert s.place[i] == HeldBy(w);
    HandedKeepsRunning(c, s, ToChannel(s, i).(worker := s.worker[w := Polling]), i, InChannel, w, Polling);
  }

  lemma PoolKeepsRunning(c: Config, s: State, w: WorkerId, p: PoolEvent)
    requires Ledger(c, s) && Running(c, s) && PoolEnabled(c, s, w, p)
    ensures Running(c, PoolStep(c, s, w, p))
  {
    match p
    case Ask => IdleKeepsRunning(c, s, PoolStep(c, s, w, p), w, Waiting);
    case Receive => ReceiveKeepsRunning(c, s, w);
    case SpawnAgent(a) => StartKeepsRunning(c, s, w, a);
    case SpawnFails(_) => WorkerKeepsRunning(c, s, w, Returning(s.worker[w].task));
    case GiveBack => GiveBackKeepsRunning(c, s, w);
    case RemoveAgent => EndKeepsRunning(c, s, w);
  }

  // ---------------------------------------------------------------- workers inside executeTask

  lemma GotoHolds(c: Config, s: State, w: WorkerId, at: Phase)
    requires BusyAt(s, w) && PhaseHolds(c, s, w, at)
    ensures BusyAt(Goto(s, w, at), w) && PhaseOk(c, Goto(s, w, at), w)
  {
  }

  /** Worker `w` only moves on, to a phase whose facts hold. */
  lemma GotoKeepsRunning(c: Config, s: State, w: WorkerId, at: Phase)
    requires HeldIn(s) && StaffedIn(c, s) && Running(c, s) && BusyAt(s, w) && PhaseHolds(c, s, w, at)
    requires !s.phase[w].Sending? && !at.Sending?
    requires !Carries(s.worker[w], s.phase[w]) && !Carries(s.worker[w], at)
    ensures Running(c, Goto(s, w, at))
  {
    MoveKeepsCallbacks(s, w, at);
    GotoHolds(c, s, w, at);
    PhasedOwn(c, s, Goto(s, w, at), w);
  }

  lemma InboxKeepsCallbacks(s: State, a: AgentId, inputs: seq<Input>)
    requires Callbacks(s)
    ensures Callbacks(SetInbox(s, a, inputs))
  {
  }

  lemma InboxKeepsPhased(c: Config, s: State, w: WorkerId, at: Phase, inputs: seq<Input>)
    requires HeldIn(s) && StaffedIn(c, s) && Phased(c, s) && BusyAt(s, w)
    requires PhaseOk(c, SetInbox(Goto(s, w, at), s.worker[w].agent, inputs), w)
    ensures Phased(c, SetInbox(Goto(s, w, at), s.worker[w].agent, inputs))
  {
    PhasedOwn(c, s, SetInbox(Goto(s, w, at), s.worker[w].agent, inputs), w);
  }

  /** Worker `w` moves on and reads, or writes, the input queue of its own agent. */
  lemma InboxKeepsRunning(c: Config, s: State, w: WorkerId, at: Phase, inputs: seq<Input>)
    requires HeldIn(s) && StaffedIn(c, s) && Running(c, s) && BusyAt(s, w)
    requires PhaseOk(c, SetInbox(Goto(s, w, at), s.worker[w].agent, inputs), w)
    requires !s.phase[w].Sending? && !at.Sending?
    requires !Carries(s.worker[w], s.phase[w]) && !Carries(s.worker[w], at)
    ensures Running(c, SetInbox(Goto(s, w, at), s.worker[w].agent, inputs))
  {
    MoveKeepsCallbacks(s, w, at);
    InboxKeepsCallbacks(Goto(s, w, at), s.worker[w].agent, inputs);
    InboxKeepsPhased(c, s, w, at, inputs);
  }

  lemma MoveKeepsCallbacks(s: State, w: WorkerId, at: Phase)
    requires Callbacks(s) && BusyAt(s, w) && !s.phase[w].Sending? && !at.Sending?
    requires !Carries(s.worker[w], s.phase[w]) && !Carries(s.worker[w], at)
    ensures Callbacks(Goto(s, w, at))
  {
    NewbornPhase(s.place, s.phase, w, at);
    OwnedMove(s.owner, s.containers, s.worker, s.phase, s.registry, s.releasing, w, s.worker, s.phase[w := at]);
  }

  lemma ObtainKeepsCallbacks(s: State, w: WorkerId, made: Option<ContainerId>)
    requires Callbacks(s) && SetupEnabled(s, w, CreateContainer(made))
    requires s.worker[w].task in s.assignee && s.worker[w].task !in s.containers
    ensures Callbacks(ObtainContainer(s, w, made))
  {
    var t := ObtainContainer(s, w, made);
    NewbornPhase(s.place, s.phase, w, t.phase[w]);
    if made.Some? {
      OwnedObtain(s.owner, s.containers, s.worker, s.phase, s.registry, s.releasing, w, made.value);
    } else {
      OwnedMove(s.owner, s.containers, s.worker, s.phase, s.registry, s.releasing, w, t.worker, t.phase);
    }
    ContainedObtain(s.containers, s.dockerIds, s.registry, s.assignee.Keys, s.worker[w].task, made);
  }

  lemma RegisterKeepsOwned(s: State, w: WorkerId)
    requires OwnedIn(s) && BusyAt(s, w) && s.phase[w].Creating? && s.worker[w].agent !in s.registry
    ensures OwnedIn(RegisterAgent(s, w))
  {
    var t, i, a, made := RegisterAgent(s, w), s.worker[w].task, s.worker[w].agent, s.phase[w].container;
    assert t.phase == s.phase[w := Greeting] && t.registry == s.registry[a := Entry(i, made)];
    if made.Some? {
      assert t.owner == s.owner[i := Registered(a)];
      OwnedRegister(s.owner, s.containers, s.worker, s.phase, s.registry, s.releasing, w, a);
    } else {
      assert t.owner == s.owner;
      OwnedMove(s.owner, s.containers, s.worker, s.phase, s.registry, s.releasing, w, s.worker, t.phase);
      OwnedEntry(s.owner, s.containers, s.worker, t.phase, s.registry, s.releasing, a, i);
    }
  }

  lemma RegisterKeepsCallbacks(s: State, w: WorkerId)
    requires Callbacks(s) && BusyAt(s, w) && s.phase[w].Creating? && s.worker[w].agent !in s.registry
    requires s.worker[w].task in s.assignee && s.assignee[s.worker[w].task] == s.worker[w].agent
    requires s.phase[w].container.Some? ==>
               s.worker[w].task in s.containers && s.containers[s.worker[w].task] == s.phase[w].container.value
    ensures Callbacks(RegisterAgent(s, w))
  {
    NewbornPhase(s.place, s.phase, w, Greeting);
    RegisterKeepsOwned(s, w);
  }

  lemma ObtainKeepsPhased(c: Config, s: State, w: WorkerId, made: Option<ContainerId>)
    requires HeldIn(s) && StaffedIn(c, s) && Phased(c, s) && SetupEnabled(s, w, CreateContainer(made))
    ensures Phased(c, ObtainContainer(s, w, made))
  {
    assert PhaseOk(c, s, w);
    PhasedOwn(c, s, ObtainContainer(s, w, made), w);
  }

  lemma RegisterKeepsPhased(c: Config, s: State, w: WorkerId)
    requires HeldIn(s) && StaffedIn(c, s) && Phased(c, s) && SetupEnabled(s, w, Register)
    ensures Phased(c, RegisterAgent(s, w))
  {
    assert PhaseOk(c, s, w);
    PhasedOwn(c, s, RegisterAgent(s, w), w);
  }

  lemma UnregisterKeepsPhased(c: Config, s: State, w: WorkerId)
    requires HeldIn(s) && StaffedIn(c, s) && Phased(c, s) && BusyAt(s, w) && s.phase[w].Acting?
    ensures Phased(c, UnregisterAgent(Goto(s, w, Leaving), s.worker[w].agent))
  {
    PhasedOwn(c, s, UnregisterAgent(Goto(s, w, Leaving), s.worker[w].agent), w);
  }

  /** What a worker relies on when it has changed the input queue of its own agent. */
  lemma HearHolds(c: Config, s: State, w: WorkerId, first: bool, inputs: seq<Input>)
    requires BusyAt(s, w) && InRegistry(s, w)
    requires first ==> Childless(s.parent, s.worker[w].task) && inputs == []
    ensures var t := SetInbox(Goto(s, w, Prompting(first)), s.worker[w].agent, inputs); BusyAt(t, w) && PhaseOk(c, t, w)
  {
  }

  lemma GreetHolds(c: Config, s: State, w: WorkerId, inputs: seq<Input>)
    requires BusyAt(s, w) && InRegistry(s, w)
    requires Childless(s.parent, s.worker[w].task) && inputs == [TaskStart(s.worker[w].task)]
    ensures var t := SetInbox(Goto(s, w, Listening(true)), s.worker[w].agent, inputs); BusyAt(t, w) && PhaseOk(c, t, w)
  {
  }

  /** Leaving promises nothing. */
  lemma LeaveKeepsRunning(c: Config, s: State, w: WorkerId)
    requires HeldIn(s) && StaffedIn(c, s) && Running(c, s) && BusyAt(s, w)
    requires !s.phase[w].Sending? && !Carries(s.worker[w], s.phase[w])
    ensures Running(c, Goto(s, w, Leaving))
  {
    GotoKeepsRunning(c, s, w, Leaving);
  }

  lemma CreateKeepsRunning(c: Config, s: State, w: WorkerId, made: Option<ContainerId>)
    requires HeldIn(s) && StaffedIn(c, s) && AssignedIn(s) && Running(c, s) && PhaseOkAt(c, s, w)
    requires SetupEnabled(s, w, CreateContainer(made))
    ensures Running(c, ObtainContainer(s, w, made))
  {
    ObtainKeepsCallbacks(s, w, made);
    ObtainKeepsPhased(c, s, w, made);
  }

  lemma RegisterKeepsRunning(c: Config, s: State, w: WorkerId)
    requires HeldIn(s) && StaffedIn(c, s) && AssignedIn(s) && Running(c, s) && PhaseOkAt(c, s, w)
    requires SetupEnabled(s, w, Register)
    ensures Running(c, RegisterAgent(s, w))
  {
    RegisterKeepsCallbacks(s, w);
    RegisterKeepsPhased(c, s, w);
  }

  lemma GreetKeepsRunning(c: Config, s: State, w: WorkerId)
    requires HeldIn(s) && StaffedIn(c, s) && Running(c, s) && PhaseOkAt(c, s, w)
    requires SetupEnabled(s, w, Greet)
    ensures Running(c, SetupStep(s, w, Greet))
  {
    assert [] + [TaskStart(s.worker[w].task)] == [TaskStart(s.worker[w].task)];
    GreetHolds(c, s, w, s.inbox[s.worker[w].agent] + [TaskStart(s.worker[w].task)]);
    InboxKeepsRunning(c, s, w, Listening(true), s.inbox[s.worker[w].agent] + [TaskStart(s.worker[w].task)]);
  }

  lemma SetupKeepsRunning(c: Config, s: State, w: WorkerId, u: SetupEvent)
    requires HeldIn(s) && StaffedIn(c, s) && AssignedIn(s) && Running(c, s) && PhaseOkAt(c, s, w)
             && SetupEnabled(s, w, u)
    ensures Running(c, SetupStep(s, w, u))
  {
    match u
    case Abort => LeaveKeepsRunning(c, s, w);
    case CreateContainer(made) => CreateKeepsRunning(c, s, w, made);
    case Register => RegisterKeepsRunning(c, s, w);
    case Greet => GreetKeepsRunning(c, s, w);
    case GreetFails => LeaveKeepsRunning(c, s, w);
  }

  lemma UnregisterKeepsOwned(s: State, a: AgentId)
    requires OwnedIn(s) && a in s.registry
    ensures OwnedIn(UnregisterAgent(s, a))
  {
    var t, i := UnregisterAgent(s, a), s.registry[a].task;
    assert t.registry == s.registry - {a};
    if s.registry[a].container.Some? {
      assert t.owner == s.owner[i := Releaser] && t.releasing == s.releasing + multiset{i};
      OwnedUnregister(s.owner, s.containers, s.worker, s.phase, s.registry, s.releasing, a);
    } else {
      assert t.owner == s.owner && t.releasing == s.releasing;
      OwnedEntry(s.owner, s.containers, s.worker, s.phase, s.registry, s.releasing, a, i);
    }
  }

  lemma UnregisterKeepsCallbacks(s: State, w: WorkerId)
    requires Callbacks(s) && BusyAt(s, w) && s.phase[w].Acting? && s.worker[w].agent in s.registry
    ensures Callbacks(UnregisterAgent(Goto(s, w, Leaving), s.worker[w].agent))
  {
    MoveKeepsCallbacks(s, w, Leaving);
    UnregisterKeepsOwned(Goto(s, w, Leaving), s.worker[w].agent);
  }

  lemma HearKeepsRunning(c: Config, s: State, w: WorkerId)
    requires HeldIn(s) && StaffedIn(c, s) && Running(c, s) && PhaseOkAt(c, s, w) && LoopEnabled(s, w, Hear)
    ensures Running(c, LoopStep(s, w, Hear))
  {
    HearHolds(c, s, w, s.phase[w].first, s.inbox[s.worker[w].agent][1..]);
    InboxKeepsRunning(c, s, w, Prompting(s.phase[w].first), s.inbox[s.worker[w].agent][1..]);
  }

  lemma RespondKeepsRunning(c: Config, s: State, w: WorkerId, calls: seq<Action>)
    requires HeldIn(s) && StaffedIn(c, s) && Running(c, s) && PhaseOkAt(c, s, w) && s.phase[w].Prompting?
    ensures Running(c, Goto(s, w, Acting(calls, NO_CHANGE)))
  {
    GotoKeepsRunning(c, s, w, Acting(calls, NO_CHANGE));
  }

  lemma UnregisterKeepsRunning(c: Config, s: State, w: WorkerId)
    requires HeldIn(s) && StaffedIn(c, s) && Running(c, s) && PhaseOkAt(c, s, w) && s.phase[w].Acting?
    ensures Running(c, UnregisterAgent(Goto(s, w, Leaving), s.worker[w].agent))
  {
    assert InRegistry(s, w);
    UnregisterKeepsCallbacks(s, w);
    UnregisterKeepsPhased(c, s, w);
  }

  lemma DecideKeepsRunning(c: Config, s: State, w: WorkerId, v: Verdict)
    requires HeldIn(s) && StaffedIn(c, s) && Running(c, s) && PhaseOkAt(c, s, w) && s.phase[w].Acting?
    ensures Running(c, Decided(s, w, v))
  {
    match v
    case KeepListening => GotoKeepsRunning(c, s, w, Listening(false));
    case Leave => LeaveKeepsRunning(c, s, w);
    case Unregister => UnregisterKeepsRunning(c, s, w);
  }

  lemma LoopKeepsRunning(c: Config, s: State, w: WorkerId, l: LoopEvent)
    requires HeldIn(s) && StaffedIn(c, s) && Running(c, s) && PhaseOkAt(c, s, w) && LoopEnabled(s, w, l)
    ensures Running(c, LoopStep(s, w, l))
  {
    match l
    case Hear => HearKeepsRunning(c, s, w);
    case Respond(calls) =>
      if |calls| == 0 {
        LeaveKeepsRunning(c, s, w);
      } else {
        RespondKeepsRunning(c, s, w, calls);
      }
    case ModelFails => LeaveKeepsRunning(c, s, w);
    case Decide => DecideKeepsRunning(c, s, w, VerdictOf(s.phase[w].change));
  }

  // ---------------------------------------------------------------- tool calls

  lemma CallPhaseOk(c: Config, s: State, w: WorkerId, t: CallEvent)
    requires RootedIn(c, s) && ListedIn(s) && AssignedIn(s) && BusyAt(s, w) && PhaseOk(c, s, w) && CallEnabled(s, w, t)
    requires !t.InsertChild?
    ensures PhaseHolds(c, s, w, CallPhase(c, s, w, t))
  {
    var at := s.phase[w];
    if t.Climb? { assert LevelOk(s.parent, s.level, at.current); }
    if t.EndWalk? { assert LevelOk(s.parent, s.level, at.current); }
  }

  lemma InsertChildKeepsCallbacks(c: Config, s: State, w: WorkerId, task: Task)
    requires Callbacks(s) && s.place.Keys == s.parent.Keys && CallEnabled(s, w, InsertChild(task))
    ensures Callbacks(CallStep(c, s, w, InsertChild(task)))
  {
    var t := CallStep(c, s, w, InsertChild(task));
    NewbornBorn(s.place, s.phase, w, t.phase[w]);
    OwnedMove(s.owner, s.containers, s.worker, s.phase, s.registry, s.releasing, w, t.worker, t.phase);
  }

  lemma InsertChildKeepsPhased(c: Config, s: State, w: WorkerId, task: Task)
    requires HeldIn(s) && StaffedIn(c, s) && s.level.Keys == s.parent.Keys && Phased(c, s)
    requires CallEnabled(s, w, InsertChild(task))
    ensures Phased(c, CallStep(c, s, w, InsertChild(task)))
  {
    var t := CallStep(c, s, w, InsertChild(task));
    var moved := Goto(s, w, t.phase[w]);
    assert PhaseOk(c, s, w);
    GotoHolds(c, s, w, t.phase[w]);
    PhasedOwn(c, s, moved, w);
    assert t.phase == moved.phase && t.worker == s.worker && t.parent == s.parent[task.id := Some(s.worker[w].task)];
    forall v | BusyAt(moved, v) && Young(moved.phase[v]) ensures Childless(t.parent, moved.worker[v].task) {
      assert v != w && PhaseOk(c, s, v);
      DifferentWorkers(c, s, v, w);
      ChildIsNoSibling(s.parent, s.worker[w].task, task.id, s.worker[v].task);
    }
    PhasedQuiet(c, moved, t);
  }

  /** The new row has the caller's task as its parent, and nobody else's. */
  lemma ChildIsNoSibling(parent: Parents, above: InstanceId, i: InstanceId, other: InstanceId)
    requires i !in parent && other != above && Childless(parent, other)
    ensures Childless(parent[i := Some(above)], other)
  {
  }

  lemma SendChildKeepsCallbacks(c: Config, s: State, w: WorkerId)
    requires Callbacks(s) && CallEnabled(s, w, SendChild)
    ensures Callbacks(CallStep(c, s, w, SendChild))
  {
    var t := CallStep(c, s, w, SendChild);
    NewbornSent(s.place, s.phase, w, t.phase[w]);
    OwnedMove(s.owner, s.containers, s.worker, s.phase, s.registry, s.releasing, w, t.worker, t.phase);
  }

  /** A message never reaches a young agent: the sender would be a child of its task. */
  lemma PushKeepsPhased(c: Config, s: State, w: WorkerId)
    requires AssignedIn(s) && Phased(c, s) && CallEnabled(s, w, PushInput)
    ensures Phased(c, CallStep(c, s, w, PushInput))
  {
    var t := CallStep(c, s, w, PushInput);
    assert PhaseOk(c, s, w);
    var up := s.parent[s.worker[w].task].value;
    forall v | BusyAt(t, v) ensures PhaseOk(c, t, v) {
      if v != w {
        assert BusyAt(s, v) && PhaseOk(c, s, v);
        if s.worker[v].agent == s.phase[w].target {
          assert s.assignee[s.worker[v].task] == s.assignee[up];
          assert !Childless(s.parent, s.worker[v].task);
        }
        PhaseFrame(c, s, t, v);
      }
    }
  }

  lemma PlainCallKeepsRunning(c: Config, s: State, w: WorkerId, t: CallEvent)
    requires HeldIn(s) && RootedIn(c, s) && StaffedIn(c, s) && AssignedIn(s) && Running(c, s) && PhaseOkAt(c, s, w)
    requires CallEnabled(s, w, t) && !t.InsertChild? && !t.SendChild?
    ensures Running(c, Goto(s, w, CallPhase(c, s, w, t)))
  {
    CallPhaseOk(c, s, w, t);
    PlainPhases(c, s, w, t);
    GotoKeepsRunning(c, s, w, CallPhase(c, s, w, t));
  }

  lemma PlainPhases(c: Config, s: State, w: WorkerId, t: CallEvent)
    requires CallEnabled(s, w, t) && !t.InsertChild? && !t.SendChild?
    ensures !s.phase[w].Sending? && !s.phase[w].Creating?
    ensures !CallPhase(c, s, w, t).Sending? && !CallPhase(c, s, w, t).Creating?
  {
  }

  lemma InsertChildKeepsRunning(c: Config, s: State, w: WorkerId, task: Task)
    requires HeldIn(s) && RootedIn(c, s) && StaffedIn(c, s) && Running(c, s) && CallEnabled(s, w, InsertChild(task))
    ensures Running(c, CallStep(c, s, w, InsertChild(task)))
  {
    InsertChildKeepsCallbacks(c, s, w, task);
    InsertChildKeepsPhased(c, s, w, task);
  }

  lemma SendChildKeepsPhased(c: Config, s: State, w: WorkerId)
    requires HeldIn(s) && StaffedIn(c, s) && Phased(c, s) && PhaseOkAt(c, s, w) && CallEnabled(s, w, SendChild)
    ensures Phased(c, CallStep(c, s, w, SendChild))
  {
    var at, t := CallPhase(c, s, w, SendChild), CallStep(c, s, w, SendChild);
    GotoHolds(c, s, w, at);
    PhasedOwn(c, s, Goto(s, w, at), w);
    ChannelKeepsPhased(c, Goto(s, w, at), s.phase[w].child);
    assert t == ToChannel(Goto(s, w, at), s.phase[w].child);
  }

  lemma ChannelKeepsPhased(c: Config, s: State, i: InstanceId)
    requires Phased(c, s)
    ensures Phased(c, ToChannel(s, i))
  {
    PhasedQuiet(c, s, ToChannel(s, i));
  }

  lemma SendChildKeepsRunning(c: Config, s: State, w: WorkerId)
    requires HeldIn(s) && StaffedIn(c, s) && Running(c, s) && PhaseOkAt(c, s, w) && CallEnabled(s, w, SendChild)
    ensures Running(c, CallStep(c, s, w, SendChild))
  {
    SendChildKeepsCallbacks(c, s, w);
    SendChildKeepsPhased(c, s, w);
  }

  lemma PushKeepsCallbacks(c: Config, s: State, w: WorkerId)
    requires Callbacks(s) && CallEnabled(s, w, PushInput)
    ensures Callbacks(CallStep(c, s, w, PushInput))
  {
    var moved := Goto(s, w, CallPhase(c, s, w, PushInput));
    MoveKeepsCallbacks(s, w, CallPhase(c, s, w, PushInput));
    InboxKeepsCallbacks(moved, s.phase[w].target, CallStep(c, s, w, PushInput).inbox[s.phase[w].target]);
  }

  lemma PushKeepsRunning(c: Config, s: State, w: WorkerId)
    requires AssignedIn(s) && Running(c, s) && CallEnabled(s, w, PushInput)
    ensures Running(c, CallStep(c, s, w, PushInput))
  {
    PushKeepsCallbacks(c, s, w);
    PushKeepsPhased(c, s, w);
  }

  lemma CallKeepsRunning(c: Config, s: State, w: WorkerId, t: CallEvent)
    requires HeldIn(s) && RootedIn(c, s) && StaffedIn(c, s) && AssignedIn(s) && Running(c, s) && PhaseOkAt(c, s, w)
    requires CallEnabled(s, w, t)
    ensures Running(c, CallStep(c, s, w, t))
  {
    if t.InsertChild? {
      InsertChildKeepsRunning(c, s, w, t.task);
    } else if t.SendChild? {
      SendChildKeepsRunning(c, s, w);
    } else if t.PushInput? {
      PushKeepsRunning(c, s, w);
    } else {
      PlainCallKeepsRunning(c, s, w, t);
      assert CallStep(c, s, w, t) == Goto(s, w, CallPhase(c, s, w, t));
    }
  }
}
