/** Which agents leave their registry entry, and with it their container, behind (internal/runtime/runtime.go:418-424,
    618-634, 769-786). Only the exits for COMPLETED and FAILED unregister. */
module EngineExits {
  import opened Prelude
  import opened Tools
  import opened Engine
  import opened EngineInvariant
  import opened EngineRuns
  import AgentLoop

  /** Agent `a` is inside executeTask and has not reached its end. */
  predicate Live(s: State, a: AgentId) {
    a in s.pool && s.pool[a] in s.phase && !s.phase[s.pool[a]].Leaving?
  }

  predicate Stranded(s: State, a: AgentId) {
    a in s.registry && !Live(s, a)
  }

  /** Worker `w` leaves its loop without unregistering: the model failed, answered without a call, or the last SET_STATE
      was missing or unknown. */
  predicate LeavesEntry(s: State, w: WorkerId, l: LoopEvent) {
    LoopEnabled(s, w, l)
    && match l
       case Hear => false
       case Respond(calls) => |calls| == 0
       case ModelFails => true
       case Decide => VerdictOf(s.phase[w].change) == Leave
  }

  /** Event `e` does so for agent `a`. */
  predicate Abandons(s: State, e: Event, a: AgentId) {
    e.Loop? && LeavesEntry(s, e.w, e.l) && s.worker[e.w].agent == a
  }

  /** What stranding looks at. */
  predicate SameExits(s: State, t: State) {
    t.registry == s.registry && t.pool == s.pool && t.phase == s.phase
  }

  /** One worker moves on, and does not start to leave. */
  lemma MovedOn(s: State, t: State, w: WorkerId, a: AgentId)
    requires w in s.phase && w in t.phase && t.phase == s.phase[w := t.phase[w]]
    requires t.registry == s.registry && t.pool == s.pool
    requires s.phase[w].Leaving? <==> t.phase[w].Leaving?
    ensures Stranded(t, a) <==> Stranded(s, a)
  {
  }

  /** One worker starts to leave. */
  lemma StartsLeaving(c: Config, s: State, w: WorkerId, a: AgentId)
    requires StaffedIn(c, s) && BusyAt(s, w) && !s.phase[w].Leaving?
    ensures var t := Goto(s, w, Leaving);
            Stranded(t, a) <==> Stranded(s, a) || (a == s.worker[w].agent && a in s.registry)
  {
    assert s.pool[s.worker[w].agent] == w;
  }

  lemma DaemonStrandsNobody(c: Config, s: State, d: DaemonEvent, a: AgentId)
    requires DaemonEnabled(c, s, d)
    ensures Stranded(DaemonStep(c, s, d), a) <==> Stranded(s, a)
  {
    var t := DaemonStep(c, s, d);
    assert SameExits(s, t) by {
      if d.Answer? { AnswerLeavesExits(s); }
    }
  }

  lemma AnswerLeavesExits(s: State)
    requires |s.dequeueCh| > 0
    ensures SameExits(s, AnswerRequest(s))
  {
  }

  /** A listed agent has a row. */
  lemma ListedHasRow(s: State, a: AgentId)
    requires ListedIn(s) && AssignedIn(s) && a in s.registry
    ensures a in s.agentRows
  {
  }

  lemma StartStrandsNobody(c: Config, s: State, w: WorkerId, b: AgentId, a: AgentId)
    requires StaffedIn(c, s) && ListedIn(s) && AssignedIn(s) && w in s.worker && s.worker[w].Holding?
             && b !in s.agentRows
    requires InPhase(s.worker, s.phase)
    ensures Stranded(StartTask(s, w, b), a) <==> Stranded(s, a)
  {
    var t := StartTask(s, w, b);
    assert t.registry == s.registry && t.pool == s.pool[b := w] && t.phase == s.phase[w := Starting];
    if a in s.registry {
      ListedHasRow(s, a);
    }
  }

  lemma EndStrandsNobody(c: Config, s: State, w: WorkerId, a: AgentId)
    requires StaffedIn(c, s) && BusyAt(s, w) && s.phase[w].Leaving?
    ensures Stranded(EndTask(s, w), a) <==> Stranded(s, a)
  {
    var t := EndTask(s, w);
    assert t.registry == s.registry && t.pool == s.pool - {s.worker[w].agent} && t.phase == s.phase - {w};
    assert s.pool[s.worker[w].agent] == w;
    if a in t.pool {
      assert s.worker[s.pool[a]].agent == a && s.pool[a] != w;
    }
  }

  lemma PoolStrandsNobody(c: Config, s: State, w: WorkerId, p: PoolEvent, a: AgentId)
    requires StaffedIn(c, s) && ListedIn(s) && AssignedIn(s) && InPhase(s.worker, s.phase) && PoolEnabled(c, s, w, p)
    ensures Stranded(PoolStep(c, s, w, p), a) <==> Stranded(s, a)
  {
    match p
    case Ask => assert SameExits(s, PoolStep(c, s, w, p));
    case Receive => assert SameExits(s, PoolStep(c, s, w, p));
    case SpawnAgent(b) => StartStrandsNobody(c, s, w, b, a);
    case SpawnFails(_) => assert SameExits(s, PoolStep(c, s, w, p));
    case GiveBack => assert SameExits(s, PoolStep(c, s, w, p));
    case RemoveAgent => EndStrandsNobody(c, s, w, a);
  }

  lemma RegisterStrandsNobody(c: Config, s: State, w: WorkerId, a: AgentId)
    requires StaffedIn(c, s) && BusyAt(s, w) && s.phase[w].Creating?
    ensures Stranded(RegisterAgent(s, w), a) <==> Stranded(s, a)
  {
    var t, b := RegisterAgent(s, w), s.worker[w].agent;
    assert t.registry == s.registry[b := t.registry[b]] && t.pool == s.pool && t.phase == s.phase[w := Greeting];
    assert s.pool[b] == w;
  }

  /** Before registration there is no entry to leave behind, and the branch for a full input queue is dead. */
  lemma SetupStrandsNobody(c: Config, s: State, w: WorkerId, u: SetupEvent, a: AgentId)
    requires StaffedIn(c, s) && SetupEnabled(s, w, u) && PhaseOk(c, s, w)
    ensures Stranded(SetupStep(s, w, u), a) <==> Stranded(s, a)
  {
    match u
    case Abort => StartsLeaving(c, s, w, a);
    case CreateContainer(_) => MovedOn(s, SetupStep(s, w, u), w, a);
    case Register => RegisterStrandsNobody(c, s, w, a);
    case Greet => MovedOn(s, SetupStep(s, w, u), w, a);
    case GreetFails => assert false;
  }

  lemma UnregisterStrandsNobody(c: Config, s: State, w: WorkerId, a: AgentId)
    requires StaffedIn(c, s) && BusyAt(s, w) && !s.phase[w].Leaving?
    ensures Stranded(UnregisterAgent(Goto(s, w, Leaving), s.worker[w].agent), a) <==> Stranded(s, a)
  {
    var moved, b := Goto(s, w, Leaving), s.worker[w].agent;
    var t := UnregisterAgent(moved, b);
    assert t.registry == moved.registry - {b} && t.pool == moved.pool && t.phase == moved.phase;
    StartsLeaving(c, s, w, a);
    assert s.pool[b] == w;
  }

  lemma LoopStrands(c: Config, s: State, w: WorkerId, l: LoopEvent, a: AgentId)
    requires StaffedIn(c, s) && LoopEnabled(s, w, l) && PhaseOk(c, s, w)
    ensures Stranded(LoopStep(s, w, l), a) <==> Stranded(s, a) || (LeavesEntry(s, w, l) && s.worker[w].agent == a)
  {
    StartsLeaving(c, s, w, a);
    match l
    case Hear => MovedOn(s, LoopStep(s, w, l), w, a);
    case Respond(calls) =>
      if |calls| > 0 { MovedOn(s, LoopStep(s, w, l), w, a); }
    case ModelFails =>
    case Decide => DecideStrands(c, s, w, VerdictOf(s.phase[w].change), a);
  }

  lemma DecideStrands(c: Config, s: State, w: WorkerId, v: Verdict, a: AgentId)
    requires StaffedIn(c, s) && BusyAt(s, w) && s.phase[w].Acting? && s.worker[w].agent in s.registry
    ensures Stranded(Decided(s, w, v), a) <==> Stranded(s, a) || (v == Leave && s.worker[w].agent == a)
  {
    match v
    case KeepListening => MovedOn(s, Goto(s, w, Listening(false)), w, a);
    case Leave => StartsLeaving(c, s, w, a);
    case Unregister => UnregisterStrandsNobody(c, s, w, a);
  }

  lemma CallStrandsNobody(c: Config, s: State, w: WorkerId, t: CallEvent, a: AgentId)
    requires CallEnabled(s, w, t)
    ensures Stranded(CallStep(c, s, w, t), a) <==> Stranded(s, a)
  {
    var u := CallStep(c, s, w, t);
    assert u.phase == s.phase[w := CallPhase(c, s, w, t)] && u.registry == s.registry && u.pool == s.pool;
    assert !s.phase[w].Leaving? && !CallPhase(c, s, w, t).Leaving?;
    MovedOn(s, u, w, a);
  }

  /** An agent is stranded after an event exactly when it was before, or the event abandons it. In particular nothing
      ever cleans a stranded entry up. */
  lemma StrandedStep(c: Config, s: State, e: Event, a: AgentId)
    requires Inv(c, s) && Enabled(c, s, e)
    ensures Stranded(Apply(c, s, e), a) <==> Stranded(s, a) || Abandons(s, e, a)
  {
    match e
    case Daemon(d) => DaemonStrandsNobody(c, s, d, a);
    case Pool(w, p) => PoolStrandsNobody(c, s, w, p, a);
    case Setup(w, u) =>
      assert PhaseOk(c, s, w);
      SetupStrandsNobody(c, s, w, u, a);
    case Loop(w, l) =>
      assert PhaseOk(c, s, w);
      LoopStrands(c, s, w, l, a);
    case Call(w, t) => CallStrandsNobody(c, s, w, t, a);
  }

  /** Event `k` of the run abandons agent `a`. */
  ghost predicate AbandonsAt(r: Run, k: nat, a: AgentId)
    requires |r.states| == |r.events| + 1 && k < |r.events|
  {
    Abandons(r.states[k], r.events[k], a)
  }

  ghost predicate AbandonedBefore(r: Run, k: nat, a: AgentId)
    requires |r.states| == |r.events| + 1 && k < |r.states|
  {
    exists j: nat :: j < k && AbandonsAt(r, j, a)
  }

  lemma AbandonedLater(r: Run, k: nat, a: AgentId)
    requires |r.states| == |r.events| + 1 && k < |r.events|
    ensures AbandonedBefore(r, k + 1, a) <==> AbandonedBefore(r, k, a) || AbandonsAt(r, k, a)
  {
    if AbandonedBefore(r, k, a) {
      var j: nat :| j < k && AbandonsAt(r, j, a);
      assert j < k + 1 && AbandonsAt(r, j, a);
    }
  }

  lemma RunStrandedStep(c: Config, r: Run, k: nat, a: AgentId)
    requires IsRun(c, r) && k < |r.events|
    ensures Stranded(r.states[k + 1], a) <==> Stranded(r.states[k], a) || AbandonsAt(r, k, a)
  {
    RunKeepsInv(c, r, k);
    RunStep(c, r, k);
    StrandedStep(c, r.states[k], r.events[k], a);
  }

  /** At every moment of every run, the agents whose registry entry is left behind are exactly those whose loop ended
      earlier without COMPLETED or FAILED as its last word. */
  lemma StrandedIffAbandoned(c: Config, r: Run, k: nat, a: AgentId)
    requires IsRun(c, r) && k < |r.states|
    ensures Stranded(r.states[k], a) <==> AbandonedBefore(r, k, a)
  {
    assert r.states[0] == Init(c);
    var m := 0;
    while m < k
      invariant m <= k
      invariant Stranded(r.states[m], a) <==> AbandonedBefore(r, m, a)
    {
      RunStrandedStep(c, r, m, a);
      AbandonedLater(r, m, a);
      m := m + 1;
    }
  }

  /** Someone will still see to the container of `i`: a worker running its task, or a pending release. */
  ghost predicate Attended(s: State, i: InstanceId) {
    i in s.releasing || exists w :: BusyAt(s, w) && s.worker[w].task == i && !s.phase[w].Leaving?
  }

  /** The registry entry of agent `a` is the one that answers for the container of `i`. */
  predicate Holds(s: State, a: AgentId, i: InstanceId) {
    a in s.registry && i in s.containers && s.registry[a] == Entry(i, Some(s.containers[i]))
  }

  /** The owner of a container attends to it, unless it is the entry of an agent that is stranded. */
  lemma OwnerAttends(s: State, i: InstanceId)
    requires OwnedIn(s) && ContainedIn(s) && i in s.containers
    requires forall a | Holds(s, a, i) :: Live(s, a)
    requires forall w | BusyAt(s, w) :: s.worker[w].agent in s.pool && s.pool[s.worker[w].agent] == w
    requires forall a | a in s.pool :: BusyAt(s, s.pool[a]) && s.worker[s.pool[a]].agent == a
    requires forall w | BusyAt(s, w) ::
               s.worker[w].task in s.assignee && s.assignee[s.worker[w].task] == s.worker[w].agent
    requires InjectiveMap(s.assignee) && ListedIn(s)
    ensures Attended(s, i)
  {
    match s.owner[i]
    case Creator(w) => assert BusyAt(s, w);
    case Registered(a) =>
      assert Holds(s, a, i);
      var w := s.pool[a];
      assert BusyAt(s, w) && s.assignee[s.worker[w].task] == a && s.assignee[i] == a;
    case Releaser =>
  }

  /** Nobody attends to a container that a stranded entry holds. */
  lemma StrandedIsUnattended(s: State, a: AgentId, i: InstanceId)
    requires OwnedIn(s) && ListedIn(s) && Holds(s, a, i) && Stranded(s, a)
    requires forall w | BusyAt(s, w) :: s.worker[w].agent in s.pool && s.pool[s.worker[w].agent] == w
    requires forall w | BusyAt(s, w) ::
               s.worker[w].task in s.assignee && s.assignee[s.worker[w].task] == s.worker[w].agent
    ensures !Attended(s, i)
  {
    assert s.owner[i] == Registered(a);
    forall w | BusyAt(s, w) && s.worker[w].task == i ensures s.phase[w].Leaving? {
      assert s.worker[w].agent == a && s.pool[a] == w;
    }
  }

  /** A container is unattended exactly when the entry that holds it is stranded. */
  lemma UnattendedIffStranded(c: Config, s: State, i: InstanceId)
    requires Inv(c, s) && i in s.containers
    ensures !Attended(s, i) <==> exists a :: Holds(s, a, i) && Stranded(s, a)
  {
    assert OwnedIn(s) && ContainedIn(s) && ListedIn(s) && InjectiveMap(s.assignee);
    forall w | BusyAt(s, w)
      ensures s.worker[w].agent in s.pool && s.pool[s.worker[w].agent] == w
      ensures s.worker[w].task in s.assignee && s.assignee[s.worker[w].task] == s.worker[w].agent
    {
      assert StaffedIn(c, s) && AssignedIn(s);
    }
    forall a | a in s.pool ensures BusyAt(s, s.pool[a]) && s.worker[s.pool[a]].agent == a {
      assert StaffedIn(c, s) && InPhase(s.worker, s.phase);
    }
    if a :| Holds(s, a, i) && Stranded(s, a) {
      StrandedIsUnattended(s, a, i);
    } else {
      OwnerAttends(s, i);
    }
  }

  /** Exactly which containers leak: at any moment of any run, nobody will see to a container of the manager if and only
      if the registry entry that holds it belongs to an agent whose loop was abandoned before. */
  lemma LeakedIffAbandoned(c: Config, r: Run, k: nat, i: InstanceId)
    requires IsRun(c, r) && k < |r.states| && i in r.states[k].containers
    ensures !Attended(r.states[k], i) <==> exists a :: Holds(r.states[k], a, i) && AbandonedBefore(r, k, a)
  {
    var s := r.states[k];
    RunKeepsInv(c, r, k);
    UnattendedIffStranded(c, s, i);
    forall a ensures Stranded(s, a) <==> AbandonedBefore(r, k, a) {
      StrandedIffAbandoned(c, r, k, a);
    }
  }

  lemma HolderIsAssigned(c: Config, s: State, i: InstanceId)
    requires Inv(c, s)
    ensures forall a | Holds(s, a, i) :: i in s.assignee && s.assignee[i] == a
  {
    assert ListedIn(s);
  }

  /** The container of a task whose own agent was not abandoned is attended to, whatever happened to others. */
  lemma NoLeakWithoutAbandonment(c: Config, r: Run, k: nat, i: InstanceId)
    requires IsRun(c, r) && k < |r.states| && i in r.states[k].containers
    requires i in r.states[k].assignee ==> !AbandonedBefore(r, k, r.states[k].assignee[i])
    ensures Attended(r.states[k], i)
  {
    LeakedIffAbandoned(c, r, k, i);
    RunKeepsInv(c, r, k);
    HolderIsAssigned(c, r.states[k], i);
  }

  // ---------------------------------------------------------------- the same decision as the agent loop

  /** stateChange once the engine has answered every call left. */
  function Drained(todo: seq<Action>, change: Signal): Signal
    decreases |todo|
  {
    if |todo| == 0 then change else var next := Next(todo, change); Drained(next.todo, next.change)
  }

  lemma {:induction false} DrainedIsLast(todo: seq<Action>, change: Signal)
    ensures var i := AgentLoop.Last(todo, AgentLoop.SetsState);
            Drained(todo, change) == if i >= 0 then todo[i].state else change
    decreases |todo|
  {
    if |todo| > 0 {
      DrainedIsLast(todo[1..], NextChange(change, todo[0]));
      AgentLoop.LastAfter([todo[0]], todo[1..], AgentLoop.SetsState);
      assert [todo[0]] + todo[1..] == todo;
      assert [todo[0]][..0] == [];
    }
  }

  /** Answering the calls of a response one at a time, from the phase that the response leaves, the engine decides as
      the agent loop does by the last SET_STATE of the response. */
  lemma DecidesAlike(s: State, w: WorkerId, calls: seq<Action>)
    requires LoopEnabled(s, w, Respond(calls)) && |calls| > 0
    ensures var at := LoopStep(s, w, Respond(calls)).phase[w];
            && at.Acting? && at.todo == calls
            && VerdictOf(Drained(at.todo, at.change)) == VerdictOf(AgentLoop.ChangeOf(calls))
  {
    DrainedIsLast(calls, NO_CHANGE);
  }
}
