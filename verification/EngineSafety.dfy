/** What the engine guarantees in every reachable state and over every run, whatever the interleaving. */
module EngineSafety {
  import opened Prelude
  import opened Tasks
  import opened TaskTree
  import opened Containers
  import opened Engine
  import opened EngineInvariant
  import opened EngineRuns
  import Agents

  // ---------------------------------------------------------------- conservation

  /** Instance `i` is at place `p`, read off the queues, the workers and the outcome sets. */
  ghost predicate At(s: State, i: InstanceId, p: Place) {
    match p
    case Created => i in s.roots
    case CreatedBy(w) => w in s.phase && s.phase[w].Sending? && s.phase[w].child == i
    case InChannel => i in s.enqueueCh
    case InQueue => i in s.queue
    case InReply(w) => w in s.worker && s.worker[w] == Replied(Some(i))
    case HeldBy(w) => w in s.worker && (s.worker[w] == Holding(i) || s.worker[w] == Returning(i))
    case RunBy(w) => w in s.worker && s.worker[w].Busy? && s.worker[w].task == i
    case Finished => i in s.finished
    case Dropped => i in s.dropped
    case Rejected => i in s.rejected
  }

  lemma PlaceIsReal(c: Config, s: State)
    requires StoredIn(s) && HeldIn(s) && Newborn(s.place, s.phase)
    ensures forall i, p :: At(s, i, p) <==> i in s.place && s.place[i] == p
  {
  }

  /** Every inserted task is at exactly one place, at most once there; nothing else is anywhere. */
  lemma TaskConservation(c: Config, s: State)
    requires Reachable(c, s)
    ensures forall i | i in s.parent :: exists p :: At(s, i, p)
    ensures forall i, p, q | At(s, i, p) && At(s, i, q) :: p == q && i in s.parent
    ensures Distinct(s.enqueueCh) && Distinct(s.queue)
  {
    ReachableTasks(c, s);
    ReachableTree(c, s);
    PlaceIsReal(c, s);
    forall i | i in s.parent ensures exists p :: At(s, i, p) {
      assert At(s, i, s.place[i]);
    }
  }

  // ---------------------------------------------------------------- requests

  /** A reply always finds its channel empty, so the queue loop never blocks on it: the worker that asked first is
      waiting before the dequeue arm runs, has its reply afterwards, and is asking no more. One request fewer is
      unanswered, and no other worker notices. */
  lemma RequestAnswered(c: Config, s: State)
    requires Reachable(c, s) && |s.dequeueCh| > 0
    ensures var w, t := s.dequeueCh[0], AnswerRequest(s);
            && w in s.worker && s.worker[w] == Waiting
            && w in t.worker && t.worker[w] == Replied(if |s.queue| == 0 then None else Some(s.queue[0]))
            && w !in t.dequeueCh && |t.dequeueCh| == |s.dequeueCh| - 1
            && forall v | v in s.worker && v != w :: v in t.worker && t.worker[v] == s.worker[v]
  {
    ReachableQueue(c, s);
    assert s.dequeueCh[0] in s.dequeueCh;
  }

  /** A worker waits for a reply exactly when one request of its own is queued. */
  lemma WaitingIsAsking(c: Config, s: State, w: WorkerId)
    requires Reachable(c, s)
    ensures w in s.worker && s.worker[w] == Waiting <==> multiset(s.dequeueCh)[w] == 1
    ensures multiset(s.dequeueCh)[w] <= 1
  {
    ReachableQueue(c, s);
    OnceInDistinct(s.dequeueCh, w);
    assert w in s.dequeueCh <==> w in multiset(s.dequeueCh);
  }

  // ---------------------------------------------------------------- the order of the queue

  /** A task is ahead of one of a strictly higher class only within the bound of ClassInversion: whenever the two were
      scored, the lower one was then an hour old and the higher one brand new. */
  ghost predicate InversionBound(low: Task, high: Task) {
    && Class(high.priority) == Class(low.priority) + 1
    && low.created <= high.created
    && (forall at | ScoredAt(low, at) :: AgeMinutes(low.created, at) >= 60.0)
    && (forall at | ScoredAt(high, at) :: at == high.created)
  }

  lemma InvertedPair(v: seq<Task>, j: int, k: int)
    requires Ordered(v) && 0 <= j < k < |v| && WellScored(v[j]) && WellScored(v[k])
    requires Class(v[j].priority) < Class(v[k].priority)
    ensures InversionBound(v[j], v[k])
  {
    var jAt :| ScoredAt(v[j], jAt);
    var kAt :| ScoredAt(v[k], kAt);
    assert !Before(v[k], v[j]);
    ClassInversion(v[j], jAt, v[k], kAt);
    forall at | ScoredAt(v[j], at) ensures AgeMinutes(v[j].created, at) >= 60.0 {
      ClassInversion(v[j], at, v[k], kAt);
    }
    forall at | ScoredAt(v[k], at) ensures at == v[k].created {
      ClassInversion(v[j], jAt, v[k], at);
    }
  }

  /** The queue is in order, what a worker gets is the best task, and classes are inverted only within the bound. */
  lemma QueueServesBest(c: Config, s: State)
    requires Reachable(c, s)
    ensures forall k | 0 <= k < |s.queue| :: s.queue[k] in s.heap && WellScored(s.heap[s.queue[k]])
    ensures Ordered(View(s.heap, s.queue))
    ensures forall j, k | 0 <= j < k < |s.queue| ::
              var a, b := s.heap[s.queue[j]], s.heap[s.queue[k]];
              a.score > b.score || (a.score == b.score && a.created <= b.created)
    ensures |s.queue| > 0 ==> Pick(View(s.heap, s.queue), Any) == 0
    ensures forall j, k | 0 <= j < k < |s.queue|
            && Class(s.heap[s.queue[j]].priority) < Class(s.heap[s.queue[k]].priority) ::
              InversionBound(s.heap[s.queue[j]], s.heap[s.queue[k]])
  {
    ReachableQueue(c, s);
    var v := View(s.heap, s.queue);
    forall j, k | 0 <= j < k < |s.queue|
      ensures var a, b := s.heap[s.queue[j]], s.heap[s.queue[k]];
              a.score > b.score || (a.score == b.score && a.created <= b.created)
    {
      assert !Before(v[k], v[j]);
    }
    forall j, k | 0 <= j < k < |s.queue| && Class(s.heap[s.queue[j]].priority) < Class(s.heap[s.queue[k]].priority)
      ensures InversionBound(s.heap[s.queue[j]], s.heap[s.queue[k]])
    {
      InvertedPair(v, j, k);
    }
  }

  /** In a reachable queue, of two tasks of one priority the one older at its scoring is served first if either was
      under an hour old then, and otherwise the one created first. */
  lemma OlderIsServedFirst(c: Config, s: State, j: nat, jAt: int, k: nat, kAt: int)
    requires Reachable(c, s) && j < |s.queue| && k < |s.queue| && s.queue[j] in s.heap && s.queue[k] in s.heap
    requires var a, b := s.heap[s.queue[j]], s.heap[s.queue[k]];
             && a.priority == b.priority
             && a.score == Score(a.priority, a.created, jAt) && b.score == Score(b.priority, b.created, kAt)
             && jAt - a.created > kAt - b.created
    ensures var a, b := s.heap[s.queue[j]], s.heap[s.queue[k]];
            && (kAt - b.created < 3_600_000_000_000 ==> j < k)
            && (kAt - b.created >= 3_600_000_000_000 && a.created < b.created ==> j < k)
            && (kAt - b.created >= 3_600_000_000_000 && b.created < a.created ==> k < j)
  {
    ReachableQueue(c, s);
    var v := View(s.heap, s.queue);
    OlderGoesBefore(v[j], jAt, v[k], kAt);
    assert k < j ==> !Before(v[j], v[k]);
    assert j < k ==> !Before(v[k], v[j]);
  }

  // ---------------------------------------------------------------- the callback registry

  /** The registry search of SEND_PARENT runs over a map in random order; it cannot matter, because an instance has at
      most one entry. */
  lemma ParentSearchIsDeterministic(c: Config, s: State, w: WorkerId, one: AgentId, other: AgentId)
    requires Reachable(c, s)
    requires Enabled(c, s, Call(w, FindParent(Some(one)))) && Enabled(c, s, Call(w, FindParent(Some(other))))
    ensures one == other && !Enabled(c, s, Call(w, FindParent(None)))
  {
    ReachableAssignments(c, s);
  }

  /** A child message goes to the agent its parent task was assigned, never to another, however stale the entry. */
  lemma MessageReachesParentOnly(c: Config, s: State, w: WorkerId)
    requires Reachable(c, s) && Enabled(c, s, Call(w, PushInput))
    ensures var i, t := s.worker[w].task, Apply(c, s, Call(w, PushInput));
            && s.parent[i].Some? && s.parent[i].value in s.assignee
            && forall a | a in s.inbox && t.inbox[a] != s.inbox[a] ::
                 a == s.assignee[s.parent[i].value] && |s.inbox[a]| < Agents.INPUT_CAPACITY
                 && t.inbox[a] == s.inbox[a] + [ChildMessage(i, s.phase[w].text)]
  {
    ReachablePhase(c, s, w);
  }

  /** The branch for a full input queue at task start is dead, and the input queue then holds the task start alone. */
  lemma GreetingNeverFails(c: Config, s: State, w: WorkerId)
    requires Reachable(c, s)
    ensures !Enabled(c, s, Setup(w, GreetFails))
    ensures BusyAt(s, w) && s.phase[w] == Listening(true) ==>
              s.worker[w].agent in s.inbox && s.inbox[s.worker[w].agent] == [TaskStart(s.worker[w].task)]
  {
    if BusyAt(s, w) {
      ReachablePhase(c, s, w);
    }
  }

  // ---------------------------------------------------------------- the task tree

  /** Every row has one depth, bounded by MaxTaskDepth when that is not negative, and is not its own ancestor. */
  lemma DepthBounded(c: Config, s: State, i: InstanceId)
    requires Reachable(c, s) && i in s.parent
    ensures exists d: nat :: HasDepth(s.parent, i, d) && (d <= c.maxDepth || d == 0)
    ensures forall d: nat, e: nat | HasDepth(s.parent, i, d) && HasDepth(s.parent, i, e) :: d == e
    ensures forall path | Climbs(s.parent, path) && |path| > 1 && path[0] == i :: path[|path| - 1] != i
  {
    ReachableTree(c, s);
    LevelIsDepth(s.parent, s.level, i);
    assert HasDepth(s.parent, i, s.level[i]);
  }

  /** The bound holds in every reachable store exactly when MaxTaskDepth is not negative: a root is inserted before its
      depth is checked. */
  lemma DepthBoundIffNonNegative(c: Config)
    ensures (forall s, i, d: nat | Reachable(c, s) && i in s.parent && HasDepth(s.parent, i, d) :: d <= c.maxDepth)
            <==> 0 <= c.maxDepth
  {
    if 0 <= c.maxDepth {
      forall s, i, d: nat | Reachable(c, s) && i in s.parent && HasDepth(s.parent, i, d) ensures d <= c.maxDepth {
        DepthBounded(c, s, i);
      }
    } else {
      var task := Task(0, Any, Normal, 0, 0.0);
      var e := Daemon(InsertRoot(task));
      var s := Apply(c, Init(c), e);
      var r := Run([Init(c), s], [e]);
      assert StepIn(r.states, r.events, Transitions(c), 0);
      assert IsRun(c, r) && r.states[|r.events|] == s;
      assert Reachable(c, s);
      assert Ancestry(s.parent, [0]);
      assert HasDepth(s.parent, 0, 0);
    }
  }

  lemma DaemonRejectsNone(c: Config, s: State, d: DaemonEvent)
    requires DaemonEnabled(c, s, d) && 0 <= c.maxDepth
    ensures DaemonStep(c, s, d).rejected == s.rejected
  {
    if d.Answer? { AnswerRejectsNone(s); }
  }

  lemma AnswerRejectsNone(s: State)
    requires |s.dequeueCh| > 0
    ensures AnswerRequest(s).rejected == s.rejected
  {
  }

  lemma PoolRejectsNone(c: Config, s: State, w: WorkerId, p: PoolEvent)
    requires PoolEnabled(c, s, w, p)
    ensures PoolStep(c, s, w, p).rejected == s.rejected
  {
  }

  lemma CallRejectsNone(c: Config, s: State, w: WorkerId, t: CallEvent)
    requires CallEnabled(s, w, t)
    ensures CallStep(c, s, w, t).rejected == s.rejected
  {
  }

  lemma NoRejection(c: Config, s: State, e: Event)
    requires Enabled(c, s, e) && 0 <= c.maxDepth
    ensures Apply(c, s, e).rejected == s.rejected
  {
    match e
    case Daemon(d) => DaemonRejectsNone(c, s, d);
    case Pool(w, p) => PoolRejectsNone(c, s, w, p);
    case Setup(w, u) => SetupFrame(s, w, u);
    case Loop(w, l) => LoopFrame(s, w, l);
    case Call(w, t) => CallRejectsNone(c, s, w, t);
  }

  /** A root is rejected in some run, and sent in none, exactly when MaxTaskDepth is negative. */
  lemma RootsRejectedIffNegative(c: Config)
    ensures (exists s, i :: Reachable(c, s) && i in s.rejected) <==> c.maxDepth < 0
    ensures c.maxDepth < 0 ==> forall s, i :: !Enabled(c, s, Daemon(SendRoot(i)))
  {
    if s, i :| Reachable(c, s) && i in s.rejected && 0 <= c.maxDepth {
      var r :| IsRun(c, r) && r.states[|r.events|] == s;
      NoneRejected(c, r, |r.events|);
      assert false;
    }
    if c.maxDepth < 0 {
      var s := SomeRootRejected(c);
      assert 0 in s.rejected;
    }
  }

  lemma NoneRejected(c: Config, r: Run, k: nat)
    requires IsRun(c, r) && k < |r.states| && 0 <= c.maxDepth
    ensures r.states[k].rejected == {}
  {
    assert r.states[0] == Init(c);
    var m := 0;
    while m < k
      invariant m <= k && r.states[m].rejected == {}
    {
      RunStep(c, r, m);
      NoRejection(c, r.states[m], r.events[m]);
      m := m + 1;
    }
  }

  lemma SomeRootRejected(c: Config) returns (s: State)
    requires c.maxDepth < 0
    ensures Reachable(c, s) && 0 in s.rejected
  {
    var e, f := Daemon(InsertRoot(Task(0, Any, Normal, 0, 0.0))), Daemon(RejectRoot(0));
    var t := Apply(c, Init(c), e);
    assert t.roots == {0};
    s := Apply(c, t, f);
    assert s.rejected == t.rejected + {0};
    TwoSteps(c, e, t, f, s);
  }

  lemma TwoSteps(c: Config, e: Event, t: State, f: Event, s: State)
    requires Enabled(c, Init(c), e) && t == Apply(c, Init(c), e) && Enabled(c, t, f) && s == Apply(c, t, f)
    ensures Reachable(c, s)
  {
    var r := Run([Init(c), t, s], [e, f]);
    assert StepIn(r.states, r.events, Transitions(c), 0);
    assert StepIn(r.states, r.events, Transitions(c), 1);
    assert IsRun(c, r) && r.states[|r.events|] == s;
  }

  /** When the walk of SPAWN_TASK ends, its count is the true depth of the calling task; while it goes on, the level of
      the current row decreases. A child is inserted only one level below its parent, within the limit. */
  lemma WalkCountsDepth(c: Config, s: State, w: WorkerId)
    requires Reachable(c, s)
    ensures Enabled(c, s, Call(w, EndWalk)) ==> HasDepth(s.parent, s.worker[w].task, s.phase[w].count)
    ensures Enabled(c, s, Call(w, Climb)) ==>
              var up := s.parent[s.phase[w].current].value;
              up in s.level && s.phase[w].current in s.level && s.level[up] < s.level[s.phase[w].current]
    ensures BusyAt(s, w) && s.phase[w].Inserting? ==>
              s.worker[w].task in s.parent && s.phase[w].depth > 0
              && HasDepth(s.parent, s.worker[w].task, s.phase[w].depth - 1) && s.phase[w].depth <= c.maxDepth
  {
    ReachableTree(c, s);
    if BusyAt(s, w) {
      ReachablePhase(c, s, w);
      if s.phase[w].Walking? {
        assert LevelOk(s.parent, s.level, s.phase[w].current);
        LevelIsDepth(s.parent, s.level, s.worker[w].task);
      } else if s.phase[w].Inserting? {
        LevelIsDepth(s.parent, s.level, s.worker[w].task);
      }
    }
  }

  /** The check that follows: the child is inserted if and only if the task above it, however deep the interleaved walk
      found it, is above the limit; a child at the limit is allowed, and a refusal goes on to the next call. */
  lemma ChildWithinLimit(c: Config, s: State, w: WorkerId)
    requires Reachable(c, s) && Enabled(c, s, Call(w, EndWalk))
    ensures exists d: nat :: HasDepth(s.parent, s.worker[w].task, d)
    ensures var t := Apply(c, s, Call(w, EndWalk));
            forall d: nat | HasDepth(s.parent, s.worker[w].task, d) ::
              && (d + 1 <= c.maxDepth ==> t.phase[w] == Inserting(s.phase[w].todo, s.phase[w].change, d + 1))
              && (d + 1 > c.maxDepth ==> t.phase[w] == Next(s.phase[w].todo, s.phase[w].change))
  {
    WalkCountsDepth(c, s, w);
    DepthBounded(c, s, s.worker[w].task);
  }

  // ---------------------------------------------------------------- containers

  /** Who answers for the container of `i`, read off workers, registry and pending releases. */
  ghost predicate Answers(s: State, i: InstanceId, o: Owner) {
    match o
    case Creator(w) => w in s.phase && w in s.worker && Carries(s.worker[w], s.phase[w]) && s.worker[w].task == i
    case Registered(a) => a in s.registry && s.registry[a].task == i && s.registry[a].container.Some?
    case Releaser => i in s.releasing
  }

  /** Every container of the manager has exactly one owner, at most one release is pending for it, and no two instances
      share one. */
  lemma ContainerOwnership(c: Config, s: State)
    requires Reachable(c, s)
    ensures forall i | i in s.containers :: exists o :: Answers(s, i, o)
    ensures forall i, o, o' | Answers(s, i, o) && Answers(s, i, o') :: o == o' && i in s.containers
    ensures forall i :: s.releasing[i] <= 1
    ensures InjectiveMap(s.containers)
  {
    ReachableContainers(c, s);
    OwnerIsReal(s.owner, s.containers, s);
    forall i | i in s.containers ensures exists o :: Answers(s, i, o) {
      assert Answers(s, i, s.owner[i]);
    }
  }

  lemma OwnerIsReal(owner: map<InstanceId, Owner>, containers: ContainerMap, s: State)
    requires Owned(owner, containers, s.worker, s.phase, s.registry, s.releasing)
    ensures forall i, o :: Answers(s, i, o) <==> i in owner && owner[i] == o
  {
  }

  /** EXECUTE_CMD finds its own entry; if the entry has a container, it is the one made for the calling task, still in
      the manager's map, and no release of it is pending. */
  lemma CommandsRunAtHome(c: Config, s: State, w: WorkerId)
    requires Reachable(c, s) && Enabled(c, s, Call(w, Execute))
    ensures var i, a := s.worker[w].task, s.worker[w].agent;
            && a in s.registry && s.registry[a].task == i
            && (s.registry[a].container.Some? ==>
                  i in s.containers && s.containers[i] == s.registry[a].container.value && i !in s.releasing)
  {
    ReachableContainers(c, s);
    ReachablePhase(c, s, w);
  }

  /** A worker never finds a container it did not create: the reuse branch is not taken. */
  lemma ContainersAreNew(c: Config, s: State, w: WorkerId, made: Option<ContainerId>)
    requires Reachable(c, s) && Enabled(c, s, Setup(w, CreateContainer(made)))
    ensures s.worker[w].task !in s.containers
  {
    ReachablePhase(c, s, w);
  }

  // ---------------------------------------------------------------- the agent pool

  function BusyWorkers(s: State): set<WorkerId> {
    set w | w in s.worker && s.worker[w].Busy?
  }

  /** The pool has one agent for each busy worker, hence never more than there are workers, nor more than MaxAgents. */
  lemma PoolSize(c: Config, s: State)
    requires Reachable(c, s)
    ensures |s.pool| == |BusyWorkers(s)| <= |c.workers|
    ensures |s.pool| <= c.maxAgents || |s.pool| == 0
  {
    ReachableStaff(c, s);
    ReachableQueue(c, s);
    InjectiveSize(s.pool);
    assert s.pool.Values == BusyWorkers(s) by {
      forall w | w in BusyWorkers(s) ensures w in s.pool.Values {
        assert s.pool[s.worker[w].agent] == w;
      }
    }
    assert |s.pool| == |s.pool.Keys|;
    SubsetSize(BusyWorkers(s), c.workers);
  }

  /** With no more workers than MaxAgents, spawning never fails for lack of capacity. */
  lemma CapacitySuffices(c: Config, s: State, w: WorkerId)
    requires Reachable(c, s) && |c.workers| <= c.maxAgents
    ensures !Enabled(c, s, Pool(w, SpawnFails(AtCapacity)))
  {
    if Enabled(c, s, Pool(w, SpawnFails(AtCapacity))) {
      PoolSize(c, s);
      ReachableQueue(c, s);
      SubsetSize(BusyWorkers(s), c.workers - {w});
    }
  }

  /** The worker's RemoveAgent finds its agent, whose stop channel has not been closed before. */
  lemma RemovalFindsAgent(c: Config, s: State, w: WorkerId)
    requires Reachable(c, s) && Enabled(c, s, Pool(w, RemoveAgent))
    ensures var a, t := s.worker[w].agent, Apply(c, s, Pool(w, RemoveAgent));
            && a in s.pool && a !in s.closed
            && t.closed == s.closed + {a} && t.pool == s.pool - {a}
  {
    ReachableStaff(c, s);
  }

  /** A stored identifier is never handed out again, so a collision makes the spawn fail and spares the live agent. */
  lemma LiveAgentsAreSpared(c: Config, s: State, w: WorkerId, a: AgentId)
    requires Reachable(c, s) && Enabled(c, s, Pool(w, SpawnAgent(a)))
    ensures a !in s.pool && a !in s.registry && a !in s.closed
    ensures forall b | b in s.pool :: b in s.agentRows
  {
    ReachableStaff(c, s);
    ReachableAssignments(c, s);
  }
}
