/** Progress: exactly when a worker has something it can do, and that the queue loop always has (the blocking operations
    are the channel sends and receives of internal/services/task/task_queue.go:159-195 and
    internal/runtime/runtime.go:206-242, 340-342). */
module EngineProgress {
  import opened Prelude
  import opened Tasks
  import opened Engine
  import opened EngineInvariant
  import opened EngineRuns
  import opened QueueRefinement

  ghost predicate CanMove(c: Config, s: State, w: WorkerId) {
    exists e :: OfWorker(e, w) && Enabled(c, s, e)
  }

  /** Worker `w` waits for somebody else: for its reply, for room in a channel, or for an input. */
  predicate Blocked(s: State, w: WorkerId)
    requires w in s.worker
  {
    match s.worker[w]
    case Polling => |s.dequeueCh| >= CHANNEL_CAPACITY
    case Waiting => true
    case Replied(_) => false
    case Holding(_) => false
    case Returning(_) => |s.enqueueCh| >= CHANNEL_CAPACITY
    case Busy(_, a) =>
      && w in s.phase
      && match s.phase[w]
         case Listening(_) => a in s.inbox && |s.inbox[a]| == 0
         case Sending(_, _, _) => |s.enqueueCh| >= CHANNEL_CAPACITY
         case _ => false
  }

  // ---------------------------------------------------------------- a blocked worker cannot move

  lemma BlockedPool(c: Config, s: State, w: WorkerId, p: PoolEvent)
    requires w in s.worker && Blocked(s, w)
    ensures !PoolEnabled(c, s, w, p)
  {
  }

  lemma BlockedInside(s: State, w: WorkerId)
    requires w in s.worker && Blocked(s, w)
    ensures forall u :: !SetupEnabled(s, w, u)
    ensures forall l :: !LoopEnabled(s, w, l)
    ensures forall t :: !CallEnabled(s, w, t)
  {
  }

  lemma BlockedStays(c: Config, s: State, w: WorkerId)
    requires w in s.worker && Blocked(s, w)
    ensures !CanMove(c, s, w)
  {
    BlockedInside(s, w);
    forall e | OfWorker(e, w) ensures !Enabled(c, s, e) {
      match e
      case Pool(_, p) => BlockedPool(c, s, w, p);
      case Setup(_, u) =>
      case Loop(_, l) =>
      case Call(_, t) =>
    }
  }

  // ---------------------------------------------------------------- any other worker can

  lemma PoolMoves(c: Config, s: State, w: WorkerId) returns (p: PoolEvent)
    requires w in s.worker && !s.worker[w].Busy? && !Blocked(s, w)
    ensures PoolEnabled(c, s, w, p)
  {
    match s.worker[w]
    case Polling => p := Ask;
    case Waiting =>
    case Replied(_) => p := Receive;
    case Holding(_) => p := SpawnFails(if |s.pool| >= c.maxAgents then AtCapacity else StoreError);
    case Returning(_) => p := GiveBack;
    case Busy(_, _) =>
  }

  lemma SetupMoves(c: Config, s: State, w: WorkerId) returns (u: SetupEvent)
    requires BusyAt(s, w) && PhaseOk(c, s, w) && (s.phase[w].Starting? || s.phase[w].Creating? || s.phase[w].Greeting?)
    ensures SetupEnabled(s, w, u)
  {
    match s.phase[w]
    case Starting => u := Abort;
    case Creating(_) => u := Register;
    case Greeting => u := Greet;
  }

  lemma LoopMoves(c: Config, s: State, w: WorkerId) returns (l: LoopEvent)
    requires BusyAt(s, w) && !Blocked(s, w) && s.worker[w].agent in s.inbox
    requires s.phase[w].Listening? || s.phase[w].Prompting? || (s.phase[w].Acting? && |s.phase[w].todo| == 0)
    ensures LoopEnabled(s, w, l)
  {
    match s.phase[w]
    case Listening(_) => l := Hear;
    case Prompting(_) => l := ModelFails;
    case Acting(_, _) => l := Decide;
  }

  /** The head call of a response can always be answered. */
  lemma HeadMoves(s: State, w: WorkerId) returns (t: CallEvent)
    requires BusyAt(s, w) && s.worker[w].task in s.parent && s.phase[w].Acting? && |s.phase[w].todo| > 0
    ensures CallEnabled(s, w, t)
  {
    var i := s.worker[w].task;
    match s.phase[w].todo[0]
    case SetState(_, _) => t := Skip;
    case SendParent(m) =>
      if |m| == 0 || s.parent[i].None? {
        t := Skip;
      } else {
        t := ParentSearch(s, w);
      }
    case SpawnTask(d) => t := if |d| == 0 then Skip else StartWalk;
    case ExecuteCmd(code) => t := if |code| == 0 then Skip else Execute;
    case UnknownTool => t := Skip;
  }

  lemma ParentSearch(s: State, w: WorkerId) returns (t: CallEvent)
    requires BusyAt(s, w) && s.worker[w].task in s.parent && s.phase[w].Acting? && |s.phase[w].todo| > 0
    requires s.phase[w].todo[0].SendParent? && |s.phase[w].todo[0].message| > 0 && s.parent[s.worker[w].task].Some?
    ensures CallEnabled(s, w, t)
  {
    var p := s.parent[s.worker[w].task].value;
    if a :| a in s.registry && s.registry[a].task == p {
      t := FindParent(Some(a));
    } else {
      t := FindParent(None);
    }
  }

  lemma CallMoves(s: State, w: WorkerId) returns (t: CallEvent)
    requires BusyAt(s, w) && s.worker[w].task in s.parent && !Blocked(s, w)
    requires s.phase[w].Messaging? ==> s.phase[w].target in s.inbox
    requires s.phase[w].Walking? || s.phase[w].Inserting? || s.phase[w].Sending? || s.phase[w].Messaging?
    ensures CallEnabled(s, w, t)
  {
    match s.phase[w]
    case Walking(_, _, current, _) => t := if current in s.parent && s.parent[current].Some? then Climb else EndWalk;
    case Inserting(_, _, _) => t := InsertFails;
    case Sending(_, _, _) => t := SendChild;
    case Messaging(_, _, _, _, stage) =>
      t := if stage.Found? then CheckTarget else if stage.Checked? then LookUpTarget else PushInput;
  }

  /** What a busy worker relies on to move. */
  lemma BusyFacts(c: Config, s: State, w: WorkerId)
    requires Reachable(c, s) && w in s.worker && s.worker[w].Busy?
    ensures BusyAt(s, w) && PhaseOk(c, s, w)
    ensures s.worker[w].task in s.parent && s.worker[w].agent in s.inbox
    ensures s.phase[w].Messaging? ==> s.phase[w].target in s.inbox
  {
    ReachableInv(c, s);
    assert InPhase(s.worker, s.phase) && w in s.phase;
    assert AssignedIn(s) && RootedIn(c, s) && StaffedIn(c, s);
    assert PhaseOk(c, s, w);
  }

  lemma BusyMoves(c: Config, s: State, w: WorkerId)
    requires BusyAt(s, w) && PhaseOk(c, s, w) && !Blocked(s, w)
    requires s.worker[w].task in s.parent && s.worker[w].agent in s.inbox
    requires s.phase[w].Messaging? ==> s.phase[w].target in s.inbox
    ensures CanMove(c, s, w)
  {
    var at := s.phase[w];
    if at.Starting? || at.Creating? || at.Greeting? {
      var u := SetupMoves(c, s, w);
      assert Enabled(c, s, Setup(w, u));
    } else if at.Listening? || at.Prompting? || (at.Acting? && |at.todo| == 0) {
      var l := LoopMoves(c, s, w);
      assert Enabled(c, s, Loop(w, l));
    } else if at.Leaving? {
      assert Enabled(c, s, Pool(w, RemoveAgent));
    } else if at.Acting? {
      var t := HeadMoves(s, w);
      assert Enabled(c, s, Call(w, t));
    } else {
      var t := CallMoves(s, w);
      assert Enabled(c, s, Call(w, t));
    }
  }

  /** In every reachable state a worker can do something of its own unless it waits for a reply, for room in a channel,
      or for an input; and only then. */
  lemma WorkerMovesIff(c: Config, s: State, w: WorkerId)
    requires Reachable(c, s) && w in s.worker
    ensures CanMove(c, s, w) <==> !Blocked(s, w)
  {
    if Blocked(s, w) {
      BlockedStays(c, s, w);
    } else if s.worker[w].Busy? {
      BusyFacts(c, s, w);
      BusyMoves(c, s, w);
    } else {
      var p := PoolMoves(c, s, w);
      assert Enabled(c, s, Pool(w, p));
    }
  }

  // ---------------------------------------------------------------- the queue loop

  /** Where a task belongs in an ordered queue. */
  lemma {:induction false} PlaceFor(q: seq<Task>, t: Task) returns (p: nat)
    requires Ordered(q)
    ensures p <= |q| && Ordered(q[..p] + [t] + q[p..])
  {
    p := |q|;
    while p > 0 && Before(t, q[p - 1])
      invariant p <= |q| && forall k | p <= k < |q| :: !Before(q[k], t)
    {
      p := p - 1;
    }
    forall k | 0 <= k < p ensures !Before(t, q[k]) {
      if k < p - 1 {
        assert !Before(q[p - 1], q[k]);
      }
    }
  }

  lemma SortIn(heap: map<InstanceId, Task>, queue: seq<InstanceId>, i: InstanceId) returns (q: seq<InstanceId>)
    requires i in heap && (forall k | 0 <= k < |queue| :: queue[k] in heap) && Ordered(View(heap, queue))
    ensures multiset(q) == multiset(queue + [i])
    ensures (forall k | 0 <= k < |q| :: q[k] in heap) && Ordered(View(heap, q))
  {
    var p := PlaceFor(View(heap, queue), heap[i]);
    q := queue[..p] + [i] + queue[p..];
    Inserted(queue, p, i);
    assert View(heap, q) == View(heap, queue)[..p] + [heap[i]] + View(heap, queue)[p..];
  }

  lemma SameView(heap: map<InstanceId, Task>, queue: seq<InstanceId>, i: InstanceId, t: Task)
    requires i !in queue && forall k | 0 <= k < |queue| :: queue[k] in heap
    ensures View(heap[i := t], queue) == View(heap, queue)
  {
  }

  lemma HeadIsKnown(c: Config, s: State)
    requires Reachable(c, s) && |s.enqueueCh| > 0
    ensures s.enqueueCh[0] in s.heap && s.enqueueCh[0] !in s.queue
  {
    ReachableTasks(c, s);
    ReachableTree(c, s);
    ChannelIsNotQueue(c, s);
    assert s.enqueueCh[0] in s.enqueueCh;
  }

  /** The task at the head of the channel can be sorted in. */
  lemma AcceptPossible(c: Config, s: State) returns (now: int, q: seq<InstanceId>)
    requires Reachable(c, s) && |s.enqueueCh| > 0 && |s.queue| < c.maxQueue
    ensures DaemonEnabled(c, s, Accept(now, q))
  {
    ReachableQueue(c, s);
    HeadIsKnown(c, s);
    var i := s.enqueueCh[0];
    now := s.heap[i].created;
    SameView(s.heap, s.queue, i, Rescored(s.heap[i], now));
    q := SortIn(s.heap[i := Rescored(s.heap[i], now)], s.queue, i);
  }

  lemma Inserted<T>(s: seq<T>, p: nat, x: T)
    requires p <= |s|
    ensures multiset(s[..p] + [x] + s[p..]) == multiset(s + [x])
  {
    assert s == s[..p] + s[p..];
  }

  /** The queue loop is never stuck: it can take the head of a channel that is not empty, into the queue if there is
      room and away if there is not, and it can answer any request. */
  lemma QueueLoopMoves(c: Config, s: State)
    requires Reachable(c, s)
    ensures |s.enqueueCh| > 0 && |s.queue| < c.maxQueue ==> exists now, q :: DaemonEnabled(c, s, Accept(now, q))
    ensures |s.enqueueCh| > 0 && |s.queue| >= c.maxQueue ==> DaemonEnabled(c, s, Refuse)
    ensures |s.dequeueCh| > 0 ==> DaemonEnabled(c, s, Answer)
  {
    if |s.enqueueCh| > 0 && |s.queue| < c.maxQueue {
      var now, q := AcceptPossible(c, s);
    }
  }

  /** No deadlock: while a worker waits for a reply or for room in a channel, the queue loop can move. */
  lemma WaitingForTheLoopOnly(c: Config, s: State, w: WorkerId)
    requires Reachable(c, s) && w in s.worker && Blocked(s, w)
    ensures (s.worker[w].Busy? && w in s.phase && s.phase[w].Listening?)
            || exists d: DaemonEvent :: (d.Accept? || d.Refuse? || d.Answer?) && DaemonEnabled(c, s, d)
  {
    ReachableQueue(c, s);
    QueueLoopMoves(c, s);
    if s.worker[w].Waiting? {
      assert w in s.dequeueCh;
    }
    if |s.dequeueCh| > 0 {
      assert DaemonEnabled(c, s, Answer);
    } else if |s.enqueueCh| > 0 && |s.queue| >= c.maxQueue {
      assert DaemonEnabled(c, s, Refuse);
    } else if |s.enqueueCh| > 0 {
      var now, q :| DaemonEnabled(c, s, Accept(now, q));
    }
  }
}
