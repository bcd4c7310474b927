/** The joint invariant of the engine. Each part is stated on the fields it constrains; none is inductive without the
    others. */
module EngineInvariant {
  import opened Prelude
  import opened Tasks
  import opened TaskTree
  import opened Containers
  import opened Engine

  /** The place of an instance that is in one of the shared collections. */
  ghost predicate Stored(place: map<InstanceId, Place>, roots: set<InstanceId>, channel: seq<InstanceId>,
                         queue: seq<InstanceId>, finished: set<InstanceId>, dropped: set<InstanceId>,
                         rejected: set<InstanceId>)
  {
    && (forall i :: i in roots <==> i in place && place[i] == Created)
    && (forall i :: i in channel <==> i in place && place[i] == InChannel)
    && (forall i :: i in queue <==> i in place && place[i] == InQueue)
    && (forall i :: i in finished <==> i in place && place[i] == Finished)
    && (forall i :: i in dropped <==> i in place && place[i] == Dropped)
    && (forall i :: i in rejected <==> i in place && place[i] == Rejected)
    && Distinct(channel)
    && Distinct(queue)
  }

  /** The place of an instance that a worker holds. */
  ghost predicate Held(place: map<InstanceId, Place>, worker: map<WorkerId, Worker>) {
    && (forall w | w in worker ::
          match worker[w]
          case Replied(Some(i)) => i in place && place[i] == InReply(w)
          case Holding(i) => i in place && place[i] == HeldBy(w)
          case Returning(i) => i in place && place[i] == HeldBy(w)
          case Busy(i, _) => i in place && place[i] == RunBy(w)
          case _ => true)
    && (forall i | i in place ::
          match place[i]
          case InReply(w) => w in worker && worker[w] == Replied(Some(i))
          case HeldBy(w) => w in worker && (worker[w] == Holding(i) || worker[w] == Returning(i))
          case RunBy(w) => w in worker && worker[w].Busy? && worker[w].task == i
          case _ => true)
  }

  /** The place of a child whose row is inserted and which is not yet sent to the queue. */
  ghost predicate Newborn(place: map<InstanceId, Place>, phase: map<WorkerId, Phase>) {
    && (forall w | w in phase && phase[w].Sending? :: phase[w].child in place && place[phase[w].child] == CreatedBy(w))
    && (forall i | i in place && place[i].CreatedBy? ::
          place[i].w in phase && phase[place[i].w].Sending? && phase[place[i].w].child == i)
  }

  /** Levels, and children only below tasks that have been started. */
  ghost predicate Rooted(c: Config, parent: Parents, level: map<InstanceId, nat>, heap: map<InstanceId, Task>,
                         place: map<InstanceId, Place>, assignee: map<InstanceId, AgentId>)
  {
    && Levelled(parent, level)
    && heap.Keys == parent.Keys
    && place.Keys == parent.Keys
    && (forall i {:trigger ParentStarted(parent, assignee, i)} | i in parent :: ParentStarted(parent, assignee, i))
    && (forall i | i in level :: level[i] <= c.maxDepth || level[i] == 0)
  }

  ghost predicate ParentStarted(parent: Parents, assignee: map<InstanceId, AgentId>, i: InstanceId)
    requires i in parent
  {
    parent[i].Some? ==> parent[i].value in assignee
  }

  ghost predicate Asking(c: Config, worker: map<WorkerId, Worker>, dequeueCh: seq<WorkerId>) {
    && worker.Keys == c.workers
    && Distinct(dequeueCh)
    && (forall w :: w in dequeueCh <==> w in worker && worker[w] == Waiting)
  }

  ghost predicate InPhase(worker: map<WorkerId, Worker>, phase: map<WorkerId, Phase>) {
    forall w :: w in phase <==> w in worker && worker[w].Busy?
  }

  /** An agent belongs to the worker that spawned it. */
  ghost predicate Staffed(c: Config, worker: map<WorkerId, Worker>, pool: map<AgentId, WorkerId>,
                          agentRows: set<AgentId>, closed: set<AgentId>, inboxes: set<AgentId>)
  {
    && pool.Keys <= agentRows
    && closed <= agentRows
    && pool.Keys !! closed
    && inboxes == agentRows
    && (forall a | a in pool :: pool[a] in worker && worker[pool[a]].Busy? && worker[pool[a]].agent == a)
    && (forall w | w in worker && worker[w].Busy? :: worker[w].agent in pool && pool[worker[w].agent] == w)
    && (|pool| <= c.maxAgents || |pool| == 0)
  }

  /** An agent is assigned one task, for ever, and a task one agent. */
  ghost predicate Assigned(assignee: map<InstanceId, AgentId>, agentRows: set<AgentId>, place: map<InstanceId, Place>,
                           worker: map<WorkerId, Worker>)
  {
    && InjectiveMap(assignee)
    && (forall i | i in assignee ::
          assignee[i] in agentRows && i in place && (place[i].RunBy? || place[i].Finished?))
    && (forall w | w in worker && worker[w].Busy? ::
          worker[w].task in assignee && assignee[worker[w].task] == worker[w].agent)
  }

  ghost predicate Listed(registry: map<AgentId, Entry>, assignee: map<InstanceId, AgentId>) {
    forall a | a in registry :: registry[a].task in assignee && assignee[registry[a].task] == a
  }

  /** What a worker may rely on at each point of executeTask. */
  ghost predicate PhaseHolds(c: Config, s: State, w: WorkerId, at: Phase)
    requires BusyAt(s, w)
  {
    var i, a := s.worker[w].task, s.worker[w].agent;
    match at
    case Starting => a !in s.registry && Quiet(s, w, []) && i !in s.containers
    case Creating(made) =>
      && a !in s.registry && Quiet(s, w, [])
      && (made.Some? ==> i in s.containers && s.containers[i] == made.value)
    case Greeting => InRegistry(s, w) && Quiet(s, w, [])
    case Listening(first) => InRegistry(s, w) && (first ==> Quiet(s, w, [TaskStart(i)]))
    case Prompting(first) => InRegistry(s, w) && (first ==> Quiet(s, w, []))
    case Acting(_, _) => InRegistry(s, w)
    case Walking(_, _, current, count) =>
      && InRegistry(s, w)
      && current in s.level && i in s.level && count + s.level[current] == s.level[i]
    case Inserting(_, _, depth) =>
      InRegistry(s, w) && i in s.level && depth == s.level[i] + 1 && depth <= c.maxDepth
    case Sending(_, _, _) => InRegistry(s, w)
    case Messaging(_, _, _, target, _) =>
      && InRegistry(s, w)
      && i in s.parent && s.parent[i].Some?
      && s.parent[i].value in s.assignee && s.assignee[s.parent[i].value] == target
    case Leaving => true
  }

  ghost predicate PhaseOk(c: Config, s: State, w: WorkerId)
    requires BusyAt(s, w)
  {
    PhaseHolds(c, s, w, s.phase[w])
  }

  ghost predicate Childless(parent: Parents, i: InstanceId) {
    forall k | k in parent :: parent[k] != Some(i)
  }

  ghost predicate InRegistry(s: State, w: WorkerId)
    requires BusyAt(s, w)
  {
    s.worker[w].agent in s.registry && s.registry[s.worker[w].agent].task == s.worker[w].task
  }

  /** The agent of `w` has been sent nothing but `inputs`, and nobody who could send it more exists. */
  ghost predicate Quiet(s: State, w: WorkerId, inputs: seq<Input>)
    requires BusyAt(s, w)
  {
    && s.worker[w].agent in s.inbox && s.inbox[s.worker[w].agent] == inputs
    && Childless(s.parent, s.worker[w].task)
  }

  ghost predicate Phased(c: Config, s: State) {
    forall w | BusyAt(s, w) :: PhaseOk(c, s, w)
  }

  /** Worker `k` at `at` has a container that no registry entry knows yet. */
  predicate Carries(k: Worker, at: Phase) {
    k.Busy? && at.Creating? && at.container.Some?
  }

  /** Every container of the manager has one owner: its creating worker, a registry entry, or a pending release. */
  ghost predicate Owned(owner: map<InstanceId, Owner>, containers: ContainerMap, worker: map<WorkerId, Worker>,
                        phase: map<WorkerId, Phase>, registry: map<AgentId, Entry>, releasing: multiset<InstanceId>)
  {
    && owner.Keys == containers.Keys
    && (forall w | w in phase && w in worker && Carries(worker[w], phase[w]) ::
          worker[w].task in owner && owner[worker[w].task] == Creator(w))
    && (forall a | a in registry && registry[a].container.Some? ::
          registry[a].task in owner && owner[registry[a].task] == Registered(a))
    && (forall i :: i in releasing ==> i in owner && owner[i] == Releaser)
    && (forall i :: releasing[i] <= 1)
    && (forall i | i in owner ::
          match owner[i]
          case Creator(w) => w in phase && w in worker && Carries(worker[w], phase[w]) && worker[w].task == i
          case Registered(a) => a in registry && registry[a].task == i && registry[a].container.Some?
          case Releaser => i in releasing)
  }

  /** Containers belong to started tasks, are told apart, and are known to their registry entry. */
  ghost predicate Contained(containers: ContainerMap, dockerIds: set<ContainerId>, registry: map<AgentId, Entry>,
                            started: set<InstanceId>)
  {
    && containers.Keys <= started
    && InjectiveMap(containers)
    && containers.Values <= dockerIds
    && (forall a | a in registry && registry[a].container.Some? ::
          registry[a].task in containers && containers[registry[a].task] == registry[a].container.value)
  }

  ghost predicate Sorted(heap: map<InstanceId, Task>, queue: seq<InstanceId>) {
    && (forall k | 0 <= k < |queue| :: queue[k] in heap && WellScored(heap[queue[k]]))
    && Ordered(View(heap, queue))
  }

  ghost predicate StoredIn(s: State) {
    Stored(s.place, s.roots, s.enqueueCh, s.queue, s.finished, s.dropped, s.rejected)
  }

  ghost predicate HeldIn(s: State) {
    Held(s.place, s.worker)
  }

  ghost predicate RootedIn(c: Config, s: State) {
    Rooted(c, s.parent, s.level, s.heap, s.place, s.assignee)
  }

  ghost predicate AskingIn(c: Config, s: State) {
    Asking(c, s.worker, s.dequeueCh)
  }

  ghost predicate StaffedIn(c: Config, s: State) {
    Staffed(c, s.worker, s.pool, s.agentRows, s.closed, s.inbox.Keys)
  }

  ghost predicate AssignedIn(s: State) {
    Assigned(s.assignee, s.agentRows, s.place, s.worker)
  }

  ghost predicate SortedIn(s: State) {
    Sorted(s.heap, s.queue)
  }

  ghost predicate TaskPart(c: Config, s: State) {
    StoredIn(s) && HeldIn(s) && RootedIn(c, s) && SortedIn(s)
  }

  ghost predicate StaffPart(c: Config, s: State) {
    AskingIn(c, s) && StaffedIn(c, s) && AssignedIn(s)
  }

  /** The part about tasks and agents, which the phases do not touch. */
  ghost predicate Ledger(c: Config, s: State) {
    TaskPart(c, s) && StaffPart(c, s)
  }

  ghost predicate ListedIn(s: State) {
    Listed(s.registry, s.assignee)
  }

  ghost predicate OwnedIn(s: State) {
    Owned(s.owner, s.containers, s.worker, s.phase, s.registry, s.releasing)
  }

  ghost predicate ContainedIn(s: State) {
    Contained(s.containers, s.dockerIds, s.registry, s.assignee.Keys)
  }

  /** Children on their way, registry entries and containers. */
  ghost predicate Callbacks(s: State) {
    InPhase(s.worker, s.phase) && Newborn(s.place, s.phase) && ListedIn(s) && OwnedIn(s) && ContainedIn(s)
  }

  /** The part about what goes on inside executeTask. */
  ghost predicate Running(c: Config, s: State) {
    Callbacks(s) && Phased(c, s)
  }

  ghost predicate Inv(c: Config, s: State) {
    Ledger(c, s) && Running(c, s)
  }

  lemma InitInv(c: Config)
    ensures Inv(c, Init(c))
  {
  }
}
