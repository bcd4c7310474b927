# The catgirl task engine, modelled and proved in Dafny

catgirl runs tasks for language-model agents. A global priority queue hands task instances to a fixed set of workers;
each worker spawns an agent, gives it a container, and runs a loop in which a language model answers with tool calls:
finish or block, spawn a child task, write to the parent, run a command. This project models that engine and proves what
it guarantees over every run and every interleaving.

## How the project is laid out

There are two layers.

*Classes with contracts*, one per object that the program updates in place. Each method states its whole effect.

- `TaskQueue` (the array-backed priority queue), `Instances` (task objects and their rows), `TaskService` (creation of
  root tasks and children), `Agents` (agents and their pool), `Containers`, `Messages` (the message builder),
  `ContextManagers` (the turn logs of workers and of the orchestrator) and `AgentLoop` (the tool-call loop).
  `LoopReading` says what a run of the loop comes to in terms of the names and arguments of its calls.

*A transition system*, `Engine`: the queue loop, the task creators, the container releases and any number of workers, with
one event per atomic action of one goroutine. The language model, Docker, identifier generators and the clock are oracles:
their answers are parameters of the events, so every statement holds for all of them.

- `EngineInvariant` states the joint invariant; `LedgerMoves`, `LedgerProof`, `RunningMoves`, `RunningProof` prove that
  every event keeps it; `EngineRuns` lifts it to runs; `EngineSafety`, `EngineHistory`, `EngineRequests`, `EngineChannels`,
  `EngineInputs`, `EngineCalls`, `EngineExits` and `EngineProgress` hold the main results, `EngineWitnesses` the runs that
  show what the engine does not prevent, and `EngineFamilies` the engine joined with the recorded depths of its families.
- Smaller systems and pure theories: `Tasks` (scores and order), `TaskTree` (parent links and depth), `TurnLog` (the
  write-behind log under any interleaving), `Transcripts` (two transcripts and the pairing of calls and results),
  `FamilyDepth` (the read-modify-write of a family's recorded depth), `Tools` (tool calls).

`QueueRefinement` ties the layers together: the queue loop on the array-backed queue takes exactly the engine's steps.
Elsewhere the layers share the definitions of a step: `Agents.Admits` and `Agents.Delivered`,
`Containers.Obtained`, `Tasks.Score`, `Tasks.Ordered` and `Tasks.Pick`, `Tools.VerdictOf` and `Tools.NextChange`,
`TurnLog.Appended` and `TurnLog.Logged`.

## What the code does not guarantee

Where the obvious claim is false, the model keeps the code as it is and proves when the claim holds.

- Scores are frozen at enqueue (the rebalancing step is empty, internal/services/task/task_queue.go:179-182). A task can
  stand ahead of one of a higher class: `Tasks.ClassInversion` says exactly when,
  `EngineWitnesses.InversionHappens` builds a run, and `EngineWitnesses.InversionIff` says which configurations have one.
- COMPLETED is not final: a later BLOCKING in the same response keeps the loop running (`AgentLoop.CompletedThenBlocking`);
  `AgentLoop.UnregisterMeansEnded` says exactly when the loop unregisters.
- The exits after a failed model call and without a state change do not unregister, so an entry and its container can
  outlive their task. `EngineExits.StrandedIffAbandoned` says exactly which entries are left behind and
  `EngineExits.LeakedIffAbandoned` exactly which containers. `EngineWitnesses.LeakHappens` builds a leak, and
  `EngineWitnesses.LeakIff` shows that every configuration that can run tasks has one.
- The worker records a tool call only when there is exactly one, the orchestrator only the first. `Transcripts.TranscriptsAgree`
  and `Transcripts.PromptWellPaired` give the exact conditions under which nothing is lost and prompts are well paired.
- Clearing a context forgets the counter but not the rows: `TurnLog.ClearUnsafe` says exactly when a later insert can be
  refused, `TurnLog.ReloadSafety` when a reload is safe.
- A root task is inserted before its depth is checked, so the depth bound needs MaxTaskDepth not to be negative:
  `EngineSafety.DepthBoundIffNonNegative`.
- An error from task creation does not mean that nothing happened: a task whose family cannot be looked up is already
  queued (`TaskService.TaskService.SpawnSubTask`).
- The recorded depth of a family need not be that of its deepest task: overlapping spawns lose updates
  (`FamilyDepth.OverlapLosesUpdate`), and so does a failed store call. `FamilyDepth.ExactIff` says exactly for which limit,
  how many spawns at a time, and with or without failures it can be trusted. What it never does, under any interleaving, is
  exceed that depth (`EngineFamilies.FamiliesAreRuns`).
- A reload of a turn log loses what was not stored: `TurnLog.ReloadIsIdentity` says that it is the identity exactly after
  runs without a failed insert.

## Model

| member | source | states |
|---|---|---|
| Tasks.ClassInversion | internal/services/task/task_queue.go:213-230 | with frozen scores, a task may stand ahead of one of a strictly higher class if and only if the classes are adjacent, it was at least an hour old when scored, the other was scored at creation, and it was created no later |
| Tasks.AgeIsWorth | internal/services/task/task_queue.go:213-230 | age is worth its share of an hour up to one point, and one point beyond |
| Tasks.ClassesAreSteps | internal/services/task/task_queue.go:213-230 | at equal age critical is a point ahead of high, high of normal, normal of low, an unrecognised priority counts as low, and a low task scored at its creation is worth nothing |
| Tasks.OlderScoresMore | internal/services/task/task_queue.go:213-230 | of two scorings of one priority the one at the greater age is worth at least as much, strictly more if and only if the lesser age is under an hour, and within the hour by exactly the difference |
| Tasks.OlderGoesBefore | internal/services/task/task_queue.go:98-105 | of two tasks of one priority, the comparison puts the one older at its scoring first if either was under an hour old then, and otherwise the one created first |
| Tasks.NoDistantInversion | internal/services/task/task_queue.go:98-105 | in an ordered queue every task of a class precedes every task two classes below |
| Tasks.PickIsBest | internal/services/task/task_queue.go:45-63 | what a dequeue picks from an ordered queue is the best task of the wanted type, and the best of all when there is none of that type |
| Tasks.OrderDeterminesRanks | internal/services/task/task_queue.go:98-105 | the order fixes every position up to ties in score and creation time, so the instability of the sort cannot matter beyond them |
| TaskQueue.PriorityQueue.Enqueue | internal/services/task/task_queue.go:31-43 | accepts if and only if the queue is not full; then exactly this task is added, scored now, and otherwise nothing changes; either way the scores of the tasks fall along the queue, and among equal scores creation times rise |
| TaskQueue.PriorityQueue.SortDesc | internal/services/task/task_queue.go:98-105 | sorts the window in place: same elements, in order |
| TaskQueue.PriorityQueue.Dequeue | internal/services/task/task_queue.go:45-63 | answers nothing if and only if the queue is empty; otherwise the picked task, and the others keep their order |
| TaskQueue.PickReads | internal/services/task/task_queue.go:45-63 | the picked task is the first of the wanted type, any type will do for Any, and it is the head if there is none of that type |
| TaskQueue.PriorityQueue.Remove | internal/services/task/task_queue.go:75-86 | removes the first task with the identifier if there is one, and nothing else |
| TaskQueue.PriorityQueue.GetAll | internal/services/task/task_queue.go:107-114 | a copy in a new array with the contents of the queue |
| TaskQueue.CopiesSurvive | internal/services/task/task_queue.go:107-114 | a copy taken earlier is not changed by any later sequence of enqueues, dequeues and removals |
| QueueRefinement.EnqueueArm | internal/services/task/task_queue.go:162-167 | from any reachable engine state, enqueueing the head of the channel into the array-backed queue is an accept event of the engine, or its refuse event when the queue is full, and the states stay in step |
| QueueRefinement.DequeueArm | internal/services/task/task_queue.go:168-171 | dequeueing for a worker gives the engine's reply and its next queue |
| QueueRefinement.IdsOfBag | internal/services/task/task_queue.go:31-43 | equal bags of task objects are equal bags of identifiers, so an in-place sort is a permutation for the engine too |
| TaskTree.LevelIsDepth | internal/runtime/runtime.go:548-567 | in a levelled store every row has exactly one depth, counted along parent links, and no row is its own ancestor |
| TaskTree.DepthReads | internal/runtime/runtime.go:557-565 | a root has depth 0, any other row one more than its parent |
| TaskTree.CountDepth | internal/runtime/runtime.go:555-565 | the walk along parent links ends and returns the true depth |
| TaskTree.InsertKeepsLevels | internal/repository/repository.go:394-400 | an insert below an existing row, or of a root, keeps the store levelled, because parents are never updated |
| TaskService.TaskService.CreateTask | internal/services/task/task_queue.go:281-332 | NotInserted if and only if the insert failed or the identifier was taken, and then nothing happened; TooDeep if and only if the row was inserted and the depth is over the limit, and then nothing was sent; otherwise the row is there, the task is sent, and the answer depends on the family alone |
| TaskService.TaskService.SpawnSubTask | internal/services/task/task_queue.go:383-411 | refused as too deep if and only if one level below the parent is over the limit, and then nothing changes; otherwise a failed insert changes nothing, and without one a pending, freshly scored child with the given description, type and priority is inserted below its parent and sent, whatever the family look-up says; for the family it is a run of the store steps of FamilyDepth, and the record rises to the level of the child only on success |
| TaskService.TaskService.SpawnRootTask | internal/services/task/task_queue.go:414-448 | refused if and only if the family is not inserted; otherwise a new family with recorded depth 0 and, unless its insert fails, a pending, freshly scored, parentless root with the given description, type and priority, which is sent if and only if the limit is not negative |
| TaskService.SpawnIsInTurn | internal/services/task/task_queue.go:402-407 | the steps of an uninterrupted SpawnSubTask without failures are within the terms of FamilyDepth.ExactInTurn and record the depth of the child |
| FamilyDepth.NeverTooDeep | internal/services/task/task_queue.go:402-407 | whatever interleaves or fails, the recorded depth of a family is at most the depth of its deepest task, within the limit |
| EngineFamilies.FamiliesAreRuns | internal/services/task/task_queue.go:383-448 | when the store calls of spawns interleave with everything in the engine, each family goes through a run of FamilyDepth whose deepest task is the deepest row of the family in the task tree, so its record never exceeds that depth |
| EngineFamilies.SpawnIsInsert | internal/runtime/runtime.go:548-569 | the guard of a spawn, derived: a child the engine inserts is at most one level below the deepest row of its family and within the limit |
| FamilyDepth.ExactIff | internal/services/task/task_queue.go:402-407 | over all runs the record is the depth of the deepest task whenever no spawn is under way, if and only if no child can be spawned, or no store call fails and spawns do not overlap or MaxTaskDepth is one |
| FamilyDepth.ExactInTurn | internal/services/task/task_queue.go:402-407 | the record is exact between spawns that do not overlap, if no store call fails |
| FamilyDepth.OverlapLosesUpdate | internal/services/task/task_queue.go:402-407 | for every limit of two or more, a run without failures in which two overlapping spawns leave the record too low |
| Containers.ContainerManager.GetOrCreateContainer | internal/services/docker/docker.go:63-88 | a known instance gets its container back; an unknown one gets what Docker made, or an error and no entry |
| Containers.ContainerManager.ReleaseContainer | internal/services/docker/docker.go:91-106 | the entry goes away even if the stop fails; releasing an unknown instance changes nothing |
| Containers.ObtainedKeepsDistinct | internal/services/docker/docker.go:63-88 | instances never share a container if Docker never reuses an identifier |
| Agents.WorkerAgent.SendInput | internal/services/agent/agent_pool.go:358-367 | a full input queue drops the input and says so; otherwise it is appended |
| Agents.WorkerAgent.ResetForNewTask | internal/services/agent/agent_pool.go:327-334 | state and history are reset, the input queue survives |
| Agents.AgentPool.SpawnAgent | internal/services/agent/agent_pool.go:145-186 | succeeds if and only if there is room, the identifier has never been stored and the store works; then a fresh agent joins the pool; otherwise nothing changes |
| Agents.AgentPool.RemoveAgent | internal/services/agent/agent_pool.go:214-234 | exactly the named agent leaves, stopped, and its identifier stays taken |
| Agents.AgentPool.GetAgent | internal/services/agent/agent_pool.go:236-241 | exactly the live agent with that identifier, if there is one |
| EngineRuns.RunKeepsInv | internal/runtime/runtime.go:199-332 | the joint invariant of queue, workers, pool, registry and containers holds in every state of every run |
| EngineRuns.StepKeepsInv | internal/runtime/runtime.go:199-332 | every event of every goroutine keeps that invariant |
| EngineSafety.TaskConservation | internal/services/task/task_queue.go:159-195 | in every reachable state each inserted task is at exactly one place and once there: unsent, channel, queue, one reply, one worker, finished, dropped or rejected |
| EngineHistory.StepGrows | internal/services/task/task_queue.go:159-177 | a task is dropped only by the enqueue arm of the queue loop and only when the queue is full; rows, parents, assignments, identifiers and outcomes are never taken back |
| EngineHistory.RunGrows | internal/runtime/runtime.go:206-242 | between any two moments of a run rows, parents, assignments, identifiers and outcomes only grow |
| EngineHistory.DroppedIffRefused | internal/services/task/task_queue.go:159-177 | at any moment of any run the dropped tasks are exactly those the queue loop took off the channel while the queue was full |
| EngineHistory.AtMostOnce | internal/runtime/runtime.go:206-242 | over any run no task is started twice and no agent identifier is used twice, also when tasks are re-queued after a failed spawn |
| EngineHistory.HeardBefore | internal/runtime/runtime.go:340-357 | a worker past its first input has read one before |
| EngineHistory.FirstInputIsTaskStart | internal/runtime/runtime.go:318-357 | the first input an agent loop reads is the start of its own task, and it is then alone in the queue |
| EngineInputs.InputsConserved | internal/runtime/runtime.go:789-813 | over any run, what an agent has heard followed by what waits in its queue is exactly what was accepted for it, in order and once each |
| EngineChannels.ChannelsKeepOrder | internal/services/task/task_queue.go:148-195 | over any run the queue loop takes tasks in exactly the order in which they were sent, and answers workers in the order in which they asked, each once; the rest waits in its channel |
| EngineSafety.GreetingNeverFails | internal/runtime/runtime.go:318-328 | the branch for a full input queue at task start is unreachable |
| EngineRequests.RepliesMatchRequests | internal/services/task/task_queue.go:159-195 | over any run each Dequeue call gets exactly one reply, to its own request, and returns with it: a worker has been answered as often as it asked, but for the call it waits in, and has returned as often as it was answered, but for the reply it is about to take |
| EngineSafety.RequestAnswered | internal/services/task/task_queue.go:168-171 | whoever asked first is waiting when the dequeue arm answers, so the reply never blocks; afterwards it has its reply and asks no more, one request fewer is unanswered, and no other worker notices |
| EngineProgress.WorkerMovesIff | internal/runtime/runtime.go:206-242 | in every reachable state a worker has an enabled event of its own if and only if it does not wait for a reply, for room in a channel, or for an input |
| EngineProgress.QueueLoopMoves | internal/services/task/task_queue.go:159-177 | in every reachable state the queue loop can take the head of a channel that is not empty, sorted into the queue or dropped if it is full, and can answer any request |
| EngineProgress.WaitingForTheLoopOnly | internal/services/task/task_queue.go:159-195 | no deadlock: while a worker waits for anything but an input, the queue loop can move |
| EngineSafety.WaitingIsAsking | internal/services/task/task_queue.go:188-195 | a worker waits for a reply if and only if exactly one request of its own is queued |
| EngineSafety.QueueServesBest | internal/services/task/task_queue.go:98-105 | in every reachable state scores fall along the queue, equal ones by creation, workers get its best task, and a task ahead of one of a higher class is of the adjacent class, was an hour old when scored, was created no later, and the other was scored at creation |
| EngineSafety.OlderIsServedFirst | internal/services/task/task_queue.go:213-230 | in a reachable queue, of two tasks of one priority the one older at its scoring is ahead if either was under an hour old then, and otherwise the one created first |
| EngineSafety.ParentSearchIsDeterministic | internal/runtime/runtime.go:502-513 | the search over a randomly ordered registry has at most one answer |
| EngineSafety.MessageReachesParentOnly | internal/runtime/runtime.go:515-521 | a child message reaches only the agent its parent task was assigned, appended, and only if there is room |
| EngineSafety.DepthBounded | internal/services/task/task_queue.go:383-402 | every row has one depth, within MaxTaskDepth or 0, and is not its own ancestor, even with concurrent spawns |
| EngineSafety.DepthBoundIffNonNegative | internal/services/task/task_queue.go:295-301 | the depth bound holds in all reachable stores if and only if MaxTaskDepth is not negative |
| EngineSafety.RootsRejectedIffNegative | internal/services/task/task_queue.go:295-301 | an inserted root is refused in some run if and only if MaxTaskDepth is negative, and then none is ever sent |
| EngineSafety.WalkCountsDepth | internal/runtime/runtime.go:548-569 | the depth walk, interleaved with anything, decreases a measure and ends with the true depth; a child is inserted one level below its parent and within the limit |
| EngineSafety.ChildWithinLimit | internal/services/task/task_queue.go:383-388 | when the walk ends, the worker goes on to insert the child if and only if the true depth of its task plus one is at most MaxTaskDepth, whatever was interleaved |
| EngineSafety.ContainerOwnership | internal/runtime/runtime.go:304-318 | every container has exactly one owner, its creating worker, a registry entry or one pending release, and no two instances share one |
| EngineSafety.CommandsRunAtHome | internal/runtime/runtime.go:585-591 | a command finds its own entry, whose container is the one made for its task, still held and not being released |
| EngineSafety.ContainersAreNew | internal/services/docker/docker.go:63-75 | a worker never finds a container for its task: the reuse branch is not taken |
| EngineExits.StrandedStep | internal/runtime/runtime.go:769-786 | after an event an agent's entry is left behind exactly when it was before or the event is an exit without unregistering: nothing cleans up later |
| EngineExits.StrandedIffAbandoned | internal/runtime/runtime.go:418-424 | at any moment of any run, the registry entries left behind are exactly those of agents whose loop ended on a failed model call, a response without calls, or a last SET_STATE that was missing or unknown |
| EngineExits.LeakedIffAbandoned | internal/runtime/runtime.go:418-424 | at any moment of any run, a container of the manager belongs to no running task and no pending release if and only if the registry entry that holds it is that of an agent whose loop ended on such an exit |
| EngineExits.NoLeakWithoutAbandonment | internal/runtime/runtime.go:618-634 | the container of a task whose own agent did not end on such an exit belongs to a running task or a pending release, whatever happened to other agents |
| EngineWitnesses.LeakIff | internal/runtime/runtime.go:418-424 | a run that leaves an entry behind, and one that leaks a container, exists if and only if there is a worker, room for an agent and for a queued task, and a depth limit that is not negative: no configuration that can run tasks prevents it |
| EngineWitnesses.LeakHappens | internal/runtime/runtime.go:418-424 | in every configuration that can run a task there is a run, from the creation of a task to a failed model call, that leaves its entry behind and leaks its container |
| EngineWitnesses.InversionHappens | internal/services/task/task_queue.go:213-230 | there is a run, for a caller that spawns root tasks of another priority than normal, in which a low task accepted at the age of an hour stands ahead of a normal task accepted at once |
| EngineWitnesses.InversionIff | internal/services/task/task_queue.go:213-230 | a run with a class inversion in the queue exists if and only if the depth limit is not negative and two tasks fit into the queue |
| EngineWitnesses.QueueNeverOverflows | internal/services/task/task_queue.go:31-43 | in every state of every run the queue holds at most MaxQueueSize tasks |
| EngineExits.DecidesAlike | internal/runtime/runtime.go:453-629 | from the phase a response leaves, answering its calls one at a time, the engine decides as the agent loop does by the last SET_STATE |
| EngineCalls.CallsAnswered | internal/runtime/runtime.go:453-629 | in any run, between a response with calls and the next decision of its worker, exactly its calls are finished, each once, in order, each by an event that fits it, and the decision is the agent loop's on the same calls |
| EngineCalls.DecisionReads | internal/runtime/runtime.go:618-634 | that decision by the last SET_STATE of the response: BLOCKING listens again, COMPLETED and FAILED leave and unregister this agent only, any other state leaves without unregistering |
| EngineCalls.NoStateLeaves | internal/runtime/runtime.go:618-634 | a response without a SET_STATE leaves without unregistering |
| EngineCalls.HeadDecides | internal/runtime/runtime.go:465-602 | what the call in hand makes possible: one event only, or for a message to a parent the search, which fails if and only if the parent task has no entry |
| EngineSafety.PoolSize | internal/services/agent/agent_pool.go:145-151 | the pool has one agent for each busy worker, hence no more than there are workers (MinAgents of them), nor than MaxAgents |
| EngineSafety.CapacitySuffices | internal/services/agent/agent_pool.go:149-151 | with no more workers than MaxAgents the capacity error never occurs |
| EngineSafety.RemovalFindsAgent | internal/services/agent/agent_pool.go:214-234 | the worker's removal always finds its agent, and its stop channel is closed once |
| EngineSafety.LiveAgentsAreSpared | internal/services/agent/agent_pool.go:153-178 | a spawned identifier is not live, registered or stopped already, so a collision fails instead of overwriting |
| Messages.MessageBuilder.AddAssistantMessage | internal/services/llm/message_builder.go:26-34 | appends one assistant message with exactly the given calls and returns the same builder |
| Messages.MessageBuilder.AddToolResult | internal/services/llm/message_builder.go:36-44 | appends one tool message answering the given call and returns the same builder |
| Transcripts.ConvertToLLMMessages | internal/runtime/runtime.go:642-675 | the conversion of an output history, a message per entry, in order, after the system prompt |
| Transcripts.TranscriptsAgree | internal/runtime/worker_context.go:73-168 | the two transcripts of a run differ at most in the calls of assistant messages, and are equal if and only if every response had at most one call, with a non-empty identifier |
| Transcripts.TurnReads | internal/runtime/worker_context.go:138-165 | the message of each kind of turn, none for a system turn |
| Transcripts.HistoryReads | internal/runtime/runtime.go:642-675 | the message of each kind of entry of the output history |
| Transcripts.EntryReads | internal/runtime/worker_context.go:57-118 | the turn and the history entry of everything that happens, field by field; a worker records a call only if it is the only one |
| Transcripts.RoundsPair | internal/runtime/runtime.go:604-616 | the rebuilt messages of a run are well paired if and only if every round started with a user input and had at most one call, with an identifier |
| Transcripts.PromptWellPaired | internal/runtime/worker_context.go:126-168 | the same for the prompt of a model call: every tool message directly follows the message with its call, and every call is answered once |
| TurnLog.ViolationIffCounterBehind | internal/runtime/worker_context.go:57-118 | from a log without duplicate inserts, some interleaving of appends and possibly failing inserts violates the unique key if and only if the counter is behind a stored or pending turn |
| TurnLog.CoveredRun | internal/runtime/worker_context.go:57-118 | a sound log stays sound over every interleaving |
| TurnLog.MirrorRun | internal/runtime/worker_context.go:57-118 | over every interleaving the numbers in memory ascend, and every stored or pending turn is one of them |
| TurnLog.ReloadKeepsStored | internal/runtime/worker_context.go:39-54 | a reload rebuilds exactly the turns whose insert succeeded, in order, and is the identity if and only if all did |
| TurnLog.ReloadRebuildsLess | internal/runtime/worker_context.go:126-168 | the messages rebuilt after a reload are a subsequence of those before, and the same if every turn in memory is stored |
| TurnLog.ReloadIsIdentity | internal/runtime/worker_context.go:39-118 | over every interleaving, once all inserts are done, a reload changes nothing if and only if none of them failed |
| TurnLog.ReloadMirrors | internal/runtime/worker_context.go:39-54 | after a reload memory again holds every stored and pending turn if and only if no insert was pending |
| TurnLog.ReloadSafety | internal/runtime/worker_context.go:39-54 | numbers issued after a reload can collide if and only if an insert pending at the reload is ahead of all rows, of which there is at least one |
| TurnLog.ClearUnsafe | internal/runtime/worker_context.go:196-201 | after a clear a refused insert is reachable if and only if a row is stored or an insert pending; a reload repairs it |
| ContextManagers.TurnTable.Insert | internal/repository/repository.go:1213-1219 | an insert succeeds exactly when the store works and the number is free, and then adds that row only |
| ContextManagers.TurnTable.Select | internal/repository/repository.go:1221-1242 | every row of the instance once, in ascending order of turn numbers |
| ContextManagers.ContextManager.LoadHistory | internal/runtime/worker_context.go:39-54 | a failed read changes nothing; otherwise memory is the ascending listing of the rows, the counter its last number, and the log is sound |
| ContextManagers.ContextManager.Add | internal/runtime/worker_context.go:57-71 | the next number, the memory and the row, if the insert succeeds; in a sound log an insert fails only if the store does |
| ContextManagers.ContextManager.AddUserTurn | internal/runtime/worker_context.go:57-71 | a user turn with the next number, in memory always and in the table exactly if the insert succeeds, which in a sound log fails only if the store does |
| ContextManagers.ContextManager.AddAssistantTurn | internal/runtime/orchestrator_context.go:73-110 | an assistant turn that records the only call (worker) or the first (orchestrator) with the next number, in memory always and in the table exactly if the insert succeeds, which in a sound log fails only if the store does |
| ContextManagers.ContextManager.AddToolResultTurn | internal/runtime/worker_context.go:101-118 | a tool turn with the next number, in memory always and in the table exactly if the insert succeeds, which in a sound log fails only if the store does |
| ContextManagers.InstructionReads | internal/runtime/worker_context.go:134-134 | the literal text that follows the extra context of a worker, and of the orchestrator (internal/runtime/orchestrator_context.go:143) |
| ContextManagers.PreambleReads | internal/runtime/worker_context.go:126-136 | the beginning of every prompt: the system prompt if there is one, then the extra context and the keeper's instruction as one user message if there is any |
| ContextManagers.ContextManager.BuildMessages | internal/runtime/worker_context.go:126-168 | a system message if the system prompt is not empty, then, if the extra context is not, one user message that begins with it and ends with the keeper's instruction, then the messages of the turns |
| ContextManagers.ContextManager.Clear | internal/runtime/orchestrator_context.go:204-209 | memory and counter are forgotten, rows kept |
| AgentLoop.ApplyState | internal/runtime/runtime.go:465-498 | one SET_STATE: an unknown state changes nothing, BLOCKING only the agent; COMPLETED and FAILED free the agent, end the task, and write status, result and error to the row unless the update fails |
| AgentLoop.AnswerCalls | internal/runtime/runtime.go:453-616 | exactly one result per call, in call order, in both transcripts; state, status, result and error follow the last call that sets each, and the row the last ending call whose update was stored |
| AgentLoop.RunAgentLoop | internal/runtime/runtime.go:335-638 | a run of the loop on any inputs, responses and store failures, from any turn log: what is heard, both transcripts, every prompt, the effect of all calls on agent, task and row, and why it stopped; every turn is inserted, and a sound log stays sound; LoopReading says what it comes to in terms of the strings of the calls |
| AgentLoop.UnregisterMeansEnded | internal/runtime/runtime.go:618-629 | the loop unregisters if and only if the last SET_STATE ended the task, and then the task has that status; it goes on if and only if it asked for BLOCKING |
| AgentLoop.CompletedThenBlocking | internal/runtime/runtime.go:465-482 | a response that completes the task and then blocks keeps the loop running with the task marked completed |
| AgentLoop.RunOutcome | internal/runtime/runtime.go:618-634 | over a whole run: a waiting agent is BLOCKING, an unregistered one FREE with the status its last response asked for; LoopReading.LastWordDecides says it for every string |
| LoopReading.LastWordDecides | internal/runtime/runtime.go:465-498 | how a run ends by the last SET_STATE of its last response: COMPLETED unregisters with that result, FAILED with that error if one is given, BLOCKING waits, any other state leaves with everything as before that call |
| LoopReading.SilenceLeaves | internal/runtime/runtime.go:618-634 | a last response without a SET_STATE leaves, and changes neither agent nor task |
| LoopReading.WentOn | internal/runtime/runtime.go:618-634 | the loop goes on after a response only if its last SET_STATE was BLOCKING |
| LoopReading.FailureReads | internal/runtime/runtime.go:420-424 | a run ends by a failed model call if and only if its last input is left without a response |
| LoopReading.CallReads | internal/runtime/runtime.go:465-498 | the effect of one call on the state of the agent and the columns of its task, by its name and its decoded arguments |
| LoopReading.StatusReads | internal/runtime/runtime.go:474-495 | the status after a run is what the last COMPLETED or FAILED of all its calls said |
| LoopReading.ResultReads | internal/runtime/runtime.go:474-482 | the result after a run is that of its last COMPLETED |
| LoopReading.ErrorReads | internal/runtime/runtime.go:485-495 | the error after a run is that of its last FAILED with a reason |
| LoopReading.StateReads | internal/runtime/runtime.go:465-495 | the state of the agent after a run is BLOCKING or FREE by the last SET_STATE with a known state |
| LoopReading.UntouchedTask | internal/runtime/runtime.go:465-498 | a run without a COMPLETED or FAILED leaves the columns and the row of the task alone |
| LoopReading.UntouchedResult | internal/runtime/runtime.go:474-482 | a run without a COMPLETED leaves the result alone |
| LoopReading.UntouchedError | internal/runtime/runtime.go:485-495 | a run without a FAILED that gives a reason leaves the error alone |
| LoopReading.UntouchedState | internal/runtime/runtime.go:465-498 | a run without a known state leaves the state of the agent alone |
| LoopReading.SilenceReads | internal/runtime/runtime.go:340-342 | a loop that has heard nothing has done nothing and waits |
| LoopReading.GrownReads | internal/runtime/runtime.go:389-450 | how both transcripts grow: the old ones stay in front, the same entries follow in both, and turn numbers go on |
| LoopReading.RowReads | internal/runtime/runtime.go:474-495 | the row has the columns of the task after a run if the update of the last call that ended the task was stored |
| LoopReading.AnswersRead | internal/runtime/runtime.go:456-602 | what every call of every response of a run is answered, by the name of its tool and its arguments: the literal acknowledgements and errors, or what the tool said |
| LoopReading.RoundReads | internal/runtime/runtime.go:403-456 | each round answers the input heard at its position with what the model said at that turn, and every call of it has an answer |
| LoopReading.RoundTells | internal/runtime/runtime.go:429-616 | a round adds to the transcripts its input, the response with all its calls, and an answer to each in order |
| LoopReading.InputReads | internal/runtime/runtime.go:350-387 | what the loop hears of each kind of input, and that it skips the others |
| LoopReading.TranscriptsRead | internal/runtime/runtime.go:389-616 | both transcripts of a run have grown by the entries of its rounds and the input of a failed call |
| LoopReading.PromptReads | internal/runtime/runtime.go:391-404 | every prompt of every run: the system prompt, the context the oracle gave for that moment, what was known before, what was told in the rounds before, and last the input |
| LoopReading.MessageReads | internal/runtime/worker_context.go:138-165 | what a prompt keeps of each entry; a response keeps its call if it is the only one and has an identifier |
| AgentLoop.StoredGrows | internal/runtime/worker_context.go:57-71 | each turn of a run is inserted when it is added, and its row is there unless the store failed or the number was taken |
| AgentLoop.RowFollowsTask | internal/runtime/runtime.go:474-495 | the row agrees with the task if the update of the last ending call was stored, and is untouched if no call ended the task |
| AgentLoop.FreshRunAgrees | internal/runtime/runtime.go:642-675 | for the loop of a fresh worker, the transcripts agree if and only if every response had at most one call, with an identifier |
| AgentLoop.PromptsPaired | internal/runtime/runtime.go:403-411 | every prompt of a fresh worker is well paired if and only if it and all rounds before were for user inputs, with at most one call each |

## Left out

- HTTP, Telegram, the web admin, authentication, the CLI and migrations: plumbing around the engine.
- SQL, Docker calls, language-model calls and JSON: a keyed map, fresh identifiers, a response oracle, and a codec assumed
  to round-trip the recorded call.
- Sessions and the orchestrator loop, beyond spawning root tasks and the turn log; the two context managers are one class
  with a parameter for which call is recorded.
- Idle cleanup, worker stop, snapshots, memory services, billing, status reports, tool loading and the choice of model.
- Replacing the configuration during a run: limits are fixed for a run.
- Floating-point rounding of scores (reals are used), and clocks that run backwards: a task is scored no earlier than its
  creation.
- Faults of the reads in the depth walk; turn inserts and updates may fail freely.
- Peek, Size and GetBySession of the queue, and Remove in the engine, which nothing there calls.
- Families in the engine proper: a spawn there inserts and sends; the recorded depth is joined to it in EngineFamilies.
- Owner channels of tasks, whose failures are only logged.
- Timestamps of tasks other than their creation, and row columns other than parent, status, result and error.
- Liveness of blocked agents and consumption of accepted inputs, and fairness between goroutines: the code does not promise
  them. What can move is stated in EngineProgress.
- Blocking of the orchestrator on a full channel: a send into a full channel is not enabled in the engine, and TaskService,
  which runs alone, appends.
- AgentLoop.RunAgentLoop: what SEND_PARENT, SPAWN_TASK and EXECUTE_CMD do outside the loop is an oracle there and modelled in Engine.
- TaskQueue.PriorityQueue.SortDesc: any order the comparison allows, the source's unstable sort included; ties are not fixed.
