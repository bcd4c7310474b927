/** How each part of the ledger takes one elementary change. Every lemma is about the fields of one part only. */
module LedgerMoves {
  import opened Prelude
  import opened Tasks
  import opened TaskTree
  import opened Engine
  import opened EngineInvariant

  /** The place is with a worker. */
  predicate Private(p: Place) {
    p.InReply? || p.HeldBy? || p.RunBy?
  }

  function TaskOf(k: Worker): Option<InstanceId> {
    match k
    case Replied(r) => r
    case Holding(i) => Some(i)
    case Returning(i) => Some(i)
    case Busy(i, _) => Some(i)
    case _ => None
  }

  function PlaceWith(w: WorkerId, k: Worker): Place
    requires TaskOf(k).Some?
  {
    match k
    case Replied(_) => InReply(w)
    case Holding(_) => HeldBy(w)
    case Returning(_) => HeldBy(w)
    case Busy(_, _) => RunBy(w)
  }

  // ---------------------------------------------------------------- tasks held by workers

  /** Worker `w`, which held nothing or `i`, changes to `k`, which holds nothing or `i`. */
  lemma HeldMove(place: map<InstanceId, Place>, worker: map<WorkerId, Worker>, w: WorkerId, k: Worker, i: InstanceId,
                 p: Place)
    requires Held(place, worker) && w in worker
    requires TaskOf(worker[w]) == None || TaskOf(worker[w]) == Some(i)
    requires i in place && Private(place[i]) ==> TaskOf(worker[w]) == Some(i)
    requires if TaskOf(k).Some? then TaskOf(k) == Some(i) && p == PlaceWith(w, k) else !Private(p)
    ensures Held(place[i := p], worker[w := k])
  {
  }

  lemma HeldIdle(place: map<InstanceId, Place>, worker: map<WorkerId, Worker>, w: WorkerId, k: Worker)
    requires Held(place, worker) && w in worker && TaskOf(worker[w]) == None && TaskOf(k) == None
    ensures Held(place, worker[w := k])
  {
  }

  lemma HeldShared(place: map<InstanceId, Place>, worker: map<WorkerId, Worker>, i: InstanceId, p: Place)
    requires Held(place, worker) && (i in place ==> !Private(place[i])) && !Private(p)
    ensures Held(place[i := p], worker)
  {
  }

  // ---------------------------------------------------------------- requests

  lemma AskingMove(c: Config, worker: map<WorkerId, Worker>, ch: seq<WorkerId>, w: WorkerId, k: Worker)
    requires Asking(c, worker, ch) && w in worker && worker[w] != Waiting && k != Waiting
    ensures Asking(c, worker[w := k], ch)
  {
  }

  lemma AskingAsk(c: Config, worker: map<WorkerId, Worker>, ch: seq<WorkerId>, w: WorkerId)
    requires Asking(c, worker, ch) && w in worker && worker[w] != Waiting
    ensures Asking(c, worker[w := Waiting], ch + [w])
  {
  }

  lemma AskingAnswer(c: Config, worker: map<WorkerId, Worker>, ch: seq<WorkerId>, k: Worker)
    requires Asking(c, worker, ch) && |ch| > 0 && k != Waiting
    ensures ch[0] in worker && worker[ch[0]] == Waiting
    ensures Asking(c, worker[ch[0] := k], ch[1..])
  {
    assert ch[0] in ch;
  }

  // ---------------------------------------------------------------- agents

  lemma StaffedMove(c: Config, worker: map<WorkerId, Worker>, pool: map<AgentId, WorkerId>, rows: set<AgentId>,
                    closed: set<AgentId>, inboxes: set<AgentId>, w: WorkerId, k: Worker)
    requires Staffed(c, worker, pool, rows, closed, inboxes) && w in worker && !worker[w].Busy? && !k.Busy?
    ensures Staffed(c, worker[w := k], pool, rows, closed, inboxes)
  {
  }

  lemma StaffedStart(c: Config, worker: map<WorkerId, Worker>, pool: map<AgentId, WorkerId>, rows: set<AgentId>,
                     closed: set<AgentId>, inboxes: set<AgentId>, w: WorkerId, i: InstanceId, a: AgentId)
    requires Staffed(c, worker, pool, rows, closed, inboxes) && w in worker && !worker[w].Busy?
    requires |pool| < c.maxAgents && a !in rows
    ensures Staffed(c, worker[w := Busy(i, a)], pool[a := w], rows + {a}, closed, inboxes + {a})
  {
  }

  lemma StaffedEnd(c: Config, worker: map<WorkerId, Worker>, pool: map<AgentId, WorkerId>, rows: set<AgentId>,
                   closed: set<AgentId>, inboxes: set<AgentId>, w: WorkerId)
    requires Staffed(c, worker, pool, rows, closed, inboxes) && w in worker && worker[w].Busy?
    ensures var a := worker[w].agent;
            a in pool && Staffed(c, worker[w := Polling], pool - {a}, rows, closed + {a}, inboxes)
  {
    var a := worker[w].agent;
    assert (pool - {a}).Keys == pool.Keys - {a};
    SubsetSize((pool - {a}).Keys, pool.Keys);
  }

  lemma AssignedMove(assignee: map<InstanceId, AgentId>, rows: set<AgentId>, place: map<InstanceId, Place>,
                     worker: map<WorkerId, Worker>, w: WorkerId, k: Worker)
    requires Assigned(assignee, rows, place, worker) && w in worker && !worker[w].Busy? && !k.Busy?
    ensures Assigned(assignee, rows, place, worker[w := k])
  {
  }

  lemma AssignedPlace(assignee: map<InstanceId, AgentId>, rows: set<AgentId>, place: map<InstanceId, Place>,
                      worker: map<WorkerId, Worker>, i: InstanceId, p: Place)
    requires Assigned(assignee, rows, place, worker)
    requires (i in place ==> !place[i].RunBy? && !place[i].Finished?) || p.RunBy? || p.Finished?
    ensures Assigned(assignee, rows, place[i := p], worker)
    ensures i in place && !place[i].RunBy? && !place[i].Finished? ==> i !in assignee
  {
  }

  lemma AssignedStart(assignee: map<InstanceId, AgentId>, rows: set<AgentId>, place: map<InstanceId, Place>,
                      worker: map<WorkerId, Worker>, w: WorkerId, i: InstanceId, a: AgentId)
    requires Assigned(assignee, rows, place, worker) && w in worker && !worker[w].Busy?
    requires i in place && place[i] == HeldBy(w) && a !in rows
    ensures i !in assignee
    ensures Assigned(assignee[i := a], rows + {a}, place[i := RunBy(w)], worker[w := Busy(i, a)])
  {
  }

  lemma AssignedEnd(assignee: map<InstanceId, AgentId>, rows: set<AgentId>, place: map<InstanceId, Place>,
                    worker: map<WorkerId, Worker>, w: WorkerId)
    requires Assigned(assignee, rows, place, worker) && w in worker && worker[w].Busy?
    ensures Assigned(assignee, rows, place[worker[w].task := Finished], worker[w := Polling])
  {
  }

  // ---------------------------------------------------------------- the task tree

  lemma RootedMove(c: Config, parent: Parents, level: map<InstanceId, nat>, heap: map<InstanceId, Task>,
                   place: map<InstanceId, Place>, assignee: map<InstanceId, AgentId>,
                   heap': map<InstanceId, Task>, place': map<InstanceId, Place>, assignee': map<InstanceId, AgentId>)
    requires Rooted(c, parent, level, heap, place, assignee)
    requires heap'.Keys == heap.Keys && place'.Keys == place.Keys && assignee.Keys <= assignee'.Keys
    ensures Rooted(c, parent, level, heap', place', assignee')
  {
    forall i | i in parent ensures ParentStarted(parent, assignee', i) {
      assert ParentStarted(parent, assignee, i);
    }
  }

  lemma RootedInsert(c: Config, s: State, t: Task, above: Option<InstanceId>, at: Place)
    requires RootedIn(c, s) && t.id !in s.parent
    requires above.Some? ==>
               above.value in s.assignee && above.value in s.level && s.level[above.value] + 1 <= c.maxDepth
    ensures RootedIn(c, InsertRow(s, t, above, at))
  {
    var u := InsertRow(s, t, above, at);
    InsertKeepsLevels(s.parent, s.level, t.id, above);
    forall k | k in u.parent ensures ParentStarted(u.parent, u.assignee, k) {
      if k != t.id { assert ParentStarted(s.parent, s.assignee, k); }
    }
  }

  // ---------------------------------------------------------------- shared collections

  lemma StoredInsert(place: map<InstanceId, Place>, roots: set<InstanceId>, channel: seq<InstanceId>,
                     queue: seq<InstanceId>, finished: set<InstanceId>, dropped: set<InstanceId>,
                     rejected: set<InstanceId>, i: InstanceId, at: Place)
    requires Stored(place, roots, channel, queue, finished, dropped, rejected) && i !in place
    requires at == Created || at.CreatedBy?
    ensures Stored(place[i := at], if at == Created then roots + {i} else roots, channel, queue, finished, dropped,
                   rejected)
  {
  }

  lemma StoredSend(place: map<InstanceId, Place>, roots: set<InstanceId>, channel: seq<InstanceId>,
                   queue: seq<InstanceId>, finished: set<InstanceId>, dropped: set<InstanceId>,
                   rejected: set<InstanceId>, i: InstanceId)
    requires Stored(place, roots, channel, queue, finished, dropped, rejected)
    requires i in place && (place[i].Created? || place[i].CreatedBy? || place[i].HeldBy?)
    ensures Stored(place[i := InChannel], roots - {i}, channel + [i], queue, finished, dropped, rejected)
    ensures !place[i].Created? ==> roots - {i} == roots
  {
  }

  lemma StoredReject(place: map<InstanceId, Place>, roots: set<InstanceId>, channel: seq<InstanceId>,
                     queue: seq<InstanceId>, finished: set<InstanceId>, dropped: set<InstanceId>,
                     rejected: set<InstanceId>, i: InstanceId)
    requires Stored(place, roots, channel, queue, finished, dropped, rejected) && i in roots
    ensures Stored(place[i := Rejected], roots - {i}, channel, queue, finished, dropped, rejected + {i})
  {
  }

  lemma StoredAccept(place: map<InstanceId, Place>, roots: set<InstanceId>, channel: seq<InstanceId>,
                     queue: seq<InstanceId>, finished: set<InstanceId>, dropped: set<InstanceId>,
                     rejected: set<InstanceId>, queue': seq<InstanceId>)
    requires Stored(place, roots, channel, queue, finished, dropped, rejected) && |channel| > 0
    requires multiset(queue') == multiset(queue + [channel[0]])
    ensures Stored(place[channel[0] := InQueue], roots, channel[1..], queue', finished, dropped, rejected)
  {
    assert channel[0] in channel;
    DistinctFromMultiset(queue + [channel[0]], queue');
  }

  lemma StoredRefuse(place: map<InstanceId, Place>, roots: set<InstanceId>, channel: seq<InstanceId>,
                     queue: seq<InstanceId>, finished: set<InstanceId>, dropped: set<InstanceId>,
                     rejected: set<InstanceId>)
    requires Stored(place, roots, channel, queue, finished, dropped, rejected) && |channel| > 0
    ensures Stored(place[channel[0] := Dropped], roots, channel[1..], queue, finished, dropped + {channel[0]}, rejected)
  {
    assert channel[0] in channel;
  }

  lemma StoredAnswer(place: map<InstanceId, Place>, roots: set<InstanceId>, channel: seq<InstanceId>,
                     queue: seq<InstanceId>, finished: set<InstanceId>, dropped: set<InstanceId>,
                     rejected: set<InstanceId>, w: WorkerId)
    requires Stored(place, roots, channel, queue, finished, dropped, rejected) && |queue| > 0
    ensures queue[0] in place && place[queue[0]] == InQueue
    ensures Stored(place[queue[0] := InReply(w)], roots, channel, queue[1..], finished, dropped, rejected)
  {
    assert queue[0] in queue;
  }

  /** A task that a worker passes to itself, or finishes, was in no shared collection. */
  lemma StoredHandOver(place: map<InstanceId, Place>, roots: set<InstanceId>, channel: seq<InstanceId>,
                       queue: seq<InstanceId>, finished: set<InstanceId>, dropped: set<InstanceId>,
                       rejected: set<InstanceId>, i: InstanceId, to: Place)
    requires Stored(place, roots, channel, queue, finished, dropped, rejected)
    requires i in place && Private(place[i]) && (Private(to) || to == Finished)
    ensures Stored(place[i := to], roots, channel, queue, if to == Finished then finished + {i} else finished, dropped,
                   rejected)
  {
  }

  // ---------------------------------------------------------------- the order of the queue

  /** The order of the queue survives changes to tasks that are not in it. */
  lemma SortedFrame(heap: map<InstanceId, Task>, queue: seq<InstanceId>, heap': map<InstanceId, Task>)
    requires Sorted(heap, queue)
    requires forall i | i in queue :: i in heap' && heap'[i] == heap[i]
    ensures Sorted(heap', queue)
  {
    assert View(heap', queue) == View(heap, queue);
  }

  lemma SortedAnswer(heap: map<InstanceId, Task>, queue: seq<InstanceId>)
    requires Sorted(heap, queue) && |queue| > 0
    ensures Sorted(heap, queue[1..])
  {
    assert View(heap, queue[1..]) == View(heap, queue)[1..];
  }

  lemma SortedAccept(heap: map<InstanceId, Task>, queue: seq<InstanceId>, i: InstanceId, now: int,
                     queue': seq<InstanceId>)
    requires Sorted(heap, queue) && i in heap && i !in queue && now >= heap[i].created
    requires multiset(queue') == multiset(queue + [i])
    requires forall k | 0 <= k < |queue'| :: queue'[k] in heap
    requires Ordered(View(heap[i := Rescored(heap[i], now)], queue'))
    ensures Sorted(heap[i := Rescored(heap[i], now)], queue')
  {
    var heap' := heap[i := Rescored(heap[i], now)];
    assert ScoredAt(heap'[i], now);
    forall k | 0 <= k < |queue'| ensures queue'[k] in heap' && WellScored(heap'[queue'[k]]) {
      assert queue'[k] in multiset(queue');
      if queue'[k] != i {
        assert queue'[k] in queue;
      }
    }
  }
}
