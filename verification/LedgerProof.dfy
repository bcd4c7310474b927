/** Every event keeps the ledger: where tasks are, who asks, who holds an agent. */
module LedgerProof {
  import opened Prelude
  import opened Tasks
  import opened Engine
  import opened EngineInvariant
  import opened LedgerMoves
  import Agents

  lemma InsertKeepsTasks(c: Config, s: State, t: Task, above: Option<InstanceId>, at: Place)
    requires TaskPart(c, s) && t.id !in s.parent
    requires at == Created || at.CreatedBy?
    requires above.Some? ==>
               above.value in s.assignee && above.value in s.level && s.level[above.value] + 1 <= c.maxDepth
    ensures var u := InsertRow(s, t, above, at);
            TaskPart(c, if at == Created then u.(roots := s.roots + {t.id}) else u)
  {
    var u := InsertRow(s, t, above, at);
    var v := if at == Created then u.(roots := s.roots + {t.id}) else u;
    assert v.place == s.place[t.id := at] && v.heap == s.heap[t.id := t] && v.parent == u.parent && v.level == u.level;
    assert v.roots == (if at == Created then s.roots + {t.id} else s.roots) && v.worker == s.worker;
    StoredInsert(s.place, s.roots, s.enqueueCh, s.queue, s.finished, s.dropped, s.rejected, t.id, at);
    HeldShared(s.place, s.worker, t.id, at);
    RootedInsert(c, s, t, above, at);
    SortedFrame(s.heap, s.queue, u.heap);
  }

  lemma InsertKeepsLedger(c: Config, s: State, t: Task, above: Option<InstanceId>, at: Place)
    requires Ledger(c, s) && t.id !in s.parent
    requires at == Created || at.CreatedBy?
    requires above.Some? ==>
               above.value in s.assignee && above.value in s.level && s.level[above.value] + 1 <= c.maxDepth
    ensures var u := InsertRow(s, t, above, at);
            Ledger(c, if at == Created then u.(roots := s.roots + {t.id}) else u)
  {
    InsertKeepsTasks(c, s, t, above, at);
    AssignedPlace(s.assignee, s.agentRows, s.place, s.worker, t.id, at);
  }

  lemma SendKeepsLedger(c: Config, s: State, i: InstanceId)
    requires Ledger(c, s) && i in s.place && (s.place[i] == Created || s.place[i].CreatedBy?)
    ensures Ledger(c, ToChannel(s, i).(roots := s.roots - {i}))
    ensures s.place[i].CreatedBy? ==> s.roots - {i} == s.roots
  {
    StoredSend(s.place, s.roots, s.enqueueCh, s.queue, s.finished, s.dropped, s.rejected, i);
    HeldShared(s.place, s.worker, i, InChannel);
    RootedMove(c, s.parent, s.level, s.heap, s.place, s.assignee, s.heap, s.place[i := InChannel], s.assignee);
    AssignedPlace(s.assignee, s.agentRows, s.place, s.worker, i, InChannel);
  }

  lemma RejectKeepsLedger(c: Config, s: State, i: InstanceId)
    requires Ledger(c, s) && i in s.roots
    ensures Ledger(c, s.(roots := s.roots - {i}, rejected := s.rejected + {i}, place := s.place[i := Rejected]))
  {
    StoredReject(s.place, s.roots, s.enqueueCh, s.queue, s.finished, s.dropped, s.rejected, i);
    HeldShared(s.place, s.worker, i, Rejected);
    RootedMove(c, s.parent, s.level, s.heap, s.place, s.assignee, s.heap, s.place[i := Rejected], s.assignee);
    AssignedPlace(s.assignee, s.agentRows, s.place, s.worker, i, Rejected);
  }

  lemma AcceptKeepsSorted(s: State, now: int, q: seq<InstanceId>)
    requires StoredIn(s) && SortedIn(s) && |s.enqueueCh| > 0 && s.enqueueCh[0] in s.heap
    requires now >= s.heap[s.enqueueCh[0]].created
    requires multiset(q) == multiset(s.queue + [s.enqueueCh[0]])
    requires forall k | 0 <= k < |q| :: q[k] in s.heap
    requires Ordered(View(s.heap[s.enqueueCh[0] := Rescored(s.heap[s.enqueueCh[0]], now)], q))
    ensures SortedIn(AcceptTask(s, now, q))
  {
    assert s.enqueueCh[0] in s.enqueueCh;
    SortedAccept(s.heap, s.queue, s.enqueueCh[0], now, q);
  }

  lemma AcceptKeepsTasks(c: Config, s: State, now: int, q: seq<InstanceId>)
    requires StoredIn(s) && HeldIn(s) && RootedIn(c, s)
    requires |s.enqueueCh| > 0 && s.enqueueCh[0] in s.heap && multiset(q) == multiset(s.queue + [s.enqueueCh[0]])
    ensures var t := AcceptTask(s, now, q); StoredIn(t) && HeldIn(t) && RootedIn(c, t)
  {
    assert s.enqueueCh[0] in s.enqueueCh;
    AcceptKeepsStored(s, now, q);
    AcceptKeepsRooted(c, s, now, q);
  }

  lemma AcceptKeepsStored(s: State, now: int, q: seq<InstanceId>)
    requires StoredIn(s) && HeldIn(s)
    requires |s.enqueueCh| > 0 && s.enqueueCh[0] in s.heap && multiset(q) == multiset(s.queue + [s.enqueueCh[0]])
    ensures var t := AcceptTask(s, now, q); StoredIn(t) && HeldIn(t)
  {
    var i, t := s.enqueueCh[0], AcceptTask(s, now, q);
    assert i in s.enqueueCh;
    assert t.place == s.place[i := InQueue] && t.enqueueCh == s.enqueueCh[1..] && t.queue == q && t.worker == s.worker;
    StoredAccept(s.place, s.roots, s.enqueueCh, s.queue, s.finished, s.dropped, s.rejected, q);
    HeldShared(s.place, s.worker, i, InQueue);
  }

  lemma AcceptKeepsRooted(c: Config, s: State, now: int, q: seq<InstanceId>)
    requires RootedIn(c, s) && |s.enqueueCh| > 0 && s.enqueueCh[0] in s.heap
    ensures RootedIn(c, AcceptTask(s, now, q))
  {
    var i, t := s.enqueueCh[0], AcceptTask(s, now, q);
    assert t.place == s.place[i := InQueue] && t.heap == s.heap[i := Rescored(s.heap[i], now)];
    RootedMove(c, s.parent, s.level, s.heap, s.place, s.assignee, t.heap, t.place, s.assignee);
  }

  lemma AcceptKeepsStaff(c: Config, s: State, now: int, q: seq<InstanceId>)
    requires StoredIn(s) && StaffPart(c, s) && |s.enqueueCh| > 0 && s.enqueueCh[0] in s.heap
    ensures StaffPart(c, AcceptTask(s, now, q))
  {
    var i, t := s.enqueueCh[0], AcceptTask(s, now, q);
    assert i in s.enqueueCh;
    assert t.place == s.place[i := InQueue] && t.worker == s.worker;
    AssignedPlace(s.assignee, s.agentRows, s.place, s.worker, i, InQueue);
  }

  lemma RefuseKeepsLedger(c: Config, s: State)
    requires Ledger(c, s) && |s.enqueueCh| > 0
    ensures Ledger(c, RefuseTask(s))
  {
    var i := s.enqueueCh[0];
    assert i in s.enqueueCh;
    StoredRefuse(s.place, s.roots, s.enqueueCh, s.queue, s.finished, s.dropped, s.rejected);
    HeldShared(s.place, s.worker, i, Dropped);
    RootedMove(c, s.parent, s.level, s.heap, s.place, s.assignee, s.heap, s.place[i := Dropped], s.assignee);
    AssignedPlace(s.assignee, s.agentRows, s.place, s.worker, i, Dropped);
  }

  lemma AnswerNobody(c: Config, s: State)
    requires Ledger(c, s) && |s.dequeueCh| > 0 && |s.queue| == 0
    ensures Ledger(c, AnswerRequest(s))
  {
    var w := s.dequeueCh[0];
    AskingAnswer(c, s.worker, s.dequeueCh, Replied(None));
    HeldIdle(s.place, s.worker, w, Replied(None));
    StaffedMove(c, s.worker, s.pool, s.agentRows, s.closed, s.inbox.Keys, w, Replied(None));
    AssignedMove(s.assignee, s.agentRows, s.place, s.worker, w, Replied(None));
  }

  lemma AnswerKeepsTasks(c: Config, s: State)
    requires TaskPart(c, s) && AskingIn(c, s) && |s.dequeueCh| > 0 && |s.queue| > 0
    ensures TaskPart(c, AnswerRequest(s))
  {
    var w, i := s.dequeueCh[0], s.queue[0];
    assert w in s.dequeueCh;
    StoredAnswer(s.place, s.roots, s.enqueueCh, s.queue, s.finished, s.dropped, s.rejected, w);
    HeldMove(s.place, s.worker, w, Replied(Some(i)), i, InReply(w));
    RootedMove(c, s.parent, s.level, s.heap, s.place, s.assignee, s.heap, s.place[i := InReply(w)], s.assignee);
    SortedAnswer(s.heap, s.queue);
  }

  lemma AnswerKeepsStaff(c: Config, s: State)
    requires StaffPart(c, s) && StoredIn(s) && |s.dequeueCh| > 0 && |s.queue| > 0
    ensures StaffPart(c, AnswerRequest(s))
  {
    var w, i := s.dequeueCh[0], s.queue[0];
    var k := Replied(Some(i));
    assert i in s.queue;
    AskingAnswer(c, s.worker, s.dequeueCh, k);
    StaffedMove(c, s.worker, s.pool, s.agentRows, s.closed, s.inbox.Keys, w, k);
    AssignedMove(s.assignee, s.agentRows, s.place, s.worker, w, k);
    AssignedPlace(s.assignee, s.agentRows, s.place, s.worker[w := k], i, InReply(w));
  }

  lemma AskKeepsLedger(c: Config, s: State, w: WorkerId)
    requires Ledger(c, s) && w in s.worker && s.worker[w] == Polling
    ensures Ledger(c, s.(worker := s.worker[w := Waiting], dequeueCh := s.dequeueCh + [w]))
  {
    AskingAsk(c, s.worker, s.dequeueCh, w);
    HeldIdle(s.place, s.worker, w, Waiting);
    StaffedMove(c, s.worker, s.pool, s.agentRows, s.closed, s.inbox.Keys, w, Waiting);
    AssignedMove(s.assignee, s.agentRows, s.place, s.worker, w, Waiting);
  }

  lemma HearNothingKeepsLedger(c: Config, s: State, w: WorkerId)
    requires Ledger(c, s) && w in s.worker && s.worker[w] == Replied(None)
    ensures Ledger(c, s.(worker := s.worker[w := Polling]))
  {
    AskingMove(c, s.worker, s.dequeueCh, w, Polling);
    HeldIdle(s.place, s.worker, w, Polling);
    StaffedMove(c, s.worker, s.pool, s.agentRows, s.closed, s.inbox.Keys, w, Polling);
    AssignedMove(s.assignee, s.agentRows, s.place, s.worker, w, Polling);
  }

  /** A worker without an agent keeps its task: it takes it out of its reply, or decides to give it back. */
  lemma KeepTaskKeepsLedger(c: Config, s: State, w: WorkerId, k: Worker)
    requires Ledger(c, s) && w in s.worker && TaskOf(s.worker[w]).Some? && TaskOf(k) == TaskOf(s.worker[w])
    requires !s.worker[w].Busy? && !k.Busy?
    ensures var i := TaskOf(k).value;
            i in s.place && Ledger(c, s.(worker := s.worker[w := k], place := s.place[i := PlaceWith(w, k)]))
  {
    var i := TaskOf(k).value;
    var p := PlaceWith(w, k);
    AskingMove(c, s.worker, s.dequeueCh, w, k);
    HeldMove(s.place, s.worker, w, k, i, p);
    StaffedMove(c, s.worker, s.pool, s.agentRows, s.closed, s.inbox.Keys, w, k);
    AssignedMove(s.assignee, s.agentRows, s.place, s.worker, w, k);
    AssignedPlace(s.assignee, s.agentRows, s.place, s.worker[w := k], i, p);
    RootedMove(c, s.parent, s.level, s.heap, s.place, s.assignee, s.heap, s.place[i := p], s.assignee);
    StoredHandOver(s.place, s.roots, s.enqueueCh, s.queue, s.finished, s.dropped, s.rejected, i, p);
  }

  lemma GiveBackKeepsLedger(c: Config, s: State, w: WorkerId)
    requires Ledger(c, s) && w in s.worker && s.worker[w].Returning?
    ensures Ledger(c, ToChannel(s, s.worker[w].task).(worker := s.worker[w := Polling]))
  {
    var i := s.worker[w].task;
    AskingMove(c, s.worker, s.dequeueCh, w, Polling);
    HeldMove(s.place, s.worker, w, Polling, i, InChannel);
    StaffedMove(c, s.worker, s.pool, s.agentRows, s.closed, s.inbox.Keys, w, Polling);
    AssignedMove(s.assignee, s.agentRows, s.place, s.worker, w, Polling);
    AssignedPlace(s.assignee, s.agentRows, s.place, s.worker[w := Polling], i, InChannel);
    RootedMove(c, s.parent, s.level, s.heap, s.place, s.assignee, s.heap, s.place[i := InChannel], s.assignee);
    StoredSend(s.place, s.roots, s.enqueueCh, s.queue, s.finished, s.dropped, s.rejected, i);
  }

  lemma StartKeepsTasks(c: Config, s: State, w: WorkerId, a: AgentId)
    requires TaskPart(c, s) && w in s.worker && s.worker[w].Holding?
    ensures TaskPart(c, StartTask(s, w, a))
  {
    var i := s.worker[w].task;
    var u := StartTask(s, w, a);
    HeldMove(s.place, s.worker, w, Busy(i, a), i, RunBy(w));
    RootedMove(c, s.parent, s.level, s.heap, s.place, s.assignee, s.heap, u.place, u.assignee);
    StoredHandOver(s.place, s.roots, s.enqueueCh, s.queue, s.finished, s.dropped, s.rejected, i, RunBy(w));
  }

  lemma StartInboxes(s: State, w: WorkerId, a: AgentId)
    requires w in s.worker && s.worker[w].Holding?
    ensures StartTask(s, w, a).inbox.Keys == s.inbox.Keys + {a}
  {
    assert StartTask(s, w, a).inbox == s.inbox[a := []];
  }

  lemma StartKeepsStaffed(c: Config, s: State, w: WorkerId, a: AgentId)
    requires StaffedIn(c, s) && w in s.worker && s.worker[w].Holding?
    requires Agents.Admits(s.pool.Keys, s.agentRows, c.maxAgents, a)
    ensures StaffedIn(c, StartTask(s, w, a))
  {
    var i, t := s.worker[w].task, StartTask(s, w, a);
    assert |s.pool| == |s.pool.Keys|;
    assert t.worker == s.worker[w := Busy(i, a)] && t.closed == s.closed;
    assert t.pool == s.pool[a := w] && t.agentRows == s.agentRows + {a};
    StartInboxes(s, w, a);
    StaffedStart(c, s.worker, s.pool, s.agentRows, s.closed, s.inbox.Keys, w, i, a);
  }

  lemma StartKeepsStaff(c: Config, s: State, w: WorkerId, a: AgentId)
    requires StaffPart(c, s) && w in s.worker && s.worker[w].Holding?
    requires s.worker[w].task in s.place && s.place[s.worker[w].task] == HeldBy(w)
    requires Agents.Admits(s.pool.Keys, s.agentRows, c.maxAgents, a)
    ensures StaffPart(c, StartTask(s, w, a))
    ensures s.worker[w].task !in s.assignee
  {
    var i, t := s.worker[w].task, StartTask(s, w, a);
    assert t.worker == s.worker[w := Busy(i, a)] && t.dequeueCh == s.dequeueCh && t.agentRows == s.agentRows + {a};
    assert t.assignee == s.assignee[i := a] && t.place == s.place[i := RunBy(w)];
    AskingMove(c, s.worker, s.dequeueCh, w, Busy(i, a));
    AssignedStart(s.assignee, s.agentRows, s.place, s.worker, w, i, a);
    StartKeepsStaffed(c, s, w, a);
  }

  lemma EndKeepsTasks(c: Config, s: State, w: WorkerId)
    requires TaskPart(c, s) && BusyAt(s, w)
    ensures TaskPart(c, EndTask(s, w))
  {
    var i, t := s.worker[w].task, EndTask(s, w);
    assert t.place == s.place[i := Finished] && t.worker == s.worker[w := Polling] && t.finished == s.finished + {i};
    HeldMove(s.place, s.worker, w, Polling, i, Finished);
    RootedMove(c, s.parent, s.level, s.heap, s.place, s.assignee, s.heap, s.place[i := Finished], s.assignee);
    StoredHandOver(s.place, s.roots, s.enqueueCh, s.queue, s.finished, s.dropped, s.rejected, i, Finished);
  }

  lemma EndKeepsStaff(c: Config, s: State, w: WorkerId)
    requires StaffPart(c, s) && BusyAt(s, w) && s.worker[w].agent in s.pool
    ensures StaffPart(c, EndTask(s, w))
  {
    var i, a, t := s.worker[w].task, s.worker[w].agent, EndTask(s, w);
    assert t.place == s.place[i := Finished] && t.worker == s.worker[w := Polling];
    assert t.pool == s.pool - {a} && t.closed == s.closed + {a};
    AskingMove(c, s.worker, s.dequeueCh, w, Polling);
    StaffedEnd(c, s.worker, s.pool, s.agentRows, s.closed, s.inbox.Keys, w);
    AssignedEnd(s.assignee, s.agentRows, s.place, s.worker, w);
  }

  lemma EndKeepsLedger(c: Config, s: State, w: WorkerId)
    requires Ledger(c, s) && BusyAt(s, w)
    ensures Ledger(c, EndTask(s, w))
  {
    EndKeepsTasks(c, s, w);
    assert s.worker[w].agent in s.pool;
    EndKeepsStaff(c, s, w);
  }

  lemma DaemonKeepsLedger(c: Config, s: State, d: DaemonEvent)
    requires Ledger(c, s) && DaemonEnabled(c, s, d)
    ensures Ledger(c, DaemonStep(c, s, d))
  {
    match d
    case InsertRoot(t) => InsertKeepsLedger(c, s, t, None, Created);
    case SendRoot(i) => SendKeepsLedger(c, s, i);
    case RejectRoot(i) => RejectKeepsLedger(c, s, i);
    case Accept(now, q) =>
      AcceptKeepsSorted(s, now, q);
      AcceptKeepsTasks(c, s, now, q);
      AcceptKeepsStaff(c, s, now, q);
    case Refuse => RefuseKeepsLedger(c, s);
    case Answer =>
      if |s.queue| == 0 {
        AnswerNobody(c, s);
      } else {
        AnswerKeepsTasks(c, s);
        AnswerKeepsStaff(c, s);
      }
    case Release(_) =>
  }

  lemma ReceiveKeepsLedger(c: Config, s: State, w: WorkerId)
    requires Ledger(c, s) && w in s.worker && s.worker[w].Replied?
    ensures Ledger(c, ReceiveReply(s, w))
  {
    if s.worker[w].reply.None? {
      HearNothingKeepsLedger(c, s, w);
      assert ReceiveReply(s, w) == s.(worker := s.worker[w := Polling]);
    } else {
      var i := s.worker[w].reply.value;
      KeepTaskKeepsLedger(c, s, w, Holding(i));
      assert ReceiveReply(s, w) == s.(worker := s.worker[w := Holding(i)], place := s.place[i := HeldBy(w)]);
    }
  }

  lemma ReturnKeepsLedger(c: Config, s: State, w: WorkerId)
    requires Ledger(c, s) && w in s.worker && s.worker[w].Holding?
    ensures Ledger(c, s.(worker := s.worker[w := Returning(s.worker[w].task)]))
  {
    var i := s.worker[w].task;
    KeepTaskKeepsLedger(c, s, w, Returning(i));
    assert s.place[i := HeldBy(w)] == s.place;
    assert s.(worker := s.worker[w := Returning(i)])
           == s.(worker := s.worker[w := Returning(i)], place := s.place[i := HeldBy(w)]);
  }

  lemma StartKeepsLedger(c: Config, s: State, w: WorkerId, a: AgentId)
    requires Ledger(c, s) && w in s.worker && s.worker[w].Holding?
    requires Agents.Admits(s.pool.Keys, s.agentRows, c.maxAgents, a)
    ensures Ledger(c, StartTask(s, w, a))
  {
    StartKeepsTasks(c, s, w, a);
    StartKeepsStaff(c, s, w, a);
  }

  lemma PoolKeepsLedger(c: Config, s: State, w: WorkerId, p: PoolEvent)
    requires Ledger(c, s) && PoolEnabled(c, s, w, p)
    ensures Ledger(c, PoolStep(c, s, w, p))
  {
    match p
    case Ask => AskKeepsLedger(c, s, w);
    case Receive => ReceiveKeepsLedger(c, s, w);
    case SpawnAgent(a) => StartKeepsLedger(c, s, w, a);
    case SpawnFails(_) => ReturnKeepsLedger(c, s, w);
    case GiveBack => GiveBackKeepsLedger(c, s, w);
    case RemoveAgent => EndKeepsLedger(c, s, w);
  }
}
