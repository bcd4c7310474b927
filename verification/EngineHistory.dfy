/** What a run never takes back: rows, parents, assignments, agent identifiers, outcomes. */
module EngineHistory {
  import opened Prelude
  import opened Tasks
  import opened Tools
  import opened Engine
  import opened EngineInvariant
  import opened EngineRuns
  import opened RunningMoves

  ghost predicate Grows(s: State, t: State) {
    && Extends(s.parent, t.parent)
    && Extends(s.level, t.level)
    && Extends(s.assignee, t.assignee)
    && s.agentRows <= t.agentRows
    && s.closed <= t.closed
    && s.finished <= t.finished
    && s.dropped <= t.dropped
    && s.rejected <= t.rejected
  }

  lemma GrowsTransitive(s: State, t: State, u: State)
    requires Grows(s, t) && Grows(t, u)
    ensures Grows(s, u)
  {
    forall k | k in s.assignee ensures k in u.assignee && u.assignee[k] == s.assignee[k] {
      assert k in t.assignee;
    }
    forall k | k in s.parent ensures k in u.parent && u.parent[k] == s.parent[k] {
      assert k in t.parent;
    }
    forall k | k in s.level ensures k in u.level && u.level[k] == s.level[k] {
      assert k in t.level;
    }
  }

  lemma SameStoreGrows(s: State, t: State, i: InstanceId, a: AgentId)
    requires t.parent == s.parent && t.level == s.level && t.assignee == s.assignee && t.agentRows == s.agentRows
    requires t.closed == s.closed || t.closed == s.closed + {a}
    requires t.finished == s.finished || t.finished == s.finished + {i}
    requires t.dropped == s.dropped || t.dropped == s.dropped + {i}
    requires s.rejected <= t.rejected
    ensures Grows(s, t)
  {
  }

  lemma InsertGrows(s: State, task: Task, above: Option<InstanceId>, at: Place)
    requires s.level.Keys == s.parent.Keys && task.id !in s.parent
    ensures Grows(s, InsertRow(s, task, above, at))
  {
  }

  lemma AnswerGrows(s: State)
    requires |s.dequeueCh| > 0
    ensures Grows(s, AnswerRequest(s)) && AnswerRequest(s).dropped == s.dropped
  {
    SameStoreGrows(s, AnswerRequest(s), 0, 0);
  }

  lemma DaemonGrows(c: Config, s: State, d: DaemonEvent)
    requires s.level.Keys == s.parent.Keys && DaemonEnabled(c, s, d)
    ensures Grows(s, DaemonStep(c, s, d))
    ensures var t := DaemonStep(c, s, d);
            t.dropped == s.dropped || (d.Refuse? && t.dropped == s.dropped + {s.enqueueCh[0]})
  {
    match d
    case InsertRoot(task) => InsertGrows(s, task, None, Created);
    case Refuse => SameStoreGrows(s, RefuseTask(s), s.enqueueCh[0], 0);
    case Answer => AnswerGrows(s);
    case _ => SameStoreGrows(s, DaemonStep(c, s, d), 0, 0);
  }

  lemma StartGrows(s: State, w: WorkerId, a: AgentId)
    requires w in s.worker && s.worker[w].Holding? && s.worker[w].task !in s.assignee
    ensures Grows(s, StartTask(s, w, a))
  {
  }

  lemma ReceiveGrows(s: State, w: WorkerId)
    requires w in s.worker && s.worker[w].Replied?
    ensures Grows(s, ReceiveReply(s, w)) && ReceiveReply(s, w).dropped == s.dropped
  {
    SameStoreGrows(s, ReceiveReply(s, w), 0, 0);
  }

  lemma PoolGrows(c: Config, s: State, w: WorkerId, p: PoolEvent)
    requires PoolEnabled(c, s, w, p) && (p.SpawnAgent? ==> s.worker[w].task !in s.assignee)
    ensures Grows(s, PoolStep(c, s, w, p)) && PoolStep(c, s, w, p).dropped == s.dropped
  {
    match p
    case SpawnAgent(a) => StartGrows(s, w, a);
    case Receive => ReceiveGrows(s, w);
    case RemoveAgent => SameStoreGrows(s, EndTask(s, w), s.worker[w].task, s.worker[w].agent);
    case _ => SameStoreGrows(s, PoolStep(c, s, w, p), 0, 0);
  }

  lemma CallGrows(c: Config, s: State, w: WorkerId, t: CallEvent)
    requires s.level.Keys == s.parent.Keys && CallEnabled(s, w, t)
    ensures Grows(s, CallStep(c, s, w, t)) && CallStep(c, s, w, t).dropped == s.dropped
  {
    var moved := Goto(s, w, CallPhase(c, s, w, t));
    if t.InsertChild? {
      InsertGrows(moved, t.task, Some(s.worker[w].task), CreatedBy(w));
    } else {
      SameStoreGrows(s, CallStep(c, s, w, t), 0, 0);
    }
  }

  lemma HeldIsUnassigned(c: Config, s: State, w: WorkerId)
    requires HeldIn(s) && AssignedIn(s) && w in s.worker && s.worker[w].Holding?
    ensures s.worker[w].task !in s.assignee
  {
  }

  lemma SetupGrows(s: State, w: WorkerId, u: SetupEvent)
    requires SetupEnabled(s, w, u)
    ensures Grows(s, SetupStep(s, w, u)) && SetupStep(s, w, u).dropped == s.dropped
  {
    SetupFrame(s, w, u);
    SameViewGrows(s, SetupStep(s, w, u));
  }

  lemma LoopGrows(s: State, w: WorkerId, l: LoopEvent)
    requires LoopEnabled(s, w, l)
    ensures Grows(s, LoopStep(s, w, l)) && LoopStep(s, w, l).dropped == s.dropped
  {
    LoopFrame(s, w, l);
    SameViewGrows(s, LoopStep(s, w, l));
  }

  lemma SameViewGrows(s: State, t: State)
    requires SameLedger(s, t)
    ensures Grows(s, t) && t.dropped == s.dropped
  {
    SameStoreGrows(s, t, 0, 0);
  }

  /** Nothing is taken back, and a task is dropped only by the queue loop, off the head of the channel, when the queue
      already holds `maxQueue` tasks. */
  lemma StepGrows(c: Config, s: State, e: Event)
    requires Inv(c, s) && Enabled(c, s, e)
    ensures Grows(s, Apply(c, s, e))
    ensures forall i | i in Apply(c, s, e).dropped && i !in s.dropped ::
              e == Daemon(Refuse) && |s.queue| >= c.maxQueue && s.enqueueCh[0] == i
  {
    match e
    case Daemon(d) =>
      assert s.level.Keys == s.parent.Keys;
      DaemonGrows(c, s, d);
    case Pool(w, p) =>
      if p.SpawnAgent? { HeldIsUnassigned(c, s, w); }
      PoolGrows(c, s, w, p);
    case Setup(w, u) => SetupGrows(s, w, u);
    case Loop(w, l) => LoopGrows(s, w, l);
    case Call(w, t) =>
      assert s.level.Keys == s.parent.Keys;
      CallGrows(c, s, w, t);
  }

  lemma RunStepGrows(c: Config, r: Run, k: nat)
    requires IsRun(c, r) && k < |r.events|
    ensures Grows(r.states[k], r.states[k + 1])
  {
    RunKeepsInv(c, r, k);
    RunStep(c, r, k);
    StepGrows(c, r.states[k], r.events[k]);
  }

  lemma RunGrows(c: Config, r: Run, j: nat, k: nat)
    requires IsRun(c, r) && j <= k < |r.states|
    ensures Grows(r.states[j], r.states[k])
  {
    var m := j;
    while m < k
      invariant j <= m <= k
      invariant Grows(r.states[j], r.states[m])
    {
      RunStepGrows(c, r, m);
      GrowsTransitive(r.states[j], r.states[m], r.states[m + 1]);
      m := m + 1;
    }
  }

  /** Event `k` of the run drops task `i`: the queue loop takes it off the channel while the queue is full. */
  ghost predicate DropsAt(c: Config, r: Run, k: nat, i: InstanceId)
    requires |r.states| == |r.events| + 1 && k < |r.events|
  {
    && r.events[k].Daemon? && r.events[k].d.Refuse?
    && |r.states[k].queue| >= c.maxQueue && |r.states[k].enqueueCh| > 0 && r.states[k].enqueueCh[0] == i
  }

  ghost predicate DroppedBefore(c: Config, r: Run, k: nat, i: InstanceId)
    requires |r.states| == |r.events| + 1 && k < |r.states|
  {
    exists j: nat :: j < k && DropsAt(c, r, j, i)
  }

  lemma DroppedLater(c: Config, r: Run, k: nat, i: InstanceId)
    requires |r.states| == |r.events| + 1 && k < |r.events|
    ensures DroppedBefore(c, r, k + 1, i) <==> DroppedBefore(c, r, k, i) || DropsAt(c, r, k, i)
  {
    if DroppedBefore(c, r, k, i) {
      var j: nat :| j < k && DropsAt(c, r, j, i);
      assert j < k + 1 && DropsAt(c, r, j, i);
    }
  }

  lemma DropStep(c: Config, r: Run, k: nat, i: InstanceId)
    requires IsRun(c, r) && k < |r.events|
    ensures i in r.states[k + 1].dropped <==> i in r.states[k].dropped || DropsAt(c, r, k, i)
  {
    RunKeepsInv(c, r, k);
    RunStep(c, r, k);
    StepGrows(c, r.states[k], r.events[k]);
    if DropsAt(c, r, k, i) {
      assert r.states[k + 1] == RefuseTask(r.states[k]);
    }
  }

  /** Over every run the dropped tasks are exactly those the queue loop took off the channel while the queue was
      full. */
  lemma DroppedIffRefused(c: Config, r: Run, k: nat, i: InstanceId)
    requires IsRun(c, r) && k < |r.states|
    ensures i in r.states[k].dropped <==> DroppedBefore(c, r, k, i)
  {
    assert r.states[0] == Init(c);
    var m := 0;
    while m < k
      invariant m <= k
      invariant i in r.states[m].dropped <==> DroppedBefore(c, r, m, i)
    {
      DropStep(c, r, m, i);
      DroppedLater(c, r, m, i);
      m := m + 1;
    }
  }

  // ---------------------------------------------------------------- at most once

  /** Event `k` of the run starts the execution of task `i` by agent `a`. */
  ghost predicate StartsAt(r: Run, k: nat, i: InstanceId, a: AgentId)
    requires |r.states| == |r.events| + 1 && k < |r.events|
  {
    && r.events[k].Pool? && r.events[k].p == SpawnAgent(a)
    && r.events[k].w in r.states[k].worker
    && r.states[k].worker[r.events[k].w] == Holding(i)
  }

  lemma StartRecords(c: Config, r: Run, k: nat, i: InstanceId, a: AgentId)
    requires IsRun(c, r) && k < |r.events| && StartsAt(r, k, i, a)
    ensures i !in r.states[k].assignee && a !in r.states[k].agentRows
    ensures i in r.states[k + 1].assignee && r.states[k + 1].assignee[i] == a && a in r.states[k + 1].agentRows
  {
    RunKeepsInv(c, r, k);
    RunStep(c, r, k);
    HeldIsUnassigned(c, r.states[k], r.events[k].w);
  }

  /** No task is executed twice and no agent identifier is used twice, over any run. */
  lemma AtMostOnce(c: Config, r: Run, j: nat, k: nat, i: InstanceId, a: AgentId, i': InstanceId, a': AgentId)
    requires IsRun(c, r) && j < |r.events| && k < |r.events|
    requires StartsAt(r, j, i, a) && StartsAt(r, k, i', a')
    ensures i == i' || a == a' ==> j == k
  {
    StartRecords(c, r, j, i, a);
    StartRecords(c, r, k, i', a');
    if j < k {
      RunGrows(c, r, j + 1, k);
    } else if k < j {
      RunGrows(c, r, k + 1, j);
    }
  }

  // ---------------------------------------------------------------- the first input

  /** The agent loop of this worker has read an input. */
  predicate HasHeard(at: Phase) {
    !at.Starting? && !at.Creating? && !at.Greeting? && !(at.Listening? && at.first) && !at.Leaving?
  }

  /** Event `k` of the run is a read from the input queue of agent `a`. */
  ghost predicate HearsAt(r: Run, k: nat, a: AgentId)
    requires |r.states| == |r.events| + 1 && k < |r.events|
  {
    && r.events[k].Loop? && r.events[k].l == Hear
    && r.events[k].w in r.states[k].worker && r.states[k].worker[r.events[k].w].Busy?
    && r.states[k].worker[r.events[k].w].agent == a
  }

  lemma AnswerIsSilent(s: State, w: WorkerId)
    requires |s.dequeueCh| > 0 && s.dequeueCh[0] in s.worker && !s.worker[s.dequeueCh[0]].Busy?
    requires BusyAt(AnswerRequest(s), w)
    ensures BusyAt(s, w) && AnswerRequest(s).worker[w] == s.worker[w] && AnswerRequest(s).phase == s.phase
  {
  }

  lemma DaemonIsSilent(c: Config, s: State, d: DaemonEvent, w: WorkerId)
    requires AskingIn(c, s) && DaemonEnabled(c, s, d) && BusyAt(DaemonStep(c, s, d), w)
    ensures BusyAt(s, w) && DaemonStep(c, s, d).worker[w] == s.worker[w] && DaemonStep(c, s, d).phase == s.phase
  {
    if d.Answer? {
      assert s.dequeueCh[0] in s.dequeueCh;
      AnswerIsSilent(s, w);
    }
  }

  lemma ReceiveIsSilent(s: State, v: WorkerId, w: WorkerId)
    requires v in s.worker && s.worker[v].Replied? && BusyAt(ReceiveReply(s, v), w)
    ensures BusyAt(s, w) && ReceiveReply(s, v).worker[w] == s.worker[w] && ReceiveReply(s, v).phase == s.phase
  {
  }

  lemma PoolIsSilent(c: Config, s: State, v: WorkerId, p: PoolEvent, w: WorkerId)
    requires PoolEnabled(c, s, v, p) && BusyAt(PoolStep(c, s, v, p), w)
    ensures var t := PoolStep(c, s, v, p);
            t.phase[w] == Starting || (BusyAt(s, w) && t.worker[w] == s.worker[w] && t.phase[w] == s.phase[w])
  {
    if p.Receive? {
      ReceiveIsSilent(s, v, w);
    }
  }

  lemma CallIsSilent(c: Config, s: State, v: WorkerId, t: CallEvent, w: WorkerId)
    requires CallEnabled(s, v, t) && BusyAt(CallStep(c, s, v, t), w)
    ensures CallStep(c, s, v, t).worker == s.worker && BusyAt(s, w)
    ensures HasHeard(CallStep(c, s, v, t).phase[w]) ==> HasHeard(s.phase[w])
  {
    assert CallStep(c, s, v, t).phase == s.phase[v := CallPhase(c, s, v, t)];
    assert HasHeard(s.phase[v]);
  }

  /** A worker past its first input was past it before the event, or the event is the read. */
  lemma HearingStep(c: Config, s: State, e: Event, w: WorkerId)
    requires AskingIn(c, s) && Enabled(c, s, e)
    requires var t := Apply(c, s, e); BusyAt(t, w) && HasHeard(t.phase[w])
    ensures BusyAt(s, w) && Apply(c, s, e).worker[w] == s.worker[w]
    ensures HasHeard(s.phase[w]) || (e.Loop? && e.w == w && e.l.Hear?)
  {
    match e
    case Daemon(d) =>
      DaemonIsSilent(c, s, d, w);
      assert HasHeard(s.phase[w]);
    case Pool(v, p) =>
      PoolIsSilent(c, s, v, p, w);
      assert HasHeard(s.phase[w]);
    case Setup(v, u) =>
      SetupIsSilent(s, v, u, w);
      assert HasHeard(s.phase[w]);
    case Loop(v, l) => LoopIsSilent(s, v, l, w);
    case Call(v, t) => CallIsSilent(c, s, v, t, w);
  }

  lemma SetupIsSilent(s: State, v: WorkerId, u: SetupEvent, w: WorkerId)
    requires SetupEnabled(s, v, u) && BusyAt(SetupStep(s, v, u), w)
    ensures SetupStep(s, v, u).worker == s.worker && BusyAt(s, w)
    ensures HasHeard(SetupStep(s, v, u).phase[w]) ==> HasHeard(s.phase[w])
  {
  }

  lemma LoopIsSilent(s: State, v: WorkerId, l: LoopEvent, w: WorkerId)
    requires LoopEnabled(s, v, l) && BusyAt(LoopStep(s, v, l), w)
    ensures LoopStep(s, v, l).worker == s.worker && BusyAt(s, w)
    ensures HasHeard(LoopStep(s, v, l).phase[w]) ==> HasHeard(s.phase[w]) || (v == w && l == Hear)
  {
    var t, at := LoopStep(s, v, l), s.phase[v];
    match l
    case Hear => assert t.phase == s.phase[v := Prompting(at.first)];
    case Respond(calls) => assert t.phase == s.phase[v := if |calls| == 0 then Leaving else Acting(calls, NO_CHANGE)];
    case ModelFails => assert t.phase == s.phase[v := Leaving];
    case Decide => DecideIsSilent(s, v, VerdictOf(at.change));
  }

  lemma DecideIsSilent(s: State, v: WorkerId, verdict: Verdict)
    requires BusyAt(s, v)
    ensures Decided(s, v, verdict).worker == s.worker
    ensures Decided(s, v, verdict).phase == s.phase[v := if verdict.KeepListening? then Listening(false) else Leaving]
  {
    UnregisterIsSilent(Goto(s, v, Leaving), s.worker[v].agent);
  }

  lemma UnregisterIsSilent(s: State, a: AgentId)
    ensures UnregisterAgent(s, a).worker == s.worker && UnregisterAgent(s, a).phase == s.phase
  {
  }

  /** The agent of a worker past its first input has read one before moment `k`. */
  ghost predicate Recorded(r: Run, k: nat, w: WorkerId)
    requires |r.states| == |r.events| + 1 && k < |r.states|
  {
    BusyAt(r.states[k], w) && HasHeard(r.states[k].phase[w]) ==>
      exists j: nat :: j < k && HearsAt(r, j, r.states[k].worker[w].agent)
  }

  lemma RecordStep(c: Config, r: Run, k: nat, w: WorkerId)
    requires IsRun(c, r) && k < |r.events| && Recorded(r, k, w) && AskingIn(c, r.states[k])
    ensures Recorded(r, k + 1, w)
  {
    RunStep(c, r, k);
    var t := r.states[k + 1];
    if BusyAt(t, w) && HasHeard(t.phase[w]) {
      HearingStep(c, r.states[k], r.events[k], w);
      if r.events[k] == Loop(w, Hear) {
        assert HearsAt(r, k, t.worker[w].agent);
      } else {
        var j: nat :| j < k && HearsAt(r, j, r.states[k].worker[w].agent);
        assert HearsAt(r, j, t.worker[w].agent);
      }
    }
  }

  lemma HeardBefore(c: Config, r: Run, k: nat, w: WorkerId)
    requires IsRun(c, r) && k < |r.states|
    ensures Recorded(r, k, w)
  {
    assert r.states[0] == Init(c);
    var m := 0;
    while m < k
      invariant m <= k
      invariant Recorded(r, m, w)
    {
      RunAsking(c, r, m);
      RecordStep(c, r, m, w);
      m := m + 1;
    }
  }

  lemma RunAsking(c: Config, r: Run, k: nat)
    requires IsRun(c, r) && k < |r.states|
    ensures AskingIn(c, r.states[k])
  {
    RunKeepsInv(c, r, k);
  }

  lemma RunPhase(c: Config, r: Run, k: nat, w: WorkerId)
    requires IsRun(c, r) && k < |r.states| && BusyAt(r.states[k], w)
    ensures PhaseOk(c, r.states[k], w)
  {
    RunKeepsInv(c, r, k);
  }

  /** The first input an agent loop ever reads is the start of its own task, and it is then the only one queued. */
  lemma FirstInputIsTaskStart(c: Config, r: Run, k: nat, w: WorkerId)
    requires IsRun(c, r) && k < |r.events| && r.events[k] == Loop(w, Hear)
    requires Enabled(c, r.states[k], r.events[k])
    requires forall j: nat | j < k :: !HearsAt(r, j, r.states[k].worker[w].agent)
    ensures var s := r.states[k];
            s.inbox[s.worker[w].agent] == [TaskStart(s.worker[w].task)]
  {
    RunPhase(c, r, k, w);
    HeardBefore(c, r, k, w);
  }
}
