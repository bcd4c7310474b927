/** The calls of a response, answered one event at a time with other goroutines in between
    (internal/runtime/runtime.go:453-634): each is answered once, in order, by an event that fits it, and the decision
    after the last is that of the last SET_STATE. */
module EngineCalls {
  import opened Prelude
  import opened Tools
  import opened Engine
  import opened EngineInvariant
  import opened EngineRuns
  import AgentLoop
  import EngineHistory

  /** A call and the event that finished it. */
  datatype Finish = Finish(call: Action, event: CallEvent)

  function Calls(fs: seq<Finish>): (r: seq<Action>)
    ensures |r| == |fs| && forall j | 0 <= j < |fs| :: r[j] == fs[j].call
  {
    seq(|fs|, j requires 0 <= j < |fs| => fs[j].call)
  }

  /** Which events can finish a call: SET_STATE, an unknown tool and a call with nothing in it are skipped, a command is
      executed, a child is refused for its depth, not inserted, or sent, and a message is skipped without a parent,
      given up for want of its entry or its agent, or pushed. */
  predicate Fits(a: Action, t: CallEvent) {
    match a
    case SetState(_, _) => t.Skip?
    case UnknownTool => t.Skip?
    case ExecuteCmd(code) => if code == "" then t.Skip? else t.Execute?
    case SpawnTask(d) => if d == "" then t.Skip? else t.EndWalk? || t.InsertFails? || t.SendChild?
    case SendParent(m) =>
      || t.Skip?
      || (m != "" && (t == FindParent(None) || t.CheckTarget? || t.LookUpTarget? || t.PushInput?))
  }

  /** Whether call event `t` is the last one of the call it belongs to. */
  predicate Finishes(c: Config, s: State, w: WorkerId, t: CallEvent)
    requires CallEnabled(s, w, t)
  {
    match t
    case Skip => true
    case Execute => true
    case StartWalk => false
    case Climb => false
    case EndWalk => s.phase[w].count + 1 > c.maxDepth
    case InsertFails => true
    case FindParent(target) => target.None?
    case CheckTarget => s.phase[w].target !in s.registry
    case LookUpTarget => s.phase[w].target !in s.pool
    case InsertChild(_) => false
    case SendChild => true
    case PushInput => true
  }

  /** Worker `w` is answering calls. */
  predicate Answering(at: Phase) {
    at.Acting? || at.Walking? || at.Inserting? || at.Sending? || at.Messaging?
  }

  /** The call that event `e` finishes for worker `w`, if it does. */
  function FinishedBy(c: Config, s: State, e: Event, w: WorkerId): seq<Finish> {
    if e.Call? && e.w == w && CallEnabled(s, w, e.t) && Finishes(c, s, w, e.t) && |s.phase[w].todo| > 0 then
      [Finish(s.phase[w].todo[0], e.t)]
    else []
  }

  /** The calls that worker `w` has finished between the moments `from` and `k`, in order. */
  function Finished(c: Config, r: Run, from: nat, k: nat, w: WorkerId): seq<Finish>
    requires |r.states| == |r.events| + 1 && k < |r.states|
  {
    if k <= from then [] else Finished(c, r, from, k - 1, w) + FinishedBy(c, r.states[k - 1], r.events[k - 1], w)
  }

  /** The call in hand is one that phase `at` is for. */
  predicate InHand(at: Phase) {
    && Answering(at)
    && (at.Walking? || at.Inserting? || at.Sending? ==>
          |at.todo| > 0 && at.todo[0].SpawnTask? && at.todo[0].description != "")
    && (at.Messaging? ==> |at.todo| > 0 && at.todo[0] == SendParent(at.text) && at.text != "")
  }

  /** A worker at `at` has finished `done` of `calls`, and has the others to do. */
  ghost predicate Partly(at: Phase, done: seq<Finish>, calls: seq<Action>) {
    && InHand(at)
    && Calls(done) + at.todo == calls
    && at.change == AgentLoop.ChangeOf(Calls(done))
    && forall j | 0 <= j < |done| :: Fits(done[j].call, done[j].event)
  }

  lemma ChangeGrows(acts: seq<Action>, a: Action)
    ensures AgentLoop.ChangeOf(acts + [a]) == NextChange(AgentLoop.ChangeOf(acts), a)
  {
    assert (acts + [a])[..|acts|] == acts;
  }

  lemma OneMoreFinished(at: Phase, done: seq<Finish>, calls: seq<Action>, t: CallEvent)
    requires Partly(at, done, calls) && |at.todo| > 0 && Fits(at.todo[0], t)
    ensures Partly(Next(at.todo, at.change), done + [Finish(at.todo[0], t)], calls)
  {
    var next := Next(at.todo, at.change);
    var more := done + [Finish(at.todo[0], t)];
    assert Calls(more) == Calls(done) + [at.todo[0]];
    assert Calls(more) + next.todo == Calls(done) + at.todo;
    ChangeGrows(Calls(done), at.todo[0]);
  }

  /** A call event of the worker goes on with the call in hand, or finishes it. */
  lemma OwnStep(c: Config, s: State, w: WorkerId, t: CallEvent, done: seq<Finish>, calls: seq<Action>)
    requires CallEnabled(s, w, t) && Partly(s.phase[w], done, calls)
    ensures Partly(CallPhase(c, s, w, t), done + FinishedBy(c, s, Call(w, t), w), calls)
  {
    var at := s.phase[w];
    if Finishes(c, s, w, t) {
      assert |at.todo| > 0 && Fits(at.todo[0], t);
      assert CallPhase(c, s, w, t) == Next(at.todo, at.change);
      OneMoreFinished(at, done, calls, t);
    } else {
      assert CallPhase(c, s, w, t).todo == at.todo && CallPhase(c, s, w, t).change == at.change;
      assert done + [] == done;
    }
  }

  /** What the head call makes possible, and nothing else: the one event that answers it on the spot or begins it, or,
      for a message of a task with a parent, a search that finds an entry of the parent task, or finds none if and only
      if there is none. */
  lemma HeadDecides(s: State, w: WorkerId, t: CallEvent)
    requires BusyAt(s, w) && s.worker[w].task in s.parent && s.phase[w].Acting? && |s.phase[w].todo| > 0
    ensures var above := s.parent[s.worker[w].task];
            match s.phase[w].todo[0]
            case SetState(_, _) => CallEnabled(s, w, t) <==> t == Skip
            case UnknownTool => CallEnabled(s, w, t) <==> t == Skip
            case ExecuteCmd(code) => CallEnabled(s, w, t) <==> t == if code == "" then Skip else Execute
            case SpawnTask(d) => CallEnabled(s, w, t) <==> t == if d == "" then Skip else StartWalk
            case SendParent(m) =>
              if m == "" || above == None then CallEnabled(s, w, t) <==> t == Skip
              else CallEnabled(s, w, t) <==>
                   && t.FindParent?
                   && (t.target.Some? ==>
                         t.target.value in s.registry && s.registry[t.target.value].task == above.value)
                   && (t.target.None? ==> forall a | a in s.registry :: s.registry[a].task != above.value)
  {
  }

  // ---------------------------------------------------------------- nobody else interferes

  /** Until it decides, an answering worker takes no step but those of its calls. */
  lemma AnsweringOnly(c: Config, s: State, e: Event, w: WorkerId)
    requires Enabled(c, s, e) && OfWorker(e, w) && BusyAt(s, w) && Answering(s.phase[w])
    ensures e.Call? || e == Loop(w, Decide)
  {
  }

  lemma DaemonLeaves(c: Config, s: State, d: DaemonEvent, w: WorkerId)
    requires AskingIn(c, s) && DaemonEnabled(c, s, d) && BusyAt(s, w)
    ensures var t := DaemonStep(c, s, d); BusyAt(t, w) && t.phase[w] == s.phase[w] && t.worker[w] == s.worker[w]
  {
    var t := DaemonStep(c, s, d);
    assert t.phase == s.phase;
    if d.Answer? {
      assert s.dequeueCh[0] in s.dequeueCh;
      assert AnswerRequest(s).worker[w] == s.worker[w];
    } else {
      assert t.worker == s.worker;
    }
  }

  lemma PoolLeaves(c: Config, s: State, v: WorkerId, p: PoolEvent, w: WorkerId)
    requires PoolEnabled(c, s, v, p) && BusyAt(s, w) && v != w
    ensures var t := PoolStep(c, s, v, p); BusyAt(t, w) && t.phase[w] == s.phase[w] && t.worker[w] == s.worker[w]
  {
    var t := PoolStep(c, s, v, p);
    assert t.worker == s.worker[v := t.worker[v]];
    match p
    case SpawnAgent(a) => assert t.phase == s.phase[v := Starting];
    case RemoveAgent => assert t.phase == s.phase - {v};
    case _ => assert t.phase == s.phase;
  }

  lemma SetupLeaves(s: State, v: WorkerId, u: SetupEvent, w: WorkerId)
    requires SetupEnabled(s, v, u) && BusyAt(s, w) && v != w
    ensures var t := SetupStep(s, v, u); BusyAt(t, w) && t.phase[w] == s.phase[w] && t.worker[w] == s.worker[w]
  {
    var t := SetupStep(s, v, u);
    assert t.worker == s.worker && t.phase == s.phase[v := t.phase[v]];
  }

  lemma DecidedLeaves(s: State, v: WorkerId, d: Verdict, w: WorkerId)
    requires BusyAt(s, v) && BusyAt(s, w) && v != w
    ensures var t := Decided(s, v, d); BusyAt(t, w) && t.phase[w] == s.phase[w] && t.worker[w] == s.worker[w]
  {
  }

  lemma LoopLeaves(s: State, v: WorkerId, l: LoopEvent, w: WorkerId)
    requires LoopEnabled(s, v, l) && BusyAt(s, w) && v != w
    ensures var t := LoopStep(s, v, l); BusyAt(t, w) && t.phase[w] == s.phase[w] && t.worker[w] == s.worker[w]
  {
    if l.Decide? {
      DecidedLeaves(s, v, VerdictOf(s.phase[v].change), w);
    } else {
      var t := LoopStep(s, v, l);
      assert t.worker == s.worker && t.phase == s.phase[v := t.phase[v]];
    }
  }

  lemma CallLeaves(c: Config, s: State, v: WorkerId, x: CallEvent, w: WorkerId)
    requires CallEnabled(s, v, x) && BusyAt(s, w) && v != w
    ensures var t := CallStep(c, s, v, x); BusyAt(t, w) && t.phase[w] == s.phase[w] && t.worker[w] == s.worker[w]
  {
    var t := CallStep(c, s, v, x);
    assert t.worker == s.worker && t.phase == s.phase[v := CallPhase(c, s, v, x)];
  }

  /** A worker inside executeTask is moved by its own events only. */
  lemma OthersLeavePhase(c: Config, s: State, e: Event, w: WorkerId)
    requires AskingIn(c, s) && Enabled(c, s, e) && BusyAt(s, w) && !OfWorker(e, w)
    ensures var t := Apply(c, s, e); BusyAt(t, w) && t.phase[w] == s.phase[w] && t.worker[w] == s.worker[w]
  {
    match e
    case Daemon(d) => DaemonLeaves(c, s, d, w);
    case Pool(v, p) => PoolLeaves(c, s, v, p, w);
    case Setup(v, u) => SetupLeaves(s, v, u, w);
    case Loop(v, l) => LoopLeaves(s, v, l, w);
    case Call(v, t) => CallLeaves(c, s, v, t, w);
  }

  lemma CallStepMoves(c: Config, s: State, w: WorkerId, t: CallEvent)
    requires CallEnabled(s, w, t)
    ensures var u := CallStep(c, s, w, t); BusyAt(u, w) && u.phase[w] == CallPhase(c, s, w, t)
  {
    var u := CallStep(c, s, w, t);
    assert u.worker == s.worker && u.phase == s.phase[w := CallPhase(c, s, w, t)];
  }

  lemma OwnCall(c: Config, s: State, w: WorkerId, t: CallEvent, done: seq<Finish>, calls: seq<Action>)
    requires CallEnabled(s, w, t) && Partly(s.phase[w], done, calls)
    ensures BusyAt(CallStep(c, s, w, t), w)
    ensures Partly(CallStep(c, s, w, t).phase[w], done + FinishedBy(c, s, Call(w, t), w), calls)
  {
    OwnStep(c, s, w, t, done, calls);
    CallStepMoves(c, s, w, t);
  }

  lemma NotFinished(c: Config, s: State, e: Event, w: WorkerId, done: seq<Finish>)
    requires !OfWorker(e, w)
    ensures done + FinishedBy(c, s, e, w) == done
  {
  }

  lemma AnyStep(c: Config, s: State, e: Event, w: WorkerId, done: seq<Finish>, calls: seq<Action>)
    requires AskingIn(c, s) && Enabled(c, s, e) && e != Loop(w, Decide)
    requires BusyAt(s, w) && Partly(s.phase[w], done, calls)
    ensures BusyAt(Apply(c, s, e), w)
    ensures Partly(Apply(c, s, e).phase[w], done + FinishedBy(c, s, e, w), calls)
  {
    if OfWorker(e, w) {
      AnsweringOnly(c, s, e, w);
      OwnCall(c, s, w, e.t, done, calls);
    } else {
      OthersLeavePhase(c, s, e, w);
      NotFinished(c, s, e, w, done);
    }
  }

  // ---------------------------------------------------------------- over a run

  ghost predicate Midway(c: Config, r: Run, from: nat, k: nat, w: WorkerId, calls: seq<Action>)
    requires |r.states| == |r.events| + 1 && k < |r.states|
  {
    BusyAt(r.states[k], w) && Partly(r.states[k].phase[w], Finished(c, r, from, k, w), calls)
  }

  lemma MidwayStep(c: Config, r: Run, from: nat, k: nat, w: WorkerId, calls: seq<Action>)
    requires IsRun(c, r) && from <= k < |r.events| && r.events[k] != Loop(w, Decide) && Midway(c, r, from, k, w, calls)
    ensures Midway(c, r, from, k + 1, w, calls)
  {
    RunStep(c, r, k);
    EngineHistory.RunAsking(c, r, k);
    AnyStep(c, r.states[k], r.events[k], w, Finished(c, r, from, k, w), calls);
  }

  lemma MidwayStarts(c: Config, r: Run, i: nat, w: WorkerId, calls: seq<Action>)
    requires IsRun(c, r) && i < |r.events| && r.events[i] == Loop(w, Respond(calls)) && |calls| > 0
    ensures Midway(c, r, i + 1, i + 1, w, calls)
  {
    RunStep(c, r, i);
    assert r.states[i + 1].phase[w] == Acting(calls, NO_CHANGE);
    assert Calls([]) + calls == calls;
  }

  lemma MidwayLater(c: Config, r: Run, i: nat, m: nat, w: WorkerId, calls: seq<Action>)
    requires IsRun(c, r) && i < m < |r.states| && r.events[i] == Loop(w, Respond(calls)) && |calls| > 0
    requires forall p | i < p < m :: r.events[p] != Loop(w, Decide)
    ensures Midway(c, r, i + 1, m, w, calls)
  {
    MidwayStarts(c, r, i, w, calls);
    var k := i + 1;
    while k < m
      invariant i < k <= m && Midway(c, r, i + 1, k, w, calls)
    {
      MidwayStep(c, r, i + 1, k, w, calls);
      k := k + 1;
    }
  }

  /** Between a response with calls and the next decision of its worker, in any run, exactly the calls of the response
      are finished, each once and in their order, each by an event that fits it; none is left, and the decision is the
      one the agent loop takes on the same calls. */
  lemma CallsAnswered(c: Config, r: Run, i: nat, m: nat, w: WorkerId, calls: seq<Action>)
    requires IsRun(c, r) && i < m < |r.events|
    requires r.events[i] == Loop(w, Respond(calls)) && |calls| > 0 && r.events[m] == Loop(w, Decide)
    requires forall p | i < p < m :: r.events[p] != Loop(w, Decide)
    ensures var done := Finished(c, r, i + 1, m, w);
            && |done| == |calls|
            && forall j | 0 <= j < |calls| :: done[j].call == calls[j] && Fits(calls[j], done[j].event)
    ensures BusyAt(r.states[m], w) && r.states[m].phase[w] == Acting([], AgentLoop.ChangeOf(calls))
    ensures r.states[m + 1] == Decided(r.states[m], w, VerdictOf(AgentLoop.ChangeOf(calls)))
  {
    MidwayLater(c, r, i, m, w, calls);
    RunStep(c, r, m);
    var done := Finished(c, r, i + 1, m, w);
    assert Calls(done) == calls by { assert Calls(done) + [] == calls; }
  }

  lemma DecidedReads(s: State, w: WorkerId, v: Verdict)
    requires BusyAt(s, w)
    ensures var t := Decided(s, w, v);
            && w in t.phase
            && (v == KeepListening ==> t.phase[w] == Listening(false) && t.registry == s.registry)
            && (v == Unregister ==> t.phase[w] == Leaving && t.registry == s.registry - {s.worker[w].agent})
            && (v == Leave ==> t.phase[w] == Leaving && t.registry == s.registry)
  {
  }

  /** The decision, read off the last SET_STATE of the response: BLOCKING listens again, COMPLETED and FAILED leave and
      unregister, any other state leaves and does not unregister. */
  lemma DecisionReads(c: Config, r: Run, i: nat, m: nat, w: WorkerId, calls: seq<Action>, j: nat)
    requires IsRun(c, r) && i < m < |r.events|
    requires r.events[i] == Loop(w, Respond(calls)) && r.events[m] == Loop(w, Decide)
    requires forall p | i < p < m :: r.events[p] != Loop(w, Decide)
    requires j < |calls| && calls[j].SetState? && forall k | j < k < |calls| :: !calls[k].SetState?
    ensures var s, t := r.states[m], r.states[m + 1];
            && BusyAt(s, w) && w in t.phase
            && (calls[j].state == Blocking ==> t.phase[w] == Listening(false) && t.registry == s.registry)
            && (calls[j].state == Completed || calls[j].state == Failed ==>
                  t.phase[w] == Leaving && t.registry == s.registry - {s.worker[w].agent})
            && (calls[j].state.Unknown? ==> t.phase[w] == Leaving && t.registry == s.registry)
  {
    CallsAnswered(c, r, i, m, w, calls);
    DecidedReads(r.states[m], w, VerdictOf(AgentLoop.ChangeOf(calls)));
    ChangeIs(calls, j);
  }

  lemma ChangeIs(calls: seq<Action>, j: nat)
    requires j < |calls| && calls[j].SetState? && forall k | j < k < |calls| :: !calls[k].SetState?
    ensures AgentLoop.ChangeOf(calls) == calls[j].state
  {
    assert AgentLoop.Last(calls, AgentLoop.SetsState) == j;
  }

  lemma NoChange(calls: seq<Action>)
    requires forall k | 0 <= k < |calls| :: !calls[k].SetState?
    ensures VerdictOf(AgentLoop.ChangeOf(calls)) == Leave
  {
    assert AgentLoop.Last(calls, AgentLoop.SetsState) < 0;
  }

  /** A response whose calls set no state leaves and does not unregister. */
  lemma NoStateLeaves(c: Config, r: Run, i: nat, m: nat, w: WorkerId, calls: seq<Action>)
    requires IsRun(c, r) && i < m < |r.events|
    requires r.events[i] == Loop(w, Respond(calls)) && |calls| > 0 && r.events[m] == Loop(w, Decide)
    requires forall p | i < p < m :: r.events[p] != Loop(w, Decide)
    requires forall k | 0 <= k < |calls| :: !calls[k].SetState?
    ensures var s, t := r.states[m], r.states[m + 1]; w in t.phase && t.phase[w] == Leaving && t.registry == s.registry
  {
    CallsAnswered(c, r, i, m, w, calls);
    DecidedReads(r.states[m], w, VerdictOf(AgentLoop.ChangeOf(calls)));
    NoChange(calls);
  }
}
