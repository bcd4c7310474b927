/** Requests and replies over a run (internal/services/task/task_queue.go:159-195,
    internal/runtime/runtime.go:214-220). */
module EngineRequests {
  import opened Prelude
  import opened Engine
  import opened EngineInvariant
  import opened EngineRuns
  import EngineHistory

  function One(b: bool): nat {
    if b then 1 else 0
  }

  predicate IsWaiting(s: State, w: WorkerId) {
    w in s.worker && s.worker[w].Waiting?
  }

  predicate HasReply(s: State, w: WorkerId) {
    w in s.worker && s.worker[w].Replied?
  }

  /** Worker `w` calls Dequeue. */
  predicate IsAsk(e: Event, w: WorkerId) {
    e.Pool? && e.w == w && e.p.Ask?
  }

  /** The queue loop answers the request of worker `w`. */
  predicate IsAnswer(s: State, e: Event, w: WorkerId) {
    e.Daemon? && e.d.Answer? && |s.dequeueCh| > 0 && s.dequeueCh[0] == w
  }

  /** The Dequeue of worker `w` returns. */
  predicate IsReturn(e: Event, w: WorkerId) {
    e.Pool? && e.w == w && e.p.Receive?
  }

  ghost predicate Kept(s: State, e: Event, t: State, w: WorkerId) {
    && One(IsWaiting(s, w)) + One(IsAsk(e, w)) == One(IsAnswer(s, e, w)) + One(IsWaiting(t, w))
    && One(HasReply(s, w)) + One(IsAnswer(s, e, w)) == One(IsReturn(e, w)) + One(HasReply(t, w))
  }

  lemma SameWorkers(s: State, e: Event, t: State, w: WorkerId)
    requires t.worker == s.worker && !e.Pool? && !(e.Daemon? && e.d.Answer?)
    ensures Kept(s, e, t, w)
  {
  }

  lemma AnswerKept(c: Config, s: State, w: WorkerId)
    requires AskingIn(c, s) && |s.dequeueCh| > 0
    ensures Kept(s, Daemon(Answer), AnswerRequest(s), w)
  {
    assert s.dequeueCh[0] in s.dequeueCh;
    assert AnswerRequest(s).worker[s.dequeueCh[0]].Replied?;
  }

  lemma DaemonKept(c: Config, s: State, d: DaemonEvent, w: WorkerId)
    requires AskingIn(c, s) && DaemonEnabled(c, s, d)
    ensures Kept(s, Daemon(d), DaemonStep(c, s, d), w)
  {
    if d.Answer? {
      AnswerKept(c, s, w);
    } else {
      assert DaemonStep(c, s, d).worker == s.worker;
      SameWorkers(s, Daemon(d), DaemonStep(c, s, d), w);
    }
  }

  lemma PoolKept(c: Config, s: State, v: WorkerId, p: PoolEvent, w: WorkerId)
    requires PoolEnabled(c, s, v, p)
    ensures Kept(s, Pool(v, p), PoolStep(c, s, v, p), w)
  {
    var t := PoolStep(c, s, v, p);
    assert t.worker == s.worker[v := t.worker[v]];
  }

  lemma StepKept(c: Config, s: State, e: Event, w: WorkerId)
    requires AskingIn(c, s) && Enabled(c, s, e)
    ensures Kept(s, e, Apply(c, s, e), w)
  {
    match e
    case Daemon(d) => DaemonKept(c, s, d, w);
    case Pool(v, p) => PoolKept(c, s, v, p, w);
    case Setup(v, u) =>
      SetupKeepsWorkers(s, v, u);
      SameWorkers(s, e, Apply(c, s, e), w);
    case Loop(v, l) =>
      LoopKeepsWorkers(s, v, l);
      SameWorkers(s, e, Apply(c, s, e), w);
    case Call(v, t) =>
      CallKeepsWorkers(c, s, v, t);
      SameWorkers(s, e, Apply(c, s, e), w);
  }

  lemma SetupKeepsWorkers(s: State, w: WorkerId, u: SetupEvent)
    requires SetupEnabled(s, w, u)
    ensures SetupStep(s, w, u).worker == s.worker
  {
    SetupFrame(s, w, u);
  }

  lemma LoopKeepsWorkers(s: State, w: WorkerId, l: LoopEvent)
    requires LoopEnabled(s, w, l)
    ensures LoopStep(s, w, l).worker == s.worker
  {
    LoopFrame(s, w, l);
  }

  lemma CallKeepsWorkers(c: Config, s: State, w: WorkerId, t: CallEvent)
    requires CallEnabled(s, w, t)
    ensures CallStep(c, s, w, t).worker == s.worker
  {
  }

  /** How often worker `w` has called Dequeue before moment `k`, was answered, and got its call to return. */
  function Asks(r: Run, k: nat, w: WorkerId): nat
    requires |r.states| == |r.events| + 1 && k < |r.states|
  {
    if k == 0 then 0 else Asks(r, k - 1, w) + One(IsAsk(r.events[k - 1], w))
  }

  function Answers(r: Run, k: nat, w: WorkerId): nat
    requires |r.states| == |r.events| + 1 && k < |r.states|
  {
    if k == 0 then 0 else Answers(r, k - 1, w) + One(IsAnswer(r.states[k - 1], r.events[k - 1], w))
  }

  function Returns(r: Run, k: nat, w: WorkerId): nat
    requires |r.states| == |r.events| + 1 && k < |r.states|
  {
    if k == 0 then 0 else Returns(r, k - 1, w) + One(IsReturn(r.events[k - 1], w))
  }

  lemma RunStepKept(c: Config, r: Run, k: nat, w: WorkerId)
    requires IsRun(c, r) && k < |r.events|
    ensures Kept(r.states[k], r.events[k], r.states[k + 1], w)
  {
    EngineHistory.RunAsking(c, r, k);
    RunStep(c, r, k);
    StepKept(c, r.states[k], r.events[k], w);
  }

  /** The balance of a worker's calls at moment `k`. */
  ghost predicate Settled(r: Run, k: nat, w: WorkerId)
    requires |r.states| == |r.events| + 1 && k < |r.states|
  {
    && Asks(r, k, w) == Answers(r, k, w) + One(IsWaiting(r.states[k], w))
    && Answers(r, k, w) == Returns(r, k, w) + One(HasReply(r.states[k], w))
  }

  lemma SettledAtStart(c: Config, r: Run, w: WorkerId)
    requires IsRun(c, r)
    ensures Settled(r, 0, w)
  {
    assert r.states[0].worker == Init(c).worker;
  }

  lemma SettledStep(c: Config, r: Run, k: nat, w: WorkerId)
    requires IsRun(c, r) && k < |r.events| && Settled(r, k, w)
    ensures Settled(r, k + 1, w)
  {
    RunStepKept(c, r, k, w);
  }

  /** Over every run each Dequeue call gets exactly one reply, to its own request, and returns with it: a worker has
      been answered as often as it has asked, but for the call it is waiting in, and has returned as often as it has
      been answered, but for the reply it is about to take. */
  lemma RepliesMatchRequests(c: Config, r: Run, k: nat, w: WorkerId)
    requires IsRun(c, r) && k < |r.states|
    ensures Asks(r, k, w) == Answers(r, k, w) + One(IsWaiting(r.states[k], w))
    ensures Answers(r, k, w) == Returns(r, k, w) + One(HasReply(r.states[k], w))
  {
    SettledAtStart(c, r, w);
    var m := 0;
    while m < k
      invariant m <= k && Settled(r, m, w)
    {
      SettledStep(c, r, m, w);
      m := m + 1;
    }
  }
}
