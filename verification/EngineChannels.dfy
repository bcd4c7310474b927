/** The two channels of the queue loop over a run (internal/services/task/task_queue.go:148-195): first in, first out,
    and nothing is lost or doubled on the way. */
module EngineChannels {
  import opened Prelude
  import opened Engine
  import opened EngineRuns

  /** The task that event `e` sends to the queue loop: a new root, a task given back, or a new child. */
  function SentOf(c: Config, s: State, e: Event): seq<InstanceId> {
    match e
    case Daemon(SendRoot(i)) => [i]
    case Pool(w, GiveBack) => if PoolEnabled(c, s, w, GiveBack) then [s.worker[w].task] else []
    case Call(w, SendChild) => if CallEnabled(s, w, SendChild) then [s.phase[w].child] else []
    case _ => []
  }

  /** The task that the queue loop takes in event `e`, to queue it or to drop it. */
  function TakenOf(s: State, e: Event): seq<InstanceId> {
    if e.Daemon? && (e.d.Accept? || e.d.Refuse?) && |s.enqueueCh| > 0 then [s.enqueueCh[0]] else []
  }

  function AskerOf(e: Event): seq<WorkerId> {
    if e.Pool? && e.p.Ask? then [e.w] else []
  }

  function AnsweredOf(s: State, e: Event): seq<WorkerId> {
    if e.Daemon? && e.d.Answer? && |s.dequeueCh| > 0 then [s.dequeueCh[0]] else []
  }

  ghost predicate Flows(c: Config, s: State, e: Event, t: State) {
    && s.enqueueCh + SentOf(c, s, e) == TakenOf(s, e) + t.enqueueCh
    && s.dequeueCh + AskerOf(e) == AnsweredOf(s, e) + t.dequeueCh
  }

  lemma StillFlows(c: Config, s: State, e: Event, t: State)
    requires t.enqueueCh == s.enqueueCh && t.dequeueCh == s.dequeueCh
    requires SentOf(c, s, e) == [] && TakenOf(s, e) == [] && AskerOf(e) == [] && AnsweredOf(s, e) == []
    ensures Flows(c, s, e, t)
  {
  }

  lemma DaemonFlows(c: Config, s: State, d: DaemonEvent)
    requires DaemonEnabled(c, s, d)
    ensures Flows(c, s, Daemon(d), DaemonStep(c, s, d))
  {
    var t := DaemonStep(c, s, d);
    match d
    case SendRoot(i) =>
      assert t.enqueueCh == s.enqueueCh + [i] && t.dequeueCh == s.dequeueCh;
    case Accept(_, _) =>
      assert t.enqueueCh == s.enqueueCh[1..] && t.dequeueCh == s.dequeueCh;
    case Refuse =>
      assert t.enqueueCh == s.enqueueCh[1..] && t.dequeueCh == s.dequeueCh;
    case Answer =>
      assert t.enqueueCh == s.enqueueCh && t.dequeueCh == s.dequeueCh[1..] by { AnswerTakesHead(s); }
    case _ =>
      assert t.enqueueCh == s.enqueueCh && t.dequeueCh == s.dequeueCh;
      StillFlows(c, s, Daemon(d), t);
  }

  lemma AnswerTakesHead(s: State)
    requires |s.dequeueCh| > 0
    ensures AnswerRequest(s).enqueueCh == s.enqueueCh && AnswerRequest(s).dequeueCh == s.dequeueCh[1..]
  {
  }

  lemma PoolFlows(c: Config, s: State, w: WorkerId, p: PoolEvent)
    requires PoolEnabled(c, s, w, p)
    ensures Flows(c, s, Pool(w, p), PoolStep(c, s, w, p))
  {
    var t := PoolStep(c, s, w, p);
    match p
    case Ask =>
      assert t.enqueueCh == s.enqueueCh && t.dequeueCh == s.dequeueCh + [w];
    case GiveBack =>
      assert t.enqueueCh == s.enqueueCh + [s.worker[w].task] && t.dequeueCh == s.dequeueCh;
    case _ =>
      assert t.enqueueCh == s.enqueueCh && t.dequeueCh == s.dequeueCh;
      StillFlows(c, s, Pool(w, p), t);
  }

  lemma CallFlows(c: Config, s: State, w: WorkerId, x: CallEvent)
    requires CallEnabled(s, w, x)
    ensures Flows(c, s, Call(w, x), CallStep(c, s, w, x))
  {
    var t := CallStep(c, s, w, x);
    if x.SendChild? {
      assert t.enqueueCh == s.enqueueCh + [s.phase[w].child] && t.dequeueCh == s.dequeueCh;
    } else {
      assert t.enqueueCh == s.enqueueCh && t.dequeueCh == s.dequeueCh;
      StillFlows(c, s, Call(w, x), t);
    }
  }

  lemma StepFlows(c: Config, s: State, e: Event)
    requires Enabled(c, s, e)
    ensures Flows(c, s, e, Apply(c, s, e))
  {
    match e
    case Daemon(d) => DaemonFlows(c, s, d);
    case Pool(w, p) => PoolFlows(c, s, w, p);
    case Setup(w, u) =>
      SetupFrame(s, w, u);
      StillFlows(c, s, e, Apply(c, s, e));
    case Loop(w, l) =>
      LoopFrame(s, w, l);
      StillFlows(c, s, e, Apply(c, s, e));
    case Call(w, x) => CallFlows(c, s, w, x);
  }

  /** Everything sent to the queue loop before moment `k`, in order, and everything it has taken. */
  function Sent(c: Config, r: Run, k: nat): seq<InstanceId>
    requires |r.states| == |r.events| + 1 && k < |r.states|
  {
    if k == 0 then [] else Sent(c, r, k - 1) + SentOf(c, r.states[k - 1], r.events[k - 1])
  }

  function Taken(r: Run, k: nat): seq<InstanceId>
    requires |r.states| == |r.events| + 1 && k < |r.states|
  {
    if k == 0 then [] else Taken(r, k - 1) + TakenOf(r.states[k - 1], r.events[k - 1])
  }

  /** The same for requests and replies. */
  function Askers(r: Run, k: nat): seq<WorkerId>
    requires |r.states| == |r.events| + 1 && k < |r.states|
  {
    if k == 0 then [] else Askers(r, k - 1) + AskerOf(r.events[k - 1])
  }

  function Answered(r: Run, k: nat): seq<WorkerId>
    requires |r.states| == |r.events| + 1 && k < |r.states|
  {
    if k == 0 then [] else Answered(r, k - 1) + AnsweredOf(r.states[k - 1], r.events[k - 1])
  }

  lemma RunFlows(c: Config, r: Run, k: nat)
    requires IsRun(c, r) && k < |r.events|
    ensures Flows(c, r.states[k], r.events[k], r.states[k + 1])
  {
    RunStep(c, r, k);
    StepFlows(c, r.states[k], r.events[k]);
  }

  ghost predicate InOrder(c: Config, r: Run, k: nat)
    requires |r.states| == |r.events| + 1 && k < |r.states|
  {
    && Sent(c, r, k) == Taken(r, k) + r.states[k].enqueueCh
    && Askers(r, k) == Answered(r, k) + r.states[k].dequeueCh
  }

  lemma OrderStarts(c: Config, r: Run)
    requires IsRun(c, r)
    ensures InOrder(c, r, 0)
  {
    assert r.states[0] == Init(c);
  }

  lemma OrderStep(c: Config, r: Run, k: nat)
    requires IsRun(c, r) && k < |r.events| && InOrder(c, r, k)
    ensures InOrder(c, r, k + 1)
  {
    RunFlows(c, r, k);
    var s, e, t := r.states[k], r.events[k], r.states[k + 1];
    Rebalance(Sent(c, r, k), Taken(r, k), s.enqueueCh, t.enqueueCh, SentOf(c, s, e), TakenOf(s, e));
    Rebalance(Askers(r, k), Answered(r, k), s.dequeueCh, t.dequeueCh, AskerOf(e), AnsweredOf(s, e));
  }

  /** Over every run, what the queue loop has taken and what still waits in the channel is exactly what was sent to it,
      in the order of sending; and the workers answered and those still waiting are exactly those who asked, in the
      order in which they asked. */
  lemma ChannelsKeepOrder(c: Config, r: Run, k: nat)
    requires IsRun(c, r) && k < |r.states|
    ensures Sent(c, r, k) == Taken(r, k) + r.states[k].enqueueCh
    ensures Askers(r, k) == Answered(r, k) + r.states[k].dequeueCh
  {
    var good := iset m: nat | m < |r.states| && InOrder(c, r, m);
    OrderStarts(c, r);
    forall m: nat | m < k && m in good ensures m + 1 in good {
      OrderStep(c, r, m);
    }
    CountUp(good, k);
  }
}
