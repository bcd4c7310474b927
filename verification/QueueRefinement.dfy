/** The queue loop on the array-backed queue takes exactly the steps of the engine
    (internal/services/task/task_queue.go:159-177). */
module QueueRefinement {
  import opened Prelude
  import opened Tasks
  import opened Instances
  import opened TaskQueue
  import opened Engine
  import opened EngineRuns

  function Ids(s: seq<TaskInstance>): (r: seq<InstanceId>)
    ensures |r| == |s| && forall k | 0 <= k < |s| :: r[k] == s[k].id
  {
    seq(|s|, k requires 0 <= k < |s| => s[k].id)
  }

  lemma IdsWithout(s: seq<TaskInstance>, i: nat)
    requires i < |s|
    ensures multiset(Ids(s)) == multiset(Ids(Without(s, i))) + multiset{s[i].id}
  {
    assert Ids(Without(s, i)) == Ids(s[..i]) + Ids(s[i + 1..]);
    assert Ids(s) == Ids(s[..i]) + [s[i].id] + Ids(s[i + 1..]);
  }

  lemma BagWithout<T>(s: seq<T>, i: nat)
    requires i < |s|
    ensures multiset(Without(s, i)) == multiset(s) - multiset{s[i]}
  {
    assert s == s[..i] + [s[i]] + s[i + 1..];
  }

  /** The identifiers of a bag of tasks are a bag of identifiers. */
  lemma {:induction false} IdsOfBag(a: seq<TaskInstance>, b: seq<TaskInstance>)
    requires multiset(a) == multiset(b)
    ensures multiset(Ids(a)) == multiset(Ids(b))
    decreases |a|
  {
    SameSize(a, b);
    if |a| > 0 {
      assert a[0] in multiset(b);
      var j :| 0 <= j < |b| && b[j] == a[0];
      BagWithout(a, 0);
      BagWithout(b, j);
      IdsOfBag(Without(a, 0), Without(b, j));
      IdsWithout(a, 0);
      IdsWithout(b, j);
    }
  }

  /** State `s` has the queue in front of us, task by task. */
  ghost predicate Mirrors(s: State, items: seq<TaskInstance>)
    reads items
  {
    && s.queue == Ids(items)
    && forall k | 0 <= k < |items| :: items[k].id in s.heap && s.heap[items[k].id] == items[k].View()
  }

  /** A task in the channel is not in the queue. */
  lemma ChannelIsNotQueue(c: Config, s: State)
    requires Reachable(c, s) && |s.enqueueCh| > 0
    ensures s.enqueueCh[0] !in s.queue
  {
    ReachableTasks(c, s);
    assert s.enqueueCh[0] in s.enqueueCh;
  }

  /** The enqueue arm: the queue accepts when the engine may accept, and the result is the engine's next state; it
      refuses when the engine may only refuse. */
  method EnqueueArm(c: Config, ghost s: State, q: PriorityQueue, task: TaskInstance, now: int) returns (ok: bool)
    requires Reachable(c, s) && q.Valid() && q.maxSize == c.maxQueue && Mirrors(s, q.Items())
    requires |s.enqueueCh| > 0 && s.enqueueCh[0] == task.id && now >= task.created
    requires task.id in s.heap && s.heap[task.id] == task.View()
    modifies q, q.data, task`priorityScore
    ensures q.Valid()
    ensures ok ==> var d := Accept(now, Ids(q.Items()));
                   DaemonEnabled(c, s, d) && Mirrors(DaemonStep(c, s, d), q.Items())
    ensures !ok ==> DaemonEnabled(c, s, Refuse) && Mirrors(DaemonStep(c, s, Refuse), q.Items())
  {
    ghost var before := q.Items();
    ChannelIsNotQueue(c, s);
    forall k | 0 <= k < |before| ensures before[k].id != task.id {
      assert Ids(before)[k] in s.queue;
    }
    ghost var views := Views(before);
    ok := q.Enqueue(task, now);
    assert forall k | 0 <= k < |before| :: before[k].View() == views[k];
    if ok {
      Accepted(c, s, before, q.Items(), task, now);
    } else {
      Refused(c, s, before);
    }
  }

  lemma Refused(c: Config, s: State, items: seq<TaskInstance>)
    requires Mirrors(s, items) && |s.enqueueCh| > 0 && |items| >= c.maxQueue
    ensures DaemonEnabled(c, s, Refuse) && Mirrors(DaemonStep(c, s, Refuse), items)
  {
    assert RefuseTask(s).queue == s.queue && RefuseTask(s).heap == s.heap;
  }

  lemma Accepted(c: Config, s: State, before: seq<TaskInstance>, after: seq<TaskInstance>, task: TaskInstance, now: int)
    requires s.queue == Ids(before) && |before| < c.maxQueue && |s.enqueueCh| > 0 && s.enqueueCh[0] == task.id
    requires task.id in s.heap && s.heap[task.id].created == task.created && now >= task.created
    requires multiset(after) == multiset(before) + multiset{task} && Ordered(Views(after))
    requires task.View() == Rescored(s.heap[task.id], now)
    requires forall k | 0 <= k < |before| ::
               before[k].id != task.id && before[k].id in s.heap && s.heap[before[k].id] == before[k].View()
    ensures var d := Accept(now, Ids(after)); DaemonEnabled(c, s, d) && Mirrors(DaemonStep(c, s, d), after)
  {
    var heap := s.heap[task.id := Rescored(s.heap[task.id], now)];
    assert multiset(after) == multiset(before + [task]);
    IdsOfBag(after, before + [task]);
    assert Ids(before + [task]) == s.queue + [task.id];
    forall k | 0 <= k < |after| ensures after[k].id in s.heap && heap[after[k].id] == after[k].View() {
      assert after[k] in multiset(after);
      assert after[k] in multiset(before) || after[k] == task;
    }
    assert Engine.View(heap, Ids(after)) == Views(after);
  }

  /** The dequeue arm for a worker, which asks for any type: reply and queue are those of the engine's answer event. */
  method DequeueArm(ghost s: State, q: PriorityQueue) returns (r: Option<TaskInstance>)
    requires q.Valid() && Mirrors(s, q.Items()) && |s.dequeueCh| > 0
    modifies q, q.data
    ensures q.Valid() && Mirrors(AnswerRequest(s), q.Items())
    ensures AnswerRequest(s).worker
            == s.worker[s.dequeueCh[0] := Replied(if r.Some? then Some(r.value.id) else None)]
  {
    ghost var before := q.Items();
    AnsweredAsEngine(s, before);
    ghost var views := Views(before);
    r := DequeueHead(q);
    MirrorsRest(s, AnswerRequest(s), before, views, q.Items());
  }

  /** A dequeue for any type takes the head. */
  method DequeueHead(q: PriorityQueue) returns (r: Option<TaskInstance>)
    requires q.Valid()
    modifies q, q.data
    ensures q.Valid()
    ensures r == if |old(q.Items())| == 0 then None else Some(old(q.Items())[0])
    ensures q.Items() == if |old(q.Items())| == 0 then old(q.Items()) else old(q.Items())[1..]
  {
    PicksHead(q.Items());
    r := q.Dequeue(Any);
  }

  lemma MirrorsRest(s: State, t: State, before: seq<TaskInstance>, views: seq<Task>, after: seq<TaskInstance>)
    requires |views| == |before| && views == Views(before)
    requires forall k | 0 <= k < |before| :: before[k].id in s.heap && s.heap[before[k].id] == views[k]
    requires after == (if |before| == 0 then before else before[1..]) && t.heap == s.heap && t.queue == Ids(after)
    ensures Mirrors(t, after)
  {
  }

  lemma PicksHead(items: seq<TaskInstance>)
    ensures |items| > 0 ==> Pick(Views(items), Any) == 0 && Without(items, 0) == items[1..]
  {
  }

  lemma AnsweredAsEngine(s: State, before: seq<TaskInstance>)
    requires Mirrors(s, before) && |s.dequeueCh| > 0
    ensures var t := AnswerRequest(s);
            && t.heap == s.heap
            && t.queue == Ids(if |before| == 0 then before else before[1..])
            && t.worker == s.worker[s.dequeueCh[0] := Replied(if |before| == 0 then None else Some(before[0].id))]
  {
    if |before| > 0 {
      assert Ids(before[1..]) == Ids(before)[1..];
    }
  }
}
