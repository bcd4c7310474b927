/** The priority queue of task objects (internal/services/task/task_queue.go:18-114). The slice is a window
    [start, start + count) of a backing array: enqueue appends and sorts the window in place, removal shifts the tail
    of the window down in place, and only the fallback of Dequeue moves its start. */
module TaskQueue {
  import opened Prelude
  import opened Tasks
  import opened Instances

  ghost function Views(s: seq<TaskInstance>): (v: seq<Task>)
    reads s
    ensures |v| == |s| && forall k | 0 <= k < |s| :: v[k] == s[k].View()
  {
    seq(|s|, k requires 0 <= k < |s| reads s => s[k].View())
  }

  lemma NotBeforeTransitive(a: Task, b: Task, c: Task)
    requires !Before(a, b) && !Before(b, c)
    ensures !Before(a, c)
  {
  }

  function Swapped<T>(s: seq<T>, j: int): (r: seq<T>)
    requires 0 < j < |s|
    ensures |r| == |s|
  {
    s[j - 1 := s[j]][j := s[j - 1]]
  }

  /** The elements up to `i` are in order, except that the one at `j` may belong further up. */
  ghost predicate Sifted(v: seq<Task>, i: nat, j: nat) {
    j <= i < |v| && forall p, q | 0 <= p < q <= i && q != j :: !Before(v[q], v[p])
  }

  lemma SiftStarts(v: seq<Task>, i: nat)
    requires i < |v| && Ordered(v[..i])
    ensures Sifted(v, i, i)
  {
    forall p, q | 0 <= p < q <= i && q != i ensures !Before(v[q], v[p]) {
      assert v[..i][q] == v[q] && v[..i][p] == v[p];
    }
  }

  lemma SiftSteps(v: seq<Task>, i: nat, j: nat)
    requires Sifted(v, i, j) && j > 0 && Before(v[j], v[j - 1])
    ensures Sifted(Swapped(v, j), i, j - 1)
  {
  }

  lemma SiftEnds(v: seq<Task>, i: nat, j: nat)
    requires Sifted(v, i, j) && (j == 0 || !Before(v[j], v[j - 1]))
    ensures Ordered(v[..i + 1])
  {
    forall p | 0 <= p < j ensures !Before(v[j], v[p]) {
      if p < j - 1 {
        NotBeforeTransitive(v[j], v[j - 1], v[p]);
      }
    }
  }

  lemma SwapKeepsMultiset<T>(s: seq<T>, j: int)
    requires 0 < j < |s|
    ensures multiset(Swapped(s, j)) == multiset(s)
  {
  }

  /** The pick, read off the tasks: the first of the wanted type, or the head when there is none. */
  lemma PickReads(items: seq<TaskInstance>, want: AgentType)
    requires |items| > 0
    ensures var p := Pick(Views(items), want);
            && p < |items|
            && ((exists t :: t in items && (want == Any || t.agentType == want)) ==>
                  && (want == Any || items[p].agentType == want)
                  && forall k | 0 <= k < p :: want != Any && items[k].agentType != want)
            && (!(exists t :: t in items && (want == Any || t.agentType == want)) ==> p == 0)
  {
    var i := Choice(Views(items), want, 0);
    forall k | 0 <= k < |items| ensures Serves(Views(items)[k], want) <==> want == Any || items[k].agentType == want {}
    if i < |items| {
      assert items[i] in items;
    } else {
      forall t | t in items ensures want != Any && t.agentType != want {
        var k :| 0 <= k < |items| && items[k] == t;
        assert !Serves(Views(items)[k], want);
      }
    }
  }

  class PriorityQueue {
    const maxSize: int
    var data: array<TaskInstance>
    var start: nat
    var count: nat

    constructor (maxSize: int)
      ensures Valid() && Items() == [] && this.maxSize == maxSize && fresh(data)
    {
      this.maxSize := maxSize;
      data := new TaskInstance[0];
      start, count := 0, 0;
    }

    ghost predicate Window()
      reads this
    {
      start + count <= data.Length
    }

    ghost function Items(): seq<TaskInstance>
      requires Window()
      reads this, data
    {
      data[start..start + count]
    }

    /** In order, and never over its size. */
    ghost predicate Valid()
      reads this, data, data[..]
    {
      Window() && (count <= maxSize || count == 0) && Ordered(Views(Items()))
    }

    method Swap(j: nat)
      requires Window() && 0 < j < count
      modifies data
      ensures Items() == Swapped(old(Items()), j)
      ensures multiset(Items()) == multiset(old(Items()))
      ensures Views(Items()) == Swapped(old(Views(Items())), j)
    {
      ghost var before := Items();
      data[start + j - 1], data[start + j] := data[start + j], data[start + j - 1];
      assert Items() == Swapped(before, j);
      SwapKeepsMultiset(before, j);
    }

    /** Moves the element at `i` down to its place in the ordered prefix before it. */
    method SiftDown(i: nat)
      requires Window() && i < count
      requires Ordered(Views(Items())[..i])
      modifies data
      ensures multiset(Items()) == multiset(old(Items()))
      ensures Ordered(Views(Items())[..i + 1])
    {
      var j := i;
      SiftStarts(Views(Items()), i);
      while j > 0 && Before(data[start + j].View(), data[start + j - 1].View())
        invariant multiset(Items()) == multiset(old(Items()))
        invariant Sifted(Views(Items()), i, j)
      {
        SiftSteps(Views(Items()), i, j);
        Swap(j);
        j := j - 1;
      }
      SiftEnds(Views(Items()), i, j);
    }

    /** Any sort will do: only the order and the elements are promised. */
    method SortDesc()
      requires Window()
      modifies data
      ensures multiset(Items()) == multiset(old(Items()))
      ensures Ordered(Views(Items()))
    {
      var i := 0;
      while i < count
        invariant 0 <= i <= count
        invariant multiset(Items()) == multiset(old(Items()))
        invariant Ordered(Views(Items())[..i])
      {
        SiftDown(i);
        i := i + 1;
      }
      assert Views(Items())[..count] == Views(Items());
    }

    /** append: in place when the backing array has room behind the window, else into a new array. */
    method Append(task: TaskInstance)
      requires Window()
      modifies this, data
      ensures Window() && Items() == old(Items()) + [task] && count == old(count) + 1
      ensures data == old(data) || fresh(data)
    {
      ghost var before := Items();
      if start + count < data.Length {
        data[start + count] := task;
        assert data[start..start + count] == before;
      } else {
        var bigger := new TaskInstance[2 * count + 1](_ => task);
        forall k | 0 <= k < count {
          bigger[k] := data[start + k];
        }
        data, start := bigger, 0;
        assert data[start..start + count] == before;
      }
      count := count + 1;
      assert Items() == before + [task];
    }

    /** The order told by the tasks' own fields. */
    lemma FallingScores()
      requires Window() && Ordered(Views(Items()))
      ensures forall j, k | 0 <= j < k < count ::
                var s, t := Items()[j], Items()[k];
                s.priorityScore > t.priorityScore || (s.priorityScore == t.priorityScore && s.created <= t.created)
    {
      forall j, k | 0 <= j < k < count
        ensures var s, t := Items()[j], Items()[k];
                s.priorityScore > t.priorityScore || (s.priorityScore == t.priorityScore && s.created <= t.created)
      {
        assert !Before(Views(Items())[k], Views(Items())[j]);
      }
    }

    /** A full queue refuses the task and changes nothing; otherwise the task is scored now and sorted in. */
    method Enqueue(task: TaskInstance, now: int) returns (ok: bool)
      requires Valid()
      modifies this, data, task`priorityScore
      ensures Valid() && (data == old(data) || fresh(data))
      ensures ok <==> old(count) < maxSize
      ensures !ok ==> Items() == old(Items()) && task.priorityScore == old(task.priorityScore)
      ensures ok ==> multiset(Items()) == multiset(old(Items())) + multiset{task}
                     && task.priorityScore == Score(task.priority, task.created, now)
      ensures forall j, k | 0 <= j < k < count ::
                var s, t := Items()[j], Items()[k];
                s.priorityScore > t.priorityScore || (s.priorityScore == t.priorityScore && s.created <= t.created)
    {
      FallingScores();
      if count >= maxSize {
        return false;
      }
      task.priorityScore := Score(task.priority, task.created, now);
      Append(task);
      SortDesc();
      FallingScores();
      return true;
    }

    /** Shifts the tail of the window down over position `i`. */
    method ShiftOut(i: nat)
      requires Valid() && i < count
      modifies this, data
      ensures Valid() && Items() == Without(old(Items()), i) && data == old(data)
    {
      ghost var before := Items();
      forall k | start + i <= k < start + count - 1 {
        data[k] := data[k + 1];
      }
      count := count - 1;
      assert Items() == Without(before, i);
      OrderedWithoutViews(before, i);
    }

    /** Moves the start of the window past its head. */
    method DropHead()
      requires Valid() && count > 0
      modifies this`start, this`count
      ensures Valid() && Items() == Without(old(Items()), 0)
    {
      ghost var before := Items();
      start, count := start + 1, count - 1;
      assert Items() == Without(before, 0);
      OrderedWithoutViews(before, 0);
    }

    /** The scan of Dequeue: the first position that serves `want`, or `count`. */
    method FindServing(want: AgentType) returns (i: nat)
      requires Window()
      ensures i == Choice(Views(Items()), want, 0)
    {
      i := 0;
      while i < count
        invariant 0 <= i <= count
        invariant Choice(Views(Items()), want, 0) == Choice(Views(Items()), want, i)
      {
        if Serves(data[start + i].View(), want) {
          return;
        }
        i := i + 1;
      }
    }

    /** Serves the best task of the wanted type, or the best of all; the others keep their order. */
    method Dequeue(want: AgentType) returns (r: Option<TaskInstance>)
      requires Valid()
      modifies this, data
      ensures Valid() && data == old(data)
      ensures r == None <==> |old(Items())| == 0
      ensures r == None ==> Items() == old(Items())
      ensures r.Some? ==>
                var p := Pick(old(Views(Items())), want);
                r.value == old(Items())[p] && Items() == Without(old(Items()), p)
    {
      var i := FindServing(want);
      ghost var items := Items();
      assert count > 0 ==> Pick(Views(items), want) == if i < count then i else 0;
      if i < count {
        r := Some(data[start + i]);
        assert r.value == items[i];
        ShiftOut(i);
      } else if count > 0 {
        r := Some(data[start]);
        assert r.value == items[0];
        DropHead();
      } else {
        r := None;
      }
    }

    /** Removes the first task with the given identifier, if there is one. */
    method Remove(id: InstanceId) returns (found: bool)
      requires Valid()
      modifies this, data
      ensures Valid() && data == old(data)
      ensures found <==> exists k :: 0 <= k < |old(Items())| && old(Items())[k].id == id
      ensures !found ==> Items() == old(Items())
      ensures found ==> exists p ::
                && 0 <= p < |old(Items())| && old(Items())[p].id == id && Items() == Without(old(Items()), p)
                && forall k | 0 <= k < p :: old(Items())[k].id != id
    {
      ghost var before := Items();
      var i := 0;
      while i < count
        invariant 0 <= i <= count && Window() && Items() == before
        invariant unchanged(this) && unchanged(data)
        invariant forall k | 0 <= k < i :: before[k].id != id
      {
        if data[start + i].id == id {
          assert before[i].id == id;
          ShiftOut(i);
          return true;
        }
        i := i + 1;
      }
      return false;
    }

    /** A copy in a fresh array: no later operation of the queue can change it. */
    method GetAll() returns (copy: array<TaskInstance>)
      requires Valid()
      ensures fresh(copy) && copy[..] == Items()
    {
      if count == 0 {
        copy := new TaskInstance[0];
      } else {
        copy := new TaskInstance[count](k requires 0 <= k < count && Window() reads this, data => data[start + k]);
      }
    }
  }

  lemma OrderedWithoutViews(s: seq<TaskInstance>, i: nat)
    requires i < |s| && Ordered(Views(s))
    ensures Ordered(Views(Without(s, i)))
  {
    OrderedWithout(Views(s), i);
    assert Views(Without(s, i)) == Without(Views(s), i);
  }

  /** A call on the queue. */
  datatype QueueCall = Enqueuing(task: TaskInstance, now: int) | Dequeuing(want: AgentType) | Removing(id: InstanceId)

  /** A copy taken before any sequence of calls survives them: the queue writes only itself and its backing array. */
  method CopiesSurvive(q: PriorityQueue, calls: seq<QueueCall>) returns (copy: array<TaskInstance>)
    requires q.Valid()
    modifies q, q.data, (set c | c in calls && c.Enqueuing? :: c.task)`priorityScore
    ensures q.Valid() && fresh(copy) && copy[..] == old(q.Items())
  {
    copy := q.GetAll();
    ghost var items := q.Items();
    var k := 0;
    while k < |calls|
      invariant 0 <= k <= |calls| && q.Valid()
      invariant fresh(copy) && copy != q.data && (q.data == old(q.data) || fresh(q.data))
      invariant copy[..] == items
    {
      match calls[k] {
        case Enqueuing(task, now) =>
          assert task in set c | c in calls && c.Enqueuing? :: c.task by { assert calls[k] in calls; }
          var ok := q.Enqueue(task, now);
        case Dequeuing(want) => var served := q.Dequeue(want);
        case Removing(id) => var found := q.Remove(id);
      }
      k := k + 1;
    }
  }
}
