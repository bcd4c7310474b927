/** The creation of tasks (internal/services/task/task_queue.go:281-448): rows, families and the enqueue channel. Fresh
    identifiers, the clock and the failures of the store are parameters. */
module TaskService {
  import opened Prelude
  import opened Tasks
  import opened Instances
  import opened FamilyDepth

  datatype CreateError = NotInserted | TooDeep | FamilyUnread | FamilyMissing | FamilyNotInserted

  /** Which store calls of one request fail. */
  datatype Faults = Faults(family: bool, insert: bool, read: bool, reread: bool, update: bool)

  datatype Outcome = Outcome(inserted: bool, sent: bool, answer: Result<(), CreateError>)

  /** CreateTask: a task is inserted before its depth is checked, and sent before its family is looked up, so an error
      does not mean that nothing happened. */
  function OutcomeOf(taken: bool, tooDeep: bool, known: bool, f: Faults): (r: Outcome)
    ensures r.answer.Ok? ==> r.inserted && r.sent
    ensures r.sent ==> r.inserted
    ensures r.answer.Err? && r.sent <==> r.answer == Err(FamilyUnread) || r.answer == Err(FamilyMissing)
    ensures r.inserted && !r.sent <==> r.answer == Err(TooDeep)
  {
    if f.insert || taken then Outcome(false, false, Err(NotInserted))
    else if tooDeep then Outcome(true, false, Err(TooDeep))
    else if f.read then Outcome(true, true, Err(FamilyUnread))
    else if !known then Outcome(true, true, Err(FamilyMissing))
    else Outcome(true, true, Ok(()))
  }

  function Deeper(deepest: nat, depth: nat): nat {
    if depth > deepest then depth else deepest
  }

  /** The steps of FamilyDepth that one SpawnSubTask takes when nobody interrupts it: an insert, then a look and a write
      unless something fails. */
  function SpawnSteps(depth: nat, created: bool, f: Faults): seq<FamilyEvent> {
    if !created || f.reread then [Insert(0, depth), Fail(0)]
    else [Insert(0, depth), Look(0), if f.update then Fail(0) else Write(0)]
  }

  /** They are a run of FamilyDepth, whatever the deepest task was, and take the record from `before` to `after`. */
  ghost predicate SpawnIsRun(limit: int, before: nat, after: nat, depth: nat, created: bool, f: Faults) {
    forall deepest: nat | depth <= deepest + 1 ::
      FamilyRun(limit, Family(before, deepest, map[]), SpawnSteps(depth, created, f),
                Family(after, Deeper(deepest, depth), map[]))
  }

  lemma SpawnRuns(limit: int, recorded: nat, depth: nat, created: bool, f: Faults)
    requires 0 < depth <= limit
    ensures var after := if created && !f.reread && !f.update && depth > recorded then depth else recorded;
            SpawnIsRun(limit, recorded, after, depth, created, f)
  {
    forall deepest: nat | depth <= deepest + 1
      ensures var after := if created && !f.reread && !f.update && depth > recorded then depth else recorded;
              FamilyRun(limit, Family(recorded, deepest, map[]), SpawnSteps(depth, created, f),
                        Family(after, Deeper(deepest, depth), map[]))
    {
      SpawnRun(limit, recorded, deepest, depth, created, f);
    }
  }

  lemma SpawnRun(limit: int, recorded: nat, deepest: nat, depth: nat, created: bool, f: Faults)
    requires 0 < depth <= deepest + 1 && depth <= limit
    ensures var after := if created && !f.reread && !f.update && depth > recorded then depth else recorded;
            FamilyRun(limit, Family(recorded, deepest, map[]), SpawnSteps(depth, created, f),
                      Family(after, Deeper(deepest, depth), map[]))
  {
    var es := SpawnSteps(depth, created, f);
    var f1 := Done(limit, Family(recorded, deepest, map[]), es[0]);
    var f2 := Done(limit, f1, es[1]);
    if |es| == 2 {
      assert f2.active == map[];
      assert FamilyRun(limit, f2, es[2..], f2);
      assert FamilyRun(limit, f1, es[1..], f2) by { assert es[1..][1..] == es[2..]; }
    } else {
      var f3 := Done(limit, f2, es[2]);
      assert f3.active == map[];
      assert FamilyRun(limit, f3, es[3..], f3);
      assert FamilyRun(limit, f2, es[2..], f3) by { assert es[2..][1..] == es[3..]; }
      assert FamilyRun(limit, f1, es[1..], f3) by { assert es[1..][1..] == es[2..]; }
    }
  }

  /** What a spawn puts into a new task; its score is that of a task created this moment. */
  predicate IsNew(t: TaskInstance, description: string, agentType: AgentType, priority: Priority, now: int)
    reads t
  {
    && t.description == description && t.agentType == agentType && t.priority == priority && t.created == now
    && t.status == Pending && t.result == None && t.error == None && t.priorityScore == Score(priority, now, now)
  }

  class TaskService {
    const maxDepth: int
    /** Primary keys: the objects behind the rows of task_instances, and MaxDepthReached of each family. */
    var rows: map<InstanceId, TaskInstance>
    var families: map<FamilyId, nat>
    var channel: seq<TaskInstance>

    constructor (maxDepth: int)
      ensures this.maxDepth == maxDepth && rows == map[] && families == map[] && channel == []
    {
      this.maxDepth := maxDepth;
      rows, families, channel := map[], map[], [];
    }

    /** What CreateTask of `task` at `depth` comes to. */
    function Expected(id: InstanceId, family: FamilyId, depth: int, f: Faults): Outcome
      reads this
    {
      OutcomeOf(id in rows, depth > maxDepth, family in families, f)
    }

    method CreateTask(task: TaskInstance, depth: int, now: int, f: Faults) returns (r: Result<(), CreateError>)
      modifies this`rows, this`channel, task`priorityScore
      ensures var o := old(Expected(task.id, task.family, depth, f));
              && r == o.answer
              && rows == (if o.inserted then old(rows)[task.id := task] else old(rows))
              && channel == (if o.sent then old(channel) + [task] else old(channel))
      ensures r == Err(NotInserted) <==> f.insert || task.id in old(rows)
      ensures r == Err(TooDeep) <==> !f.insert && task.id !in old(rows) && depth > maxDepth
      ensures r == Err(NotInserted) ==> rows == old(rows) && channel == old(channel)
      ensures r == Err(TooDeep) ==> rows == old(rows)[task.id := task] && channel == old(channel)
      ensures !f.insert && task.id !in old(rows) && depth <= maxDepth ==>
                && rows == old(rows)[task.id := task] && channel == old(channel) + [task]
                && (r.Ok? <==> !f.read && task.family in families)
                && (r == Err(FamilyUnread) <==> f.read)
                && (r == Err(FamilyMissing) <==> !f.read && task.family !in families)
      ensures task.priorityScore == if old(task.priorityScore) == 0.0 then Score(task.priority, task.created, now)
                                    else old(task.priorityScore)
    {
      if task.priorityScore == 0.0 {
        task.priorityScore := Score(task.priority, task.created, now);
      }
      if f.insert || task.id in rows {
        return Err(NotInserted);
      }
      rows := rows[task.id := task];
      if depth > maxDepth {
        return Err(TooDeep);
      }
      channel := channel + [task];
      if f.read {
        return Err(FamilyUnread);
      }
      if task.family !in families {
        return Err(FamilyMissing);
      }
      return Ok(());
    }

    /** A child one level below `depth`. A level beyond the limit changes nothing; otherwise the child is created like
        any task, and the depth of its family rises to its level if nothing fails. */
    method SpawnSubTask(parent: TaskInstance, id: InstanceId, description: string, agentType: AgentType,
                        priority: Priority, depth: nat, now: int, f: Faults)
        returns (r: Result<TaskInstance, CreateError>)
      modifies this`rows, this`channel, this`families
      ensures depth + 1 > maxDepth ==>
                r == Err(TooDeep) && rows == old(rows) && channel == old(channel) && families == old(families)
      ensures depth + 1 <= maxDepth ==>
                var o := old(Expected(id, parent.family, depth + 1, f));
                && (r.Ok? <==> o.answer.Ok?) && (r.Err? ==> o.answer == Err(r.error))
                && (!o.inserted ==> rows == old(rows))
                && (o.inserted ==>
                      id in rows && rows == old(rows)[id := rows[id]] && fresh(rows[id])
                      && rows[id].id == id && rows[id].family == parent.family && rows[id].parent == Some(parent.id)
                      && IsNew(rows[id], description, agentType, priority, now))
                && channel == (if o.sent then old(channel) + [rows[id]] else old(channel))
                && (r.Ok? ==> r.value == rows[id])
      ensures r == Err(TooDeep) <==> depth + 1 > maxDepth
      ensures r == Err(NotInserted) <==> depth + 1 <= maxDepth && (f.insert || id in old(rows))
      ensures depth + 1 <= maxDepth && (f.insert || id in old(rows)) ==> rows == old(rows) && channel == old(channel)
      ensures depth + 1 <= maxDepth && !f.insert && id !in old(rows) ==>
                && id in rows && rows == old(rows)[id := rows[id]] && channel == old(channel) + [rows[id]]
                && (r.Ok? <==> !f.read && parent.family in old(families))
                && (r == Err(FamilyUnread) <==> f.read)
                && (r == Err(FamilyMissing) <==> !f.read && parent.family !in old(families))
      ensures families == if r.Ok? && !f.reread && !f.update && depth + 1 > old(families)[parent.family]
                          then old(families)[parent.family := depth + 1] else old(families)
      ensures depth + 1 <= maxDepth && old(Expected(id, parent.family, depth + 1, f)).inserted
              && parent.family in old(families) ==>
                SpawnIsRun(maxDepth, old(families)[parent.family], families[parent.family], depth + 1, r.Ok?, f)
    {
      var newDepth := depth + 1;
      if newDepth > maxDepth {
        return Err(TooDeep);
      }
      if parent.family in families {
        SpawnRuns(maxDepth, families[parent.family], newDepth, true, f);
        SpawnRuns(maxDepth, families[parent.family], newDepth, false, f);
      }
      var task := new TaskInstance(id, parent.family, description, agentType, priority, Some(parent.id), now);
      var created := CreateTask(task, newDepth, now, f);
      if created.Err? {
        return Err(created.error);
      }
      if !f.reread && newDepth > families[parent.family] && !f.update {
        families := families[parent.family := newDepth];
      }
      return Ok(task);
    }

    /** A new family and its root. With a negative limit the root is inserted and then refused. */
    method SpawnRootTask(family: FamilyId, id: InstanceId, description: string, agentType: AgentType,
                         priority: Priority, now: int, f: Faults)
        returns (r: Result<TaskInstance, CreateError>)
      modifies this
      ensures f.family || family in old(families) ==>
                r == Err(FamilyNotInserted) && rows == old(rows) && channel == old(channel) && families == old(families)
      ensures r == Err(FamilyNotInserted) <==> f.family || family in old(families)
      ensures !f.family && family !in old(families) ==>
                && (r == Err(NotInserted) <==> f.insert || id in old(rows))
                && (r == Err(TooDeep) <==> !f.insert && id !in old(rows) && 0 > maxDepth)
                && (r == Err(NotInserted) ==> rows == old(rows) && channel == old(channel))
                && (r == Err(TooDeep) ==>
                      id in rows && rows == old(rows)[id := rows[id]] && channel == old(channel))
                && (!f.insert && id !in old(rows) && 0 <= maxDepth ==>
                      && id in rows && rows == old(rows)[id := rows[id]] && channel == old(channel) + [rows[id]]
                      && (r.Ok? <==> !f.read) && (r == Err(FamilyUnread) <==> f.read))
      ensures !f.family && family !in old(families) ==>
                var o := OutcomeOf(id in old(rows), 0 > maxDepth, true, f);
                && families == old(families)[family := 0]
                && (r.Ok? <==> o.answer.Ok?) && (r.Err? ==> o.answer == Err(r.error))
                && (!o.inserted ==> rows == old(rows))
                && (o.inserted ==>
                      id in rows && rows == old(rows)[id := rows[id]] && fresh(rows[id])
                      && rows[id].id == id && rows[id].family == family && rows[id].parent == None
                      && IsNew(rows[id], description, agentType, priority, now))
                && channel == (if o.sent then old(channel) + [rows[id]] else old(channel))
                && (r.Ok? ==> r.value == rows[id])
    {
      if f.family || family in families {
        return Err(FamilyNotInserted);
      }
      families := families[family := 0];
      var task := new TaskInstance(id, family, description, agentType, priority, None, now);
      var created := CreateTask(task, 0, now, f);
      if created.Err? {
        return Err(created.error);
      }
      return Ok(task);
    }
  }

  /** An uninterrupted spawn without failures takes its turn: the steps of SpawnSubTask are within the terms of
      ExactInTurn, and record the depth of the child. */
  lemma SpawnIsInTurn(limit: int, recorded: nat, deepest: nat, depth: nat, f: Faults)
    requires 0 < depth <= deepest + 1 && depth <= limit && !f.reread && !f.update
    ensures var from := Family(recorded, deepest, map[]);
            var to := Family(Deeper(recorded, depth), Deeper(deepest, depth), map[]);
            FamilyRun(limit, from, SpawnSteps(depth, true, f), to) && InTurn(limit, from, SpawnSteps(depth, true, f))
  {
    SpawnRun(limit, recorded, deepest, depth, true, f);
    var es := SpawnSteps(depth, true, f);
    var f0 := Family(recorded, deepest, map[]);
    var f1 := Done(limit, f0, es[0]);
    var f2 := Done(limit, f1, es[1]);
    var f3 := Done(limit, f2, es[2]);
    assert InTurn(limit, f3, es[3..]);
    assert InTurn(limit, f2, es[2..]) by { assert es[2..][1..] == es[3..]; }
    assert InTurn(limit, f1, es[1..]) by { assert es[1..][1..] == es[2..]; }
  }
}
