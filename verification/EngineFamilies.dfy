/** The engine together with the recorded depths of its families: the store steps of FamilyDepth interleave with
    everything else (internal/services/task/task_queue.go:383-448). */
module EngineFamilies {
  import opened Prelude
  import opened Tasks
  import opened TaskTree
  import opened Engine
  import opened EngineInvariant
  import opened EngineRuns
  import opened FamilyDepth

  /** The root above a row: its family. */
  ghost function Root(parent: Parents, level: map<InstanceId, nat>, i: InstanceId): InstanceId
    requires Levelled(parent, level) && i in parent
    decreases level[i]
  {
    assert LevelOk(parent, level, i);
    match parent[i]
    case None => i
    case Some(p) => Root(parent, level, p)
  }

  /** `d` is the depth of the deepest row of family `g`. */
  ghost predicate Deepest(parent: Parents, level: map<InstanceId, nat>, g: InstanceId, d: nat)
    requires Levelled(parent, level)
  {
    && (exists i :: i in parent && Root(parent, level, i) == g && level[i] == d)
    && (forall i | i in parent && Root(parent, level, i) == g :: level[i] <= d)
  }

  /** The store with one more row. */
  function MoreParents(parent: Parents, i: InstanceId, above: Option<InstanceId>): Parents {
    parent[i := above]
  }

  function MoreLevels(level: map<InstanceId, nat>, i: InstanceId, above: Option<InstanceId>): map<InstanceId, nat> {
    level[i := if above.Some? && above.value in level then level[above.value] + 1 else 0]
  }

  lemma MoreLevelled(parent: Parents, level: map<InstanceId, nat>, i: InstanceId, above: Option<InstanceId>)
    requires Levelled(parent, level) && i !in parent && (above.Some? ==> above.value in parent)
    ensures Levelled(MoreParents(parent, i, above), MoreLevels(level, i, above))
  {
    InsertKeepsLevels(parent, level, i, above);
  }

  /** A new row changes the family of no other. */
  lemma {:induction false} RootKept(parent: Parents, level: map<InstanceId, nat>, i: InstanceId,
                                    above: Option<InstanceId>, k: InstanceId)
    requires Levelled(parent, level) && i !in parent && (above.Some? ==> above.value in parent) && k in parent
    ensures Levelled(MoreParents(parent, i, above), MoreLevels(level, i, above))
    ensures Root(MoreParents(parent, i, above), MoreLevels(level, i, above), k) == Root(parent, level, k)
    decreases level[k]
  {
    MoreLevelled(parent, level, i, above);
    assert LevelOk(parent, level, k);
    if parent[k].Some? {
      RootKept(parent, level, i, above, parent[k].value);
    }
  }

  lemma RootOfNew(parent: Parents, level: map<InstanceId, nat>, i: InstanceId, above: Option<InstanceId>)
    requires Levelled(parent, level) && i !in parent && (above.Some? ==> above.value in parent)
    ensures Levelled(MoreParents(parent, i, above), MoreLevels(level, i, above))
    ensures Root(MoreParents(parent, i, above), MoreLevels(level, i, above), i)
            == if above.Some? then Root(parent, level, above.value) else i
  {
    MoreLevelled(parent, level, i, above);
    if above.Some? {
      RootKept(parent, level, i, above, above.value);
    }
  }

  /** A root is its own family, and nobody's child is. */
  lemma {:induction false} RootIsRoot(parent: Parents, level: map<InstanceId, nat>, i: InstanceId)
    requires Levelled(parent, level) && i in parent
    ensures Root(parent, level, i) in parent && parent[Root(parent, level, i)] == None
    decreases level[i]
  {
    assert LevelOk(parent, level, i);
    if parent[i].Some? {
      RootIsRoot(parent, level, parent[i].value);
    }
  }

  /** The deepest row of every family, when one row has been added. */
  lemma DeepestMoves(parent: Parents, level: map<InstanceId, nat>, i: InstanceId, above: Option<InstanceId>,
                     g: InstanceId, d: nat)
    requires Levelled(parent, level) && i !in parent && (above.Some? ==> above.value in parent)
    requires Deepest(parent, level, g, d)
    ensures Levelled(MoreParents(parent, i, above), MoreLevels(level, i, above))
    ensures above.Some? && Root(parent, level, above.value) == g ==>
              && level[above.value] <= d
              && Deepest(MoreParents(parent, i, above), MoreLevels(level, i, above), g,
                         if level[above.value] + 1 > d then level[above.value] + 1 else d)
    ensures !(above.Some? && Root(parent, level, above.value) == g) ==>
              Deepest(MoreParents(parent, i, above), MoreLevels(level, i, above), g, d)
  {
    var parent', level' := MoreParents(parent, i, above), MoreLevels(level, i, above);
    RootOfNew(parent, level, i, above);
    forall k | k in parent ensures Root(parent', level', k) == Root(parent, level, k) && level'[k] == level[k] {
      RootKept(parent, level, i, above, k);
    }
    var j :| j in parent && Root(parent, level, j) == g && level[j] == d;
    RootIsRoot(parent, level, j);
    assert Root(parent', level', j) == g && level'[j] == d;
    assert i in parent';
  }

  lemma DeepestStarts(parent: Parents, level: map<InstanceId, nat>, i: InstanceId)
    requires Levelled(parent, level) && i !in parent
    ensures Levelled(MoreParents(parent, i, None), MoreLevels(level, i, None))
    ensures Deepest(MoreParents(parent, i, None), MoreLevels(level, i, None), i, 0)
  {
    RootOfNew(parent, level, i, None);
    var parent', level' := MoreParents(parent, i, None), MoreLevels(level, i, None);
    forall k | k in parent' && Root(parent', level', k) == i ensures level'[k] <= 0 {
      if k != i {
        RootKept(parent, level, i, None, k);
        RootIsRoot(parent, level, k);
      }
    }
  }

  // ---------------------------------------------------------------- families and their records

  /** Some run of FamilyDepth leads to `f`. */
  ghost predicate FamilyReachable(limit: int, f: Family) {
    exists es :: FamilyRun(limit, NEW_FAMILY, es, f)
  }

  lemma FamilyMoves(limit: int, f: Family, e: FamilyEvent)
    requires FamilyReachable(limit, f) && CanDo(limit, f, e)
    ensures FamilyReachable(limit, Done(limit, f, e))
  {
    var es :| FamilyRun(limit, NEW_FAMILY, es, f);
    FamilyRunMore(limit, NEW_FAMILY, es, f, e);
  }

  /** The record of family `g` is that of a run of FamilyDepth and knows its deepest row. */
  ghost predicate Knows(limit: int, parent: Parents, level: map<InstanceId, nat>, g: InstanceId, f: Family)
    requires Levelled(parent, level)
  {
    Deepest(parent, level, g, f.deepest) && FamilyReachable(limit, f)
  }

  /** Every root has a family record. */
  ghost predicate Tracked(limit: int, parent: Parents, level: map<InstanceId, nat>, families: map<InstanceId, Family>) {
    && Levelled(parent, level)
    && (forall g :: g in families <==> g in parent && parent[g] == None)
    && (forall g | g in families :: Knows(limit, parent, level, g, families[g]))
  }

  lemma TrackedRoot(limit: int, parent: Parents, level: map<InstanceId, nat>, families: map<InstanceId, Family>,
                    i: InstanceId)
    requires Tracked(limit, parent, level, families) && i !in parent
    ensures Tracked(limit, MoreParents(parent, i, None), MoreLevels(level, i, None), families[i := NEW_FAMILY])
  {
    MoreLevelled(parent, level, i, None);
    DeepestStarts(parent, level, i);
    assert FamilyRun(limit, NEW_FAMILY, [], NEW_FAMILY);
    forall g | g in families ensures Knows(limit, MoreParents(parent, i, None), MoreLevels(level, i, None), g,
                                           families[g]) {
      assert Knows(limit, parent, level, g, families[g]);
      DeepestMoves(parent, level, i, None, g, families[g].deepest);
    }
  }

  /** A child within the limit is an insert that FamilyDepth allows. */
  lemma KnowsChild(limit: int, parent: Parents, level: map<InstanceId, nat>, f: Family, i: InstanceId,
                   above: InstanceId, w: WorkerId)
    requires Levelled(parent, level) && i !in parent && above in parent && level[above] + 1 <= limit && w !in f.active
    requires Knows(limit, parent, level, Root(parent, level, above), f)
    ensures var e := Insert(w, level[above] + 1);
            && CanDo(limit, f, e)
            && Levelled(MoreParents(parent, i, Some(above)), MoreLevels(level, i, Some(above)))
            && Knows(limit, MoreParents(parent, i, Some(above)), MoreLevels(level, i, Some(above)),
                     Root(parent, level, above), Done(limit, f, e))
  {
    DeepestMoves(parent, level, i, Some(above), Root(parent, level, above), f.deepest);
    FamilyMoves(limit, f, Insert(w, level[above] + 1));
  }

  /** It does not touch other families. */
  lemma KnowsOther(limit: int, parent: Parents, level: map<InstanceId, nat>, f: Family, i: InstanceId,
                   above: InstanceId, h: InstanceId)
    requires Levelled(parent, level) && i !in parent && above in parent && h != Root(parent, level, above)
    requires Knows(limit, parent, level, h, f)
    ensures Levelled(MoreParents(parent, i, Some(above)), MoreLevels(level, i, Some(above)))
    ensures Knows(limit, MoreParents(parent, i, Some(above)), MoreLevels(level, i, Some(above)), h, f)
  {
    DeepestMoves(parent, level, i, Some(above), h, f.deepest);
  }

  lemma OneFamilyChanges(limit: int, parent: Parents, level: map<InstanceId, nat>, families: map<InstanceId, Family>,
                         g: InstanceId, f: Family)
    requires Levelled(parent, level) && g in families && Knows(limit, parent, level, g, f)
    requires forall h :: h in families <==> h in parent && parent[h] == None
    requires forall h | h in families && h != g :: Knows(limit, parent, level, h, families[h])
    ensures Tracked(limit, parent, level, families[g := f])
  {
  }

  lemma TrackedChild(limit: int, parent: Parents, level: map<InstanceId, nat>, families: map<InstanceId, Family>,
                     i: InstanceId, above: InstanceId, w: WorkerId)
    requires Tracked(limit, parent, level, families) && i !in parent && above in parent && level[above] + 1 <= limit
    requires forall g | g in families :: w !in families[g].active
    ensures var g, e := Root(parent, level, above), Insert(w, level[above] + 1);
            && g in families && CanDo(limit, families[g], e)
            && Tracked(limit, MoreParents(parent, i, Some(above)), MoreLevels(level, i, Some(above)),
                       families[g := Done(limit, families[g], e)])
  {
    var g, e := Root(parent, level, above), Insert(w, level[above] + 1);
    MoreLevelled(parent, level, i, Some(above));
    RootIsRoot(parent, level, above);
    assert Knows(limit, parent, level, g, families[g]);
    KnowsChild(limit, parent, level, families[g], i, above, w);
    forall h | h in families && h != g
      ensures Knows(limit, MoreParents(parent, i, Some(above)), MoreLevels(level, i, Some(above)), h, families[h])
    {
      assert Knows(limit, parent, level, h, families[h]);
      KnowsOther(limit, parent, level, families[h], i, above, h);
    }
    OneFamilyChanges(limit, MoreParents(parent, i, Some(above)), MoreLevels(level, i, Some(above)), families, g,
                     Done(limit, families[g], e));
  }

  lemma TrackedStore(limit: int, parent: Parents, level: map<InstanceId, nat>, families: map<InstanceId, Family>,
                     g: InstanceId, v: FamilyEvent)
    requires Tracked(limit, parent, level, families) && g in families && !v.Insert? && CanDo(limit, families[g], v)
    ensures Tracked(limit, parent, level, families[g := Done(limit, families[g], v)])
  {
    assert Knows(limit, parent, level, g, families[g]);
    FamilyMoves(limit, families[g], v);
  }

  // ---------------------------------------------------------------- the joint system

  datatype Joint = Joint(s: State, families: map<InstanceId, Family>)

  /** An event of the engine, or a store call of a spawn under way in family `g`. */
  datatype JointEvent = Step(e: Event) | Store(g: InstanceId, v: FamilyEvent)

  predicate SpawnsChild(e: Event) {
    e.Call? && e.t.InsertChild?
  }

  /** A worker spawns one child at a time: its last spawn has returned. Nothing else ties store calls to the engine. */
  ghost predicate JointEnabled(c: Config, x: Joint, v: JointEvent) {
    match v
    case Step(e) => Enabled(c, x.s, e)
      && (SpawnsChild(e) ==> forall g | g in x.families :: e.w !in x.families[g].active)
    case Store(g, v) => g in x.families && !v.Insert? && CanDo(c.maxDepth, x.families[g], v)
  }

  /** A spawn under way: its row has just been inserted. */
  function WithSpawn(f: Family, w: WorkerId, depth: nat): Family {
    f.(deepest := if depth > f.deepest then depth else f.deepest, active := f.active[w := Inserted(depth)])
  }

  /** The families after an event of the engine: a root brings a new one, a child a spawn in its parent's. */
  ghost function FamiliesAfter(s: State, families: map<InstanceId, Family>, e: Event): map<InstanceId, Family>
  {
    if e.Daemon? && e.d.InsertRoot? then families[e.d.task.id := NEW_FAMILY]
    else if SpawnsChild(e) && BusyAt(s, e.w) && s.phase[e.w].Inserting? && Levelled(s.parent, s.level)
            && s.worker[e.w].task in s.parent && Root(s.parent, s.level, s.worker[e.w].task) in families then
      var g := Root(s.parent, s.level, s.worker[e.w].task);
      families[g := WithSpawn(families[g], e.w, s.phase[e.w].depth)]
    else families
  }

  ghost function JointStep(c: Config, x: Joint, v: JointEvent): Joint
    requires JointEnabled(c, x, v)
  {
    match v
    case Step(e) => Joint(Apply(c, x.s, e), FamiliesAfter(x.s, x.families, e))
    case Store(g, v) => x.(families := x.families[g := Done(c.maxDepth, x.families[g], v)])
  }

  ghost predicate TrackedIn(c: Config, x: Joint) {
    Tracked(c.maxDepth, x.s.parent, x.s.level, x.families)
  }

  /** The events that insert no row leave the tree alone. */
  lemma TreeKept(c: Config, s: State, e: Event)
    requires Enabled(c, s, e) && !SpawnsChild(e) && !(e.Daemon? && e.d.InsertRoot?)
    ensures Apply(c, s, e).parent == s.parent && Apply(c, s, e).level == s.level
  {
    match e
    case Daemon(d) => DaemonKeepsTree(c, s, d);
    case Pool(w, p) => PoolKeepsTree(c, s, w, p);
    case Setup(w, u) => SetupKeepsTree(s, w, u);
    case Loop(w, l) => LoopKeepsTree(s, w, l);
    case Call(w, t) => CallKeepsTree(c, s, w, t);
  }

  lemma DaemonKeepsTree(c: Config, s: State, d: DaemonEvent)
    requires DaemonEnabled(c, s, d) && !d.InsertRoot?
    ensures DaemonStep(c, s, d).parent == s.parent && DaemonStep(c, s, d).level == s.level
  {
    if d.Answer? { AnswerKeepsTree(s); }
  }

  lemma AnswerKeepsTree(s: State)
    requires |s.dequeueCh| > 0
    ensures AnswerRequest(s).parent == s.parent && AnswerRequest(s).level == s.level
  {
  }

  lemma PoolKeepsTree(c: Config, s: State, w: WorkerId, p: PoolEvent)
    requires PoolEnabled(c, s, w, p)
    ensures PoolStep(c, s, w, p).parent == s.parent && PoolStep(c, s, w, p).level == s.level
  {
    if p.Receive? { ReceiveKeepsTree(s, w); }
  }

  lemma ReceiveKeepsTree(s: State, w: WorkerId)
    requires w in s.worker && s.worker[w].Replied?
    ensures ReceiveReply(s, w).parent == s.parent && ReceiveReply(s, w).level == s.level
  {
  }

  lemma SetupKeepsTree(s: State, w: WorkerId, u: SetupEvent)
    requires SetupEnabled(s, w, u)
    ensures SetupStep(s, w, u).parent == s.parent && SetupStep(s, w, u).level == s.level
  {
    SetupFrame(s, w, u);
  }

  lemma LoopKeepsTree(s: State, w: WorkerId, l: LoopEvent)
    requires LoopEnabled(s, w, l)
    ensures LoopStep(s, w, l).parent == s.parent && LoopStep(s, w, l).level == s.level
  {
    LoopFrame(s, w, l);
  }

  lemma CallKeepsTree(c: Config, s: State, w: WorkerId, t: CallEvent)
    requires CallEnabled(s, w, t) && !t.InsertChild?
    ensures CallStep(c, s, w, t).parent == s.parent && CallStep(c, s, w, t).level == s.level
  {
  }

  /** The guard of a spawn in FamilyDepth, met by the engine: the child is one level below a row of its family, and
      within the limit. */
  lemma SpawnIsInsert(c: Config, x: Joint, w: WorkerId, task: Task)
    requires BusyAt(x.s, w) && PhaseOk(c, x.s, w) && TrackedIn(c, x) && CallEnabled(x.s, w, InsertChild(task))
    requires forall g | g in x.families :: w !in x.families[g].active
    ensures var s, e := x.s, Call(w, InsertChild(task));
            && s.worker[w].task in s.parent && s.phase[w].Inserting?
            && var g, d := Root(s.parent, s.level, s.worker[w].task), s.phase[w].depth;
               && g in x.families && CanDo(c.maxDepth, x.families[g], Insert(w, d))
               && FamiliesAfter(s, x.families, e) == x.families[g := Done(c.maxDepth, x.families[g], Insert(w, d))]
    ensures TrackedIn(c, Joint(CallStep(c, x.s, w, InsertChild(task)),
                               FamiliesAfter(x.s, x.families, Call(w, InsertChild(task)))))
  {
    var s, above := x.s, x.s.worker[w].task;
    ChildDepth(c, s, w);
    TrackedChild(c.maxDepth, s.parent, s.level, x.families, task.id, above, w);
    SpawnedFamilies(c.maxDepth, s, x.families, w, task);
    ChildRow(c, s, w, task);
  }

  lemma SpawnedFamilies(limit: int, s: State, families: map<InstanceId, Family>, w: WorkerId, task: Task)
    requires BusyAt(s, w) && s.phase[w].Inserting? && Levelled(s.parent, s.level) && s.worker[w].task in s.parent
    requires var g := Root(s.parent, s.level, s.worker[w].task);
             g in families && CanDo(limit, families[g], Insert(w, s.phase[w].depth))
    ensures var g := Root(s.parent, s.level, s.worker[w].task);
            FamiliesAfter(s, families, Call(w, InsertChild(task)))
            == families[g := Done(limit, families[g], Insert(w, s.phase[w].depth))]
  {
  }

  lemma ChildDepth(c: Config, s: State, w: WorkerId)
    requires BusyAt(s, w) && PhaseOk(c, s, w) && s.phase[w].Inserting? && Levelled(s.parent, s.level)
    ensures var above := s.worker[w].task;
            above in s.parent && s.phase[w].depth == s.level[above] + 1 && s.phase[w].depth <= c.maxDepth
  {
  }

  lemma ChildRow(c: Config, s: State, w: WorkerId, task: Task)
    requires CallEnabled(s, w, InsertChild(task))
    ensures var t, above := CallStep(c, s, w, InsertChild(task)), Some(s.worker[w].task);
            t.parent == MoreParents(s.parent, task.id, above) && t.level == MoreLevels(s.level, task.id, above)
  {
  }

  lemma StepKeepsTracked(c: Config, x: Joint, e: Event)
    requires Inv(c, x.s) && TrackedIn(c, x) && Enabled(c, x.s, e)
    requires SpawnsChild(e) ==> forall g | g in x.families :: e.w !in x.families[g].active
    ensures TrackedIn(c, Joint(Apply(c, x.s, e), FamiliesAfter(x.s, x.families, e)))
  {
    if SpawnsChild(e) {
      assert PhaseOk(c, x.s, e.w);
      SpawnIsInsert(c, x, e.w, e.t.task);
    } else if e.Daemon? && e.d.InsertRoot? {
      TrackedRoot(c.maxDepth, x.s.parent, x.s.level, x.families, e.d.task.id);
    } else {
      TreeKept(c, x.s, e);
    }
  }

  ghost function JointSteps(c: Config): iset<Transition<Joint, JointEvent>> {
    iset y: Transition<Joint, JointEvent> | JointEnabled(c, y.before, y.event)
      && y.after == JointStep(c, y.before, y.event)
  }

  /** A run of the joint system. */
  ghost predicate IsJointRun(c: Config, xs: seq<Joint>, vs: seq<JointEvent>) {
    Linked(xs, vs, JointSteps(c)) && xs[0] == Joint(Init(c), map[])
  }

  ghost function GoodJoints(c: Config): iset<Joint> {
    iset x: Joint | x.s in Good(c) && TrackedIn(c, x)
  }

  lemma IsGoodJoint(c: Config, x: Joint)
    requires x.s in Good(c) && TrackedIn(c, x)
    ensures x in GoodJoints(c)
  {
  }

  lemma GoodEngineStep(c: Config, x: Joint, e: Event)
    requires x in GoodJoints(c) && Enabled(c, x.s, e)
    requires SpawnsChild(e) ==> forall g | g in x.families :: e.w !in x.families[g].active
    ensures Joint(Apply(c, x.s, e), FamiliesAfter(x.s, x.families, e)) in GoodJoints(c)
  {
    var y := Joint(Apply(c, x.s, e), FamiliesAfter(x.s, x.families, e));
    StepKeepsTracked(c, x, e);
    GoodStep(c, x.s, e);
    IsGoodJoint(c, y);
  }

  lemma GoodStep(c: Config, s: State, e: Event)
    requires s in Good(c) && Enabled(c, s, e)
    ensures Apply(c, s, e) in Good(c)
  {
    StepKeepsInv(c, s, e);
  }

  lemma GoodJointStep(c: Config, x: Joint, v: JointEvent, y: Joint)
    requires x in GoodJoints(c) && Transition(x, v, y) in JointSteps(c)
    ensures y in GoodJoints(c)
  {
    match v
    case Step(e) => GoodEngineStep(c, x, e);
    case Store(g, w) =>
      TrackedStore(c.maxDepth, x.s.parent, x.s.level, x.families, g, w);
      IsGoodJoint(c, y);
  }

  lemma GoodStart(c: Config)
    ensures Joint(Init(c), map[]) in GoodJoints(c)
  {
    InitInv(c);
  }

  lemma JointRunStaysGood(c: Config, xs: seq<Joint>, vs: seq<JointEvent>, k: nat)
    requires IsJointRun(c, xs, vs) && k < |xs|
    ensures xs[k] in GoodJoints(c)
  {
    GoodStart(c);
    forall j ensures Stays(xs, GoodJoints(c), j) {
      if 0 <= j < |vs| && xs[j] in GoodJoints(c) {
        assert StepIn(xs, vs, JointSteps(c), j);
        GoodJointStep(c, xs[j], vs[j], xs[j + 1]);
      }
    }
    AlongStates(xs, GoodJoints(c), k);
  }

  /** Whatever workers, store calls and failures interleave, each family of the engine goes through a run of FamilyDepth
      whose deepest task is the deepest row of the family; so its recorded depth never exceeds the depth of that row. */
  lemma FamiliesAreRuns(c: Config, xs: seq<Joint>, vs: seq<JointEvent>, k: nat, g: InstanceId)
    requires IsJointRun(c, xs, vs) && k < |xs| && g in xs[k].s.parent && xs[k].s.parent[g] == None
    ensures g in xs[k].families && FamilyReachable(c.maxDepth, xs[k].families[g])
    ensures Levelled(xs[k].s.parent, xs[k].s.level)
    ensures Deepest(xs[k].s.parent, xs[k].s.level, g, xs[k].families[g].deepest)
    ensures xs[k].families[g].recorded <= xs[k].families[g].deepest
  {
    JointRunStaysGood(c, xs, vs, k);
    var f := xs[k].families[g];
    var es :| FamilyRun(c.maxDepth, NEW_FAMILY, es, f);
    NeverTooDeep(c.maxDepth, es, f);
  }
}
