/** The depth recorded with a task family is read, compared and written back in separate store calls, by any number of
    workers at a time (internal/services/task/task_queue.go:383-411). */
module FamilyDepth {
  import opened Prelude

  /** A spawn whose task row has been inserted, before and after it looked at the recorded depth. */
  datatype Spawn = Inserted(depth: nat) | Looked(depth: nat, seen: nat)

  /** `recorded` is MaxDepthReached; `deepest`, a history variable, is the depth of the deepest row of the family. */
  datatype Family = Family(recorded: nat, deepest: nat, active: map<WorkerId, Spawn>)

  datatype FamilyEvent =
    | Insert(w: WorkerId, depth: nat)
    | Look(w: WorkerId)
    | Write(w: WorkerId)
    | Fail(w: WorkerId)

  /** SpawnRootTask: a family with its root. */
  const NEW_FAMILY := Family(0, 0, map[])

  predicate CanDo(limit: int, f: Family, e: FamilyEvent) {
    match e
    case Insert(w, d) => w !in f.active && 0 < d <= f.deepest + 1 && d <= limit
    case Look(w) => w in f.active && f.active[w].Inserted?
    case Write(w) => w in f.active && f.active[w].Looked?
    case Fail(w) => w in f.active
  }

  function Done(limit: int, f: Family, e: FamilyEvent): Family
    requires CanDo(limit, f, e)
  {
    match e
    case Insert(w, d) => f.(deepest := if d > f.deepest then d else f.deepest, active := f.active[w := Inserted(d)])
    case Look(w) => f.(active := f.active[w := Looked(f.active[w].depth, f.recorded)])
    case Write(w) =>
      var s := f.active[w];
      f.(recorded := if s.depth > s.seen then s.depth else f.recorded, active := f.active - {w})
    case Fail(w) => f.(active := f.active - {w})
  }

  /** The run `es` leads from `f` to `g`. */
  ghost predicate FamilyRun(limit: int, f: Family, es: seq<FamilyEvent>, g: Family)
    decreases |es|
  {
    if |es| == 0 then g == f else CanDo(limit, f, es[0]) && FamilyRun(limit, Done(limit, f, es[0]), es[1..], g)
  }

  lemma {:induction false} FamilyRunMore(limit: int, f: Family, es: seq<FamilyEvent>, g: Family, e: FamilyEvent)
    requires FamilyRun(limit, f, es, g) && CanDo(limit, g, e)
    ensures FamilyRun(limit, f, es + [e], Done(limit, g, e))
    decreases |es|
  {
    if |es| == 0 {
      assert es + [e] == [e] && [e][1..] == [];
      assert FamilyRun(limit, Done(limit, g, e), [], Done(limit, g, e));
    } else {
      FamilyRunMore(limit, Done(limit, f, es[0]), es[1..], g, e);
      assert (es + [e])[1..] == es[1..] + [e];
    }
  }

  // ---------------------------------------------------------------- never too much

  ghost predicate Bounded(limit: int, f: Family) {
    && f.recorded <= f.deepest
    && (f.deepest <= limit || f.deepest == 0)
    && (forall w | w in f.active :: f.active[w].depth <= f.deepest)
  }

  lemma {:induction false} BoundedRun(limit: int, f: Family, es: seq<FamilyEvent>, g: Family)
    requires Bounded(limit, f) && FamilyRun(limit, f, es, g)
    ensures Bounded(limit, g)
    decreases |es|
  {
    if |es| > 0 {
      BoundedRun(limit, Done(limit, f, es[0]), es[1..], g);
    }
  }

  /** Whatever the interleaving and whatever fails, the recorded depth is never more than that of the deepest task. */
  lemma NeverTooDeep(limit: int, es: seq<FamilyEvent>, g: Family)
    requires FamilyRun(limit, NEW_FAMILY, es, g)
    ensures g.recorded <= g.deepest && (g.deepest <= limit || g.deepest == 0)
  {
    BoundedRun(limit, NEW_FAMILY, es, g);
  }

  // ---------------------------------------------------------------- lost updates

  /** A write loses another update when it brings a depth between what it saw and what is recorded. */
  predicate Loses(f: Family, e: FamilyEvent) {
    e.Write? && e.w in f.active && f.active[e.w].Looked? && f.active[e.w].seen < f.active[e.w].depth < f.recorded
  }

  /** No store call fails and no update is lost. */
  ghost predicate Smooth(limit: int, f: Family, es: seq<FamilyEvent>)
    decreases |es|
  {
    |es| == 0 || (CanDo(limit, f, es[0]) && !es[0].Fail? && !Loses(f, es[0])
                  && Smooth(limit, Done(limit, f, es[0]), es[1..]))
  }

  /** Some spawn is still going to record the deepest task. */
  predicate Owes(f: Family, w: WorkerId) {
    w in f.active && f.active[w].depth == f.deepest && (f.active[w].Looked? ==> f.active[w].seen < f.deepest)
  }

  ghost predicate Faithful(f: Family) {
    f.recorded >= f.deepest || exists w :: Owes(f, w)
  }

  lemma FaithfulStep(limit: int, f: Family, e: FamilyEvent)
    requires Bounded(limit, f) && Faithful(f) && CanDo(limit, f, e) && !e.Fail? && !Loses(f, e)
    ensures Faithful(Done(limit, f, e)) && Bounded(limit, Done(limit, f, e))
  {
    var g := Done(limit, f, e);
    if f.recorded >= f.deepest {
      if e.Insert? && e.depth > f.deepest { assert Owes(g, e.w); }
    } else {
      var w :| Owes(f, w);
      match e
      case Insert(v, d) => assert Owes(g, if d > f.deepest then v else w);
      case Look(v) => assert Owes(g, w);
      case Write(v) => assert v != w ==> Owes(g, w);
      case Fail(v) =>
    }
  }

  lemma {:induction false} FaithfulRun(limit: int, f: Family, es: seq<FamilyEvent>, g: Family)
    requires Bounded(limit, f) && Faithful(f) && Smooth(limit, f, es) && FamilyRun(limit, f, es, g)
    ensures Faithful(g) && Bounded(limit, g)
    decreases |es|
  {
    if |es| > 0 {
      FaithfulStep(limit, f, es[0]);
      FaithfulRun(limit, Done(limit, f, es[0]), es[1..], g);
    }
  }

  /** With no failure and no lost update, the record is exact whenever no spawn is under way. */
  lemma ExactWhenSmooth(limit: int, es: seq<FamilyEvent>, g: Family)
    requires Smooth(limit, NEW_FAMILY, es) && FamilyRun(limit, NEW_FAMILY, es, g) && |g.active| == 0
    ensures g.recorded == g.deepest
  {
    FaithfulRun(limit, NEW_FAMILY, es, g);
  }

  /** Spawns follow one another and no store call fails. */
  ghost predicate InTurn(limit: int, f: Family, es: seq<FamilyEvent>)
    decreases |es|
  {
    |es| == 0
    || (CanDo(limit, f, es[0]) && !es[0].Fail? && (es[0].Insert? ==> |f.active| == 0)
        && InTurn(limit, Done(limit, f, es[0]), es[1..]))
  }

  /** A spawn under way is alone, and has seen what is recorded. */
  ghost predicate Alone(f: Family) {
    && (forall v, w | v in f.active && w in f.active :: v == w)
    && (forall w | w in f.active && f.active[w].Looked? :: f.active[w].seen == f.recorded)
  }

  lemma {:induction false} InTurnIsSmooth(limit: int, f: Family, es: seq<FamilyEvent>)
    requires Alone(f) && InTurn(limit, f, es)
    ensures Smooth(limit, f, es)
    decreases |es|
  {
    if |es| > 0 {
      InTurnIsSmooth(limit, Done(limit, f, es[0]), es[1..]);
    }
  }

  /** The record is exact, between spawns, when the spawns of a family do not overlap and no store call fails. */
  lemma ExactInTurn(limit: int, es: seq<FamilyEvent>, g: Family)
    requires InTurn(limit, NEW_FAMILY, es) && FamilyRun(limit, NEW_FAMILY, es, g) && |g.active| == 0
    ensures g.recorded == g.deepest
  {
    InTurnIsSmooth(limit, NEW_FAMILY, es);
    ExactWhenSmooth(limit, es, g);
  }

  // ---------------------------------------------------------------- exactly when the record can be trusted

  /** How many spawns of a family may be under way at a time; None is any number. */
  predicate Fits(width: Option<nat>, n: nat) {
    width.Some? ==> n <= width.value
  }

  /** A run within given terms: spawns under way, and whether store calls may fail. */
  ghost predicate Within(limit: int, width: Option<nat>, failures: bool, f: Family, es: seq<FamilyEvent>)
    decreases |es|
  {
    |es| == 0
    || (CanDo(limit, f, es[0]) && (es[0].Fail? ==> failures) && Fits(width, |Done(limit, f, es[0]).active|)
        && Within(limit, width, failures, Done(limit, f, es[0]), es[1..]))
  }

  /** On these terms the record is the depth of the deepest task whenever no spawn is under way. */
  ghost predicate AlwaysExact(limit: int, width: Option<nat>, failures: bool) {
    forall es, g | FamilyRun(limit, NEW_FAMILY, es, g) && Within(limit, width, failures, NEW_FAMILY, es)
      && |g.active| == 0 ::
      g.recorded == g.deepest
  }

  /** With nothing under way the next event can only be an insert. */
  lemma FirstIsInsert(limit: int, f: Family, e: FamilyEvent)
    requires f.active == map[] && CanDo(limit, f, e)
    ensures limit > 0 && |Done(limit, f, e).active| > 0
  {
    assert e.w in Done(limit, f, e).active.Keys;
  }

  lemma NoSpawns(limit: int, width: Option<nat>, failures: bool, f: Family, es: seq<FamilyEvent>, g: Family)
    requires limit <= 0 || width == Some(0)
    requires f.active == map[] && FamilyRun(limit, f, es, g) && Within(limit, width, failures, f, es)
    ensures g == f
  {
    if |es| > 0 {
      FirstIsInsert(limit, f, es[0]);
      assert false;
    }
  }

  lemma {:induction false} NarrowIsInTurn(limit: int, f: Family, es: seq<FamilyEvent>)
    requires Within(limit, Some(1), false, f, es)
    ensures InTurn(limit, f, es)
    decreases |es|
  {
    if |es| > 0 {
      var g := Done(limit, f, es[0]);
      if es[0].Insert? {
        assert g.active.Keys == f.active.Keys + {es[0].w};
        assert |f.active| == |f.active.Keys| && |g.active| == |g.active.Keys|;
      }
      NarrowIsInTurn(limit, g, es[1..]);
    }
  }

  /** Within a limit of one, two different depths never meet. */
  lemma {:induction false} ShallowIsSmooth(limit: int, width: Option<nat>, f: Family, es: seq<FamilyEvent>)
    requires limit <= 1 && Bounded(limit, f) && Within(limit, width, false, f, es)
    ensures Smooth(limit, f, es)
    decreases |es|
  {
    if |es| > 0 {
      ShallowIsSmooth(limit, width, Done(limit, f, es[0]), es[1..]);
    }
  }

  /** A failed store call after the insert leaves the record behind. */
  lemma FailureLosesUpdate(limit: int, width: Option<nat>) returns (es: seq<FamilyEvent>, g: Family)
    requires limit >= 1 && Fits(width, 1)
    ensures FamilyRun(limit, NEW_FAMILY, es, g) && Within(limit, width, true, NEW_FAMILY, es)
    ensures |g.active| == 0 && g.recorded == 0 && g.deepest == 1
  {
    es := [Insert(0, 1), Fail(0)];
    var f := Done(limit, NEW_FAMILY, es[0]);
    g := Done(limit, f, es[1]);
    assert f.active.Keys == {0} && |f.active| == |f.active.Keys|;
    assert g.active == map[];
    assert FamilyRun(limit, g, es[2..], g) && Within(limit, width, true, g, es[2..]);
    assert FamilyRun(limit, f, es[1..], g)
           && Within(limit, width, true, f, es[1..]) by { assert es[1..][1..] == es[2..]; }
  }

  /** A run within the terms, one event earlier. */
  lemma Prepend(limit: int, width: Option<nat>, failures: bool, f: Family, e: FamilyEvent, es: seq<FamilyEvent>,
                g: Family)
    requires CanDo(limit, f, e) && !e.Fail? && Fits(width, |Done(limit, f, e).active|)
    requires FamilyRun(limit, Done(limit, f, e), es, g) && Within(limit, width, failures, Done(limit, f, e), es)
    ensures FamilyRun(limit, f, [e] + es, g) && Within(limit, width, failures, f, [e] + es)
  {
    assert ([e] + es)[1..] == es;
  }

  /** The second half of OverlapLosesUpdate: the deeper spawn writes first. */
  lemma OverlapEnds(limit: int, width: Option<nat>, failures: bool, f: Family) returns (es: seq<FamilyEvent>, g: Family)
    requires Fits(width, 2) && f == Family(0, 2, map[0 := Looked(1, 0), 1 := Inserted(2)])
    ensures FamilyRun(limit, f, es, g) && Within(limit, width, failures, f, es) && forall e | e in es :: !e.Fail?
    ensures |g.active| == 0 && g.recorded == 1 && g.deepest == 2
  {
    var f1 := Done(limit, f, Look(1));
    var f2 := Done(limit, f1, Write(1));
    g := Done(limit, f2, Write(0));
    assert f1.active == map[0 := Looked(1, 0), 1 := Looked(2, 0)];
    assert f2.active == map[0 := Looked(1, 0)];
    assert g.active == map[];
    assert FamilyRun(limit, g, [], g) && Within(limit, width, failures, g, []);
    Prepend(limit, width, failures, f2, Write(0), [], g);
    Prepend(limit, width, failures, f1, Write(1), [Write(0)] + [], g);
    Prepend(limit, width, failures, f, Look(1), [Write(1)] + ([Write(0)] + []), g);
    es := [Look(1)] + ([Write(1)] + ([Write(0)] + []));
  }

  /** Overlapping spawns lose updates even when nothing fails: the child of a task still being recorded is recorded
      first, and is then overwritten. */
  lemma OverlapLosesUpdate(limit: int, width: Option<nat>, failures: bool) returns (es: seq<FamilyEvent>, g: Family)
    requires limit >= 2 && Fits(width, 2)
    ensures FamilyRun(limit, NEW_FAMILY, es, g) && forall e | e in es :: !e.Fail?
    ensures Within(limit, width, failures, NEW_FAMILY, es)
    ensures |g.active| == 0 && g.recorded == 1 && g.deepest == 2
  {
    var f1 := Done(limit, NEW_FAMILY, Insert(0, 1));
    var f2 := Done(limit, f1, Look(0));
    var f3 := Done(limit, f2, Insert(1, 2));
    assert f1.active == map[0 := Inserted(1)];
    assert f2.active == map[0 := Looked(1, 0)];
    assert f3.active == map[0 := Looked(1, 0), 1 := Inserted(2)];
    var tail;
    tail, g := OverlapEnds(limit, width, failures, f3);
    Prepend(limit, width, failures, f2, Insert(1, 2), tail, g);
    Prepend(limit, width, failures, f1, Look(0), [Insert(1, 2)] + tail, g);
    Prepend(limit, width, failures, NEW_FAMILY, Insert(0, 1), [Look(0)] + ([Insert(1, 2)] + tail), g);
    es := [Insert(0, 1)] + ([Look(0)] + ([Insert(1, 2)] + tail));
  }

  lemma ExactRun(limit: int, width: Option<nat>, failures: bool, es: seq<FamilyEvent>, g: Family)
    requires width == Some(0) || limit <= 0 || (!failures && (width == Some(1) || limit == 1))
    requires FamilyRun(limit, NEW_FAMILY, es, g) && Within(limit, width, failures, NEW_FAMILY, es) && |g.active| == 0
    ensures g.recorded == g.deepest
  {
    if width == Some(0) || limit <= 0 {
      NoSpawns(limit, width, failures, NEW_FAMILY, es, g);
    } else if width == Some(1) {
      NarrowIsInTurn(limit, NEW_FAMILY, es);
      ExactInTurn(limit, es, g);
    } else {
      ShallowIsSmooth(limit, width, NEW_FAMILY, es);
      ExactWhenSmooth(limit, es, g);
    }
  }

  /** The record can be trusted exactly when no child can be spawned at all, or no store call can fail and either spawns
      do not overlap or MaxTaskDepth is one. With any number of workers and no failures that is a limit of at most one;
      with failures, of at most zero. */
  lemma ExactIff(limit: int, width: Option<nat>, failures: bool)
    ensures AlwaysExact(limit, width, failures)
            <==> width == Some(0) || limit <= 0 || (!failures && (width == Some(1) || limit == 1))
  {
    if width == Some(0) || limit <= 0 || (!failures && (width == Some(1) || limit == 1)) {
      forall es, g | FamilyRun(limit, NEW_FAMILY, es, g) && Within(limit, width, failures, NEW_FAMILY, es)
        && |g.active| == 0
        ensures g.recorded == g.deepest
      {
        ExactRun(limit, width, failures, es, g);
      }
    } else if failures {
      var es, g := FailureLosesUpdate(limit, width);
    } else {
      var es, g := OverlapLosesUpdate(limit, width, failures);
    }
  }
}
