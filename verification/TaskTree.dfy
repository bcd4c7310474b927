/** The tree of task instances: the parent column of the store, depth as the length of the parent chain, and the walk
    that counts it (internal/runtime/runtime.go:548-567). The parent of a row is written once, by the insert, and by
    no update (internal/repository/repository.go:394-420). */
module TaskTree {
  import opened Prelude

  type Parents = map<InstanceId, Option<InstanceId>>

  /** `level` numbers the rows by their distance from a root; a parent always has a row (foreign key). */
  ghost predicate Levelled(parent: Parents, level: map<InstanceId, nat>) {
    && level.Keys == parent.Keys
    && forall i {:trigger LevelOk(parent, level, i)} | i in parent :: LevelOk(parent, level, i)
  }

  ghost predicate LevelOk(parent: Parents, level: map<InstanceId, nat>, i: InstanceId)
    requires level.Keys == parent.Keys && i in parent
  {
    match parent[i]
    case None => level[i] == 0
    case Some(p) => p in parent && level[i] == level[p] + 1
  }

  /** Consecutive rows of `path` are child and parent. */
  ghost predicate Climbs(parent: Parents, path: seq<InstanceId>) {
    && |path| > 0
    && (forall k | 0 <= k < |path| :: path[k] in parent)
    && (forall k | 0 <= k < |path| - 1 :: parent[path[k]] == Some(path[k + 1]))
  }

  /** A climb that ends at a root: the whole ancestry of its first row. */
  ghost predicate Ancestry(parent: Parents, path: seq<InstanceId>) {
    Climbs(parent, path) && parent[path[|path| - 1]] == None
  }

  lemma {:induction false} ClimbLevels(parent: Parents, level: map<InstanceId, nat>, path: seq<InstanceId>)
    requires Levelled(parent, level) && Climbs(parent, path)
    ensures level[path[0]] == level[path[|path| - 1]] + |path| - 1
  {
    if |path| > 1 {
      var rest := path[1..];
      assert Climbs(parent, rest) by {
        forall k | 0 <= k < |rest| - 1 ensures parent[rest[k]] == Some(rest[k + 1]) {
          assert rest[k] == path[k + 1];
        }
      }
      ClimbLevels(parent, level, rest);
      assert LevelOk(parent, level, path[0]);
    }
  }

  lemma ExtendAncestry(parent: Parents, i: InstanceId, rest: seq<InstanceId>)
    requires Ancestry(parent, rest) && i in parent && parent[i] == Some(rest[0])
    ensures Ancestry(parent, [i] + rest)
  {
    var path := [i] + rest;
    forall k | 0 <= k < |path| - 1 ensures parent[path[k]] == Some(path[k + 1]) {
      if k > 0 { assert path[k] == rest[k - 1]; }
    }
  }

  lemma {:induction false} AncestryExists(parent: Parents, level: map<InstanceId, nat>, i: InstanceId)
    returns (path: seq<InstanceId>)
    requires Levelled(parent, level) && i in parent
    ensures Ancestry(parent, path) && path[0] == i && |path| == level[i] + 1
    decreases level[i]
  {
    assert LevelOk(parent, level, i);
    match parent[i]
    case None => path := [i];
    case Some(p) =>
      var rest := AncestryExists(parent, level, p);
      ExtendAncestry(parent, i, rest);
      path := [i] + rest;
  }

  /** The true depth of a row: no levelling in sight, only parent links. */
  ghost predicate HasDepth(parent: Parents, i: InstanceId, d: nat) {
    exists path :: Ancestry(parent, path) && path[0] == i && |path| == d + 1
  }

  /** Depth by hand: 0 for a root, one more than its parent for any other row. */
  lemma DepthReads(parent: Parents, i: InstanceId)
    requires i in parent
    ensures parent[i] == None ==> HasDepth(parent, i, 0)
    ensures parent[i].Some? ==> forall d: nat | HasDepth(parent, parent[i].value, d) :: HasDepth(parent, i, d + 1)
  {
    if parent[i] == None {
      assert Ancestry(parent, [i]);
    } else {
      forall d: nat | HasDepth(parent, parent[i].value, d) ensures HasDepth(parent, i, d + 1) {
        var rest :| Ancestry(parent, rest) && rest[0] == parent[i].value && |rest| == d + 1;
        ExtendAncestry(parent, i, rest);
        assert ([i] + rest)[0] == i;
      }
    }
  }

  /** In a levelled store every row has one depth, its level, and no row is its own ancestor. */
  lemma LevelIsDepth(parent: Parents, level: map<InstanceId, nat>, i: InstanceId)
    requires Levelled(parent, level) && i in parent
    ensures forall d: nat :: HasDepth(parent, i, d) <==> d == level[i]
    ensures forall path | Climbs(parent, path) && |path| > 1 && path[0] == i :: path[|path| - 1] != i
  {
    var own := AncestryExists(parent, level, i);
    forall d: nat ensures HasDepth(parent, i, d) <==> d == level[i] {
      if HasDepth(parent, i, d) {
        var path :| Ancestry(parent, path) && path[0] == i && |path| == d + 1;
        ClimbLevels(parent, level, path);
        assert LevelOk(parent, level, path[d]);
      }
    }
    forall path | Climbs(parent, path) && |path| > 1 && path[0] == i ensures path[|path| - 1] != i {
      ClimbLevels(parent, level, path);
    }
  }

  /** The depth counter of SPAWN_TASK. A missing row counts as depth 0, a missing parent ends the walk. */
  method CountDepth(parent: Parents, start: InstanceId, ghost level: map<InstanceId, nat>) returns (depth: nat)
    requires Levelled(parent, level)
    ensures start in parent ==> HasDepth(parent, start, depth)
    ensures start !in parent ==> depth == 0
  {
    depth := 0;
    if start in parent {
      var current := start;
      while parent[current].Some?
        invariant current in parent && depth + level[current] == level[start]
        decreases level[current]
      {
        assert LevelOk(parent, level, current);
        depth := depth + 1;
        var up := parent[current].value;
        if up !in parent {
          break;
        }
        current := up;
      }
      assert LevelOk(parent, level, current);
      LevelIsDepth(parent, level, start);
    }
  }

  /** A new row below an existing one, or a new root, keeps the store levelled. */
  lemma InsertKeepsLevels(parent: Parents, level: map<InstanceId, nat>, i: InstanceId, above: Option<InstanceId>)
    requires Levelled(parent, level) && i !in parent
    requires above.Some? ==> above.value in parent
    ensures Levelled(parent[i := above], level[i := if above.Some? then level[above.value] + 1 else 0])
  {
    var parent' := parent[i := above];
    var level' := level[i := if above.Some? then level[above.value] + 1 else 0];
    forall k | k in parent' ensures LevelOk(parent', level', k) {
      if k != i { assert LevelOk(parent, level, k); }
    }
  }
}
