/** Dedicated worker containers (internal/services/docker/docker.go:47-106). Docker itself is a parameter: what a
    create call answered, whether a stop call failed. */
module Containers {
  import opened Prelude

  type ContainerMap = map<InstanceId, ContainerId>

  /** The map after a request for `i`, when Docker would answer a create call with `made`. */
  function Obtained(m: ContainerMap, i: InstanceId, made: Option<ContainerId>): ContainerMap {
    if i !in m && made.Some? then m[i := made.value] else m
  }

  class ContainerManager {
    var containers: ContainerMap

    constructor ()
      ensures containers == map[]
    {
      containers := map[];
    }

    method GetOrCreateContainer(i: InstanceId, made: Option<ContainerId>) returns (r: Option<ContainerId>)
      modifies this
      ensures containers == Obtained(old(containers), i, made)
      ensures r == if i in containers then Some(containers[i]) else None
      ensures i in old(containers) ==> r == Some(old(containers)[i]) && containers == old(containers)
      ensures r == None <==> i !in old(containers) && made == None
      ensures i !in old(containers) && made.Some? ==> r == made && containers == old(containers)[i := made.value]
      ensures i !in old(containers) && made == None ==> containers == old(containers)
    {
      if i in containers {
        return Some(containers[i]);
      }
      match made
      case None =>
        return None;
      case Some(c) =>
        containers := containers[i := c];
        return Some(c);
    }

    /** A failed stop is only logged: the entry goes away either way. */
    method ReleaseContainer(i: InstanceId, stopFails: bool) returns (stopped: Option<ContainerId>)
      modifies this
      ensures containers == old(containers) - {i}
      ensures i !in old(containers) ==> stopped == None && containers == old(containers)
      ensures i in old(containers) ==> (stopped == if stopFails then None else Some(old(containers)[i]))
    {
      stopped := None;
      if i !in containers {
        return;
      }
      if !stopFails {
        stopped := Some(containers[i]);
      }
      containers := containers - {i};
    }
  }

  /** As long as Docker never reuses an identifier, two instances never share a container. */
  lemma ObtainedKeepsDistinct(m: ContainerMap, i: InstanceId, made: Option<ContainerId>, used: set<ContainerId>)
    requires InjectiveMap(m) && m.Values <= used
    requires made.Some? ==> made.value !in used
    ensures InjectiveMap(Obtained(m, i, made))
    ensures Obtained(m, i, made).Values <= used + if made.Some? then {made.value} else {}
  {
    var n := Obtained(m, i, made);
    forall j, k | j in n && k in n && n[j] == n[k] ensures j == k {
      if j != i && j in m { assert m[j] in m.Values; }
      if k != i && k in m { assert m[k] in m.Values; }
    }
    forall c | c in n.Values ensures c in used + if made.Some? then {made.value} else {} {
      var j :| j in n && n[j] == c;
      if j in m && n[j] == m[j] { assert m[j] in m.Values; }
    }
  }
}
