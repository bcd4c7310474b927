/** How each part of the invariant about executeTask takes one elementary change. */
module RunningMoves {
  import opened Prelude
  import opened Containers
  import opened Engine
  import opened EngineInvariant

  // ---------------------------------------------------------------- owners

  /** A worker that carries no container of its own, before or after, changes state or phase. */
  lemma OwnedMove(owner: map<InstanceId, Owner>, containers: ContainerMap, worker: map<WorkerId, Worker>,
                  phase: map<WorkerId, Phase>, registry: map<AgentId, Entry>, releasing: multiset<InstanceId>,
                  w: WorkerId, worker': map<WorkerId, Worker>, phase': map<WorkerId, Phase>)
    requires Owned(owner, containers, worker, phase, registry, releasing)
    requires w in worker && w in phase ==> !Carries(worker[w], phase[w])
    requires w in worker' && w in phase' ==> !Carries(worker'[w], phase'[w])
    requires forall v | v != w :: (v in worker <==> v in worker') && (v in worker ==> worker[v] == worker'[v])
    requires forall v | v != w :: (v in phase <==> v in phase') && (v in phase ==> phase[v] == phase'[v])
    ensures Owned(owner, containers, worker', phase', registry, releasing)
  {
  }

  lemma OwnedObtain(owner: map<InstanceId, Owner>, containers: ContainerMap, worker: map<WorkerId, Worker>,
                    phase: map<WorkerId, Phase>, registry: map<AgentId, Entry>, releasing: multiset<InstanceId>,
                    w: WorkerId, id: ContainerId)
    requires Owned(owner, containers, worker, phase, registry, releasing)
    requires w in worker && worker[w].Busy? && w in phase && phase[w].Starting? && worker[w].task !in containers
    ensures var i := worker[w].task;
            Owned(owner[i := Creator(w)], containers[i := id], worker, phase[w := Creating(Some(id))], registry,
                  releasing)
  {
  }

  lemma OwnedRegister(owner: map<InstanceId, Owner>, containers: ContainerMap, worker: map<WorkerId, Worker>,
                      phase: map<WorkerId, Phase>, registry: map<AgentId, Entry>, releasing: multiset<InstanceId>,
                      w: WorkerId, a: AgentId)
    requires Owned(owner, containers, worker, phase, registry, releasing)
    requires w in worker && w in phase && Carries(worker[w], phase[w]) && a !in registry
    ensures var i := worker[w].task;
            Owned(owner[i := Registered(a)], containers, worker, phase[w := Greeting],
                  registry[a := Entry(i, phase[w].container)], releasing)
  {
  }

  /** An entry without a container comes or goes. */
  lemma OwnedEntry(owner: map<InstanceId, Owner>, containers: ContainerMap, worker: map<WorkerId, Worker>,
                   phase: map<WorkerId, Phase>, registry: map<AgentId, Entry>, releasing: multiset<InstanceId>,
                   a: AgentId, i: InstanceId)
    requires Owned(owner, containers, worker, phase, registry, releasing)
    requires a in registry ==> registry[a].container == None
    ensures Owned(owner, containers, worker, phase, registry[a := Entry(i, None)], releasing)
    ensures Owned(owner, containers, worker, phase, registry - {a}, releasing)
  {
  }

  lemma OwnedUnregister(owner: map<InstanceId, Owner>, containers: ContainerMap, worker: map<WorkerId, Worker>,
                        phase: map<WorkerId, Phase>, registry: map<AgentId, Entry>, releasing: multiset<InstanceId>,
                        a: AgentId)
    requires Owned(owner, containers, worker, phase, registry, releasing)
    requires a in registry && registry[a].container.Some?
    ensures var i := registry[a].task;
            Owned(owner[i := Releaser], containers, worker, phase, registry - {a}, releasing + multiset{i})
  {
  }

  lemma OwnedRelease(owner: map<InstanceId, Owner>, containers: ContainerMap, worker: map<WorkerId, Worker>,
                     phase: map<WorkerId, Phase>, registry: map<AgentId, Entry>, releasing: multiset<InstanceId>,
                     i: InstanceId)
    requires Owned(owner, containers, worker, phase, registry, releasing) && i in releasing
    ensures Owned(owner - {i}, containers - {i}, worker, phase, registry, releasing - multiset{i})
  {
  }

  // ---------------------------------------------------------------- container identifiers

  lemma ContainedObtain(containers: ContainerMap, ids: set<ContainerId>, registry: map<AgentId, Entry>,
                        started: set<InstanceId>, i: InstanceId, made: Option<ContainerId>)
    requires Contained(containers, ids, registry, started) && i !in containers && i in started
    requires made.Some? ==> made.value !in ids
    ensures Contained(Obtained(containers, i, made), ids + (if made.Some? then {made.value} else {}), registry, started)
  {
    ObtainedKeepsDistinct(containers, i, made, ids);
  }

  lemma ContainedRelease(containers: ContainerMap, ids: set<ContainerId>, registry: map<AgentId, Entry>,
                         started: set<InstanceId>, i: InstanceId)
    requires Contained(containers, ids, registry, started)
    requires forall a | a in registry && registry[a].container.Some? :: registry[a].task != i
    ensures Contained(containers - {i}, ids, registry, started)
  {
    var m := containers - {i};
    forall c | c in m.Values ensures c in ids {
      var j :| j in m && m[j] == c;
      assert containers[j] in containers.Values;
    }
  }

  // ---------------------------------------------------------------- phases

  /** The input queue and the absence of children matter to this phase. */
  predicate Young(at: Phase) {
    at.Starting? || at.Creating? || at.Greeting? || (at.Listening? && at.first) || (at.Prompting? && at.first)
  }

  ghost predicate SameAt<K, V>(m: map<K, V>, n: map<K, V>, k: K) {
    (k in m <==> k in n) && (k in m ==> m[k] == n[k])
  }

  ghost predicate Extends<K, V>(m: map<K, V>, n: map<K, V>) {
    forall k | k in m :: k in n && n[k] == m[k]
  }

  /** A worker's facts survive what other goroutines do. */
  lemma PhaseFrame(c: Config, s: State, t: State, w: WorkerId)
    requires BusyAt(s, w) && PhaseOk(c, s, w)
    requires SameAt(s.worker, t.worker, w) && SameAt(s.phase, t.phase, w)
    requires SameAt(s.registry, t.registry, s.worker[w].agent)
    requires Extends(s.parent, t.parent) && Extends(s.level, t.level) && Extends(s.assignee, t.assignee)
    requires Young(s.phase[w]) ==>
               SameAt(s.inbox, t.inbox, s.worker[w].agent) && Childless(t.parent, s.worker[w].task)
    requires s.phase[w].Starting? || s.phase[w].Creating? ==>
               SameAt(s.containers, t.containers, s.worker[w].task)
    ensures BusyAt(t, w) && PhaseOk(c, t, w)
  {
  }

  /** Worker `w` does something that only it can see, or that touches only its own agent and task. */
  lemma PhasedOwn(c: Config, s: State, t: State, w: WorkerId)
    requires HeldIn(s) && StaffedIn(c, s) && Phased(c, s) && BusyAt(s, w) && BusyAt(t, w) && PhaseOk(c, t, w)
    requires t.worker == s.worker && t.phase == s.phase[w := t.phase[w]]
    requires t.parent == s.parent && t.level == s.level && t.assignee == s.assignee
    requires forall a | a != s.worker[w].agent :: SameAt(s.registry, t.registry, a) && SameAt(s.inbox, t.inbox, a)
    requires forall i | i != s.worker[w].task :: SameAt(s.containers, t.containers, i)
    ensures Phased(c, t)
  {
    forall v | BusyAt(t, v) ensures PhaseOk(c, t, v) {
      if v != w {
        assert BusyAt(s, v) && PhaseOk(c, s, v);
        DifferentWorkers(c, s, v, w);
        PhaseFrame(c, s, t, v);
      }
    }
  }

  /** Two busy workers run different tasks with different agents. */
  lemma DifferentWorkers(c: Config, s: State, v: WorkerId, w: WorkerId)
    requires HeldIn(s) && StaffedIn(c, s) && BusyAt(s, v) && BusyAt(s, w) && v != w
    ensures s.worker[v].task != s.worker[w].task && s.worker[v].agent != s.worker[w].agent
  {
  }

  /** Nothing a phase depends on changes, except that the store may grow. */
  lemma PhasedQuiet(c: Config, s: State, t: State)
    requires Phased(c, s)
    requires t.phase == s.phase && t.registry == s.registry && t.inbox == s.inbox && t.containers == s.containers
    requires forall w | BusyAt(t, w) :: BusyAt(s, w) && t.worker[w] == s.worker[w]
    requires Extends(s.parent, t.parent) && Extends(s.level, t.level) && Extends(s.assignee, t.assignee)
    requires forall w | BusyAt(s, w) && Young(s.phase[w]) :: Childless(t.parent, s.worker[w].task)
    ensures Phased(c, t)
  {
    forall w | BusyAt(t, w) ensures PhaseOk(c, t, w) {
      assert BusyAt(s, w);
      PhaseFrame(c, s, t, w);
    }
  }

  // ---------------------------------------------------------------- children on their way

  lemma NewbornMove(place: map<InstanceId, Place>, phase: map<WorkerId, Phase>, i: InstanceId, p: Place)
    requires Newborn(place, phase) && (i in place ==> !place[i].CreatedBy?) && !p.CreatedBy?
    ensures Newborn(place[i := p], phase)
  {
  }

  lemma NewbornPhase(place: map<InstanceId, Place>, phase: map<WorkerId, Phase>, w: WorkerId, at: Phase)
    requires Newborn(place, phase) && (w in phase ==> !phase[w].Sending?) && !at.Sending?
    ensures Newborn(place, phase[w := at])
    ensures Newborn(place, phase - {w})
  {
  }

  lemma NewbornBorn(place: map<InstanceId, Place>, phase: map<WorkerId, Phase>, w: WorkerId, at: Phase)
    requires Newborn(place, phase) && (w in phase ==> !phase[w].Sending?) && at.Sending? && at.child !in place
    ensures Newborn(place[at.child := CreatedBy(w)], phase[w := at])
  {
  }

  lemma NewbornSent(place: map<InstanceId, Place>, phase: map<WorkerId, Phase>, w: WorkerId, at: Phase)
    requires Newborn(place, phase) && w in phase && phase[w].Sending? && !at.Sending?
    ensures Newborn(place[phase[w].child := InChannel], phase[w := at])
  {
  }
}
