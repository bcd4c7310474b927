/** Task records and the order in which the global queue serves them
    (internal/models/models.go, internal/services/task/task_queue.go). */
module Tasks {
  import opened Prelude

  datatype Priority = Low | Normal | High | Critical | OtherPriority(name: string)

  datatype AgentType = Any | GeneralPurpose | Reasoner | OtherType(name: string)

  /** What the queue sees of a task. `created` is in nanoseconds. */
  datatype Task = Task(id: InstanceId, agentType: AgentType, priority: Priority, created: int, score: real)

  const NANOS_PER_MINUTE := 60_000_000_000

  /** The class of a priority; an unrecognised priority ranks as the lowest. */
  function Class(p: Priority): int {
    match p
    case Low => 0
    case Normal => 1
    case High => 2
    case Critical => 3
    case OtherPriority(_) => 0
  }

  function AgeMinutes(created: int, now: int): real {
    (now - created) as real / NANOS_PER_MINUTE as real
  }

  function Min(a: real, b: real): real { if a < b then a else b }

  /** CalculatePriorityScore without a session boost, the clock read being a parameter. */
  function Score(p: Priority, created: int, now: int): real {
    Class(p) as real + Min(AgeMinutes(created, now) / 60.0, 1.0)
  }

  /** What the sort looks at. */
  datatype Rank = Rank(score: real, created: int)

  predicate Ahead(a: Rank, b: Rank) {
    if a.score != b.score then a.score > b.score else a.created < b.created
  }

  function RankOf(t: Task): Rank {
    Rank(t.score, t.created)
  }

  /** The comparison handed to the sort: higher score first, then older first. */
  predicate Before(a: Task, b: Task) {
    Ahead(RankOf(a), RankOf(b))
  }

  ghost predicate Ordered(q: seq<Task>) {
    forall j, k | 0 <= j < k < |q| :: !Before(q[k], q[j])
  }

  /** The score of a queued task was computed at some moment not earlier than its creation. */
  ghost predicate ScoredAt(t: Task, at: int) {
    at >= t.created && t.score == Score(t.priority, t.created, at)
  }

  ghost predicate WellScored(t: Task) {
    exists at :: ScoredAt(t, at)
  }

  /** The exact cost of frozen scores. Task `low` may stand ahead of a task `high` of a strictly higher class only when
      the classes are adjacent, `low` had waited a full hour when it was scored, `high` was scored at the very moment
      of its creation, and `low` was created no later; and then it may. */
  lemma ClassInversion(low: Task, lowAt: int, high: Task, highAt: int)
    requires ScoredAt(low, lowAt) && ScoredAt(high, highAt)
    requires Class(low.priority) < Class(high.priority)
    ensures !Before(high, low) <==>
            && Class(high.priority) == Class(low.priority) + 1
            && AgeMinutes(low.created, lowAt) >= 60.0
            && highAt == high.created
            && low.created <= high.created
  {
    var la := AgeMinutes(low.created, lowAt);
    var ha := AgeMinutes(high.created, highAt);
    AgeSign(high.created, highAt);
    AgeSign(low.created, lowAt);
    assert 0.0 <= Min(la / 60.0, 1.0) <= 1.0;
    assert 0.0 <= Min(ha / 60.0, 1.0) <= 1.0;
    assert Class(high.priority) as real - Class(low.priority) as real >= 1.0;
    assert (Class(high.priority) - Class(low.priority)) as real
           == Class(high.priority) as real - Class(low.priority) as real;
  }

  /** What a score is made of. Classes are one point apart, an unrecognised priority ranks with the lowest, and a low
      task scored at its creation is worth nothing. */
  lemma ClassesAreSteps(created: int, now: int, name: string)
    ensures Score(Low, created, created) == 0.0
    ensures Score(OtherPriority(name), created, now) == Score(Low, created, now)
    ensures Score(Normal, created, now) == Score(Low, created, now) + 1.0
    ensures Score(High, created, now) == Score(Normal, created, now) + 1.0
    ensures Score(Critical, created, now) == Score(High, created, now) + 1.0
  {
  }

  /** Age counts in proportion up to an hour, for one point, and not beyond. */
  lemma AgeIsWorth(p: Priority, created: int, now: int)
    ensures now - created <= 3_600_000_000_000 ==>
              Score(p, created, now) == Score(p, created, created) + (now - created) as real / 3_600_000_000_000.0
    ensures now - created >= 3_600_000_000_000 ==> Score(p, created, now) == Score(p, created, created) + 1.0
  {
    var age := (now - created) as real;
    assert AgeMinutes(created, now) == age / 60_000_000_000.0;
    assert AgeMinutes(created, now) / 60.0 == age / 3_600_000_000_000.0;
    assert AgeMinutes(created, created) / 60.0 == 0.0;
  }

  /** Of two scorings of one priority, the one at the greater age is worth at least as much, and more by the difference
      in hours as long as that age is within the hour; it is worth strictly more if the lesser age is under an hour. */
  lemma OlderScoresMore(p: Priority, created: int, now: int, created': int, now': int)
    requires now - created <= now' - created'
    ensures Score(p, created, now) <= Score(p, created', now')
    ensures Score(p, created, now) < Score(p, created', now') <==>
            now - created < now' - created' && now - created < 3_600_000_000_000
    ensures now' - created' <= 3_600_000_000_000 ==>
              Score(p, created', now') - Score(p, created, now)
              == ((now' - created') - (now - created)) as real / 3_600_000_000_000.0
  {
    AgeIsWorth(p, created, now);
    AgeIsWorth(p, created', now');
    var a, b := (now - created) as real, (now' - created') as real;
    assert ((now' - created') - (now - created)) as real == b - a;
  }

  /** So of two tasks of one priority, the one older at its scoring goes before the other if either was under an hour
      old then, and otherwise the one created first does. */
  lemma OlderGoesBefore(a: Task, aAt: int, b: Task, bAt: int)
    requires a.priority == b.priority && aAt - a.created > bAt - b.created
    requires a.score == Score(a.priority, a.created, aAt) && b.score == Score(b.priority, b.created, bAt)
    ensures bAt - b.created < 3_600_000_000_000 ==> Before(a, b)
    ensures bAt - b.created >= 3_600_000_000_000 ==>
              (Before(a, b) <==> a.created < b.created) && (Before(b, a) <==> b.created < a.created)
  {
    OlderScoresMore(a.priority, b.created, bAt, a.created, aAt);
  }

  lemma AgeSign(created: int, at: int)
    requires at >= created
    ensures AgeMinutes(created, at) >= 0.0
    ensures AgeMinutes(created, at) == 0.0 <==> at == created
  {
    var d := (at - created) as real;
    assert d >= 0.0;
    assert AgeMinutes(created, at) == d / 60_000_000_000.0;
  }

  /** Consequently a queue in order serves every task of a class before every task two classes below it. */
  lemma NoDistantInversion(q: seq<Task>, j: int, k: int)
    requires Ordered(q) && 0 <= j < |q| && 0 <= k < |q|
    requires WellScored(q[j]) && WellScored(q[k])
    requires Class(q[j].priority) >= Class(q[k].priority) + 2
    ensures j < k
  {
    var jAt :| ScoredAt(q[j], jAt);
    var kAt :| ScoredAt(q[k], kAt);
    ClassInversion(q[k], kAt, q[j], jAt);
  }

  /** Order is kept by removing an element. */
  lemma OrderedWithout(q: seq<Task>, i: int)
    requires Ordered(q) && 0 <= i < |q|
    ensures Ordered(q[..i] + q[i + 1..])
  {
  }

  /** Which position a dequeue for `want` serves: the first of that type, else the first of all. */
  predicate Serves(t: Task, want: AgentType) {
    t.agentType == want || want == Any
  }

  function Choice(q: seq<Task>, want: AgentType, from: nat): (i: nat)
    requires from <= |q|
    ensures i <= |q|
    ensures i < |q| ==> Serves(q[i], want)
    ensures forall k | from <= k < i :: !Serves(q[k], want)
    decreases |q| - from
  {
    if from == |q| || Serves(q[from], want) then from else Choice(q, want, from + 1)
  }

  function Pick(q: seq<Task>, want: AgentType): nat
    requires |q| > 0
  {
    var i := Choice(q, want, 0);
    if i < |q| then i else 0
  }

  /** In an ordered queue the pick is the best task of the wanted type, or the best of all when there is none. */
  lemma PickIsBest(q: seq<Task>, want: AgentType)
    requires Ordered(q) && |q| > 0
    ensures var p := Pick(q, want);
            && p < |q|
            && (Serves(q[p], want) <==> exists k :: 0 <= k < |q| && Serves(q[k], want))
            && (forall k | 0 <= k < |q| && (Serves(q[k], want) || !Serves(q[p], want)) :: !Before(q[k], q[p]))
  {
    var i := Choice(q, want, 0);
    assert i < |q| ==> Serves(q[i], want);
  }

  // ---------------------------------------------------------------- what an unstable sort leaves open

  function Ranks(q: seq<Task>): (r: seq<Rank>)
    ensures |r| == |q| && forall k | 0 <= k < |q| :: r[k] == RankOf(q[k])
  {
    seq(|q|, k requires 0 <= k < |q| => RankOf(q[k]))
  }

  ghost predicate Falling(a: seq<Rank>) {
    forall j, k | 0 <= j < k < |a| :: !Ahead(a[k], a[j])
  }

  lemma {:induction false} FallingIsUnique(a: seq<Rank>, b: seq<Rank>)
    requires Falling(a) && Falling(b) && multiset(a) == multiset(b)
    ensures a == b
  {
    SameSize(a, b);
    if |a| > 0 {
      assert a[0] in multiset(b) && b[0] in multiset(a);
      assert a[0] in b && b[0] in a;
      assert !Ahead(a[0], b[0]) && !Ahead(b[0], a[0]);
      assert a[0] == b[0];
      assert a == [a[0]] + a[1..] && b == [b[0]] + b[1..];
      assert multiset(a[1..]) == multiset(a) - multiset{a[0]};
      assert multiset(b[1..]) == multiset(b) - multiset{b[0]};
      FallingIsUnique(a[1..], b[1..]);
    }
  }

  /** Two ordered queues with the same ranks, counted with multiplicity, have them in the same positions: whatever sort
      is used, and stable or not, only tasks that tie in score and creation time can change places. */
  lemma OrderDeterminesRanks(p: seq<Task>, q: seq<Task>)
    requires Ordered(p) && Ordered(q) && multiset(Ranks(p)) == multiset(Ranks(q))
    ensures Ranks(p) == Ranks(q)
  {
    RanksFall(p);
    RanksFall(q);
    FallingIsUnique(Ranks(p), Ranks(q));
  }

  lemma RanksFall(q: seq<Task>)
    requires Ordered(q)
    ensures Falling(Ranks(q))
  {
    forall j, k | 0 <= j < k < |q| ensures !Ahead(Ranks(q)[k], Ranks(q)[j]) {
      assert !Before(q[k], q[j]);
    }
  }

  lemma SameSize<T>(a: seq<T>, b: seq<T>)
    requires multiset(a) == multiset(b)
    ensures |a| == |b|
  {
    assert |a| == |multiset(a)| && |b| == |multiset(b)|;
  }
}
