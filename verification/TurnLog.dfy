/** The write-behind turn log: a turn gets its number and its place in memory under the lock, and its row is inserted
    afterwards, outside the lock, and may fail. UNIQUE(instance_id, turn_id) guards the rows of one instance
    (internal/runtime/worker_context.go:39-118, internal/repository/repository.go:1213-1242,
    migrations/schema.sql:489-521; the orchestrator's log is the same). */
module TurnLog {
  import opened Prelude
  import opened Messages
  import opened Transcripts

  type Rows = map<nat, Turn>

  /** `memory` and `current` are the manager's fields; `pending` are the inserts not yet made. */
  datatype Log = Log(memory: seq<Turn>, current: nat, rows: Rows, pending: seq<Turn>)

  datatype LogEvent =
    | Append(k: Keeper, e: Entry)
    | InsertDone(j: nat)
    | InsertFailed(j: nat)

  function Appended(s: Log, k: Keeper, e: Entry): Log {
    var t := TurnOf(k, e, s.current + 1);
    s.(memory := s.memory + [t], current := s.current + 1, pending := s.pending + [t])
  }

  predicate CanLog(s: Log, v: LogEvent) {
    match v
    case Append(_, _) => true
    case InsertDone(j) => j < |s.pending| && s.pending[j].turnID !in s.rows
    case InsertFailed(j) => j < |s.pending|
  }

  function Logged(s: Log, v: LogEvent): Log
    requires CanLog(s, v)
  {
    match v
    case Append(k, e) => Appended(s, k, e)
    case InsertDone(j) =>
      s.(rows := s.rows[s.pending[j].turnID := s.pending[j]], pending := Without(s.pending, j))
    case InsertFailed(j) => s.(pending := Without(s.pending, j))
  }

  /** An insert is due that the database must refuse. */
  predicate Violation(s: Log) {
    exists j :: 0 <= j < |s.pending| && s.pending[j].turnID in s.rows
  }

  /** The states of a run from `s`; `vs` lists its events. */
  ghost predicate LogRun(s: Log, vs: seq<LogEvent>, t: Log)
    decreases |vs|
  {
    if |vs| == 0 then t == s else CanLog(s, vs[0]) && LogRun(Logged(s, vs[0]), vs[1..], t)
  }

  /** Some interleaving of appends and inserts runs into a refused insert. */
  ghost predicate CanViolate(s: Log) {
    exists vs, t :: LogRun(s, vs, t) && Violation(t)
  }

  /** Rows carry their own number. */
  ghost predicate Keyed(rows: Rows) {
    forall id | id in rows :: rows[id].turnID == id
  }

  /** No insert is due twice, or for a row that exists already. */
  ghost predicate Clean(s: Log) {
    && Keyed(s.rows)
    && (forall i, j | 0 <= i < j < |s.pending| :: s.pending[i].turnID != s.pending[j].turnID)
    && (forall j | 0 <= j < |s.pending| :: s.pending[j].turnID !in s.rows)
  }

  /** The counter is not behind any row or pending insert. */
  ghost predicate Covered(s: Log) {
    && (forall id | id in s.rows :: id <= s.current)
    && (forall j | 0 <= j < |s.pending| :: s.pending[j].turnID <= s.current)
  }

  /** The logs from which no interleaving of appends and inserts runs into a refused insert. */
  ghost function SoundLogs(): iset<Log> {
    iset s: Log | Clean(s) && Covered(s)
  }

  lemma CoveredKept(s: Log, v: LogEvent)
    requires Clean(s) && Covered(s) && CanLog(s, v)
    ensures Clean(Logged(s, v)) && Covered(Logged(s, v))
  {
    match v
    case Append(k, e) => AppendKeepsCovered(s, k, e);
    case InsertDone(j) => EndKeepsCovered(s, j, s.rows[s.pending[j].turnID := s.pending[j]]);
    case InsertFailed(j) => EndKeepsCovered(s, j, s.rows);
  }

  lemma AppendKeepsCovered(s: Log, k: Keeper, e: Entry)
    requires Clean(s) && Covered(s)
    ensures Clean(Appended(s, k, e)) && Covered(Appended(s, k, e))
  {
  }

  lemma EndKeepsCovered(s: Log, j: nat, rows: Rows)
    requires Clean(s) && Covered(s) && j < |s.pending|
    requires rows == s.rows || rows == s.rows[s.pending[j].turnID := s.pending[j]]
    ensures var t := s.(rows := rows, pending := Without(s.pending, j)); Clean(t) && Covered(t)
  {
  }

  lemma {:induction false} CoveredRun(s: Log, vs: seq<LogEvent>, t: Log)
    requires Clean(s) && Covered(s) && LogRun(s, vs, t)
    ensures Clean(t) && Covered(t)
    decreases |vs|
  {
    if |vs| > 0 {
      CoveredKept(s, vs[0]);
      CoveredRun(Logged(s, vs[0]), vs[1..], t);
    }
  }

  const FILLER := HeardUser("")

  /** `n` appends in a row. */
  function AppendRun(n: nat): (vs: seq<LogEvent>)
    ensures |vs| == n && forall j | 0 <= j < n :: vs[j] == Append(WorkerKeeps, FILLER)
  {
    seq(n, j => Append(WorkerKeeps, FILLER))
  }

  /** Appending until the counter reaches `id` leaves the rows alone and makes an insert of `id` due. */
  lemma {:induction false} AppendsReach(s: Log, n: nat) returns (t: Log)
    requires n > 0
    ensures LogRun(s, AppendRun(n), t)
    ensures t.rows == s.rows && t.current == s.current + n
    ensures |t.pending| == |s.pending| + n && t.pending[..|s.pending|] == s.pending
    ensures t.pending[|t.pending| - 1].turnID == s.current + n
    decreases n
  {
    var u := Appended(s, WorkerKeeps, FILLER);
    assert AppendRun(n)[1..] == AppendRun(n - 1);
    if n == 1 {
      t := u;
      assert LogRun(u, AppendRun(0), u);
    } else {
      t := AppendsReach(u, n - 1);
      assert t.pending[..|s.pending|] == u.pending[..|s.pending|];
    }
  }

  lemma {:induction false} RunThen(s: Log, vs: seq<LogEvent>, t: Log, v: LogEvent)
    requires LogRun(s, vs, t) && CanLog(t, v)
    ensures LogRun(s, vs + [v], Logged(t, v))
    decreases |vs|
  {
    if |vs| == 0 {
      assert LogRun(Logged(s, v), [], Logged(s, v));
      assert ([v])[1..] == [];
      assert vs + [v] == [v];
    } else {
      RunThen(Logged(s, vs[0]), vs[1..], t, v);
      assert (vs + [v])[1..] == vs[1..] + [v];
    }
  }

  /** The exact condition for the UNIQUE constraint to be safe: starting from a clean log, some interleaving of appends
      and inserts runs into a refused insert if and only if the counter is behind a row or a pending insert. */
  lemma ViolationIffCounterBehind(s: Log)
    requires Clean(s)
    ensures CanViolate(s) <==> !Covered(s)
  {
    if Covered(s) {
      forall vs, t | LogRun(s, vs, t) ensures !Violation(t) {
        CoveredRun(s, vs, t);
      }
    } else {
      BehindViolates(s);
    }
  }

  lemma BehindViolates(s: Log)
    requires Clean(s) && !Covered(s)
    ensures CanViolate(s)
  {
    if id :| id in s.rows && id > s.current {
      var t := AppendsReach(s, id - s.current);
      assert t.pending[|t.pending| - 1].turnID in t.rows;
      assert LogRun(s, AppendRun(id - s.current), t) && Violation(t);
    } else {
      var j :| 0 <= j < |s.pending| && s.pending[j].turnID > s.current;
      var id := s.pending[j].turnID;
      var t := AppendsReach(s, id - s.current);
      assert t.pending[j] == t.pending[..|s.pending|][j] == s.pending[j];
      var v := InsertDone(j);
      var u := Logged(t, v);
      RunThen(s, AppendRun(id - s.current), t, v);
      assert u.pending[|u.pending| - 1] == t.pending[|t.pending| - 1];
      assert Violation(u);
      assert LogRun(s, AppendRun(id - s.current) + [v], u);
    }
  }

  // ---------------------------------------------------------------- reload and clear

  ghost predicate Ascending(ts: seq<Turn>) {
    forall i, j | 0 <= i < j < |ts| :: ts[i].turnID < ts[j].turnID
  }

  /** The rows, each once, in ascending order of their numbers. */
  ghost predicate Listing(ts: seq<Turn>, rows: Rows) {
    && Ascending(ts)
    && (forall j | 0 <= j < |ts| :: ts[j].turnID in rows && rows[ts[j].turnID] == ts[j])
    && (forall id | id in rows :: rows[id] in ts)
  }

  /** LoadHistory replaces the memory by the listing; the counter moves only if there is a row. */
  function Reloaded(s: Log, listing: seq<Turn>): Log {
    s.(memory := listing, current := if |listing| > 0 then listing[|listing| - 1].turnID else s.current)
  }

  /** Clear forgets the memory and the counter, not the rows. */
  function Cleared(s: Log): Log {
    s.(memory := [], current := 0)
  }

  lemma ListingEnds(listing: seq<Turn>, rows: Rows)
    requires Listing(listing, rows) && Keyed(rows) && |listing| > 0
    ensures forall id | id in rows :: id <= listing[|listing| - 1].turnID
    ensures listing[|listing| - 1].turnID in rows
  {
    forall id | id in rows ensures id <= listing[|listing| - 1].turnID {
      var j :| 0 <= j < |listing| && listing[j] == rows[id];
    }
  }

  lemma ListingCounts(listing: seq<Turn>, rows: Rows)
    requires Listing(listing, rows)
    ensures |listing| == 0 <==> |rows| == 0
  {
    if |rows| > 0 {
      var id :| id in rows.Keys;
      assert rows[id] in listing;
    }
    if |listing| > 0 {
      assert listing[0].turnID in rows;
    }
  }

  /** Numbers issued after a reload collide, in some interleaving, exactly when an insert that was pending at the reload
      is ahead of every stored row. The worker reloads only when no insert is pending, so it is always safe. */
  lemma ReloadSafety(s: Log, listing: seq<Turn>)
    requires Clean(s) && Covered(s) && Listing(listing, s.rows)
    ensures CanViolate(Reloaded(s, listing)) <==>
            |s.rows| > 0 && exists j :: 0 <= j < |s.pending| && forall id | id in s.rows :: id < s.pending[j].turnID
  {
    var t := Reloaded(s, listing);
    ViolationIffCounterBehind(t);
    if |listing| > 0 {
      ListingEnds(listing, s.rows);
      var last := listing[|listing| - 1].turnID;
      if j :| 0 <= j < |s.pending| && s.pending[j].turnID > t.current {
        assert forall id | id in s.rows :: id < s.pending[j].turnID;
      }
    }
    ListingCounts(listing, s.rows);
  }

  /** Clear forgets where the numbers stood: from then on a refused insert is reachable exactly when a row is stored or
      an insert pending. A reload repairs it, once no insert is pending. */
  lemma ClearUnsafe(s: Log, listing: seq<Turn>)
    requires Clean(s) && (forall id | id in s.rows :: id > 0)
    requires forall j | 0 <= j < |s.pending| :: s.pending[j].turnID > 0
    requires Listing(listing, s.rows)
    ensures CanViolate(Cleared(s)) <==> |s.rows| > 0 || |s.pending| > 0
    ensures |s.pending| == 0 ==> !CanViolate(Reloaded(Cleared(s), listing))
  {
    ViolationIffCounterBehind(Cleared(s));
    ViolationIffCounterBehind(Reloaded(Cleared(s), listing));
    if |s.pending| > 0 {
      assert s.pending[0].turnID > Cleared(s).current;
    }
    ListingCounts(listing, s.rows);
    if |s.rows| > 0 {
      var id :| id in s.rows.Keys;
      assert id > Cleared(s).current;
      ListingEnds(listing, s.rows);
    }
  }

  // ---------------------------------------------------------------- memory and rows

  /** Memory numbers ascend up to the counter; every row and every pending insert is a turn in memory. */
  ghost predicate Mirrored(s: Log) {
    && Ascending(s.memory)
    && (forall j | 0 <= j < |s.memory| :: s.memory[j].turnID <= s.current)
    && (forall id | id in s.rows :: s.rows[id] in s.memory)
    && (forall j | 0 <= j < |s.pending| :: s.pending[j] in s.memory)
  }

  lemma MirrorKept(s: Log, v: LogEvent)
    requires Clean(s) && Mirrored(s) && CanLog(s, v)
    ensures Mirrored(Logged(s, v))
  {
    var t := Logged(s, v);
    assert forall x | x in s.memory :: x in t.memory;
    match v
    case Append(_, _) =>
    case InsertDone(j) =>
    case InsertFailed(j) =>
  }

  lemma {:induction false} MirrorRun(s: Log, vs: seq<LogEvent>, t: Log)
    requires Clean(s) && Covered(s) && Mirrored(s) && LogRun(s, vs, t)
    ensures Mirrored(t)
    decreases |vs|
  {
    if |vs| > 0 {
      MirrorKept(s, vs[0]);
      CoveredKept(s, vs[0]);
      MirrorRun(Logged(s, vs[0]), vs[1..], t);
    }
  }

  /** The turns of `ts` that are stored. */
  function Stored(ts: seq<Turn>, rows: Rows): (r: seq<Turn>)
    ensures forall t | t in r :: t in ts
  {
    if |ts| == 0 then []
    else Stored(ts[..|ts| - 1], rows) + (if Survives(ts[|ts| - 1], rows) then [ts[|ts| - 1]] else [])
  }

  predicate Survives(t: Turn, rows: Rows) {
    t.turnID in rows && rows[t.turnID] == t
  }

  lemma {:induction false} StoredAscends(ts: seq<Turn>, rows: Rows)
    requires Ascending(ts)
    ensures Ascending(Stored(ts, rows))
    ensures forall t | t in Stored(ts, rows) :: Survives(t, rows)
    ensures forall t | t in ts && Survives(t, rows) :: t in Stored(ts, rows)
  {
    if |ts| > 0 {
      var n := |ts| - 1;
      StoredAscends(ts[..n], rows);
      forall j | 0 <= j < |Stored(ts[..n], rows)| ensures Stored(ts[..n], rows)[j].turnID < ts[n].turnID {
        assert Stored(ts[..n], rows)[j] in ts[..n];
        var i :| 0 <= i < n && ts[i] == Stored(ts[..n], rows)[j];
      }
    }
  }

  /** An ascending listing of the rows is unique. */
  lemma {:induction false} ListingUnique(a: seq<Turn>, b: seq<Turn>)
    requires Ascending(a) && Ascending(b) && (forall t :: t in a <==> t in b)
    ensures a == b
  {
    if |a| > 0 || |b| > 0 {
      assert |a| > 0 && |b| > 0 by {
        if |a| > 0 { assert a[0] in b; }
        if |b| > 0 { assert b[0] in a; }
      }
      var m, n := |a| - 1, |b| - 1;
      assert a[m] in b && b[n] in a;
      assert a[m] == b[n];
      forall t ensures t in a[..m] <==> t in b[..n] {
        TailOnly(a, t);
        TailOnly(b, t);
      }
      ListingUnique(a[..m], b[..n]);
    }
  }

  lemma TailOnly(a: seq<Turn>, t: Turn)
    requires Ascending(a) && |a| > 0
    ensures t in a[..|a| - 1] <==> t in a && t != a[|a| - 1]
  {
  }

  /** What a reload rebuilds: exactly the turns of memory whose insert has succeeded, in their order. In particular a
      reload with every turn stored changes nothing. */
  lemma ReloadKeepsStored(s: Log, listing: seq<Turn>)
    requires Keyed(s.rows) && Mirrored(s) && Listing(listing, s.rows)
    ensures listing == Stored(s.memory, s.rows)
    ensures listing == s.memory <==> forall t | t in s.memory :: Survives(t, s.rows)
  {
    StoredAscends(s.memory, s.rows);
    forall t ensures t in listing <==> t in Stored(s.memory, s.rows) {
      if t in listing {
        assert s.rows[t.turnID] in s.memory;
      }
      if t in Stored(s.memory, s.rows) {
        assert s.rows[t.turnID] in listing;
      }
    }
    ListingUnique(listing, Stored(s.memory, s.rows));
    if forall t | t in s.memory :: Survives(t, s.rows) {
      forall t ensures t in s.memory <==> t in Stored(s.memory, s.rows) {}
      ListingUnique(s.memory, Stored(s.memory, s.rows));
    }
  }

  /** After a reload memory mirrors the rows and the pending inserts again exactly when no insert was pending. */
  lemma ReloadMirrors(s: Log, listing: seq<Turn>)
    requires Clean(s) && Listing(listing, s.rows)
    ensures Mirrored(Reloaded(s, listing)) <==> |s.pending| == 0
  {
    var t := Reloaded(s, listing);
    if |listing| > 0 {
      ListingEnds(listing, s.rows);
    }
    assert forall x | x in listing :: x.turnID in s.rows;
    assert |s.pending| > 0 ==> s.pending[0].turnID !in s.rows;
  }

  /** `a` comes out of `b` by leaving elements out. */
  predicate Subsequence<T(==)>(a: seq<T>, b: seq<T>)
    decreases |b|
  {
    || |a| == 0
    || (|b| > 0 && ((a[|a| - 1] == b[|b| - 1] && Subsequence(a[..|a| - 1], b[..|b| - 1]))
                    || Subsequence(a, b[..|b| - 1])))
  }

  lemma SubsequenceGrows<T>(a: seq<T>, b: seq<T>, x: T)
    requires Subsequence(a, b)
    ensures Subsequence(a, b + [x]) && Subsequence(a + [x], b + [x])
  {
    assert (a + [x])[..|a|] == a && (b + [x])[..|b|] == b;
  }

  lemma SubsequenceMessage(a: seq<ChatMessage>, b: seq<ChatMessage>, m: seq<ChatMessage>, kept: bool,
                           a': seq<ChatMessage>, b': seq<ChatMessage>)
    requires Subsequence(a, b) && |m| <= 1
    requires a' == (if kept then a + m else a) && b' == b + m
    ensures Subsequence(a', b')
  {
    if |m| == 0 {
      assert a + m == a && b + m == b;
    } else {
      assert m == [m[0]];
      SubsequenceGrows(a, b, m[0]);
    }
  }

  lemma LastStored(ts: seq<Turn>, t: Turn, rows: Rows)
    ensures Stored(ts + [t], rows) == if Survives(t, rows) then Stored(ts, rows) + [t] else Stored(ts, rows)
  {
    assert (ts + [t])[..|ts|] == ts;
  }

  lemma StoredStep(ts: seq<Turn>, t: Turn, rows: Rows)
    requires Subsequence(TurnMessages(Stored(ts, rows)), TurnMessages(ts))
    ensures Subsequence(TurnMessages(Stored(ts + [t], rows)), TurnMessages(ts + [t]))
  {
    LastStored(ts, t, rows);
    LastTurn(ts, t);
    LastTurn(Stored(ts, rows), t);
    SubsequenceMessage(TurnMessages(Stored(ts, rows)), TurnMessages(ts), TurnMessage(t), Survives(t, rows),
                       TurnMessages(Stored(ts + [t], rows)), TurnMessages(ts + [t]));
  }

  lemma {:induction false} StoredMessages(ts: seq<Turn>, rows: Rows)
    ensures Subsequence(TurnMessages(Stored(ts, rows)), TurnMessages(ts))
  {
    if |ts| > 0 {
      var n := |ts| - 1;
      StoredMessages(ts[..n], rows);
      StoredStep(ts[..n], ts[n], rows);
      assert ts == ts[..n] + [ts[n]];
    }
  }

  /** The messages rebuilt after a reload are those of memory with some left out. */
  lemma ReloadRebuildsLess(s: Log, listing: seq<Turn>)
    requires Keyed(s.rows) && Mirrored(s) && Listing(listing, s.rows)
    ensures Subsequence(TurnMessages(listing), TurnMessages(s.memory))
    ensures (forall t | t in s.memory :: Survives(t, s.rows)) ==> TurnMessages(listing) == TurnMessages(s.memory)
  {
    ReloadKeepsStored(s, listing);
    StoredMessages(s.memory, s.rows);
  }

  // ---------------------------------------------------------------- runs without failures

  /** Every turn in memory is stored, or its insert is still to come. */
  ghost predicate NothingLost(s: Log) {
    forall t | t in s.memory :: Survives(t, s.rows) || t in s.pending
  }

  lemma NothingLostKept(s: Log, v: LogEvent)
    requires Clean(s) && Covered(s) && NothingLost(s) && CanLog(s, v) && !v.InsertFailed?
    ensures NothingLost(Logged(s, v))
  {
    var u := Logged(s, v);
    forall t | t in u.memory ensures Survives(t, u.rows) || t in u.pending {
      match v
      case Append(k, e) =>
        assert t in s.memory || t == TurnOf(k, e, s.current + 1);
        assert u.pending[|s.pending|] == TurnOf(k, e, s.current + 1);
        assert forall p | p in s.pending :: p in u.pending;
      case InsertDone(j) =>
        assert t in s.memory;
        if t in s.pending && t != s.pending[j] {
          InWithout(s.pending, j, t);
        }
    }
  }

  lemma InWithout<T>(s: seq<T>, j: nat, t: T)
    requires j < |s| && t in s && t != s[j]
    ensures t in Without(s, j)
  {
    var i :| 0 <= i < |s| && s[i] == t;
    assert Without(s, j)[if i < j then i else i - 1] == t;
  }

  lemma {:induction false} NothingLostRun(s: Log, vs: seq<LogEvent>, t: Log)
    requires Clean(s) && Covered(s) && NothingLost(s) && LogRun(s, vs, t) && forall v | v in vs :: !v.InsertFailed?
    ensures NothingLost(t)
    decreases |vs|
  {
    if |vs| > 0 {
      CoveredKept(s, vs[0]);
      NothingLostKept(s, vs[0]);
      NothingLostRun(Logged(s, vs[0]), vs[1..], t);
    }
  }

  /** Turn `x` is in memory, and no insert of it is due or done. */
  ghost predicate Lost(s: Log, x: Turn) {
    && x in s.memory && x.turnID <= s.current && x.turnID !in s.rows
    && forall p | p in s.pending :: p.turnID != x.turnID
  }

  lemma LostKept(s: Log, v: LogEvent, x: Turn)
    requires Lost(s, x) && CanLog(s, v)
    ensures Lost(Logged(s, v), x)
  {
    var u := Logged(s, v);
    forall p | p in u.pending ensures p.turnID != x.turnID {
      assert p in s.pending || p.turnID == s.current + 1;
    }
  }

  lemma {:induction false} LostRun(s: Log, vs: seq<LogEvent>, t: Log, x: Turn)
    requires Lost(s, x) && LogRun(s, vs, t)
    ensures Lost(t, x)
    decreases |vs|
  {
    if |vs| > 0 {
      LostKept(s, vs[0], x);
      LostRun(Logged(s, vs[0]), vs[1..], t, x);
    }
  }

  lemma FailureLoses(s: Log, j: nat)
    requires Clean(s) && Covered(s) && Mirrored(s) && j < |s.pending|
    ensures Lost(Logged(s, InsertFailed(j)), s.pending[j])
  {
    var x, rest := s.pending[j], Without(s.pending, j);
    forall p | p in rest ensures p.turnID != x.turnID {
      var i :| 0 <= i < |rest| && rest[i] == p;
      assert p == s.pending[if i < j then i else i + 1];
    }
  }

  /** A run with a failed insert ends with a turn in memory that will never be stored. */
  lemma {:induction false} FailedRunLoses(s: Log, vs: seq<LogEvent>, t: Log) returns (x: Turn)
    requires Clean(s) && Covered(s) && Mirrored(s) && LogRun(s, vs, t)
    requires exists v :: v in vs && v.InsertFailed?
    ensures Lost(t, x)
    decreases |vs|
  {
    var u := Logged(s, vs[0]);
    if vs[0].InsertFailed? {
      x := s.pending[vs[0].j];
      FailureLoses(s, vs[0].j);
      LostRun(u, vs[1..], t, x);
    } else {
      CoveredKept(s, vs[0]);
      MirrorKept(s, vs[0]);
      x := FailedRunLoses(u, vs[1..], t);
    }
  }

  /** Over every interleaving, once all inserts are done, a reload changes nothing if and only if none failed. */
  lemma ReloadIsIdentity(s: Log, vs: seq<LogEvent>, t: Log, listing: seq<Turn>)
    requires Clean(s) && Covered(s) && Mirrored(s) && NothingLost(s)
    requires LogRun(s, vs, t) && |t.pending| == 0 && Listing(listing, t.rows)
    ensures listing == t.memory <==> forall v | v in vs :: !v.InsertFailed?
  {
    CoveredRun(s, vs, t);
    MirrorRun(s, vs, t);
    ReloadKeepsStored(t, listing);
    if forall v | v in vs :: !v.InsertFailed? {
      NothingLostRun(s, vs, t);
    } else {
      var x := FailedRunLoses(s, vs, t);
      assert x in t.memory && !Survives(x, t.rows);
    }
  }
}
