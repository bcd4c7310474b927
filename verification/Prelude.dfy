/** Identifiers and small datatypes shared by every module. Database and Docker identifiers are opaque, so naturals
    stand for them: only equality matters. */
module Prelude {
  type InstanceId = nat
  type WorkerId = nat
  type AgentId = nat
  type ContainerId = nat
  type FamilyId = nat

  datatype Option<+T> = None | Some(value: T)

  datatype Result<+T, +E> = Ok(value: T) | Err(error: E)

  /** Taking the element at `i` out. */
  function Without<T>(s: seq<T>, i: nat): seq<T>
    requires i < |s|
  {
    s[..i] + s[i + 1..]
  }

  ghost predicate Distinct<T>(s: seq<T>) {
    forall j, k | 0 <= j < k < |s| :: s[j] != s[k]
  }

  ghost predicate InjectiveMap<K, V>(m: map<K, V>) {
    forall j, k | j in m && k in m && m[j] == m[k] :: j == k
  }

  /** An injective map has exactly as many keys as values. */
  lemma {:induction false} InjectiveSize<K, V>(m: map<K, V>)
    requires InjectiveMap(m)
    ensures |m.Keys| == |m.Values|
    decreases m.Keys
  {
    if m.Keys != {} {
      var k :| k in m;
      var rest := m - {k};
      assert rest.Keys == m.Keys - {k};
      assert m.Values == rest.Values + {m[k]} by {
        forall v | v in m.Values ensures v in rest.Values + {m[k]} {
          var j :| j in m && m[j] == v;
          if j != k { assert j in rest && rest[j] == v; }
        }
      }
      assert m[k] !in rest.Values;
      InjectiveSize(rest);
    }
  }

  lemma {:induction false} SubsetSize<T>(small: set<T>, big: set<T>)
    requires small <= big
    ensures |small| <= |big|
    ensures |small| == |big| ==> small == big
    decreases small
  {
    if small != {} {
      var x :| x in small;
      SubsetSize(small - {x}, big - {x});
    }
  }

  lemma DistinctFromMultiset<T>(s: seq<T>, t: seq<T>)
    requires Distinct(s) && multiset(s) == multiset(t)
    ensures Distinct(t)
    ensures forall x :: x in s <==> x in t
  {
    forall x | x in t ensures x in s { assert x in multiset(t); }
    forall x | x in s ensures x in t { assert x in multiset(s); }
    forall j, k | 0 <= j < k < |t| ensures t[j] != t[k] {
      if t[j] == t[k] {
        var x := t[j];
        assert t == t[..j] + [x] + t[j + 1..k] + [x] + t[k + 1..];
        assert multiset(t)[x] >= 2;
        OnceInDistinct(s, x);
      }
    }
  }

  lemma {:induction false} OnceInDistinct<T>(s: seq<T>, x: T)
    requires Distinct(s)
    ensures multiset(s)[x] <= 1
  {
    if s != [] {
      assert s == [s[0]] + s[1..];
      OnceInDistinct(s[1..], x);
      if s[0] == x {
        assert x !in s[1..];
      }
    }
  }

  /** A queue that held exactly what was sent and not yet taken still does after more was sent and taken. */
  lemma Rebalance<T>(sent: seq<T>, taken: seq<T>, before: seq<T>, after: seq<T>, s: seq<T>, t: seq<T>)
    requires sent == taken + before && before + s == t + after
    ensures sent + s == (taken + t) + after
  {
    assert sent + s == taken + (before + s);
  }

  lemma CountUp(good: iset<nat>, n: nat)
    requires 0 in good && forall m: nat | m < n && m in good :: m + 1 in good
    ensures n in good
  {
    var m := 0;
    while m < n
      invariant m <= n && m in good
    {
      m := m + 1;
    }
  }
}
