/** Host sets of a pool: int32 counts, the order of host types, and the sorted status list. */
module HostSets {

  type HostType = string

  datatype HostSet = HostSet(hostType: HostType, replicas: int)

  // ---------------------------------------------------------------- int32

  const TWO_31: int := 0x8000_0000
  const TWO_32: int := 0x1_0000_0000

  /** Conversion to int32: two's complement wrap-around. */
  function ToInt32(n: int): (r: int)
    ensures -TWO_31 <= r < TWO_31
    ensures -TWO_31 <= n < TWO_31 ==> r == n
  {
    (n + TWO_31) % TWO_32 - TWO_31
  }

  /** int32 subtraction. */
  function Sub32(a: int, b: int): int {
    ToInt32(a - b)
  }

  /** For non-negative counts below 2^31 the delta is the mathematical difference. */
  lemma DeltaExact(replicas: int, count: nat)
    requires 0 <= replicas < TWO_31 && count < TWO_31
    ensures Sub32(replicas, ToInt32(count)) == replicas - count
  {
  }

  // ---------------------------------------------------------------- order of host types

  /** The order of Go strings: bytewise, a proper prefix first. */
  predicate Less(a: HostType, b: HostType)
    decreases |a|
  {
    if b == [] then false
    else if a == [] then true
    else a[0] < b[0] || (a[0] == b[0] && Less(a[1..], b[1..]))
  }

  lemma {:induction false} LessIrreflexive(a: HostType)
    ensures !Less(a, a)
    decreases |a|
  {
    if a != [] {
      LessIrreflexive(a[1..]);
    }
  }

  lemma {:induction false} LessTransitive(a: HostType, b: HostType, c: HostType)
    requires Less(a, b) && Less(b, c)
    ensures Less(a, c)
    decreases |a|
  {
    if a != [] && a[0] == b[0] == c[0] {
      LessTransitive(a[1..], b[1..], c[1..]);
    }
  }

  lemma {:induction false} LessTotal(a: HostType, b: HostType)
    ensures Less(a, b) || a == b || Less(b, a)
    decreases |a|
  {
    if a != [] && b != [] {
      LessTotal(a[1..], b[1..]);
      if a[0] == b[0] && a[1..] == b[1..] {
        assert a == [a[0]] + a[1..] == b;
      }
    }
  }

  // ---------------------------------------------------------------- the sorted list

  /** Strictly increasing host types: sorted, and no type twice. */
  ghost predicate StrictlySorted(s: seq<HostSet>) {
    forall i, j :: 0 <= i < j < |s| ==> Less(s[i].hostType, s[j].hostType)
  }

  ghost predicate Distinct(s: seq<HostSet>) {
    forall i, j :: 0 <= i < j < |s| ==> s[i].hostType != s[j].hostType
  }

  function Insert(x: HostSet, s: seq<HostSet>): (r: seq<HostSet>)
    ensures multiset(r) == multiset([x]) + multiset(s)
  {
    if s == [] then [x]
    else if Less(x.hostType, s[0].hostType) then [x] + s
    else
      assert s == [s[0]] + s[1..];
      [s[0]] + Insert(x, s[1..])
  }

  /** The result of sort.Slice by host type. */
  function Sort(s: seq<HostSet>): (r: seq<HostSet>)
    ensures multiset(r) == multiset(s)
  {
    if s == [] then []
    else
      assert s == [s[0]] + s[1..];
      Insert(s[0], Sort(s[1..]))
  }

  lemma {:induction false} InsertSorted(x: HostSet, s: seq<HostSet>)
    requires StrictlySorted(s) && forall y :: y in s ==> y.hostType != x.hostType
    ensures StrictlySorted(Insert(x, s))
    decreases |s|
  {
    if s != [] {
      if Less(x.hostType, s[0].hostType) {
        forall j | 0 <= j < |s|
          ensures Less(x.hostType, s[j].hostType)
        {
          if j > 0 {
            LessTransitive(x.hostType, s[0].hostType, s[j].hostType);
          }
        }
      } else {
        assert s[0] in s;
        LessTotal(x.hostType, s[0].hostType);
        forall y | y in s[1..]
          ensures y.hostType != x.hostType
        {
          assert y in s;
        }
        InsertSorted(x, s[1..]);
        var r := Insert(x, s[1..]);
        forall j | 0 <= j < |r|
          ensures Less(s[0].hostType, r[j].hostType)
        {
          assert r[j] in multiset(r);
          assert r[j] == x || r[j] in s[1..];
        }
      }
    }
  }

  lemma {:induction false} SortSorted(s: seq<HostSet>)
    requires Distinct(s)
    ensures StrictlySorted(Sort(s))
    decreases |s|
  {
    if s != [] {
      SortSorted(s[1..]);
      forall y | y in Sort(s[1..])
        ensures y.hostType != s[0].hostType
      {
        assert y in multiset(Sort(s[1..]));
        assert y in s[1..];
      }
      InsertSorted(s[0], Sort(s[1..]));
    }
  }

  lemma SameElements(s: seq<HostSet>, x: HostSet)
    ensures x in Sort(s) <==> x in s
  {
    assert x in multiset(Sort(s)) <==> x in multiset(s);
  }

  lemma SomeMember(s: seq<HostSet>)
    ensures s != [] ==> exists x :: x in s
  {
    if s != [] {
      assert s[0] in s;
    }
  }

  /** A strictly sorted list is determined by its entries, whatever order they were found in. */
  lemma {:induction false} SortedUnique(s: seq<HostSet>, t: seq<HostSet>)
    requires StrictlySorted(s) && StrictlySorted(t) && forall x :: x in s <==> x in t
    ensures s == t
    decreases |s|
  {
    SomeMember(t);
    if s != [] {
      assert s[0] in s;
      var k :| 0 <= k < |t| && t[k] == s[0];
      assert t[0] in t;
      var m :| 0 <= m < |s| && s[m] == t[0];
      if k > 0 && m > 0 {
        LessTransitive(s[0].hostType, s[m].hostType, s[0].hostType);
      }
      LessIrreflexive(s[0].hostType);
      LessIrreflexive(t[0].hostType);
      assert s[0] == t[0];
      forall x
        ensures x in s[1..] <==> x in t[1..]
      {
        TailMembers(s, x);
        TailMembers(t, x);
      }
      SortedUnique(s[1..], t[1..]);
      assert s == [s[0]] + s[1..] && t == [t[0]] + t[1..];
    }
  }

  lemma TailMembers(s: seq<HostSet>, x: HostSet)
    requires StrictlySorted(s) && s != []
    ensures x in s[1..] <==> x in s && x != s[0]
  {
    LessIrreflexive(s[0].hostType);
    if x in s && x != s[0] {
      var k :| 0 <= k < |s| && s[k] == x;
      assert s[1..][k - 1] == x;
    }
  }
}
