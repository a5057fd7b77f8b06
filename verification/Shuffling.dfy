/** rand.Shuffle: swaps from the back, with an arbitrary partner each time. */
module Shuffling {

  function Swap<T>(s: seq<T>, i: nat, j: nat): (r: seq<T>)
    requires i < |s| && j < |s|
    ensures |r| == |s| && multiset(r) == multiset(s)
  {
    s[i := s[j]][j := s[i]]
  }

  /** The random numbers of a shuffle of n elements: the k-th swap has a partner in the part not done yet. */
  predicate Picks(js: seq<nat>, n: nat) {
    |js| == (if n == 0 then 0 else n - 1) && forall k :: 0 <= k < |js| ==> js[k] < n - k
  }

  /** What these random numbers make of s. */
  function Shuffled<T>(s: seq<T>, js: seq<nat>): (r: seq<T>)
    requires Picks(js, |s|)
    ensures |r| == |s|
    decreases |s|
  {
    if |s| <= 1 then s
    else
      var last, r := |s| - 1, Swap(s, |s| - 1, js[0]);
      assert forall k :: 0 <= k < |js| - 1 ==> js[1..][k] == js[k + 1];
      Shuffled(r[..last], js[1..]) + [r[last]]
  }

  lemma {:induction false} ShuffledSame<T>(s: seq<T>, js: seq<nat>)
    requires Picks(js, |s|)
    ensures multiset(Shuffled(s, js)) == multiset(s)
    decreases |s|
  {
    if |s| > 1 {
      var r := Swap(s, |s| - 1, js[0]);
      assert r == r[..|s| - 1] + [r[|s| - 1]];
      assert forall k :: 0 <= k < |js| - 1 ==> js[1..][k] == js[k + 1];
      ShuffledSame(r[..|s| - 1], js[1..]);
    }
  }

  /** Every order can come out: no element is kept from any place. */
  lemma {:induction false} EveryOrder<T>(s: seq<T>, t: seq<T>) returns (js: seq<nat>)
    requires multiset(t) == multiset(s)
    ensures Picks(js, |s|) && Shuffled(s, js) == t
    decreases |s|
  {
    SameLength(s, t);
    if |s| <= 1 {
      js := [];
      Single(s, t);
    } else {
      var j, front := LastFirst(s, t);
      hide Shuffled, Picks;
      var rest := EveryOrder(front, t[..|t| - 1]);
      js := [j] + rest;
      assert t == t[..|t| - 1] + [t[|t| - 1]];
    }
  }

  /** The first swap can bring up the element that t ends with, and leaves the others to be shuffled. */
  lemma LastFirst<T>(s: seq<T>, t: seq<T>) returns (j: nat, front: seq<T>)
    requires multiset(t) == multiset(s) && |s| == |t| > 1
    ensures |front| == |s| - 1 && multiset(front) == multiset(t[..|t| - 1])
    ensures forall rest {:trigger [j] + rest} :: Picks(rest, |front|) ==>
              Picks([j] + rest, |s|) && Shuffled(s, [j] + rest) == Shuffled(front, rest) + [t[|t| - 1]]
  {
    var last := |s| - 1;
    j := IndexOf(s, t);
    var r := Swap(s, last, j);
    front := r[..last];
    SameFront(r, t);
    forall rest {:trigger [j] + rest} | Picks(rest, |front|)
      ensures Picks([j] + rest, |s|) && Shuffled(s, [j] + rest) == Shuffled(front, rest) + [t[|t| - 1]]
    {
      FirstPick(s, j, rest);
    }
  }

  lemma FirstPick<T>(s: seq<T>, j: nat, rest: seq<nat>)
    requires |s| > 1 && j < |s| && Picks(rest, |s| - 1)
    ensures Picks([j] + rest, |s|)
    ensures var r := Swap(s, |s| - 1, j);
      r[|s| - 1] == s[j] && Shuffled(s, [j] + rest) == Shuffled(r[..|s| - 1], rest) + [r[|s| - 1]]
  {
    assert ([j] + rest)[1..] == rest;
  }

  lemma Single<T>(s: seq<T>, t: seq<T>)
    requires multiset(t) == multiset(s) && |s| == |t| <= 1
    ensures s == t
  {
    SameElements(s, t);
    assert |t| == 1 ==> t[0] in t;
  }

  /** Where the last element of t is in s. */
  lemma IndexOf<T>(s: seq<T>, t: seq<T>) returns (j: nat)
    requires multiset(t) == multiset(s) && t != []
    ensures j < |s| && s[j] == t[|t| - 1]
  {
    SameElements(s, t);
    assert t[|t| - 1] in t;
    j :| j < |s| && s[j] == t[|t| - 1];
  }

  lemma SameFront<T>(s: seq<T>, t: seq<T>)
    requires multiset(s) == multiset(t) && |s| == |t| > 0 && s[|s| - 1] == t[|s| - 1]
    ensures multiset(s[..|s| - 1]) == multiset(t[..|s| - 1])
  {
    var last := |s| - 1;
    assert s == s[..last] + [s[last]] && t == t[..last] + [t[last]];
    assert multiset(s[..last]) == multiset(s) - multiset{s[last]};
    assert multiset(t[..last]) == multiset(t) - multiset{t[last]};
  }

  lemma SameLength<T>(s: seq<T>, t: seq<T>)
    requires multiset(t) == multiset(s)
    ensures |s| == |t|
  {
    assert |multiset(s)| == |s| && |multiset(t)| == |t|;
  }

  /** One round: what is left to do with the elements up to i. */
  lemma Round<T>(s: seq<T>, s': seq<T>, i: nat, j: nat, rest: seq<nat>)
    requires 0 < i < |s| && j <= i && s' == Swap(s, i, j) && Picks(rest, i)
    ensures Picks([j] + rest, i + 1)
    ensures Shuffled(s[..i + 1], [j] + rest) + s[i + 1..] == Shuffled(s'[..i], rest) + s'[i..]
  {
    var more := [j] + rest;
    assert more[1..] == rest;
    var r := Swap(s[..i + 1], i, j);
    assert r[..i] == s'[..i];
    assert [r[i]] + s[i + 1..] == s'[i..];
    assert Shuffled(s[..i + 1], more) == Shuffled(s'[..i], rest) + [r[i]];
  }

  /** The random numbers js and any that may follow them make of s0 what those that follow make of s up to i. */
  ghost predicate SoFar<T>(s0: seq<T>, js: seq<nat>, s: seq<T>, i: int) {
    -1 <= i < |s| == |s0| && (i == -1 ==> |s| == 0)
    && forall rest :: Picks(rest, i + 1) ==>
         Picks(js + rest, |s|) && Shuffled(s0, js + rest) == Shuffled(s[..i + 1], rest) + s[i + 1..]
  }

  lemma SoFarStart<T>(s: seq<T>)
    ensures SoFar(s, [], s, |s| - 1)
  {
    assert s[..|s|] == s;
    forall rest | Picks(rest, |s|)
      ensures [] + rest == rest
    {
    }
  }

  lemma SoFarNext<T>(s0: seq<T>, js: seq<nat>, s: seq<T>, s': seq<T>, i: int, j: nat)
    requires i > 0 && j <= i && SoFar(s0, js, s, i) && s' == Swap(s, i, j)
    ensures SoFar(s0, js + [j], s', i - 1)
  {
    hide Shuffled, Picks, Swap;
    forall rest | Picks(rest, i)
      ensures Picks(js + [j] + rest, |s|) && Shuffled(s0, js + [j] + rest) == Shuffled(s'[..i], rest) + s'[i..]
    {
      Round(s, s', i, j, rest);
      assert js + ([j] + rest) == js + [j] + rest;
    }
  }

  lemma SoFarEnd<T>(s0: seq<T>, js: seq<nat>, s: seq<T>, i: int)
    requires i <= 0 && SoFar(s0, js, s, i)
    ensures Picks(js, |s0|) && s == Shuffled(s0, js)
  {
    assert Picks([], i + 1);
    assert js + [] == js;
    assert s == s[..i + 1] + s[i + 1..];
  }

  method Shuffle<T>(a: array<T>) returns (ghost js: seq<nat>)
    modifies a
    ensures Picks(js, a.Length) && a[..] == Shuffled(old(a[..]), js)
    ensures multiset(a[..]) == multiset(old(a[..]))
  {
    hide SoFar, Shuffled, Picks;
    js := [];
    var i := a.Length - 1;
    SoFarStart(a[..]);
    while i > 0
      invariant -1 <= i < a.Length
      invariant SoFar(old(a[..]), js, a[..], i)
    {
      var j: int := *;
      if j < 0 || j > i { j := 0; }
      ghost var before := a[..];
      a[i], a[j] := a[j], a[i];
      SoFarNext(old(a[..]), js, before, a[..], i, j);
      js := js + [j];
      i := i - 1;
    }
    SoFarEnd(old(a[..]), js, a[..], i);
    ShuffledSame(old(a[..]), js);
  }

  /** The same elements, whatever the shuffle did. */
  lemma SameElements<T>(s: seq<T>, t: seq<T>)
    requires multiset(s) == multiset(t)
    ensures forall x :: x in s <==> x in t
  {
    forall x
      ensures x in s <==> x in t
    {
      assert x in s <==> x in multiset(s);
      assert x in t <==> x in multiset(t);
    }
  }
}
