/**
 Scaling a pool.  The reconciler holds a map from host type to the instances it listed, appends
 a placeholder for each instance it creates and truncates the slice for each it deletes; any
 create or delete call may fail, and map iteration visits the types in any order.
 */
module PoolScaling {
  import opened Wrappers
  import opened HostSets
  import opened Sums

  type Name = string

  /** An element of a slice in currentBareMetalInstances: a listed instance, or nil for a created one. */
  datatype Slot = Listed(name: Name) | Placeholder

  type Current = map<HostType, seq<Slot>>

  /** An instance with the pool's label as a List call returns it. */
  datatype Item = Item(name: Name, hostType: HostType, deleting: bool)

  datatype Live = Live(hostType: HostType, ready: bool)

  datatype PoolPhase = Progressing | Failed | Ready | Deleting

  /** How the pool's own provisioning went: its job failed; it was an error or has to be looked at again. */
  datatype Provision = Provision(jobFailed: bool, stops: bool)

  function Get(c: Current, t: HostType): seq<Slot> {
    if t in c then c[t] else []
  }

  /** Instances of one type that exist and are not being deleted. */
  function LiveOf(live: map<Name, Live>, t: HostType): set<Name> {
    set n | n in live && live[n].hostType == t
  }

  function Names(s: seq<Slot>): set<Name> {
    set k | 0 <= k < |s| && s[k].Listed? :: s[k].name
  }

  ghost predicate NamesDistinct(s: seq<Slot>) {
    forall j, k :: 0 <= j < k < |s| && s[j].Listed? && s[k].Listed? ==> s[j].name != s[k].name
  }

  ghost predicate AllListed(s: seq<Slot>) {
    forall k :: 0 <= k < |s| ==> s[k].Listed?
  }

  /** What makes slices and live instances differ, per host type. */
  datatype Ledger = Ledger(
    collisions: multiset<HostType>,     // creations that met a name in use and were taken for successes
    lostCreates: multiset<HostType>,    // creations that took place but were answered with an error
    lostDeletes: multiset<HostType>,    // deletions that took place but were answered with an error
    foreign: multiset<HostType>)        // instances deleted by others whose slots are still there

  const CLEAN := Ledger(multiset{}, multiset{}, multiset{}, multiset{})

  ghost predicate NoLoss(g: Ledger) {
    g.lostCreates == multiset{} && g.lostDeletes == multiset{}
  }

  /** The first error ends the scaling, so at most one reply can be lost. */
  ghost predicate OneLoss(g: Ledger) {
    |g.lostCreates| + |g.lostDeletes| <= 1
  }

  /** Slots and live instances of each type differ by what the ledger says. */
  ghost predicate Counts(c: Current, live: map<Name, Live>, g: Ledger) {
    forall t :: |Get(c, t)| + g.lostCreates[t]
             == |LiveOf(live, t)| + g.collisions[t] + g.lostDeletes[t] + g.foreign[t]
  }

  /** The listed instances that are no longer live. */
  function GoneOf(s: seq<Slot>, live: map<Name, Live>): set<Name> {
    set n | n in Names(s) && n !in live
  }

  /**
   As long as no reply was lost: the listed slots of a type have distinct names, those that are live are
   of that type, and the others have been deleted by others.
   */
  ghost predicate TracksType(s: seq<Slot>, t: HostType, live: map<Name, Live>, taken: set<Name>, foreign: nat) {
    NamesDistinct(s) && Names(s) <= taken
    && (forall n :: n in Names(s) && n in live ==> live[n].hostType == t)
    && |GoneOf(s, live)| <= foreign
  }

  ghost predicate Tracks(c: Current, live: map<Name, Live>, taken: set<Name>, foreign: multiset<HostType>) {
    forall t :: TracksType(Get(c, t), t, live, taken, foreign[t])
  }

  /** Others have deleted instances, which the ledger records, and changed the readiness of the rest. */
  ghost predicate Departed(live: map<Name, Live>, live': map<Name, Live>, foreign: multiset<HostType>,
                           foreign': multiset<HostType>)
  {
    live'.Keys <= live.Keys && (forall n :: n in live' ==> live'[n].hostType == live[n].hostType)
    && forall t :: foreign'[t] + |LiveOf(live', t)| == foreign[t] + |LiveOf(live, t)|
  }

  function Placeholders(n: nat): (s: seq<Slot>)
    ensures |s| == n
  {
    if n == 0 then [] else Placeholders(n - 1) + [Placeholder]
  }

  /** The names cut off, in the order they are deleted: last one first. */
  function CutOff(s: seq<Slot>, replicas: nat): seq<Name>
    requires AllListed(s)
    decreases |s|
  {
    if |s| <= replicas then [] else [s[|s| - 1].name] + CutOff(s[..|s| - 1], replicas)
  }

  /** The replicas a spec asks for; the last entry of a type wins and an unlisted type gets none. */
  function Wanted(hostSets: seq<HostSet>, t: HostType): int
    decreases |hostSets|
  {
    if hostSets == [] then 0
    else
      var last := hostSets[|hostSets| - 1];
      if last.hostType == t then last.replicas else Wanted(hostSets[..|hostSets| - 1], t)
  }

  ghost predicate ValidSpec(hostSets: seq<HostSet>) {
    forall k :: 0 <= k < |hostSets| ==> 0 <= hostSets[k].replicas < TWO_31
  }

  lemma {:induction false} WantedInRange(hostSets: seq<HostSet>, t: HostType)
    requires ValidSpec(hostSets)
    ensures 0 <= Wanted(hostSets, t) < TWO_31
    decreases |hostSets|
  {
    if hostSets != [] {
      WantedInRange(hostSets[..|hostSets| - 1], t);
    }
  }

  // ---------------------------------------------------------------- status entries

  /** The list has exactly the types with a non-empty slice, each with its length. */
  ghost predicate Describes(s: seq<HostSet>, c: Current) {
    forall x :: x in s <==> |Get(c, x.hostType)| > 0 && x.replicas == |Get(c, x.hostType)|
  }

  /** The same about the instances that are live. */
  ghost predicate Truthful(s: seq<HostSet>, live: map<Name, Live>) {
    StrictlySorted(s)
    && forall x :: x in s <==> |LiveOf(live, x.hostType)| > 0 && x.replicas == |LiveOf(live, x.hostType)|
  }

  /** The differences cancel out for every type. */
  ghost predicate Balanced(g: Ledger) {
    forall t :: g.collisions[t] + g.lostDeletes[t] + g.foreign[t] == g.lostCreates[t]
  }

  /** A list that describes the slices is truthful exactly if the differences cancel out. */
  lemma TruthfulIff(s: seq<HostSet>, c: Current, live: map<Name, Live>, g: Ledger)
    requires StrictlySorted(s) && Describes(s, c) && Counts(c, live, g)
    ensures Truthful(s, live) <==> Balanced(g)
  {
    if Balanced(g) {
      forall x
        ensures x in s <==> |LiveOf(live, x.hostType)| > 0 && x.replicas == |LiveOf(live, x.hostType)|
      {
        assert |Get(c, x.hostType)| == |LiveOf(live, x.hostType)|;
      }
    } else {
      var t :| g.collisions[t] + g.lostDeletes[t] + g.foreign[t] != g.lostCreates[t];
      assert |Get(c, t)| != |LiveOf(live, t)|;
      if |Get(c, t)| > 0 {
        assert HostSet(t, |Get(c, t)|) in s;
      } else {
        assert HostSet(t, |LiveOf(live, t)|) !in s;
      }
    }
  }

  /** One creation that took place but was answered with an error is enough for a wrong status. */
  lemma LostCreateMisleads(s: seq<HostSet>, c: Current, live: map<Name, Live>, t: HostType, n: Name)
    requires StrictlySorted(s) && Describes(s, c) && Counts(c, live, CLEAN) && n !in live
    ensures !Truthful(s, live[n := Live(t, false)])
  {
    CountsAdd(c, live, CLEAN, t, n);
    var g := CLEAN.(lostCreates := multiset{t});
    assert g.collisions[t] + g.lostDeletes[t] + g.foreign[t] != g.lostCreates[t];
    TruthfulIff(s, c, live[n := Live(t, false)], g);
  }

  /** One deletion by somebody else between the List and the status is enough, too. */
  lemma ForeignDeleteMisleads(s: seq<HostSet>, c: Current, live: map<Name, Live>, n: Name)
    requires StrictlySorted(s) && Describes(s, c) && Counts(c, live, CLEAN) && n in live
    ensures !Truthful(s, live - {n})
  {
    var t := live[n].hostType;
    CountsRemove(c, live, CLEAN, n);
    var g := CLEAN.(foreign := multiset{t});
    assert g.collisions[t] + g.lostDeletes[t] + g.foreign[t] != g.lostCreates[t];
    TruthfulIff(s, c, live - {n}, g);
  }

  /** The smallest cases: a creation with its reply lost in an empty pool, and a deletion that empties a pool. */
  lemma MisleadingWitness() returns (live: map<Name, Live>, c: Current)
    ensures live == map["pool-host-a" := Live("large", false)] && c == map["large" := [Listed("pool-host-a")]]
    ensures Describes([], map[]) && Truthful([], map[]) && !Truthful([], live)
    ensures Describes([HostSet("large", 1)], c) && Truthful([HostSet("large", 1)], live)
    ensures !Truthful([HostSet("large", 1)], map[])
  {
    live, c := map["pool-host-a" := Live("large", false)], map["large" := [Listed("pool-host-a")]];
    assert LiveOf(live, "large") == {"pool-host-a"};
    assert forall t :: t != "large" ==> LiveOf(live, t) == {};
    assert forall t :: LiveOf(map[], t) == {};
    assert HostSet("large", 1) !in [] && HostSet("large", 1) in [HostSet("large", 1)];
  }

  lemma LiveOfAdd(live: map<Name, Live>, t: HostType, n: Name, ready: bool, u: HostType)
    requires n !in live
    ensures |LiveOf(live[n := Live(t, ready)], u)| == |LiveOf(live, u)| + if u == t then 1 else 0
  {
    assert LiveOf(live[n := Live(t, ready)], u) == if u == t then LiveOf(live, u) + {n} else LiveOf(live, u);
  }

  lemma LiveOfRemove(live: map<Name, Live>, n: Name, u: HostType)
    requires n in live
    ensures |LiveOf(live, u)| == |LiveOf(live - {n}, u)| + if u == live[n].hostType then 1 else 0
  {
    assert LiveOf(live - {n}, u) == if u == live[n].hostType then LiveOf(live, u) - {n} else LiveOf(live, u);
  }

  /** A live instance without a slot. */
  lemma CountsAdd(c: Current, live: map<Name, Live>, g: Ledger, t: HostType, n: Name)
    requires Counts(c, live, g) && n !in live
    ensures Counts(c, live[n := Live(t, false)], g.(lostCreates := g.lostCreates + multiset{t}))
  {
    hide LiveOf, Get;
    var live', g' := live[n := Live(t, false)], g.(lostCreates := g.lostCreates + multiset{t});
    forall u
      ensures |Get(c, u)| + g'.lostCreates[u] == |LiveOf(live', u)| + g.collisions[u] + g.lostDeletes[u] + g.foreign[u]
    {
      assert |Get(c, u)| + g.lostCreates[u] == |LiveOf(live, u)| + g.collisions[u] + g.lostDeletes[u] + g.foreign[u];
      LiveOfAdd(live, t, n, false, u);
    }
  }

  /** A slot without a live instance: its deletion was answered with an error, or was not the pool's. */
  lemma CountsRemove(c: Current, live: map<Name, Live>, g: Ledger, n: Name)
    requires Counts(c, live, g) && n in live
    ensures Counts(c, live - {n}, g.(lostDeletes := g.lostDeletes + multiset{live[n].hostType}))
    ensures Counts(c, live - {n}, g.(foreign := g.foreign + multiset{live[n].hostType}))
  {
    hide LiveOf, Get;
    var t := live[n].hostType;
    forall u
      ensures |Get(c, u)| + g.lostCreates[u]
           == |LiveOf(live - {n}, u)| + g.collisions[u] + g.lostDeletes[u] + g.foreign[u] + multiset{t}[u]
    {
      assert |Get(c, u)| + g.lostCreates[u] == |LiveOf(live, u)| + g.collisions[u] + g.lostDeletes[u] + g.foreign[u];
      LiveOfRemove(live, n, u);
    }
  }

  /** Only one list is truthful: the status does not depend on any iteration order. */
  lemma TruthfulUnique(s: seq<HostSet>, s': seq<HostSet>, live: map<Name, Live>)
    requires Truthful(s, live) && Truthful(s', live)
    ensures s == s'
  {
    SortedUnique(s, s');
  }

  // ---------------------------------------------------------------- API server

  class Cluster {
    var live: map<Name, Live>
    var taken: set<Name>                    // names in use, terminating instances included
    var creates: seq<HostType>              // Create calls answered as success
    var deletes: seq<(HostType, Name)>      // Delete calls answered as success
    var ledger: Ledger
    var errors: nat                         // calls answered with an error

    constructor (live: map<Name, Live>, taken: set<Name>)
      requires live.Keys <= taken
      ensures this.live == live && this.taken == taken && creates == [] && deletes == [] && ledger == CLEAN
      ensures errors == 0
    {
      this.live, this.taken := live, taken;
      creates, deletes, ledger, errors := [], [], CLEAN, 0;
    }

    /**
     Create under a random name.  AlreadyExists counts as success and creates nothing; a creation that
     takes place may be answered with an error all the same.
     */
    method Create(t: HostType) returns (ok: bool, ghost n: Name)
      requires live.Keys <= taken
      modifies this`live, this`taken, this`creates, this`ledger, this`errors
      ensures errors == old(errors) + if ok then 0 else 1
      ensures old(taken) <= taken && live.Keys <= taken
      ensures creates == (if ok then old(creates) + [t] else old(creates))
      ensures ok ==>
        || (live == old(live) && ledger == old(ledger).(collisions := old(ledger.collisions) + multiset{t}))
        || (n !in old(taken) && live == old(live)[n := Live(t, false)] && ledger == old(ledger))
      ensures !ok ==>
        || (live == old(live) && ledger == old(ledger))
        || (n !in old(taken) && live == old(live)[n := Live(t, false)]
            && ledger == old(ledger).(lostCreates := old(ledger.lostCreates) + multiset{t}))
    {
      var name: Name := *;
      var applied: bool := *;
      ok := *;
      n := name;
      errors := errors + if ok then 0 else 1;
      if ok {
        creates := creates + [t];
        if name in taken {
          ledger := ledger.(collisions := ledger.collisions + multiset{t});
        } else {
          live, taken := live[name := Live(t, false)], taken + {name};
        }
      } else if applied && name !in taken {
        live, taken := live[name := Live(t, false)], taken + {name};
        ledger := ledger.(lostCreates := ledger.lostCreates + multiset{t});
      }
    }

    /**
     Delete by name.  NotFound counts as success, and the slot of an instance deleted by others is no
     longer there afterwards.  A deletion that takes place may be answered with an error all the same.
     */
    method Delete(t: HostType, n: Name) returns (ok: bool)
      modifies this`live, this`deletes, this`ledger, this`errors
      ensures errors == old(errors) + if ok then 0 else 1
      ensures deletes == if ok then old(deletes) + [(t, n)] else old(deletes)
      ensures ok ==> live == old(live) - {n}
                     && ledger == if n in old(live) then old(ledger)
                                  else old(ledger).(foreign := old(ledger.foreign) - multiset{t})
      ensures !ok ==>
        || (live == old(live) && ledger == old(ledger))
        || (n in old(live) && live == old(live) - {n}
            && ledger == old(ledger).(lostDeletes := old(ledger.lostDeletes) + multiset{old(live)[n].hostType}))
    {
      var applied: bool := *;
      ok := *;
      errors := errors + if ok then 0 else 1;
      if ok {
        if n !in live {
          ledger := ledger.(foreign := ledger.foreign - multiset{t});
        }
        live := live - {n};
        deletes := deletes + [(t, n)];
      } else if applied && n in live {
        ledger := ledger.(lostDeletes := ledger.lostDeletes + multiset{live[n].hostType});
        live := live - {n};
      }
    }

    /** A List call. */
    method List() returns (ok: bool)
      modifies this`errors
      ensures errors == old(errors) + if ok then 0 else 1
    {
      ok := *;
      errors := errors + if ok then 0 else 1;
    }

    /** Users delete instances of the pool, and controllers make instances Ready or not, at any time. */
    method Others()
      modifies this`live, this`ledger
      ensures Departed(old(live), live, old(ledger.foreign), ledger.foreign)
      ensures ledger == old(ledger).(foreign := ledger.foreign)
    {
      var n: int := *;
      while n > 0
        invariant Departed(old(live), live, old(ledger.foreign), ledger.foreign)
        invariant ledger == old(ledger).(foreign := ledger.foreign)
      {
        n := n - 1;
        var name: Name := *;
        if name in live {
          DepartOne(old(live), live, old(ledger.foreign), ledger.foreign, name);
          ledger := ledger.(foreign := ledger.foreign + multiset{live[name].hostType});
          live := live - {name};
        }
        var readiness: map<Name, Live> := *;
        if SameInstances(live, readiness) {
          SameLiveOf(live, readiness);
          live := readiness;
        }
      }
    }
  }

  lemma DepartOne(live0: map<Name, Live>, live: map<Name, Live>, foreign0: multiset<HostType>, foreign: multiset<HostType>,
                  n: Name)
    requires Departed(live0, live, foreign0, foreign) && n in live
    ensures Departed(live0, live - {n}, foreign0, foreign + multiset{live[n].hostType})
  {
    hide LiveOf;
    forall t
      ensures (foreign + multiset{live[n].hostType})[t] + |LiveOf(live - {n}, t)| == foreign0[t] + |LiveOf(live0, t)|
    {
      LiveOfRemove(live, n, t);
    }
  }

  /** The same instances of the same types; only their readiness may differ. */
  predicate SameInstances(live: map<Name, Live>, live': map<Name, Live>) {
    live'.Keys == live.Keys && forall n :: n in live ==> live'[n].hostType == live[n].hostType
  }

  lemma SameLiveOf(live: map<Name, Live>, live': map<Name, Live>)
    requires SameInstances(live, live')
    ensures forall t :: LiveOf(live', t) == LiveOf(live, t)
  {
  }

  // ---------------------------------------------------------------- one type

  ghost predicate OthersSame(c: Current, c': Current, t: HostType) {
    forall u :: u != t ==> Get(c', u) == Get(c, u)
  }

  function Repeat(t: HostType, n: nat): seq<HostType> {
    if n == 0 then [] else Repeat(t, n - 1) + [t]
  }

  function Tagged(t: HostType, ns: seq<Name>): seq<(HostType, Name)>
    decreases |ns|
  {
    if ns == [] then [] else Tagged(t, ns[..|ns| - 1]) + [(t, ns[|ns| - 1])]
  }

  lemma TaggedMore(t: HostType, ns: seq<Name>, n: Name)
    ensures Tagged(t, ns + [n]) == Tagged(t, ns) + [(t, n)]
  {
  }

  /** What scaling one type up does to its slice and to the accepted calls: n creations. */
  ghost predicate Grown(s: seq<Slot>, s': seq<Slot>, calls: seq<HostType>, calls': seq<HostType>, t: HostType, n: nat) {
    s' == s + Placeholders(n) && calls' == calls + Repeat(t, n)
  }

  lemma GrownNotYet(s: seq<Slot>, calls: seq<HostType>, t: HostType)
    ensures Grown(s, s, calls, calls, t, 0)
  {
  }

  lemma GrownOnce(s: seq<Slot>, s': seq<Slot>, calls: seq<HostType>, calls': seq<HostType>, t: HostType, n: nat)
    requires Grown(s, s', calls, calls', t, n)
    ensures Grown(s, s' + [Placeholder], calls, calls' + [t], t, n + 1)
  {
  }

  /** What scaling one type down does: the slice is cut to n, the names cut off are deleted, last one first. */
  ghost predicate Shrunk(s: seq<Slot>, s': seq<Slot>, calls: seq<(HostType, Name)>, calls': seq<(HostType, Name)>,
                         t: HostType, n: nat)
  {
    AllListed(s) && n <= |s| && s' == s[..n] && calls' == calls + Tagged(t, CutOff(s, n))
  }

  lemma ShrunkNotYet(s: seq<Slot>, calls: seq<(HostType, Name)>, t: HostType)
    requires AllListed(s)
    ensures Shrunk(s, s, calls, calls, t, |s|)
  {
  }

  lemma ShrunkOnce(s: seq<Slot>, s': seq<Slot>, calls: seq<(HostType, Name)>, calls': seq<(HostType, Name)>,
                   t: HostType, n: nat)
    requires Shrunk(s, s', calls, calls', t, n) && n > 0
    ensures s'[n - 1] == s[n - 1]
    ensures Shrunk(s, s'[..n - 1], calls, calls' + [(t, s[n - 1].name)], t, n - 1)
  {
    CutOffMore(s, n);
    TaggedMore(t, CutOff(s, n), s[n - 1].name);
  }

  lemma NamesAppend(s: seq<Slot>)
    ensures Names(s + [Placeholder]) == Names(s)
    ensures NamesDistinct(s) ==> NamesDistinct(s + [Placeholder])
  {
    var s' := s + [Placeholder];
    forall n | n in Names(s)
      ensures n in Names(s')
    {
      var k :| 0 <= k < |s| && s[k].Listed? && s[k].name == n;
      assert s'[k].name == n;
    }
    forall n | n in Names(s')
      ensures n in Names(s)
    {
      var k :| 0 <= k < |s'| && s'[k].Listed? && s'[k].name == n;
      assert s[k].name == n;
    }
  }

  /** A successful creation adds one slot, and one live instance under a new name or one collision. */
  lemma TracksCreate(c: Current, live: map<Name, Live>, taken: set<Name>, taken': set<Name>, foreign: multiset<HostType>,
                     t: HostType, n: Name)
    requires Tracks(c, live, taken, foreign) && taken <= taken'
    ensures n !in taken ==> Tracks(c[t := Get(c, t) + [Placeholder]], live[n := Live(t, false)], taken', foreign)
    ensures Tracks(c[t := Get(c, t) + [Placeholder]], live, taken', foreign)
  {
    var c' := c[t := Get(c, t) + [Placeholder]];
    forall u
      ensures TracksType(Get(c', u), u, live, taken', foreign[u])
      ensures n !in taken ==> TracksType(Get(c', u), u, live[n := Live(t, false)], taken', foreign[u])
    {
      assert TracksType(Get(c, u), u, live, taken, foreign[u]);
      NamesAppend(Get(c, u));
      hide Names, NamesDistinct;
      assert GoneOf(Get(c', u), live) == GoneOf(Get(c, u), live);
      assert n !in taken ==> GoneOf(Get(c', u), live[n := Live(t, false)]) == GoneOf(Get(c, u), live);
    }
  }

  lemma CountsCreate(c: Current, live: map<Name, Live>, g: Ledger, t: HostType, n: Name)
    requires Counts(c, live, g)
    ensures n !in live ==> Counts(c[t := Get(c, t) + [Placeholder]], live[n := Live(t, false)], g)
    ensures Counts(c[t := Get(c, t) + [Placeholder]], live, g.(collisions := g.collisions + multiset{t}))
  {
    hide LiveOf;
    var c' := c[t := Get(c, t) + [Placeholder]];
    forall u
      ensures |Get(c', u)| == |Get(c, u)| + (if u == t then 1 else 0)
      ensures |Get(c, u)| + g.lostCreates[u] == |LiveOf(live, u)| + g.collisions[u] + g.lostDeletes[u] + g.foreign[u]
      ensures n !in live ==> |LiveOf(live[n := Live(t, false)], u)| == |LiveOf(live, u)| + (if u == t then 1 else 0)
    {
      if n !in live {
        LiveOfAdd(live, t, n, false, u);
      }
    }
  }

  /** Dropping the last slot of a type with its instance, which may have been gone already. */
  lemma TracksDelete(c: Current, live: map<Name, Live>, taken: set<Name>, foreign: multiset<HostType>, t: HostType, c': Current)
    requires Tracks(c, live, taken, foreign) && Get(c, t) != [] && Get(c, t)[|Get(c, t)| - 1].Listed?
    requires Get(c', t) == Get(c, t)[..|Get(c, t)| - 1] && OthersSame(c, c', t)
    ensures var n := Get(c, t)[|Get(c, t)| - 1].name;
      && (n in live ==> live[n].hostType == t && Tracks(c', live - {n}, taken, foreign))
      && (n !in live ==> foreign[t] > 0 && Tracks(c', live, taken, foreign - multiset{t}))
  {
    hide TracksType, Names;
    var n := Get(c, t)[|Get(c, t)| - 1].name;
    assert TracksType(Get(c, t), t, live, taken, foreign[t]);
    TracksTypeDelete(Get(c, t), t, live, taken, foreign[t]);
    forall u
      ensures n in live ==> TracksType(Get(c', u), u, live - {n}, taken, foreign[u])
      ensures n !in live ==> TracksType(Get(c', u), u, live, taken, (foreign - multiset{t})[u])
    {
      assert TracksType(Get(c, u), u, live, taken, foreign[u]);
      if u != t && n in live {
        TracksTypeKeep(Get(c, u), u, live, taken, foreign[u], n);
      }
    }
  }

  lemma TracksTypeDelete(s: seq<Slot>, t: HostType, live: map<Name, Live>, taken: set<Name>, foreign: nat)
    requires s != [] && s[|s| - 1].Listed? && TracksType(s, t, live, taken, foreign)
    ensures var n, init := s[|s| - 1].name, s[..|s| - 1];
      && (n in live ==> live[n].hostType == t && TracksType(init, t, live - {n}, taken, foreign))
      && (n !in live ==> foreign > 0 && TracksType(init, t, live, taken, foreign - 1))
  {
    var n, init := s[|s| - 1].name, s[..|s| - 1];
    LastIsNamed(s);
    NamesDrop(s);
    hide Names, NamesDistinct;
    assert GoneOf(init, live - {n}) == GoneOf(s, live) - {n};
    if n !in live {
      assert live - {n} == live;
      assert n in GoneOf(s, live);
    }
  }

  lemma TracksTypeKeep(s: seq<Slot>, u: HostType, live: map<Name, Live>, taken: set<Name>, foreign: nat, n: Name)
    requires TracksType(s, u, live, taken, foreign) && n in live && live[n].hostType != u
    ensures TracksType(s, u, live - {n}, taken, foreign)
  {
    hide Names, NamesDistinct;
    assert n !in Names(s);
    assert GoneOf(s, live - {n}) == GoneOf(s, live);
  }

  /** Listed slots have distinct names, so dropping the last one drops its name. */
  lemma NamesDrop(s: seq<Slot>)
    requires s != [] && s[|s| - 1].Listed? && NamesDistinct(s)
    ensures NamesDistinct(s[..|s| - 1]) && Names(s[..|s| - 1]) == Names(s) - {s[|s| - 1].name}
  {
    var init, n := s[..|s| - 1], s[|s| - 1].name;
    forall m | m in Names(s) && m != n
      ensures m in Names(init)
    {
      var k :| 0 <= k < |s| && s[k].Listed? && s[k].name == m;
      assert init[k] == s[k];
    }
  }

  lemma CountsDelete(c: Current, live: map<Name, Live>, g: Ledger, t: HostType, n: Name, c': Current)
    requires Counts(c, live, g) && Get(c, t) != [] && |Get(c', t)| == |Get(c, t)| - 1 && OthersSame(c, c', t)
    requires if n in live then live[n].hostType == t else g.foreign[t] > 0
    ensures n in live ==> Counts(c', live - {n}, g)
    ensures n !in live ==> Counts(c', live, g.(foreign := g.foreign - multiset{t}))
  {
    hide LiveOf;
    forall u
      ensures |Get(c', u)| == |Get(c, u)| - (if u == t then 1 else 0)
      ensures |Get(c, u)| + g.lostCreates[u] == |LiveOf(live, u)| + g.collisions[u] + g.lostDeletes[u] + g.foreign[u]
      ensures n in live ==> |LiveOf(live, u)| == |LiveOf(live - {n}, u)| + (if u == t then 1 else 0)
    {
      hide Get;
      assert u != t ==> Get(c', u) == Get(c, u);
      if n in live {
        LiveOfRemove(live, n, u);
      }
    }
  }

  /** What others do is accounted for. */
  lemma OthersTracked(c: Current, live: map<Name, Live>, live': map<Name, Live>, taken: set<Name>, g: Ledger,
                      foreign': multiset<HostType>)
    requires Departed(live, live', g.foreign, foreign')
    ensures Counts(c, live, g) ==> Counts(c, live', g.(foreign := foreign'))
    ensures Tracks(c, live, taken, g.foreign) ==> Tracks(c, live', taken, foreign')
  {
    if Counts(c, live, g) {
      forall t
        ensures |Get(c, t)| + g.lostCreates[t] == |LiveOf(live', t)| + g.collisions[t] + g.lostDeletes[t] + foreign'[t]
      {
        hide LiveOf, Get;
        assert |Get(c, t)| + g.lostCreates[t] == |LiveOf(live, t)| + g.collisions[t] + g.lostDeletes[t] + g.foreign[t];
      }
    }
    if Tracks(c, live, taken, g.foreign) {
      forall t
        ensures TracksType(Get(c, t), t, live', taken, foreign'[t])
      {
        OthersTrackedType(Get(c, t), t, live, live', taken, g.foreign[t], foreign'[t]);
      }
    }
  }

  lemma OthersTrackedType(s: seq<Slot>, t: HostType, live: map<Name, Live>, live': map<Name, Live>, taken: set<Name>,
                          foreign: nat, foreign': nat)
    requires TracksType(s, t, live, taken, foreign)
    requires live'.Keys <= live.Keys && forall n :: n in live' ==> live'[n].hostType == live[n].hostType
    requires foreign' + |LiveOf(live', t)| == foreign + |LiveOf(live, t)|
    ensures TracksType(s, t, live', taken, foreign')
  {
    hide Names, NamesDistinct;
    var left := LiveOf(live, t) - LiveOf(live', t);
    GoneLeft(s, t, live, live');
    hide LiveOf, GoneOf;
    assert |left| == foreign' - foreign;
    SubsetSize(GoneOf(s, live'), GoneOf(s, live) + left);
  }

  lemma GoneLeft(s: seq<Slot>, t: HostType, live: map<Name, Live>, live': map<Name, Live>)
    requires forall n :: n in Names(s) && n in live ==> live[n].hostType == t
    requires live'.Keys <= live.Keys && forall n :: n in live' ==> live'[n].hostType == live[n].hostType
    ensures LiveOf(live', t) <= LiveOf(live, t)
    ensures GoneOf(s, live') <= GoneOf(s, live) + (LiveOf(live, t) - LiveOf(live', t))
  {
    hide Names;
  }

  lemma LastIsNamed(s: seq<Slot>)
    requires s != [] && s[|s| - 1].Listed?
    ensures s[|s| - 1].name in Names(s)
  {
  }

  lemma {:induction false} CutOffMore(s: seq<Slot>, n: nat)
    requires AllListed(s) && 0 < n <= |s|
    ensures CutOff(s, n - 1) == CutOff(s, n) + [s[n - 1].name]
    decreases |s|
  {
    if n < |s| {
      CutOffMore(s[..|s| - 1], n);
    } else {
      assert CutOff(s[..|s| - 1], n - 1) == [];
    }
  }

  // ---------------------------------------------------------------- all types

  /** Names deleted under a host type, in order. */
  function DeletedOf(calls: seq<(HostType, Name)>, t: HostType): seq<Name>
    decreases |calls|
  {
    if calls == [] then []
    else
      var last := calls[|calls| - 1];
      DeletedOf(calls[..|calls| - 1], t) + (if last.0 == t then [last.1] else [])
  }

  lemma DeletedOne(calls: seq<(HostType, Name)>, x: (HostType, Name), u: HostType)
    ensures DeletedOf(calls + [x], u) == DeletedOf(calls, u) + (if x.0 == u then [x.1] else [])
  {
  }

  lemma {:induction false} DeletedAppend(calls: seq<(HostType, Name)>, t: HostType, ns: seq<Name>, u: HostType)
    ensures DeletedOf(calls + Tagged(t, ns), u) == DeletedOf(calls, u) + (if u == t then ns else [])
    decreases |ns|
  {
    hide DeletedOf;
    if ns == [] {
      assert calls + Tagged(t, ns) == calls;
      assert DeletedOf(calls, u) + [] == DeletedOf(calls, u);
    } else {
      var init, n := ns[..|ns| - 1], ns[|ns| - 1];
      DeletedAppend(calls, t, init, u);
      DeletedOne(calls + Tagged(t, init), (t, n), u);
      assert calls + Tagged(t, ns) == calls + Tagged(t, init) + [(t, n)];
      assert ns == init + [n];
      assert DeletedOf(calls, u) + init + [n] == DeletedOf(calls, u) + (init + [n]);
    }
  }

  lemma {:induction false} RepeatCount(t: HostType, n: nat, u: HostType)
    ensures multiset(Repeat(t, n))[u] == if u == t then n else 0
  {
    if n > 0 {
      RepeatCount(t, n - 1, u);
    }
  }

  /**
   How far a type has got: its slice is extended towards w by placeholders or cut towards w to a
   prefix, and the accepted calls account for every slot added or dropped.
   */
  ghost predicate Progress(s: seq<Slot>, s': seq<Slot>, w: int, created: nat, deleted: seq<Name>) {
    AllListed(s)
    && if |s| <= w
       then |s| <= |s'| <= w && s' == s + Placeholders(|s'| - |s|) && created == |s'| - |s| && deleted == []
       else w <= |s'| <= |s| && s' == s[..|s'|] && created == 0 && deleted == CutOff(s, |s'|)
  }

  lemma GrownProgress(s: seq<Slot>, s': seq<Slot>, calls: seq<HostType>, calls': seq<HostType>, t: HostType, n: nat, w: int)
    requires AllListed(s) && Grown(s, s', calls, calls', t, n) && |s| + n <= w && multiset(calls)[t] == 0
    ensures Progress(s, s', w, multiset(calls')[t], [])
    ensures forall u :: u != t ==> multiset(calls')[u] == multiset(calls)[u]
  {
    forall u
      ensures multiset(calls')[u] == multiset(calls)[u] + (if u == t then n else 0)
    {
      RepeatCount(t, n, u);
    }
  }

  lemma ShrunkProgress(s: seq<Slot>, s': seq<Slot>, calls: seq<(HostType, Name)>, calls': seq<(HostType, Name)>,
                       t: HostType, n: nat, w: int)
    requires Shrunk(s, s', calls, calls', t, n) && 0 <= w <= n && w < |s| && DeletedOf(calls, t) == []
    ensures Progress(s, s', w, 0, DeletedOf(calls', t))
    ensures forall u :: u != t ==> DeletedOf(calls', u) == DeletedOf(calls, u)
  {
    forall u
      ensures DeletedOf(calls', u) == DeletedOf(calls, u) + (if u == t then CutOff(s, n) else [])
    {
      DeletedAppend(calls, t, CutOff(s, n), u);
    }
  }

  /** Every type has got somewhere between where it started and what the spec wants. */
  ghost predicate AllProgress(c0: Current, c: Current, spec: seq<HostSet>, creates: seq<HostType>,
                              deletes: seq<(HostType, Name)>)
  {
    forall t :: Progress(Get(c0, t), Get(c, t), Wanted(spec, t), multiset(creates)[t], DeletedOf(deletes, t))
  }

  lemma StartProgress(c: Current, spec: seq<HostSet>)
    requires NothingCreatedYet(c) && ValidSpec(spec)
    ensures AllProgress(c, c, spec, [], [])
  {
  }

  /** No slice ever grows beyond what an int32 can count. */
  lemma CountsFit(c0: Current, c: Current, spec: seq<HostSet>, creates: seq<HostType>, deletes: seq<(HostType, Name)>)
    requires AllProgress(c0, c, spec, creates, deletes) && NothingCreatedYet(c0) && ValidSpec(spec)
    ensures forall t :: |Get(c, t)| < TWO_31
  {
    forall t
      ensures |Get(c, t)| < TWO_31
    {
      WantedInRange(spec, t);
      assert Progress(Get(c0, t), Get(c, t), Wanted(spec, t), multiset(creates)[t], DeletedOf(deletes, t));
    }
  }

  ghost predicate NothingCreatedYet(c: Current) {
    forall t :: AllListed(Get(c, t)) && |Get(c, t)| < TWO_31
  }

  // ---------------------------------------------------------------- listing

  /** The live instances a List call shows; ready tells which of them report phase Ready. */
  function LiveItems(items: seq<Item>, ready: set<Name>): map<Name, Live>
    decreases |items|
  {
    if items == [] then map[]
    else
      var rest, x := LiveItems(items[..|items| - 1], ready), items[|items| - 1];
      if x.deleting then rest else rest[x.name := Live(x.hostType, x.name in ready)]
  }

  ghost predicate DistinctNames(items: seq<Item>) {
    forall j, k :: 0 <= j < k < |items| ==> items[j].name != items[k].name
  }

  lemma LiveItemsNext(items: seq<Item>, ready: set<Name>, k: nat)
    requires k < |items|
    ensures LiveItems(items[..k + 1], ready)
            == if items[k].deleting then LiveItems(items[..k], ready)
               else LiveItems(items[..k], ready)[items[k].name := Live(items[k].hostType, items[k].name in ready)]
  {
    assert items[..k + 1][..k] == items[..k];
  }

  lemma {:induction false} LiveItemsNames(items: seq<Item>, ready: set<Name>, n: Name)
    requires n in LiveItems(items, ready)
    ensures exists k :: 0 <= k < |items| && items[k].name == n
    decreases |items|
  {
    var x := items[|items| - 1];
    if n != x.name || x.deleting {
      LiveItemsNames(items[..|items| - 1], ready, n);
    }
  }

  lemma TracksListed(c: Current, live: map<Name, Live>, t: HostType, n: Name, ready: bool)
    requires Tracks(c, live, live.Keys, multiset{}) && n !in live
    ensures Tracks(c[t := Get(c, t) + [Listed(n)]], live[n := Live(t, ready)], live.Keys + {n}, multiset{})
  {
    var s := Get(c, t);
    var c' := c[t := s + [Listed(n)]];
    var live' := live[n := Live(t, ready)];
    assert TracksType(s, t, live, live.Keys, multiset{}[t]);
    NamesListed(s, n);
    hide Names, NamesDistinct;
    forall u
      ensures TracksType(Get(c', u), u, live', live.Keys + {n}, multiset{}[u])
    {
      assert TracksType(Get(c, u), u, live, live.Keys, multiset{}[u]);
      assert GoneOf(Get(c, u), live) == {};
      assert GoneOf(Get(c', u), live') == {};
    }
  }

  lemma NamesListed(s: seq<Slot>, n: Name)
    requires NamesDistinct(s) && n !in Names(s)
    ensures NamesDistinct(s + [Listed(n)]) && Names(s + [Listed(n)]) == Names(s) + {n}
  {
    var s' := s + [Listed(n)];
    assert s'[|s|] == Listed(n);
    forall m | m in Names(s)
      ensures m in Names(s')
    {
      var k :| 0 <= k < |s| && s[k].Listed? && s[k].name == m;
      assert s'[k] == s[k];
    }
    assert forall k :: 0 <= k < |s| && s[k].Listed? ==> s[k].name in Names(s);
  }

  lemma CountsListed(c: Current, live: map<Name, Live>, t: HostType, n: Name, ready: bool)
    requires Counts(c, live, CLEAN) && n !in live
    ensures Counts(c[t := Get(c, t) + [Listed(n)]], live[n := Live(t, ready)], CLEAN)
  {
    hide LiveOf;
    var c', live' := c[t := Get(c, t) + [Listed(n)]], live[n := Live(t, ready)];
    forall u
      ensures |Get(c', u)| == |LiveOf(live', u)|
    {
      assert |Get(c, u)| + CLEAN.lostCreates[u] == |LiveOf(live, u)| + CLEAN.collisions[u];
      LiveOfAdd(live, t, n, ready, u);
    }
  }

  lemma NothingTracked()
    ensures Tracks(map[], map[], {}, multiset{}) && Counts(map[], map[], CLEAN)
  {
    forall t
      ensures TracksType(Get(map[], t), t, map[], {}, 0) && LiveOf(map[], t) == {}
    {
      assert Get(map[], t) == [];
      assert GoneOf([], map[]) == {};
    }
  }

  lemma NothingListed(items: seq<Item>, ready: set<Name>)
    ensures LiveItems(items[..0], ready) == map[] && LiveItems(items[..0], ready).Keys == {}
  {
  }

  /** A larger set of names in use changes nothing. */
  lemma TracksTaken(c: Current, live: map<Name, Live>, taken: set<Name>, taken': set<Name>, foreign: multiset<HostType>)
    requires Tracks(c, live, taken, foreign) && taken <= taken'
    ensures Tracks(c, live, taken', foreign)
  {
    hide Names, NamesDistinct, GoneOf;
    forall t
      ensures TracksType(Get(c, t), t, live, taken', foreign[t])
    {
      assert TracksType(Get(c, t), t, live, taken, foreign[t]);
    }
  }

  lemma NewName(items: seq<Item>, ready: set<Name>, k: nat)
    requires DistinctNames(items) && k < |items|
    ensures items[k].name !in LiveItems(items[..k], ready)
  {
    if items[k].name in LiveItems(items[..k], ready) {
      LiveItemsNames(items[..k], ready, items[k].name);
    }
  }

  /** A type without slots may be listed or not. */
  lemma DropEmpty(c: Current, live: map<Name, Live>, taken: set<Name>, g: Ledger, t: HostType)
    requires t in c && c[t] == [] && Counts(c, live, g)
    ensures Counts(c - {t}, live, g) && forall u :: Get(c - {t}, u) == Get(c, u)
    ensures Tracks(c, live, taken, g.foreign) ==> Tracks(c - {t}, live, taken, g.foreign)
  {
    hide TracksType;
    assert forall u :: Get(c - {t}, u) == Get(c, u);
  }

  lemma DepartedKeys(live: map<Name, Live>, live': map<Name, Live>, foreign: multiset<HostType>, foreign': multiset<HostType>)
    requires Departed(live, live', foreign, foreign')
    ensures live'.Keys <= live.Keys
  {
  }

  class PoolReconciler {
    const cluster: Cluster
    var current: Current                    // currentBareMetalInstances
    var hostSets: seq<HostSet>              // status.hostSets
    var phase: PoolPhase                    // status.phase

    ghost predicate Consistent()
      reads this, cluster
    {
      cluster.live.Keys <= cluster.taken && Counts(current, cluster.live, cluster.ledger) && OneLoss(cluster.ledger)
      && (NoLoss(cluster.ledger) ==> Tracks(current, cluster.live, cluster.taken, cluster.ledger.foreign))
    }

    constructor (cluster: Cluster)
      ensures this.cluster == cluster && current == map[] && hostSets == [] && phase == Progressing
    {
      this.cluster := cluster;
      current, hostSets, phase := map[], [], Progressing;
    }

    /** The error of a call ends the pass with phase Failed, and nothing else does. */
    ghost predicate Reported(ok: bool, errors: nat, before: PoolPhase)
      reads this, cluster
    {
      cluster.errors == errors + (if ok then 0 else 1) && phase == if ok then before else Failed
    }

    method ScaleUp(t: HostType, delta: nat) returns (ok: bool, ghost n: nat)
      requires Consistent() && NoLoss(cluster.ledger)
      modifies this`current, this`phase, cluster
      ensures Consistent() && cluster.deletes == old(cluster.deletes)
      ensures n <= delta && (ok <==> n == delta) && (ok ==> NoLoss(cluster.ledger))
      ensures Reported(ok, old(cluster.errors), old(phase))
      ensures Grown(Get(old(current), t), Get(current, t), old(cluster.creates), cluster.creates, t, n)
      ensures OthersSame(old(current), current, t)
    {
      hide Tracks, Counts, Placeholders, Repeat;
      n := 0;
      GrownNotYet(Get(current, t), cluster.creates, t);
      for k := 0 to delta
        invariant n == k && Consistent() && NoLoss(cluster.ledger) && cluster.deletes == old(cluster.deletes)
        invariant cluster.errors == old(cluster.errors) && phase == old(phase)
        invariant Grown(Get(old(current), t), Get(current, t), old(cluster.creates), cluster.creates, t, n)
        invariant OthersSame(old(current), current, t)
      {
        hide Grown;
        GrownOnce(Get(old(current), t), Get(current, t), old(cluster.creates), cluster.creates, t, n);
        ok := CreateOne(t);
        if !ok {
          phase := Failed;
          return;
        }
        n := n + 1;
      }
      ok := true;
    }

    /** Whatever others do, slices and ledger stay in step with it. */
    method Others()
      requires Consistent()
      modifies cluster`live, cluster`ledger
      ensures Consistent() && NoLoss(cluster.ledger) == old(NoLoss(cluster.ledger))
    {
      hide Tracks, Counts, Departed;
      ghost var live, g := cluster.live, cluster.ledger;
      cluster.Others();
      assert cluster.live.Keys <= live.Keys by { DepartedKeys(live, cluster.live, g.foreign, cluster.ledger.foreign); }
      OthersTracked(current, live, cluster.live, cluster.taken, g, cluster.ledger.foreign);
    }

    /** One round of the loop: create, then append nil. */
    method CreateOne(t: HostType) returns (ok: bool)
      requires Consistent() && NoLoss(cluster.ledger)
      modifies this`current, cluster
      ensures Consistent() && (ok ==> NoLoss(cluster.ledger)) && cluster.deletes == old(cluster.deletes)
      ensures cluster.errors == old(cluster.errors) + if ok then 0 else 1
      ensures cluster.creates == if ok then old(cluster.creates) + [t] else old(cluster.creates)
      ensures Get(current, t) == if ok then Get(old(current), t) + [Placeholder] else Get(old(current), t)
      ensures OthersSame(old(current), current, t)
    {
      hide Tracks, Counts;
      Others();
      ghost var live, taken, g := cluster.live, cluster.taken, cluster.ledger;
      ghost var name;
      ok, name := cluster.Create(t);
      if ok {
        TracksCreate(current, live, taken, cluster.taken, g.foreign, t, name);
        CountsCreate(current, live, g, t, name);
        current := current[t := Get(current, t) + [Placeholder]];
      } else if cluster.live != live {
        CountsAdd(current, live, g, t, name);
      } else {
        TracksTaken(current, live, taken, cluster.taken, g.foreign);
      }
    }

    method ScaleDown(t: HostType, replicas: int) returns (ok: bool)
      requires Consistent() && NoLoss(cluster.ledger) && AllListed(Get(current, t))
      requires 0 <= replicas < |Get(current, t)| < TWO_31
      modifies this`current, this`phase, cluster`live, cluster`deletes, cluster`ledger, cluster`errors
      ensures Reported(ok, old(cluster.errors), old(phase))
      ensures Consistent() && (ok ==> NoLoss(cluster.ledger)) && OthersSame(old(current), current, t)
      ensures replicas <= |Get(current, t)| && (ok <==> |Get(current, t)| == replicas)
      ensures Shrunk(Get(old(current), t), Get(current, t), old(cluster.deletes), cluster.deletes, t, |Get(current, t)|)
    {
      hide Tracks, Counts, CutOff, Tagged;
      ShrunkNotYet(Get(current, t), cluster.deletes, t);
      while ToInt32(|Get(current, t)|) > replicas
        invariant Consistent() && NoLoss(cluster.ledger) && OthersSame(old(current), current, t)
        invariant replicas <= |Get(current, t)| < TWO_31
        invariant cluster.errors == old(cluster.errors) && phase == old(phase)
        invariant Shrunk(Get(old(current), t), Get(current, t), old(cluster.deletes), cluster.deletes, t, |Get(current, t)|)
        decreases |Get(current, t)|
      {
        ShrunkOnce(Get(old(current), t), Get(current, t), old(cluster.deletes), cluster.deletes, t, |Get(current, t)|);
        hide Shrunk;
        ok := DeleteLast(t);
        if !ok {
          phase := Failed;
          return;
        }
      }
      ok := true;
    }

    /** One round of the loop: delete the last instance, then drop its slot. */
    method DeleteLast(t: HostType) returns (ok: bool)
      requires Consistent() && NoLoss(cluster.ledger)
      requires Get(current, t) != [] && Get(current, t)[|Get(current, t)| - 1].Listed?
      modifies this`current, cluster`live, cluster`deletes, cluster`ledger, cluster`errors
      ensures cluster.errors == old(cluster.errors) + if ok then 0 else 1
      ensures Consistent() && (ok ==> NoLoss(cluster.ledger)) && OthersSame(old(current), current, t)
      ensures var s, lastIdx := Get(old(current), t), |Get(old(current), t)| - 1;
        && Get(current, t) == (if ok then s[..lastIdx] else s)
        && cluster.deletes == (if ok then old(cluster.deletes) + [(t, s[lastIdx].name)] else old(cluster.deletes))
    {
      hide Tracks, Counts;
      Others();
      var instances := current[t];
      var lastIdx := |instances| - 1;
      var name := instances[lastIdx].name;
      ghost var live, before, g := cluster.live, current, cluster.ledger;
      TracksDelete(before, live, cluster.taken, g.foreign, t, before[t := instances[..lastIdx]]);
      CountsDelete(before, live, g, t, name, before[t := instances[..lastIdx]]);
      ok := cluster.Delete(t, name);
      if ok {
        current := current[t := instances[..lastIdx]];
        assert name !in live ==> live - {name} == live;
        if |current[t]| == 0 {
          DropEmpty(current, cluster.live, cluster.taken, cluster.ledger, t);
          current := current - {t};             // and the loop ends
        }
      } else if cluster.live != live {
        CountsRemove(before, live, g, name);
      }
    }

    /** listAndGroupBareMetalInstances; `items` is the answer of the List call, if there is one. */
    method ListAndGroup(items: Option<seq<Item>>, ghost ready: set<Name>) returns (ok: bool)
      requires items.Some? ==> DistinctNames(items.value) && cluster.live == LiveItems(items.value, ready)
      requires cluster.live.Keys <= cluster.taken && cluster.ledger == CLEAN
      modifies this`current, this`phase
      ensures ok <==> items.Some?
      ensures ok ==> Consistent() && Counts(current, cluster.live, CLEAN) && phase == old(phase)
      ensures ok ==> forall t :: AllListed(Get(current, t)) && |Get(current, t)| <= |items.value|
      ensures !ok ==> current == old(current) && phase == Failed
    {
      hide Tracks, Counts;
      if items == None {
        phase := Failed;
        return false;
      }
      Group(items.value, ready);
      TracksTaken(current, cluster.live, cluster.live.Keys, cluster.taken, multiset{});
      ok := true;
    }

    /** The grouping loop; terminating instances are skipped. */
    method Group(items: seq<Item>, ghost ready: set<Name>)
      requires DistinctNames(items)
      modifies this`current
      ensures Tracks(current, LiveItems(items, ready), LiveItems(items, ready).Keys, multiset{})
      ensures Counts(current, LiveItems(items, ready), CLEAN)
      ensures forall t :: AllListed(Get(current, t)) && |Get(current, t)| <= |items|
    {
      hide Tracks, Counts, LiveOf, LiveItems;
      current := map[];
      NothingListed(items, ready);
      NothingTracked();
      for k := 0 to |items|
        invariant Tracks(current, LiveItems(items[..k], ready), LiveItems(items[..k], ready).Keys, multiset{})
        invariant Counts(current, LiveItems(items[..k], ready), CLEAN)
        invariant forall t :: AllListed(Get(current, t)) && |Get(current, t)| <= k
      {
        var x := items[k];
        LiveItemsNext(items, ready, k);
        if !x.deleting {
          NewName(items, ready, k);
          ghost var live := LiveItems(items[..k], ready);
          TracksListed(current, live, x.hostType, x.name, x.name in ready);
          CountsListed(current, live, x.hostType, x.name, x.name in ready);
          assert LiveItems(items[..k + 1], ready).Keys == live.Keys + {x.name};
          ghost var before := current;
          current := current[x.hostType := Get(current, x.hostType) + [Listed(x.name)]];
          assert forall t :: Get(current, t) == if t == x.hostType then Get(before, t) + [Listed(x.name)] else Get(before, t);
        }
      }
      assert items[..|items|] == items;
    }

    /** reconcileBareMetalInstances; the status is brought up to date on every exit. */
    method ReconcileInstances(spec: seq<HostSet>) returns (ok: bool)
      requires Consistent() && NothingCreatedYet(current) && ValidSpec(spec)
      requires cluster.creates == [] && cluster.deletes == [] && NoLoss(cluster.ledger)
      modifies this, cluster
      ensures Reported(ok, old(cluster.errors), old(phase))
      ensures Consistent() && AllProgress(old(current), current, spec, cluster.creates, cluster.deletes)
      ensures ok ==> NoLoss(cluster.ledger) && forall t :: |Get(current, t)| == Wanted(spec, t)
      ensures StrictlySorted(hostSets) && Describes(hostSets, current)
      ensures Truthful(hostSets, cluster.live) <==> Balanced(cluster.ledger)
    {
      hide Tracks, Counts, AllProgress, Wanted, Truthful, StrictlySorted, Describes, Balanced;
      var desired := DesiredReplicas(spec);
      ok := ScaleAll(spec, desired);
      Others();
      CountsFit(old(current), current, spec, cluster.creates, cluster.deletes);
      UpdateStatusHostSets();
      TruthfulIff(hostSets, current, cluster.live, cluster.ledger);
    }

    /** The replicas per type: what the spec lists, and zero for every other type that has instances. */
    method DesiredReplicas(spec: seq<HostSet>) returns (desired: map<HostType, int>)
      ensures forall t :: t in desired ==> desired[t] == Wanted(spec, t)
      ensures forall t :: t !in desired ==> Get(current, t) == [] && Wanted(spec, t) == 0
    {
      desired := map[];
      for k := 0 to |spec|
        invariant forall t :: if t in desired then desired[t] == Wanted(spec[..k], t) else Wanted(spec[..k], t) == 0
      {
        assert spec[..k + 1][..k] == spec[..k];
        desired := desired[spec[k].hostType := spec[k].replicas];
      }
      assert spec[..|spec|] == spec;
      ghost var listed := desired;
      var todo := current.Keys;
      while todo != {}
        invariant todo <= current.Keys
        invariant forall t :: t in desired ==> desired[t] == Wanted(spec, t)
        invariant forall t :: t !in desired ==> Wanted(spec, t) == 0
        invariant forall t :: t in current && t !in todo ==> t in desired
        decreases |todo|
      {
        var t :| t in todo;
        if t !in desired {
          desired := desired[t := 0];
        }
        todo := todo - {t};
      }
    }

    /** The loop over the desired replicas, in whatever order the map yields them. */
    method ScaleAll(spec: seq<HostSet>, desired: map<HostType, int>) returns (ok: bool)
      requires Consistent() && NoLoss(cluster.ledger) && NothingCreatedYet(current) && ValidSpec(spec)
      requires cluster.creates == [] && cluster.deletes == []
      requires forall t :: t in desired ==> desired[t] == Wanted(spec, t)
      requires forall t :: t !in desired ==> Get(current, t) == [] && Wanted(spec, t) == 0
      modifies this`current, this`phase, cluster
      ensures Reported(ok, old(cluster.errors), old(phase))
      ensures Consistent() && AllProgress(old(current), current, spec, cluster.creates, cluster.deletes)
      ensures ok ==> NoLoss(cluster.ledger) && forall t :: |Get(current, t)| == Wanted(spec, t)
    {
      hide Tracks, Counts, Wanted, Progress, AllProgress;
      ghost var c0 := current;
      StartProgress(c0, spec);
      var todo := desired.Keys;
      while todo != {}
        invariant todo <= desired.Keys && Consistent() && NoLoss(cluster.ledger)
        invariant cluster.errors == old(cluster.errors) && phase == old(phase)
        invariant AllProgress(c0, current, spec, cluster.creates, cluster.deletes)
        invariant forall t :: t in todo ==> Get(current, t) == Get(c0, t)
        invariant forall t :: t !in todo ==> |Get(current, t)| == Wanted(spec, t)
        decreases |todo|
      {
        var t :| t in todo;
        ok := ScaleType(spec, t, desired[t], c0);
        if !ok {
          return;
        }
        todo := todo - {t};
      }
      ok := true;
    }

    /** One round of that loop: the int32 delta decides between creating, deleting and leaving alone. */
    method ScaleType(spec: seq<HostSet>, t: HostType, replicas: int, ghost c0: Current) returns (ok: bool)
      requires Consistent() && NoLoss(cluster.ledger) && NothingCreatedYet(c0) && ValidSpec(spec) && replicas == Wanted(spec, t)
      requires AllProgress(c0, current, spec, cluster.creates, cluster.deletes) && Get(current, t) == Get(c0, t)
      modifies this`current, this`phase, cluster
      ensures Reported(ok, old(cluster.errors), old(phase))
      ensures Consistent() && OthersSame(old(current), current, t)
      ensures AllProgress(c0, current, spec, cluster.creates, cluster.deletes)
      ensures ok ==> NoLoss(cluster.ledger) && |Get(current, t)| == replicas
    {
      hide Tracks, Counts, Progress, AllProgress, CutOff, DeletedOf, Grown, Shrunk;
      WantedInRange(spec, t);
      ghost var s, before := Get(current, t), current;
      ghost var creates, deletes := cluster.creates, cluster.deletes;
      StillListed(c0, current, spec, creates, deletes, t);
      DeltaExact(replicas, |s|);
      var delta := Sub32(replicas, ToInt32(|Get(current, t)|));
      ok := true;
      if delta > 0 {
        ghost var n;
        ok, n := ScaleUp(t, delta);
        GrownLength(s, Get(current, t), creates, cluster.creates, t, n);
        GrownProgress(s, Get(current, t), creates, cluster.creates, t, n, replicas);
        Combine(c0, before, current, spec, creates, deletes, cluster.creates, cluster.deletes, t);
      } else if delta < 0 {
        ok := ScaleDown(t, replicas);
        ShrunkLength(s, Get(current, t), deletes, cluster.deletes, t, |Get(current, t)|);
        ShrunkProgress(s, Get(current, t), deletes, cluster.deletes, t, |Get(current, t)|, replicas);
        Combine(c0, before, current, spec, creates, deletes, cluster.creates, cluster.deletes, t);
      }
    }

    /** updateStatusHostSets: one entry per non-empty slice, in any order, then sorted. */
    method UpdateStatusHostSets()
      requires forall t :: |Get(current, t)| < TWO_31
      modifies this`hostSets
      ensures StrictlySorted(hostSets) && Describes(hostSets, current)
    {
      var updated: seq<HostSet> := [];
      var todo := current.Keys;
      while todo != {}
        invariant todo <= current.Keys && Distinct(updated)
        invariant forall x :: x in updated <==>
          x.hostType in current && x.hostType !in todo && |current[x.hostType]| > 0 && x.replicas == |current[x.hostType]|
        decreases |todo|
      {
        var t :| t in todo;
        if |current[t]| > 0 {
          assert forall x :: x in updated ==> x.hostType != t;
          assert |current[t]| == |Get(current, t)|;
          updated := updated + [HostSet(t, ToInt32(|current[t]|))];
        }
        todo := todo - {t};
      }
      SortSorted(updated);
      hostSets := Sort(updated);
      forall x
        ensures x in hostSets <==> x in updated
      {
        SameElements(updated, x);
      }
    }

    /** checkBareMetalInstancesReady: a second List, stopped by the first instance that is not Ready. */
    method CheckReady() returns (ready: Result<bool>)
      modifies this`phase, cluster`errors
      ensures cluster.errors == old(cluster.errors) + if ready.Err? then 1 else 0
      ensures ready.Ok? ==> (ready.value <==> forall n :: n in cluster.live ==> cluster.live[n].ready)
      ensures phase == match ready case Err => Failed case Ok(r) => if r then old(phase) else Progressing
    {
      var listed := cluster.List();
      if !listed {
        phase := Failed;
        return Err;
      }
      var todo := cluster.live.Keys;
      while todo != {}
        invariant todo <= cluster.live.Keys && phase == old(phase)
        invariant forall n :: n in cluster.live && n !in todo ==> cluster.live[n].ready
        decreases |todo|
      {
        var n :| n in todo;
        if !cluster.live[n].ready {
          phase := Progressing;
          return Ok(false);
        }
        todo := todo - {n};
      }
      ready := Ok(true);
    }

    /**
     handleUpdate from the first List on.  A pass that reports Ready has every live instance Ready and
     every type at its replicas, but for names that were in use and instances deleted by others; and it
     created nothing exactly when no type had fewer live instances than replicas when they were listed.
     */
    method HandleUpdate(items: Option<seq<Item>>, ghost listed: set<Name>, spec: seq<HostSet>, provision: Provision)
      returns (ok: bool)
      requires items.Some? ==> DistinctNames(items.value) && cluster.live == LiveItems(items.value, listed)
      requires items.Some? ==> |items.value| < TWO_31
      requires cluster.live.Keys <= cluster.taken && ValidSpec(spec)
      requires cluster.ledger == CLEAN && cluster.creates == [] && cluster.deletes == []
      modifies this, cluster
      ensures items == None ==> hostSets == old(hostSets) && cluster.live == old(cluster.live)
      ensures items.Some? ==> (Truthful(hostSets, cluster.live) <==> Balanced(cluster.ledger))
      ensures OneLoss(cluster.ledger) && (ok ==> NoLoss(cluster.ledger))
      ensures ok <==> items.Some? && cluster.errors == old(cluster.errors) && !provision.stops
                      && forall n :: n in cluster.live ==> cluster.live[n].ready
      ensures phase == if ok then Ready
                       else if items == None || cluster.errors > old(cluster.errors) then Failed
                       else if !provision.stops then Progressing
                       else if provision.jobFailed then Failed else old(phase)
      ensures ok ==> forall t :: |LiveOf(cluster.live, t)| + cluster.ledger.collisions[t] + cluster.ledger.foreign[t]
                              == Wanted(spec, t)
      ensures Enough(spec, old(cluster.live)) ==> cluster.creates == []
      ensures ok && cluster.creates == [] ==> Enough(spec, old(cluster.live))
    {
      hide Tracks, Counts, Truthful, StrictlySorted, Describes, LiveItems, AllProgress, LiveOf, Wanted, Balanced, Enough;
      ok := ListAndGroup(items, listed);
      if !ok {
        return;
      }
      ghost var c0, live0 := current, cluster.live;
      Others();
      ok := ReconcileInstances(spec);
      CreatesOnlyForNeed(c0, live0, current, spec, cluster.creates, cluster.deletes);
      Others();
      TruthfulIff(hostSets, current, cluster.live, cluster.ledger);
      if !ok {
        return;
      }
      if provision.jobFailed {
        phase := Failed;
      }
      if provision.stops {
        return false;
      }
      AtReplicas(current, cluster.live, cluster.ledger, spec);
      CreatedNothingIff(c0, live0, current, spec, cluster.creates, cluster.deletes);
      var ready := CheckReady();
      ok := ready == Ok(true);
      if ok {
        phase := Ready;
      }
    }
  }

  lemma SomeCount(s: seq<HostType>)
    ensures s != [] ==> exists t :: multiset(s)[t] > 0
  {
    if s != [] {
      assert multiset(s)[s[0]] > 0;
    }
  }

  /** Every type has as many live instances as the spec asks for, or more. */
  ghost predicate Enough(spec: seq<HostSet>, live: map<Name, Live>) {
    forall t :: Wanted(spec, t) <= |LiveOf(live, t)|
  }

  lemma AtReplicas(c: Current, live: map<Name, Live>, g: Ledger, spec: seq<HostSet>)
    requires Counts(c, live, g) && NoLoss(g) && forall t :: |Get(c, t)| == Wanted(spec, t)
    ensures forall t :: |LiveOf(live, t)| + g.collisions[t] + g.foreign[t] == Wanted(spec, t)
  {
    hide LiveOf, Wanted;
    forall t
      ensures |LiveOf(live, t)| + g.collisions[t] + g.foreign[t] == Wanted(spec, t)
    {
      assert |Get(c, t)| == Wanted(spec, t);
    }
  }

  lemma CreatedType(s0: seq<Slot>, s: seq<Slot>, w: int, created: nat, deleted: seq<Name>)
    requires Progress(s0, s, w, created, deleted)
    ensures w <= |s0| ==> created == 0
    ensures |s| == w && created == 0 ==> w <= |s0|
  {
  }

  /** Whatever fails, a pass creates nothing if no type is short of live instances when they are listed. */
  lemma CreatesOnlyForNeed(c0: Current, live0: map<Name, Live>, c: Current, spec: seq<HostSet>,
                           creates: seq<HostType>, deletes: seq<(HostType, Name)>)
    requires AllProgress(c0, c, spec, creates, deletes) && Counts(c0, live0, CLEAN)
    ensures Enough(spec, live0) ==> creates == []
  {
    hide Progress, DeletedOf, Wanted, LiveOf;
    if Enough(spec, live0) {
      forall t
        ensures multiset(creates)[t] == 0
      {
        assert |Get(c0, t)| + CLEAN.lostCreates[t] == |LiveOf(live0, t)| + CLEAN.collisions[t];
        assert Wanted(spec, t) <= |LiveOf(live0, t)|;
        CreatedType(Get(c0, t), Get(c, t), Wanted(spec, t), multiset(creates)[t], DeletedOf(deletes, t));
      }
      SomeCount(creates);
    }
  }

  /**
   A pass that gets every type to its replicas creates nothing exactly when no type was short of live
   instances when they were listed.
   */
  lemma CreatedNothingIff(c0: Current, live0: map<Name, Live>, c: Current, spec: seq<HostSet>,
                          creates: seq<HostType>, deletes: seq<(HostType, Name)>)
    requires AllProgress(c0, c, spec, creates, deletes) && (forall t :: |Get(c, t)| == Wanted(spec, t))
    requires Counts(c0, live0, CLEAN)
    ensures creates == [] <==> Enough(spec, live0)
  {
    hide Progress, DeletedOf, Wanted, LiveOf;
    CreatesOnlyForNeed(c0, live0, c, spec, creates, deletes);
    if creates == [] {
      forall t
        ensures Wanted(spec, t) <= |LiveOf(live0, t)|
      {
        assert |Get(c0, t)| + CLEAN.lostCreates[t] == |LiveOf(live0, t)| + CLEAN.collisions[t];
        assert |Get(c, t)| == Wanted(spec, t);
        CreatedType(Get(c0, t), Get(c, t), Wanted(spec, t), multiset(creates)[t], DeletedOf(deletes, t));
      }
    }
  }

  /** A pass can report Ready and have created an instance: its own controller made it Ready meanwhile. */
  lemma RacingPass() returns (spec: seq<HostSet>, c: Current, live: map<Name, Live>, creates: seq<HostType>)
    ensures Counts(map[], map[], CLEAN) && Counts(c, live, CLEAN)
    ensures AllProgress(map[], c, spec, creates, []) && forall t :: |Get(c, t)| == Wanted(spec, t)
    ensures live != map[] && (forall n :: n in live ==> live[n].ready) && creates != []
  {
    var t := "large";
    spec, c, creates := [HostSet(t, 1)], map[t := [Placeholder]], [t];
    live := map["pool-host-a" := Live(t, true)];
    assert LiveOf(live, t) == {"pool-host-a"};
    assert Placeholders(1) == Placeholders(0) + [Placeholder] == [Placeholder];
    assert spec[..0] == [];
    forall u
      ensures |Get(c, u)| == |LiveOf(live, u)| == Wanted(spec, u)
      ensures Progress(Get(map[], u), Get(c, u), Wanted(spec, u), multiset(creates)[u], DeletedOf([], u))
    {
      assert Wanted(spec, u) == if u == t then 1 else 0;
      assert u != t ==> LiveOf(live, u) == {};
      assert [] + Placeholders(0) == [];
      assert [] + [Placeholder] == [Placeholder];
    }
    NothingTracked();
  }

  lemma ShrunkLength(s: seq<Slot>, s': seq<Slot>, calls: seq<(HostType, Name)>, calls': seq<(HostType, Name)>,
                     t: HostType, n: nat)
    requires Shrunk(s, s', calls, calls', t, n)
    ensures n <= |s| && n == |s'|
  {
  }

  lemma StillListed(c0: Current, c: Current, spec: seq<HostSet>, creates: seq<HostType>, deletes: seq<(HostType, Name)>,
                    t: HostType)
    requires AllProgress(c0, c, spec, creates, deletes) && Get(c, t) == Get(c0, t)
    ensures AllListed(Get(c, t)) && multiset(creates)[t] == 0 && DeletedOf(deletes, t) == []
  {
  }

  /** Progress of one type, with the others left alone, is progress of all. */
  lemma Combine(c0: Current, c: Current, c': Current, spec: seq<HostSet>,
                creates: seq<HostType>, deletes: seq<(HostType, Name)>,
                creates': seq<HostType>, deletes': seq<(HostType, Name)>, t: HostType)
    requires AllProgress(c0, c, spec, creates, deletes) && OthersSame(c, c', t)
    requires forall u :: u != t ==> multiset(creates')[u] == multiset(creates)[u]
    requires forall u :: u != t ==> DeletedOf(deletes', u) == DeletedOf(deletes, u)
    requires Progress(Get(c0, t), Get(c', t), Wanted(spec, t), multiset(creates')[t], DeletedOf(deletes', t))
    ensures AllProgress(c0, c', spec, creates', deletes')
  {
    hide Progress, DeletedOf;
    forall u
      ensures Progress(Get(c0, u), Get(c', u), Wanted(spec, u), multiset(creates')[u], DeletedOf(deletes', u))
    {
      assert Progress(Get(c0, u), Get(c, u), Wanted(spec, u), multiset(creates)[u], DeletedOf(deletes, u));
    }
  }

  lemma GrownLength(s: seq<Slot>, s': seq<Slot>, calls: seq<HostType>, calls': seq<HostType>, t: HostType, n: nat)
    requires Grown(s, s', calls, calls', t, n)
    ensures |s'| == |s| + n
  {
  }
}
