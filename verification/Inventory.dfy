/**
 What the controllers and the two inventory backends share: the host they exchange, the
 abstract record a backend keeps for a host, and what assigning and unassigning do to it.
 OpenStackInventory and Metal3Inventory prove that they refine Claim and Release; the laws of
 leasing are proved here, once, for both.
 */
module Inventory {
  import opened Wrappers
  import opened JsonValue

  const DEFAULT_MANAGED_BY := "baremetal"
  const DEFAULT_PROVISION_STATE := "available"
  const POOL_LABEL := "bareMetalPoolId"
  const OWNER_LABEL := "bareMetalInstanceId"
  const MANAGED_BY_LABEL := "managedBy"

  datatype Host = Host(
    poolID: string,
    instanceID: string,
    inventoryID: string,
    name: string,
    hostType: string,
    hostClass: string,
    networkClass: string,
    provisionState: string,
    managedBy: string)

  /** OpenStack can hold label values that are not text. */
  type Labels = map<string, Json>

  /** A host as the inventory interface sees it. */
  datatype Record = Record(owner: Option<string>, labels: Labels)

  function Texts(labels: map<string, string>): Labels {
    map k | k in labels :: Text(labels[k])
  }

  /** Where a selector or a label has no value, the standard one is meant. */
  function Or(s: string, standard: string): string {
    if s == "" then standard else s
  }

  function ValueOf(m: map<string, string>, key: string): string {
    if key in m then m[key] else ""
  }

  /** What reconcileInventory asks FindFreeHost for: the selector with the host type and both defaults filled in. */
  function MatchExpressions(selector: map<string, string>, hostType: string): map<string, string> {
    selector["hostType" := hostType]
      ["managedBy" := Or(ValueOf(selector, "managedBy"), DEFAULT_MANAGED_BY)]
      ["provisionState" := Or(ValueOf(selector, "provisionState"), DEFAULT_PROVISION_STATE)]
  }

  /** The manager a host must have. */
  function WantedManager(selector: map<string, string>): string {
    Or(ValueOf(selector, "managedBy"), DEFAULT_MANAGED_BY)
  }

  // ---------------------------------------------------------------- the interface

  /** The owner check: the host is unowned or already owned by the caller. */
  predicate Claimable(r: Record, instance: string) {
    r.owner == None || r.owner == Some(instance)
  }

  /** A claim that passes the owner check. */
  function Claim(r: Record, instance: string, labels: map<string, string>): Record {
    Record(Some(instance), r.labels + Texts(labels))
  }

  /** UnassignHost takes no instance: it releases whoever owns the host. */
  function Release(r: Record, keys: set<string>): Record {
    Record(None, r.labels - keys)
  }

  // ---------------------------------------------------------------- the controller's labels

  /** The spec fields a lease is made of, and the pool of a pool's instance. */
  datatype Lease = Lease(
    instance: string,
    transient: map<string, string>,     // spec.inventoryLabels
    persistent: map<string, string>,    // spec.inventoryPersistentLabels
    pool: Option<string>)

  function PoolLabels(pool: Option<string>): map<string, string> {
    if pool.Some? then map[POOL_LABEL := pool.value] else map[]
  }

  /** Labels put on the host: persistent ones override transient ones, the pool overrides both. */
  function Combined(l: Lease): map<string, string> {
    l.transient + l.persistent + PoolLabels(l.pool)
  }

  /** Labels taken off again. */
  function Removed(l: Lease): set<string> {
    l.transient.Keys + PoolLabels(l.pool).Keys
  }

  /** maps.Copy: range over the source in any order. */
  method Copy(target: map<string, string>, source: map<string, string>) returns (r: map<string, string>)
    ensures r == target + source
  {
    r := target;
    var rest := source.Keys;
    while rest != {}
      invariant rest <= source.Keys
      invariant r.Keys == target.Keys + (source.Keys - rest)
      invariant forall k :: k in source.Keys - rest ==> r[k] == source[k]
      invariant forall k :: k in target.Keys && k !in source.Keys - rest ==> r[k] == target[k]
    {
      var k :| k in rest;
      r := r[k := source[k]];
      rest := rest - {k};
    }
  }

  /** The label map of reconcileInventory. */
  method CombineLabels(l: Lease) returns (combined: map<string, string>)
    ensures combined == Combined(l)
  {
    combined := map[];
    combined := Copy(combined, l.transient);
    combined := Copy(combined, l.persistent);
    if l.pool.Some? {
      combined := combined[POOL_LABEL := l.pool.value];
    }
    assert combined == Combined(l);
  }

  /** The key list of handleDeletion, in any order. */
  method CollectRemoved(l: Lease) returns (keys: seq<string>)
    ensures (set k | k in keys) == Removed(l)
  {
    keys := [];
    var rest := l.transient.Keys;
    while rest != {}
      invariant rest <= l.transient.Keys
      invariant forall k :: k in keys <==> k in l.transient.Keys - rest
    {
      var k :| k in rest;
      keys := keys + [k];
      rest := rest - {k};
    }
    if l.pool.Some? {
      keys := keys + [POOL_LABEL];
    }
  }

  // ---------------------------------------------------------------- laws of a lease

  function Leased(r: Record, l: Lease): Record {
    Claim(r, l.instance, Combined(l))
  }

  /** Assign, then unassign. */
  function AfterLease(r: Record, l: Lease): Record {
    Release(Leased(r, l), Removed(l))
  }

  function AfterLeases(r: Record, ls: seq<Lease>): Record
    decreases |ls|
  {
    if ls == [] then r else AfterLeases(AfterLease(r, ls[0]), ls[1..])
  }

  /** A lease leaves the old labels, overlaid with the persistent ones, without the removed keys. */
  lemma LeaseLeaves(r: Record, l: Lease)
    ensures AfterLease(r, l) == Record(None, r.labels + Texts(l.persistent) - Removed(l))
  {
  }

  /** A lease undoes everything but the persistent labels exactly when no removed key was in use. */
  lemma LeaseIsCleanIff(r: Record, l: Lease)
    ensures AfterLease(r, l) == Record(None, r.labels + Texts(l.persistent))
            <==> Removed(l) !! (r.labels.Keys + l.persistent.Keys)
  {
    LeaseLeaves(r, l);
    hide Combined, Removed, Claim, Release;
    var all := r.labels + Texts(l.persistent);
    assert all.Keys == r.labels.Keys + l.persistent.Keys;
    if Removed(l) !! all.Keys {
      assert all - Removed(l) == all;
    } else {
      var k :| k in Removed(l) && k in all.Keys;
      assert k !in all - Removed(l);
    }
  }

  /** The base labels overlaid with the persistent labels of each lease in turn. */
  function Overlaid(base: Labels, ls: seq<Lease>): Labels
    decreases |ls|
  {
    if ls == [] then base else Overlaid(base + Texts(ls[0].persistent), ls[1..])
  }

  function PersistentKeys(ls: seq<Lease>): set<string> {
    if ls == [] then {} else ls[0].persistent.Keys + PersistentKeys(ls[1..])
  }

  /** Any number of leases whose removed keys are nobody's lasting keys add only persistent labels. */
  lemma {:induction false} LeasesAreClean(r: Record, ls: seq<Lease>)
    requires forall l :: l in ls ==> Removed(l) !! (r.labels.Keys + PersistentKeys(ls))
    ensures AfterLeases(r, ls).labels == Overlaid(r.labels, ls)
    ensures ls != [] ==> AfterLeases(r, ls).owner == None
    decreases |ls|
  {
    if ls != [] {
      var next := AfterLease(r, ls[0]);
      assert ls[0] in ls;
      LeaseIsCleanIff(r, ls[0]);
      assert next.labels.Keys == r.labels.Keys + ls[0].persistent.Keys;
      forall l | l in ls[1..]
        ensures Removed(l) !! (next.labels.Keys + PersistentKeys(ls[1..]))
      {
        assert l in ls;
      }
      LeasesAreClean(next, ls[1..]);
    }
  }

  /** The keys a lease sets or removes for good. */
  function Touches(l: Lease): set<string> {
    Removed(l) + l.persistent.Keys
  }

  /** What the leases do to one key, whatever they overlap in: the last one that touches it wins. */
  lemma {:induction false} LastLeaseDecides(r: Record, ls: seq<Lease>, n: nat, k: string)
    requires n < |ls| && k in Touches(ls[n])
    requires forall j :: n < j < |ls| ==> k !in Touches(ls[j])
    ensures k in AfterLeases(r, ls).labels <==> k !in Removed(ls[n])
    ensures k !in Removed(ls[n]) ==> AfterLeases(r, ls).labels[k] == Text(ls[n].persistent[k])
    decreases |ls|
  {
    var next := AfterLease(r, ls[0]);
    LeaseLeaves(r, ls[0]);
    if n == 0 {
      UntouchedKeyStays(next, ls[1..], k);
    } else {
      assert ls[n] == ls[1..][n - 1];
      LastLeaseDecides(next, ls[1..], n - 1, k);
    }
  }

  lemma {:induction false} UntouchedKeyStays(r: Record, ls: seq<Lease>, k: string)
    requires forall j :: 0 <= j < |ls| ==> k !in Touches(ls[j])
    ensures k in AfterLeases(r, ls).labels <==> k in r.labels
    ensures k in r.labels ==> AfterLeases(r, ls).labels[k] == r.labels[k]
    decreases |ls|
  {
    if ls != [] {
      LeaseLeaves(r, ls[0]);
      assert k !in Touches(ls[0]);
      UntouchedKeyStays(AfterLease(r, ls[0]), ls[1..], k);
    }
  }

  /** A pass that repeats a claim or a release, after a lost reply, changes nothing more. */
  lemma RepeatingChangesNothing(r: Record, l: Lease)
    ensures Claimable(Leased(r, l), l.instance)
    ensures Leased(Leased(r, l), l) == Leased(r, l)
    ensures AfterLease(Leased(r, l), l) == AfterLease(r, l)
    ensures Release(AfterLease(r, l), Removed(l)) == AfterLease(r, l)
  {
  }
}
