/**
 The Metal3 backend: hosts are BareMetalHost objects, a claim is spec.consumerRef, and labels are
 object labels under a prefix.
 */
module Metal3Inventory {
  import opened Wrappers
  import opened JsonValue
  import opened Inventory
  import opened Shuffling

  const PREFIX := "osac.openshift.io/"
  const HOST_TYPE := PREFIX + "host-type"
  const MANAGED_BY := PREFIX + "managed-by"
  const POOL_ID := PREFIX + "pool-id"

  datatype ConsumerRef = ConsumerRef(apiVersion: string, kind: string, name: string)

  datatype Bmh = Bmh(
    namespace: string,
    name: string,
    labels: map<string, string>,          // a nil map reads like an empty one
    consumer: Option<ConsumerRef>,
    operationalStatus: string,
    provisioningState: string)

  type Key = (string, string)

  // ---------------------------------------------------------------- host IDs

  /** strings.SplitN(s, "/", 2) when there is a slash. */
  function SplitFirst(s: string): Option<(string, string)> {
    if s == [] then None
    else if s[0] == '/' then Some(("", s[1..]))
    else
      match SplitFirst(s[1..])
      case None => None
      case Some(parts) => Some(([s[0]] + parts.0, parts.1))
  }

  function ParseHostID(id: string): Option<Key> {
    match SplitFirst(id)
    case None => None
    case Some(parts) => if parts.0 == "" || parts.1 == "" then None else Some(parts)
  }

  /** fmt.Sprintf("%s/%s"). */
  function HostID(key: Key): string {
    key.0 + "/" + key.1
  }

  lemma {:induction false} SplitFirstIff(s: string, key: Key)
    ensures SplitFirst(s) == Some(key) <==> s == HostID(key) && '/' !in key.0
    decreases |s|
  {
    if s == [] {
      assert |HostID(key)| > 0;
    } else if s[0] == '/' {
      assert s == "/" + s[1..];
      assert key.0 == "" ==> HostID(key) == "/" + key.1 && HostID(key)[1..] == key.1;
      assert key.0 != "" ==> HostID(key)[0] == key.0[0];
    } else {
      if key.0 == [] {
        assert HostID(key)[0] == '/';
      } else {
        var shorter := (key.0[1..], key.1);
        SplitFirstIff(s[1..], shorter);
        assert HostID(key) == [key.0[0]] + HostID(shorter);
        assert key.0 == [key.0[0]] + shorter.0;
        assert s == [s[0]] + s[1..];
      }
      if SplitFirst(s[1..]).Some? {
        var parts := SplitFirst(s[1..]).value;
        assert ([s[0]] + parts.0)[1..] == parts.0;
      }
    }
  }

  /** ParseHostID reads back exactly the IDs that bmhToHost writes, so an object has one ID. */
  lemma ParseHostIDIff(id: string, key: Key)
    ensures ParseHostID(id) == Some(key) <==> id == HostID(key) && '/' !in key.0 && key.0 != "" && key.1 != ""
  {
    SplitFirstIff(id, key);
    if SplitFirst(id).Some? {
      SplitFirstIff(id, SplitFirst(id).value);
    }
  }

  /** Two host IDs that name the same object are the same lock key. */
  lemma OneLockPerObject(a: string, b: string)
    requires ParseHostID(a).Some? && ParseHostID(a) == ParseHostID(b)
    ensures a == b
  {
    ParseHostIDIff(a, ParseHostID(a).value);
    ParseHostIDIff(b, ParseHostID(a).value);
  }

  // ---------------------------------------------------------------- records

  function PrefixedKeys(keys: set<string>): set<string> {
    set k | k in keys :: PREFIX + k
  }

  function Prefixed(labels: map<string, string>): map<string, string> {
    map key | key in PrefixedKeys(labels.Keys) && |key| >= |PREFIX| && key[|PREFIX|..] in labels :: labels[key[|PREFIX|..]]
  }

  lemma PrefixStrips(k: string)
    ensures (PREFIX + k)[|PREFIX|..] == k
  {
  }

  lemma PrefixedKeysAt(keys: set<string>, k: string)
    ensures k in keys <==> PREFIX + k in PrefixedKeys(keys)
  {
    if PREFIX + k in PrefixedKeys(keys) {
      var j :| j in keys && PREFIX + j == PREFIX + k;
      PrefixStrips(j);
      PrefixStrips(k);
    }
  }

  lemma PrefixedAt(labels: map<string, string>, k: string)
    ensures k in labels <==> PREFIX + k in Prefixed(labels)
    ensures k in labels ==> Prefixed(labels)[PREFIX + k] == labels[k]
  {
  }

  /** A confirmed AssignHost, whatever the order of the labels. */
  function Assigned(b: Bmh, instance: string, labels: map<string, string>): Bmh {
    b.(labels := b.labels + Prefixed(labels),
       consumer := Some(ConsumerRef("osac.openshift.io/v1alpha1", "BareMetalInstance", instance)))
  }

  /** A confirmed UnassignHost. */
  function Unassigned(b: Bmh, keys: set<string>): Bmh {
    b.(labels := b.labels - PrefixedKeys(keys), consumer := None)
  }

  /** The labels under the prefix, without it. */
  function Names(labels: map<string, string>): set<string> {
    set key | key in labels.Keys && PREFIX <= key :: key[|PREFIX|..]
  }

  function View(b: Bmh): Record {
    Record(
      if b.consumer.Some? then Some(b.consumer.value.name) else None,
      map k | k in Names(b.labels) && PREFIX + k in b.labels :: Text(b.labels[PREFIX + k]))
  }

  lemma NameIff(labels: map<string, string>, k: string)
    ensures k in Names(labels) <==> PREFIX + k in labels
  {
    PrefixStrips(k);
    if k in Names(labels) {
      var key :| key in labels.Keys && PREFIX <= key && key[|PREFIX|..] == k;
      assert key == PREFIX + k;
    }
    assert PREFIX <= PREFIX + k;
  }

  // ---------------------------------------------------------------- refinement of the interface

  lemma ViewAt(b: Bmh, k: string)
    ensures k in View(b).labels <==> PREFIX + k in b.labels
    ensures k in View(b).labels ==> View(b).labels[k] == Text(b.labels[PREFIX + k])
  {
    NameIff(b.labels, k);
  }

  lemma AssignRefines(b: Bmh, instance: string, labels: map<string, string>)
    ensures View(Assigned(b, instance, labels)) == Claim(View(b), instance, labels)
  {
    var left, right := View(Assigned(b, instance, labels)).labels, Claim(View(b), instance, labels).labels;
    forall k
      ensures k in left <==> k in right
      ensures k in left ==> left[k] == right[k]
    {
      AssignRefinesAt(b, instance, labels, k);
    }
    hide Names, Prefixed;
    assert left == right;
  }

  lemma AssignRefinesAt(b: Bmh, instance: string, labels: map<string, string>, k: string)
    ensures k in View(Assigned(b, instance, labels)).labels <==> k in View(b).labels + Texts(labels)
    ensures k in View(Assigned(b, instance, labels)).labels ==>
              View(Assigned(b, instance, labels)).labels[k] == (View(b).labels + Texts(labels))[k]
  {
    hide View, Prefixed, PrefixedKeys;
    PrefixedAt(labels, k);
    ViewAt(b, k);
    ViewAt(Assigned(b, instance, labels), k);
  }

  lemma UnassignRefines(b: Bmh, keys: set<string>)
    ensures View(Unassigned(b, keys)) == Release(View(b), keys)
  {
    var after := Unassigned(b, keys);
    var left, right := View(after).labels, Release(View(b), keys).labels;
    assert View(after).owner == None;
    hide View;
    forall k
      ensures k in left <==> k in right
      ensures k in left ==> left[k] == right[k]
    {
      hide PrefixedKeys, Names;
      PrefixedKeysAt(keys, k);
      ViewAt(b, k);
      ViewAt(after, k);
    }
    assert left == right;
  }

  /** A whole lease is the abstract one, for every host and every lease. */
  lemma LeaseRefines(b: Bmh, l: Lease)
    ensures View(Unassigned(Assigned(b, l.instance, Combined(l)), Removed(l))) == AfterLease(View(b), l)
  {
    hide Combined, Removed, View, Assigned, Unassigned;
    AssignRefines(b, l.instance, Combined(l));
    UnassignRefines(Assigned(b, l.instance, Combined(l)), Removed(l));
  }

  /**
   After the lease a persistent label is still on the host, with its value, exactly when its key is
   neither a transient one nor the pool's; the owner is no label here.
   */
  lemma PersistentLabelStaysIff(b: Bmh, l: Lease, k: string)
    requires k in l.persistent
    ensures var after := Unassigned(Assigned(b, l.instance, Combined(l)), Removed(l)).labels;
      (PREFIX + k in after && after[PREFIX + k] == l.persistent[k])
      <==> k !in l.transient && !(k == POOL_LABEL && l.pool.Some?)
  {
    hide Prefixed, PrefixedKeys;
    PrefixedAt(Combined(l), k);
    PrefixedKeysAt(Removed(l), k);
  }

  /** The smallest loss: one key that is persistent and transient. */
  lemma PersistentLabelLost(b: Bmh)
    ensures var l := Lease("i", map["rack" := "a"], map["rack" := "b"], None);
      "rack" in l.persistent && PREFIX + "rack" !in Unassigned(Assigned(b, l.instance, Combined(l)), Removed(l)).labels
  {
    var l := Lease("i", map["rack" := "a"], map["rack" := "b"], None);
    PersistentLabelStaysIff(b, l, "rack");
    hide Prefixed, PrefixedKeys;
    PrefixedKeysAt(Removed(l), "rack");
  }

  /** Labels outside the prefix belong to others and are kept. */
  lemma OtherLabelsKept(b: Bmh, instance: string, labels: map<string, string>, keys: set<string>, key: string)
    requires !(PREFIX <= key)
    ensures key in Assigned(b, instance, labels).labels <==> key in b.labels
    ensures key in b.labels ==> Assigned(b, instance, labels).labels[key] == b.labels[key]
    ensures key in Unassigned(b, keys).labels <==> key in b.labels
    ensures key in b.labels ==> Unassigned(b, keys).labels[key] == b.labels[key]
  {
  }

  // ---------------------------------------------------------------- Kubernetes API

  class Cluster {
    var hosts: map<Key, Bmh>
    var faults: nat        // calls that failed although the object was there

    predicate Valid()
      reads this
    {
      forall key :: key in hosts ==>
        (hosts[key].namespace, hosts[key].name) == key && '/' !in key.0 && key.0 != "" && key.1 != ""
    }

    constructor (hosts: map<Key, Bmh>)
      requires forall key :: key in hosts ==>
                 (hosts[key].namespace, hosts[key].name) == key && '/' !in key.0 && key.0 != "" && key.1 != ""
      ensures Valid() && this.hosts == hosts && faults == 0
    {
      this.hosts, faults := hosts, 0;
    }

    method Get(key: Key) returns (r: Option<Bmh>)
      modifies this`faults
      ensures r.Some? ==> key in hosts && r.value == hosts[key]
      ensures faults == old(faults) + if r == None && key in hosts then 1 else 0
    {
      var fails: bool := *;
      r := if fails || key !in hosts then None else Some(hosts[key]);
      faults := faults + if r == None && key in hosts then 1 else 0;
    }

    /** All objects of a namespace, with a label if one is asked for. */
    method List(namespace: string, hostType: Option<string>) returns (r: Option<seq<Bmh>>)
      requires Valid()
      modifies this`faults
      ensures faults == old(faults) + if r == None then 1 else 0
      ensures r.Some? ==> forall b :: b in r.value <==>
                            (b.namespace, b.name) in hosts && hosts[(b.namespace, b.name)] == b
                            && Listed(b, namespace, hostType)
    {
      var items: seq<Bmh> := [];
      var rest := hosts.Keys;
      while rest != {}
        invariant rest <= hosts.Keys
        invariant forall b :: b in items <==>
                    (b.namespace, b.name) in hosts.Keys - rest && hosts[(b.namespace, b.name)] == b
                    && Listed(b, namespace, hostType)
      {
        var key :| key in rest;
        var b := hosts[key];
        if Listed(b, namespace, hostType) {
          items := items + [b];
        }
        rest := rest - {key};
      }
      var fails: bool := *;
      faults := faults + if fails then 1 else 0;
      return if fails then None else Some(items);
    }

    /** A write replaces the object or fails; a failure may be reported for a write that took place. */
    method Update(key: Key, b: Bmh) returns (ok: bool)
      requires Valid() && (b.namespace, b.name) == key
      modifies this
      ensures Valid()
      ensures hosts == old(hosts) || (key in old(hosts) && hosts == old(hosts)[key := b])
      ensures ok ==> key in old(hosts) && hosts == old(hosts)[key := b]
      ensures faults == old(faults) + if ok then 0 else 1
    {
      var refused: bool := *;
      ok := !refused && key in hosts;
      if ok {
        hosts := hosts[key := b];
        var lost: bool := *;
        ok := !lost;
      }
      faults := faults + if ok then 0 else 1;
    }
  }

  predicate Listed(b: Bmh, namespace: string, hostType: Option<string>) {
    b.namespace == namespace
    && (hostType.Some? ==> HOST_TYPE in b.labels && b.labels[HOST_TYPE] == hostType.value)
  }

  // ---------------------------------------------------------------- the client

  function ManagedBy(b: Bmh): string {
    Or(ValueOf(b.labels, MANAGED_BY), DEFAULT_MANAGED_BY)
  }

  predicate Free(b: Bmh, managedBy: string) {
    b.operationalStatus == "OK" && b.provisioningState == "available" && b.consumer == None
    && ManagedBy(b) == managedBy
  }

  /** What FindFreeHost promises of a host; of the selector it reads hostType and managedBy only. */
  predicate Eligible(b: Bmh, namespace: string, selector: map<string, string>) {
    b.namespace == namespace
    && (ValueOf(selector, "hostType") != "" ==> ValueOf(b.labels, HOST_TYPE) == ValueOf(selector, "hostType"))
    && Free(b, WantedManager(selector))
  }

  class Metal3Client {
    const api: Cluster
    const namespace: string
    const hostClass: string
    const networkClass: string

    constructor (api: Cluster, namespace: string, hostClass: string, networkClass: string)
      ensures this.api == api && this.namespace == namespace
      ensures this.hostClass == hostClass && this.networkClass == networkClass
    {
      this.api, this.namespace := api, namespace;
      this.hostClass, this.networkClass := hostClass, networkClass;
    }

    /** bmhToHost. */
    function HostOf(b: Bmh): Host {
      Host(ValueOf(b.labels, POOL_ID), if b.consumer.Some? then b.consumer.value.name else "",
           HostID((b.namespace, b.name)), b.name, ValueOf(b.labels, HOST_TYPE), hostClass, networkClass,
           b.provisioningState, ManagedBy(b))
    }

    /** What a returned host says is what its record says, with the classes of this client. */
    predicate Shows(h: Host, b: Bmh) {
      ParseHostID(h.inventoryID) == Some((b.namespace, b.name)) && h.name == b.name
      && h.hostClass == hostClass && h.networkClass == networkClass
      && h.hostType == ValueOf(b.labels, HOST_TYPE) && h.poolID == ValueOf(b.labels, POOL_ID)
      && h.provisionState == b.provisioningState && h.managedBy == ManagedBy(b)
    }

    /** A host is returned only if it is eligible; nothing is returned only if no host is. */
    method FindFreeHost(selector: map<string, string>) returns (r: Result<Option<Host>>)
      requires api.Valid()
      modifies api`faults
      ensures r == Err <==> api.faults > old(api.faults)
      ensures r.Ok? && r.value.Some? ==>
                exists key | key in api.hosts ::
                  Eligible(api.hosts[key], namespace, selector) && Shows(r.value.value, api.hosts[key])
                  && r.value.value.instanceID == ""
      ensures r == Ok(None) ==> forall key :: key in api.hosts ==> !Eligible(api.hosts[key], namespace, selector)
    {
      var hostType: Option<string> := None;
      if "hostType" in selector && selector["hostType"] != "" {
        hostType := Some(selector["hostType"]);
      }
      var wanted := if "managedBy" in selector then selector["managedBy"] else "";
      if wanted == "" {
        wanted := DEFAULT_MANAGED_BY;
      }
      var listed := api.List(namespace, hostType);
      if listed == None {
        return Err;
      }
      var candidates := Candidates(listed.value, wanted);
      if |candidates| == 0 {
        return Ok(None);
      }
      var b;
      ghost var order;
      b, order := PickAny(candidates);
      ghost var key := (b.namespace, b.name);
      assert key in api.hosts && Eligible(api.hosts[key], namespace, selector);
      ParseHostIDIff(HostID(key), key);
      return Ok(Some(HostOf(b)));
    }

    /** Shuffle, then take the first; which one that is the random numbers decide alone. */
    static method PickAny(candidates: seq<Bmh>) returns (b: Bmh, ghost order: seq<nat>)
      requires |candidates| > 0
      ensures Picks(order, |candidates|) && b == Shuffled(candidates, order)[0] && b in candidates
    {
      hide Shuffled, Picks;
      var a := new Bmh[|candidates|](i requires 0 <= i < |candidates| => candidates[i]);
      assert a[..] == candidates;
      order := Shuffle(a);
      SameElements(candidates, a[..]);
      b := a[0];
      assert b in a[..];
    }

    /** The filter loop. */
    static method Candidates(items: seq<Bmh>, wanted: string) returns (candidates: seq<Bmh>)
      ensures forall b :: b in candidates <==> b in items && Free(b, wanted)
    {
      candidates := [];
      for i := 0 to |items|
        invariant forall b :: b in candidates <==> b in items[..i] && Free(b, wanted)
      {
        var b := items[i];
        assert items[..i + 1] == items[..i] + [b];
        if b.operationalStatus != "OK" { continue; }
        if b.provisioningState != "available" { continue; }
        if b.consumer != None { continue; }
        var managedBy := if MANAGED_BY in b.labels then b.labels[MANAGED_BY] else "";
        if managedBy == "" {
          managedBy := DEFAULT_MANAGED_BY;
        }
        if managedBy != wanted { continue; }
        candidates := candidates + [b];
      }
      assert items[..|items|] == items;
    }

    /** `for key, value := range labels`: in any order. */
    static method Overlay(target: map<string, string>, labels: map<string, string>) returns (r: map<string, string>)
      ensures r == target + Prefixed(labels)
    {
      hide Prefixed;
      r := target;
      var rest := labels.Keys;
      ghost var done: map<string, string> := map[];
      NoLabels();
      while rest != {}
        invariant rest <= labels.Keys
        invariant done.Keys == labels.Keys - rest && forall k :: k in done ==> done[k] == labels[k]
        invariant r == target + Prefixed(done)
      {
        var k :| k in rest;
        PrefixedAdd(done, k, labels[k]);
        r := r[PREFIX + k := labels[k]];
        done := done[k := labels[k]];
        rest := rest - {k};
      }
      assert done == labels;
    }

    /** The delete loop. */
    static method Strip(target: map<string, string>, keys: seq<string>) returns (r: map<string, string>)
      ensures r == target - PrefixedKeys(set k | k in keys)
    {
      hide PrefixedKeys;
      r := target;
      ghost var done: set<string> := {};
      NoKeys();
      for i := 0 to |keys|
        invariant forall k :: k in done <==> k in keys[..i]
        invariant r == target - PrefixedKeys(done)
      {
        assert keys[..i + 1] == keys[..i] + [keys[i]];
        PrefixedKeysAdd(done, keys[i]);
        done := done + {keys[i]};
        r := r - {PREFIX + keys[i]};
      }
      assert keys[..|keys|] == keys;
      assert done == set k | k in keys;
    }

    /**
     A confirmed claim sets the consumer and the labels and nothing else; a refused one, seen by
     the owner check, changes nothing; a failed one leaves the host as it was, or claimed.
     */
    method AssignHost(id: string, instance: string, labels: map<string, string>) returns (r: Result<Option<Host>>)
      requires api.Valid()
      modifies api
      ensures api.Valid()
      ensures r == Err <==> id == "" || instance == "" || ParseHostID(id) == None
                            || ParseHostID(id).value !in old(api.hosts) || api.faults > old(api.faults)
      ensures id == "" || instance == "" || ParseHostID(id) == None ==> r == Err && api.hosts == old(api.hosts)
      ensures r.Ok? ==> ParseHostID(id).Some? && ParseHostID(id).value in old(api.hosts)
      ensures r == Ok(None) ==> !Claimable(View(old(api.hosts)[ParseHostID(id).value]), instance)
                                && api.hosts == old(api.hosts)
      ensures r.Ok? && r.value.Some? ==>
                var key := ParseHostID(id).value;
                var after := Assigned(old(api.hosts)[key], instance, labels);
                Claimable(View(old(api.hosts)[key]), instance)
                && api.hosts == old(api.hosts)[key := after]
                && Shows(r.value.value, after) && r.value.value.inventoryID == id && r.value.value.instanceID == instance
      ensures api.hosts == old(api.hosts)
              || (ParseHostID(id).Some? && ParseHostID(id).value in old(api.hosts)
                  && Claimable(View(old(api.hosts)[ParseHostID(id).value]), instance)
                  && api.hosts == old(api.hosts)[ParseHostID(id).value :=
                                                 Assigned(old(api.hosts)[ParseHostID(id).value], instance, labels)])
    {
      hide Prefixed, PrefixedKeys, Names;
      if id == "" {
        return Err;
      }
      if instance == "" {
        return Err;
      }
      var key := ParseHostID(id);
      if key == None {
        return Err;
      }
      var got := api.Get(key.value);
      if got == None {
        return Err;
      }
      var b := got.value;
      if b.consumer.Some? && b.consumer.value.name != instance {
        return Ok(None);
      }
      var overlaid := Overlay(b.labels, labels);
      b := b.(labels := overlaid);
      b := b.(consumer := Some(ConsumerRef("osac.openshift.io/v1alpha1", "BareMetalInstance", instance)));
      ParseHostIDIff(id, key.value);
      var ok := api.Update(key.value, b);
      if !ok {
        return Err;
      }
      return Ok(Some(HostOf(b)));
    }

    /** A confirmed release removes the consumer, whoever it is, and the keys; a failed one may not. */
    method UnassignHost(id: string, keys: seq<string>) returns (r: Result<()>)
      requires api.Valid()
      modifies api
      ensures api.Valid()
      ensures ParseHostID(id) == None ==> api.hosts == old(api.hosts)
      ensures r == Err <==> ParseHostID(id) == None || ParseHostID(id).value !in old(api.hosts) || api.faults > old(api.faults)
      ensures r.Ok? ==> ParseHostID(id).Some? && ParseHostID(id).value in old(api.hosts)
                        && api.hosts == old(api.hosts)[ParseHostID(id).value :=
                                          Unassigned(old(api.hosts)[ParseHostID(id).value], set k | k in keys)]
      ensures api.hosts == old(api.hosts)
              || (ParseHostID(id).Some? && ParseHostID(id).value in old(api.hosts)
                  && api.hosts == old(api.hosts)[ParseHostID(id).value :=
                                    Unassigned(old(api.hosts)[ParseHostID(id).value], set k | k in keys)])
    {
      hide Prefixed, PrefixedKeys, Names;
      var key := ParseHostID(id);
      if key == None {
        return Err;
      }
      var got := api.Get(key.value);
      if got == None {
        return Err;
      }
      var b := got.value;
      var stripped := Strip(b.labels, keys);
      b := b.(labels := stripped);
      b := b.(consumer := None);
      var ok := api.Update(key.value, b);
      return if ok then Ok(()) else Err;
    }
  }

  lemma NoKeys()
    ensures PrefixedKeys({}) == {}
  {
  }

  lemma NoLabels()
    ensures Prefixed(map[]) == map[]
  {
  }

  lemma PrefixedKeysAdd(keys: set<string>, k: string)
    ensures PrefixedKeys(keys + {k}) == PrefixedKeys(keys) + {PREFIX + k}
  {
  }

  lemma PrefixedAdd(labels: map<string, string>, k: string, v: string)
    ensures Prefixed(labels[k := v]) == Prefixed(labels)[PREFIX + k := v]
  {
  }

  // ---------------------------------------------------------------- searching and claiming

  /**
   What a spec's selector means here: only managedBy of it is looked at; a provisionState in it
   changes nothing, since the state has to be "available" anyway.
   */
  lemma OnlyOneKeySelects(b: Bmh, namespace: string, selector: map<string, string>, other: map<string, string>, hostType: string)
    requires ValueOf(selector, "managedBy") == ValueOf(other, "managedBy")
    ensures Eligible(b, namespace, MatchExpressions(selector, hostType))
            <==> Eligible(b, namespace, MatchExpressions(other, hostType))
    ensures Eligible(b, namespace, MatchExpressions(selector, hostType)) ==> b.provisioningState == "available"
  {
  }

  /** A claimed host is never found again; a host that was found can be claimed. */
  lemma ClaimedIsHidden(b: Bmh, instance: string, labels: map<string, string>, namespace: string,
                        selector: map<string, string>, other: string)
    ensures !Eligible(Assigned(b, instance, labels), namespace, selector)
    ensures Eligible(b, namespace, selector) ==> Claimable(View(b), other)
  {
  }

  /**
   The pool ID is written under the key of the common label and read under another key: the
   host AssignHost returns shows the new pool exactly when that other key happens to say so.
   */
  lemma PoolReadsBackIff(b: Bmh, instance: string, labels: map<string, string>, pool: string)
    requires POOL_LABEL in labels && labels[POOL_LABEL] == pool
    ensures ValueOf(Assigned(b, instance, labels).labels, POOL_ID) == pool
            <==> (if "pool-id" in labels then labels["pool-id"] else ValueOf(b.labels, POOL_ID)) == pool
  {
  }

  /**
   Likewise for the manager: a claim changes who is seen to manage the host exactly when a label with
   the key that is read says so; the key "managedBy", which selectors use, plays no part.
   */
  lemma ManagerMovesIff(b: Bmh, instance: string, labels: map<string, string>)
    ensures ManagedBy(Assigned(b, instance, labels)) != ManagedBy(b)
            <==> "managed-by" in labels && Or(labels["managed-by"], DEFAULT_MANAGED_BY) != ManagedBy(b)
  {
  }
}
