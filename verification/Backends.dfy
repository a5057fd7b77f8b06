/**
 The two backends against each other and against the step system of module Fleet: the same calls
 leave the same abstract record, and that record's owner moves as Fleet says.
 */
module Backends {
  import opened Wrappers
  import opened Inventory
  import OpenStack = OpenStackInventory
  import Metal3 = Metal3Inventory
  import Fleet

  /** A confirmed call; `labels` and `keys` as the controller passes them. */
  datatype Call = Assign(instance: string, labels: map<string, string>) | Unassign(keys: set<string>)

  /** The callers' side of the interface: an instance, and no label under the owner's key. */
  predicate Proper(c: Call) {
    c.Assign? ==> c.instance != "" && OWNER_LABEL !in c.labels
  }

  function OnRecord(r: Record, c: Call): Record {
    match c
    case Assign(i, labels) => if Claimable(r, i) then Claim(r, i, labels) else r
    case Unassign(keys) => Release(r, keys)
  }

  function OnNode(extra: OpenStack.Extra, c: Call): OpenStack.Extra {
    match c
    case Assign(i, labels) =>
      if OpenStack.ForeignOwner(extra, i) then extra else OpenStack.Assigned(extra, i, labels)
    case Unassign(keys) => OpenStack.Unassigned(extra, keys)
  }

  function OnBmh(b: Metal3.Bmh, c: Call): Metal3.Bmh {
    match c
    case Assign(i, labels) =>
      if b.consumer.Some? && b.consumer.value.name != i then b else Metal3.Assigned(b, i, labels)
    case Unassign(keys) => Metal3.Unassigned(b, keys)
  }

  lemma NodeRefines(extra: OpenStack.Extra, c: Call)
    requires Proper(c)
    ensures OpenStack.View(OnNode(extra, c)) == OnRecord(OpenStack.View(extra), c)
  {
    match c
    case Assign(i, labels) =>
      OpenStack.ForeignIffNotClaimable(extra, i);
      OpenStack.AssignRefinesIff(extra, i, labels);
    case Unassign(keys) =>
      OpenStack.UnassignRefines(extra, keys);
  }

  lemma BmhRefines(b: Metal3.Bmh, c: Call)
    ensures Metal3.View(OnBmh(b, c)) == OnRecord(Metal3.View(b), c)
  {
    hide Metal3.Assigned, Metal3.Unassigned;
    match c
    case Assign(i, labels) =>
      Metal3.AssignRefines(b, i, labels);
    case Unassign(keys) =>
      Metal3.UnassignRefines(b, keys);
  }

  function NodeAfter(extra: OpenStack.Extra, calls: seq<Call>): OpenStack.Extra
    decreases |calls|
  {
    if calls == [] then extra else NodeAfter(OnNode(extra, calls[0]), calls[1..])
  }

  function BmhAfter(b: Metal3.Bmh, calls: seq<Call>): Metal3.Bmh
    decreases |calls|
  {
    if calls == [] then b else BmhAfter(OnBmh(b, calls[0]), calls[1..])
  }

  /** Hosts that look alike stay alike under every sequence of calls, refused claims included. */
  lemma {:induction false} BackendsAgree(extra: OpenStack.Extra, b: Metal3.Bmh, calls: seq<Call>)
    requires OpenStack.View(extra) == Metal3.View(b)
    requires forall c :: c in calls ==> Proper(c)
    ensures OpenStack.View(NodeAfter(extra, calls)) == Metal3.View(BmhAfter(b, calls))
    decreases |calls|
  {
    if calls != [] {
      assert calls[0] in calls;
      NodeRefines(extra, calls[0]);
      BmhRefines(b, calls[0]);
      BackendsAgree(OnNode(extra, calls[0]), OnBmh(b, calls[0]), calls[1..]);
    }
  }

  /** The owner check of either backend sends a pass where Fleet's ReadForAssign sends it. */
  lemma ReadForAssignAgrees(i: string, l: Fleet.Local, r: Record)
    requires Fleet.Ready(l, Fleet.ReadForAssign) && l.owner == r.owner
    ensures Fleet.At(Fleet.LocalNext(i, l, Fleet.ReadForAssign), Fleet.Claiming) <==> Claimable(r, i)
    ensures Fleet.At(Fleet.LocalNext(i, l, Fleet.ReadForAssign), Fleet.Refused) <==> !Claimable(r, i)
  {
  }

  /** Applied claims and releases, on either backend, move the owner as Fleet's steps do. */
  lemma OwnerMovesAsInFleet(i: string, l: Fleet.Local, e: Fleet.Event, extra: OpenStack.Extra, b: Metal3.Bmh, c: Call)
    requires Proper(c)
    requires Fleet.Ready(l, e)
    requires OpenStack.View(extra).owner == l.owner == Metal3.View(b).owner
    requires match c
             case Assign(j, _) => j == i && e.Claim? && e.o != Fleet.Failed && Claimable(OpenStack.View(extra), i)
             case Unassign(_) => e.Unassign? && e.o != Fleet.Failed && l.pass.value.at == Fleet.Clearing(l.owner.Some?)
    ensures OpenStack.View(OnNode(extra, c)).owner == Fleet.LocalNext(i, l, e).owner
    ensures Metal3.View(OnBmh(b, c)).owner == Fleet.LocalNext(i, l, e).owner
  {
    hide OpenStack.View, Metal3.View, OnNode, OnBmh;
    NodeRefines(extra, c);
    BmhRefines(b, c);
  }
}
