/**
 The OpenStack backend: hosts are Ironic nodes, and a claim is a label in extra.osac_labels that
 AssignHost and UnassignHost change by JSON Patch requests.
 */
module OpenStackInventory {
  import opened Wrappers
  import opened JsonValue
  import opened JsonPatch
  import opened Inventory
  import opened Shuffling

  type Extra = map<string, Json>

  datatype Node = Node(
    uuid: string,
    name: string,
    resourceClass: string,
    provisionState: string,
    extra: Extra)

  // ---------------------------------------------------------------- records

  /** getNestedLabel: the value and whether it was found. */
  function GetNestedLabel(extra: Extra, key: string): Option<string> {
    if HasLabels(extra) && key in extra[LABELS].members && extra[LABELS].members[key].Text?
    then Some(extra[LABELS].members[key].text) else None
  }

  function Default(found: Option<string>, standard: string): string {
    if found.Some? then found.value else standard
  }

  function OwnerOf(extra: Extra): string {
    Default(GetNestedLabel(extra, OWNER_LABEL), "")
  }

  predicate ForeignOwner(extra: Extra, instance: string) {
    OwnerOf(extra) != "" && OwnerOf(extra) != instance
  }

  /** osac_labels is present but is no object: null, a number, an array... */
  predicate Blocked(extra: Extra) {
    LABELS in extra && !extra[LABELS].Object?
  }

  /** What a confirmed AssignHost leaves, whatever the order of the labels. */
  function Assigned(extra: Extra, instance: string, labels: map<string, string>): Extra {
    WithLabels(extra, LabelsOf(extra)[OWNER_LABEL := Text(instance)] + Texts(labels))
  }

  /** What a confirmed UnassignHost leaves, whatever the order and the duplicates of the keys. */
  function Unassigned(extra: Extra, keys: set<string>): Extra {
    if HasLabels(extra) then WithLabels(extra, LabelsOf(extra) - keys - {OWNER_LABEL}) else extra
  }

  /** A label that is missing, or whose value is no text, reads as no label. */
  lemma NestedLabelIff(extra: Extra, key: string, value: string)
    ensures GetNestedLabel(extra, key) == Some(value) <==> key in LabelsOf(extra) && LabelsOf(extra)[key] == Text(value)
    ensures OwnerOf(extra) == value && value != "" <==>
              value != "" && OWNER_LABEL in LabelsOf(extra) && LabelsOf(extra)[OWNER_LABEL] == Text(value)
  {
  }

  /** The abstract record; the owner label is not one of its labels. */
  function View(extra: Extra): Record {
    Record(
      if OwnerOf(extra) == "" then None else Some(OwnerOf(extra)),
      LabelsOf(extra) - {OWNER_LABEL})
  }

  // ---------------------------------------------------------------- refinement of the interface

  lemma ForeignIffNotClaimable(extra: Extra, instance: string)
    requires instance != ""
    ensures ForeignOwner(extra, instance) <==> !Claimable(View(extra), instance)
  {
  }

  /** AssignHost is the abstract claim exactly when no label uses the owner key. */
  lemma AssignRefinesIff(extra: Extra, instance: string, labels: map<string, string>)
    requires instance != ""
    ensures View(Assigned(extra, instance, labels)) == Claim(View(extra), instance, labels)
            <==> OWNER_LABEL !in labels
  {
  }

  /** UnassignHost is the abstract release for every record and every key list. */
  lemma UnassignRefines(extra: Extra, keys: set<string>)
    ensures View(Unassigned(extra, keys)) == Release(View(extra), keys)
  {
  }

  /** The claim can be read back exactly when the labels do not overwrite the owner. */
  lemma OwnerReadsBackIff(extra: Extra, instance: string, labels: map<string, string>)
    ensures OwnerOf(Assigned(extra, instance, labels)) == instance
            <==> OWNER_LABEL in labels ==> labels[OWNER_LABEL] == instance
    ensures ForeignOwner(Assigned(extra, instance, labels), instance)
            <==> OWNER_LABEL in labels && labels[OWNER_LABEL] !in {"", instance}
  {
  }

  /** Assigning and unassigning touch no other member of extra. */
  lemma OtherMembersKept(extra: Extra, instance: string, labels: map<string, string>, keys: set<string>)
    ensures Assigned(extra, instance, labels) - {LABELS} == extra - {LABELS}
    ensures Unassigned(extra, keys) - {LABELS} == extra - {LABELS}
  {
  }

  /**
   The round trip of a lease on the concrete record is the abstract one exactly when the owner
   key is not a lasting label.
   */
  lemma LeaseRefinesIff(extra: Extra, l: Lease)
    requires l.instance != ""
    ensures View(Unassigned(Assigned(extra, l.instance, Combined(l)), Removed(l))) == AfterLease(View(extra), l)
            <==> !(OWNER_LABEL in l.persistent && OWNER_LABEL !in l.transient)
  {
    var mid := Assigned(extra, l.instance, Combined(l));
    UnassignRefines(mid, Removed(l));
    LeaseLeaves(View(extra), l);
    assert LabelsOf(mid) == LabelsOf(extra)[OWNER_LABEL := Text(l.instance)] + Texts(Combined(l));
    assert OWNER_LABEL in Removed(l) <==> OWNER_LABEL in l.transient;
    hide Combined, Removed;
    CombinedOutsideRemoved(l);
    OverlaysAgreeIff(LabelsOf(extra), Text(l.instance), Texts(Combined(l)), Texts(l.persistent), Removed(l));
  }

  lemma CombinedOutsideRemoved(l: Lease)
    ensures forall k :: k !in Removed(l) ==>
              (k in Combined(l) <==> k in l.persistent) && (k in l.persistent ==> Combined(l)[k] == l.persistent[k])
  {
  }

  /** Two overlays that agree outside the removed keys leave the same labels, up to the owner's. */
  lemma OverlaysAgreeIff(base: Labels, owner: Json, all: Labels, lasting: Labels, removed: set<string>)
    requires forall k :: k !in removed ==> (k in all <==> k in lasting) && (k in lasting ==> all[k] == lasting[k])
    ensures base[OWNER_LABEL := owner] + all - {OWNER_LABEL} - removed == base - {OWNER_LABEL} + lasting - removed
            <==> !(OWNER_LABEL in lasting && OWNER_LABEL !in removed)
  {
    var left := base[OWNER_LABEL := owner] + all - {OWNER_LABEL} - removed;
    var right := base - {OWNER_LABEL} + lasting - removed;
    assert OWNER_LABEL !in left;
    if OWNER_LABEL in lasting && OWNER_LABEL !in removed {
      assert OWNER_LABEL in right;
    } else {
      assert left.Keys == right.Keys;
      assert forall k :: k in left ==> left[k] == right[k];
    }
  }

  /**
   After the lease a persistent label is still on the node, with its value, exactly when its key is
   neither a transient one nor the pool's nor the owner's.
   */
  lemma PersistentLabelStaysIff(extra: Extra, l: Lease, k: string)
    requires k in l.persistent
    ensures var after := LabelsOf(Unassigned(Assigned(extra, l.instance, Combined(l)), Removed(l)));
      (k in after && after[k] == Text(l.persistent[k]))
      <==> k !in l.transient && !(k == POOL_LABEL && l.pool.Some?) && k != OWNER_LABEL
  {
    var mid := Assigned(extra, l.instance, Combined(l));
    assert LabelsOf(mid) == LabelsOf(extra)[OWNER_LABEL := Text(l.instance)] + Texts(Combined(l));
    assert LabelsOf(Unassigned(mid, Removed(l))) == LabelsOf(mid) - Removed(l) - {OWNER_LABEL};
  }

  /** The smallest losses: one key that is persistent and transient, and a persistent label with the owner's key. */
  lemma PersistentLabelLost(extra: Extra, key: string)
    requires key in {"rack", OWNER_LABEL}
    ensures var l := Lease("i", if key == "rack" then map["rack" := "a"] else map[], map[key := "b"], None);
      key in l.persistent && key !in LabelsOf(Unassigned(Assigned(extra, l.instance, Combined(l)), Removed(l)))
  {
  }

  // ---------------------------------------------------------------- requests

  /** The request sets exactly these labels, and is refused when there is no labels object. */
  predicate Sets(extra: Extra, ops: seq<Op>, added: Labels) {
    ApplyAll(Document(extra), ops)
    == if HasLabels(extra) then Some(Document(WithLabels(extra, LabelsOf(extra) + added))) else None
  }

  lemma SetsOwner(extra: Extra, value: Json)
    ensures Sets(extra, [Add(LabelPath(OWNER_LABEL), value)], map[OWNER_LABEL := value])
  {
    hide Apply, LabelPath;
    AddLabel(extra, OWNER_LABEL, value);
    var op := Add(LabelPath(OWNER_LABEL), value);
    assert [] + [op] == [op];
    ApplyAppend(Document(extra), [], op);
    assert LabelsOf(extra) + map[OWNER_LABEL := value] == LabelsOf(extra)[OWNER_LABEL := value];
  }

  lemma SetsAnother(extra: Extra, ops: seq<Op>, added: Labels, key: string, value: Json)
    requires Sets(extra, ops, added)
    ensures Sets(extra, ops + [Add(LabelPath(key), value)], added[key := value])
  {
    hide Apply, LabelPath, ApplyAll;
    ApplyAppend(Document(extra), ops, Add(LabelPath(key), value));
    if HasLabels(extra) {
      var mid := WithLabels(extra, LabelsOf(extra) + added);
      AddLabel(mid, key, value);
      assert (LabelsOf(extra) + added)[key := value] == LabelsOf(extra) + added[key := value];
      assert WithLabels(mid, LabelsOf(mid)[key := value])
          == WithLabels(extra, LabelsOf(extra) + added[key := value]);
    }
  }

  /** The request is accepted and takes off exactly these keys. */
  predicate Drops(extra: Extra, ops: seq<Op>, dropped: set<string>) {
    ApplyAll(Document(extra), ops)
    == Some(Document(if ops == [] then extra else WithLabels(extra, LabelsOf(extra) - dropped)))
  }

  lemma DropsAnother(extra: Extra, ops: seq<Op>, dropped: set<string>, key: string)
    requires Drops(extra, ops, dropped)
    requires ops == [] ==> dropped !! LabelsOf(extra).Keys
    requires key in LabelsOf(extra) && key !in dropped
    ensures Drops(extra, ops + [Remove(LabelPath(key))], dropped + {key})
  {
    hide Apply, LabelPath, ApplyAll;
    ApplyAppend(Document(extra), ops, Remove(LabelPath(key)));
    var mid := if ops == [] then extra else WithLabels(extra, LabelsOf(extra) - dropped);
    assert LabelsOf(mid) == LabelsOf(extra) - dropped;
    RemoveLabel(mid, key);
    assert LabelsOf(extra) - dropped - {key} == LabelsOf(extra) - (dropped + {key});
    assert WithLabels(mid, LabelsOf(mid) - {key}) == WithLabels(extra, LabelsOf(extra) - (dropped + {key}));
  }

  // ---------------------------------------------------------------- Ironic

  /** A patched node; extra has to stay an object. */
  function Patched(n: Node, ops: seq<Op>): Option<Node> {
    match ApplyAll(Document(n.extra), ops)
    case None => None
    case Some(d) =>
      if d.Object? && "extra" in d.members && d.members["extra"].Object?
      then Some(n.(extra := d.members["extra"].members)) else None
  }

  lemma PatchedExtra(n: Node, ops: seq<Op>, extra: Extra)
    requires ApplyAll(Document(n.extra), ops) == Some(Document(extra))
    ensures Patched(n, ops) == Some(n.(extra := extra))
  {
  }

  predicate Listed(n: Node, resourceClass: string, provisionState: string) {
    (resourceClass == "" || n.resourceClass == resourceClass) && n.provisionState == provisionState
  }

  /** The inventory at the moments when pages are served; it changes in between. */
  type Views = seq<map<string, Node>>

  predicate ValidNodes(nodes: map<string, Node>) {
    forall id | id in nodes.Keys :: nodes[id].uuid == id
  }

  /** Every node of a page is one that matched the query when the page was served. */
  predicate Sound(view: map<string, Node>, page: seq<Node>, resourceClass: string, provisionState: string) {
    forall n | n in page :: n.uuid in view && view[n.uuid] == n && Listed(n, resourceClass, provisionState)
  }

  predicate AlwaysListed(views: Views, id: string, resourceClass: string, provisionState: string) {
    forall view | view in views :: id in view && Listed(view[id], resourceClass, provisionState)
  }

  /** A node that matched all the time is on some page, as it was when that page was served. */
  predicate Complete(views: Views, pages: seq<seq<Node>>, resourceClass: string, provisionState: string)
    requires |views| == |pages| + 1
  {
    forall id | id in views[0].Keys && AlwaysListed(views, id, resourceClass, provisionState) ::
      exists q | 0 <= q < |pages| :: id in views[q] && views[q][id] in pages[q]
  }

  /** How a call ends: with a value, with a refusal by the service, or broken, possibly because authentication failed. */
  datatype Try<T> = Given(value: T) | Denied | Broken(auth: bool)

  /** What the service has said: an answer, refusals included; a broken call; and how reconnecting went. */
  datatype Reply = Answered | Faulted(auth: bool) | Reconnected(ok: bool)

  function Said<T>(t: Try<T>): Reply {
    if t.Broken? then Faulted(t.auth) else Answered
  }

  /** One attempt: every call is answered, or the last one breaks. */
  predicate Attempt(log: seq<Reply>, fault: Option<bool>) {
    match fault
    case None => forall k :: 0 <= k < |log| ==> log[k] == Answered
    case Some(auth) =>
      log != [] && log[|log| - 1] == Faulted(auth) && forall k :: 0 <= k < |log| - 1 ==> log[k] == Answered
  }

  ghost function FaultOf<T>(t: Try<T>): Option<bool> {
    if t.Broken? then Some(t.auth) else None
  }

  lemma NoCalls()
    ensures Attempt([], None)
  {
  }

  lemma OneCallMore<T>(log: seq<Reply>, said: seq<Reply>, log': seq<Reply>, t: Try<T>)
    requires Attempt(said, None) && log' == log + said + [Said(t)]
    ensures log <= log' && log'[|log|..] == said + [Said(t)] && Attempt(log'[|log|..], FaultOf(t))
  {
    assert log'[|log|..] == said + [Said(t)];
  }

  lemma AnswerAndMore<T>(log: seq<Reply>, t: Try<T>, said: seq<Reply>, log': seq<Reply>, fault: Option<bool>)
    requires t.Given? && Attempt(said, fault) && log' == log + [Said(t)] + said
    ensures log <= log' && Attempt(log'[|log|..], fault)
  {
    assert log'[|log|..] == [Said(t)] + said;
  }

  /** An attempt whose authentication fails is repeated once, if reconnecting works; `fault` is that of the last attempt. */
  ghost predicate Repeats(log: seq<Reply>, fault: Option<bool>) {
    (Attempt(log, fault) && fault != Some(true))
    || (fault == Some(true) && exists first :: Attempt(first, Some(true)) && log == first + [Reconnected(false)])
    || exists first, second :: Attempt(first, Some(true)) && Attempt(second, fault) && log == first + [Reconnected(true)] + second
  }

  lemma RepeatsOnce(log: seq<Reply>, fault: Option<bool>)
    requires Attempt(log, fault)
    ensures fault != Some(true) ==> Repeats(log, fault)
    ensures fault == Some(true) ==> Repeats(log + [Reconnected(false)], fault)
  {
  }

  lemma RepeatsTwice(first: seq<Reply>, second: seq<Reply>, fault: Option<bool>)
    requires Attempt(first, Some(true)) && Attempt(second, fault)
    ensures Repeats(first + [Reconnected(true)] + second, fault)
  {
  }

  class Ironic {
    var nodes: map<string, Node>
    ghost var log: seq<Reply>
    var requests: nat      // patch requests sent
    var rejected: nat      // patch requests refused because an operation could not be applied

    predicate Valid()
      reads this
    {
      ValidNodes(nodes)
    }

    constructor (nodes: map<string, Node>)
      requires ValidNodes(nodes)
      ensures Valid() && this.nodes == nodes && requests == 0 && rejected == 0 && log == []
    {
      this.nodes, requests, rejected, log := nodes, 0, 0, [];
    }

    method Get(id: string) returns (r: Try<Node>)
      modifies this`log
      ensures r.Given? ==> id in nodes && r.value == nodes[id]
      ensures r == Denied ==> id !in nodes
      ensures log == old(log) + [Said(r)]
    {
      var fails, auth: bool := *, *;
      r := if fails then Broken(auth) else if id in nodes then Given(nodes[id]) else Denied;
      log := log + [Said(r)];
    }

    /** A new service client, after an authentication failure. */
    method Reconnect() returns (ok: bool)
      modifies this`log
      ensures log == old(log) + [Reconnected(ok)]
    {
      ok := *;
      log := log + [Reconnected(ok)];
    }

    /**
     The nodes of a query, in pages, while others change the inventory; `ended` is false when fetching
     a further page failed.
     */
    method List(resourceClass: string, provisionState: string)
      returns (pages: seq<seq<Node>>, ended: bool, auth: bool, views: Views)
      requires Valid()
      modifies this`nodes, this`log
      ensures log == old(log) + [if ended then Answered else Faulted(auth)]
      ensures Valid() && |views| == |pages| + 1 && views[0] == old(nodes) && views[|pages|] == nodes
      ensures forall q :: 0 <= q < |pages| ==> Sound(views[q], pages[q], resourceClass, provisionState)
      ensures ended ==> Complete(views, pages, resourceClass, provisionState)
    {
      pages, views := [], [nodes];
      var n: int := *;
      while n > 0
        invariant Valid() && |views| == |pages| + 1 && views[0] == old(nodes) && views[|pages|] == nodes
        invariant log == old(log)
        invariant forall q :: 0 <= q < |pages| ==> Sound(views[q], pages[q], resourceClass, provisionState)
      {
        n := n - 1;
        var page: seq<Node> := *;
        if Sound(nodes, page, resourceClass, provisionState) {
          var next: map<string, Node> := *;
          if ValidNodes(next) {
            nodes := next;
          }
          pages, views := pages + [page], views + [nodes];
        }
      }
      ended := *;
      ended := ended && Complete(views, pages, resourceClass, provisionState);
      auth := *;
      log := log + [if ended then Answered else Faulted(auth)];
    }

    /** A patch is applied as a whole or not at all; an applied one may still be reported as failed. */
    method Update(id: string, ops: seq<Op>) returns (r: Try<Node>)
      requires Valid()
      modifies this
      ensures Valid() && requests == old(requests) + 1 && log == old(log) + [Said(r)]
      ensures nodes == old(nodes)
              || (id in old(nodes) && Patched(old(nodes[id]), ops).Some?
                  && nodes == old(nodes)[id := Patched(old(nodes[id]), ops).value])
      ensures r.Given? ==> id in old(nodes) && Patched(old(nodes[id]), ops) == Some(r.value) && nodes == old(nodes)[id := r.value]
      ensures r == Denied ==> id !in old(nodes) || Patched(old(nodes[id]), ops) == None
      ensures rejected == old(rejected) + if r == Denied && id in old(nodes) then 1 else 0
    {
      requests := requests + 1;
      var dropped, lost, auth: bool := *, *, *;
      r := if dropped then Broken(auth) else Denied;
      if !dropped && id in nodes {
        var patched := Patched(nodes[id], ops);
        if patched == None {
          rejected := rejected + 1;
        } else {
          nodes := nodes[id := patched.value];
          r := if lost then Broken(auth) else Given(patched.value);
        }
      }
      log := log + [Said(r)];
    }
  }

  // ---------------------------------------------------------------- the client

  /** A node that no instance owns, under the wanted manager. */
  predicate Free(n: Node, managedBy: string) {
    OwnerOf(n.extra) == ""
    && Or(Default(GetNestedLabel(n.extra, MANAGED_BY_LABEL), ""), DEFAULT_MANAGED_BY) == managedBy
  }

  function WantedState(selector: map<string, string>): string {
    Or(ValueOf(selector, "provisionState"), DEFAULT_PROVISION_STATE)
  }

  /** What FindFreeHost promises of a host: free, and all the selector asks for. */
  predicate Eligible(n: Node, selector: map<string, string>) {
    Listed(n, ValueOf(selector, "hostType"), WantedState(selector)) && Free(n, WantedManager(selector))
  }

  predicate Missing(view: map<string, Node>, id: string, selector: map<string, string>) {
    id in view ==> !Eligible(view[id], selector)
  }

  /** At some moment of the search the node could not have been returned. */
  ghost predicate MissedOnce(views: Views, id: string, selector: map<string, string>) {
    exists q :: 0 <= q < |views| && Missing(views[q], id, selector)
  }

  /** What makes every attempt at a claim fail: a missing argument, an unknown node, or labels that cannot be patched. */
  predicate Unassignable(nodes: map<string, Node>, id: string, instance: string) {
    id == "" || instance == "" || id !in nodes
    || (Blocked(nodes[id].extra) && !ForeignOwner(nodes[id].extra, instance))
  }

  predicate Taken(nodes: map<string, Node>, id: string, instance: string) {
    id in nodes && ForeignOwner(nodes[id].extra, instance)
  }

  /** A claim that took place: owner and labels are set, and nothing else is. */
  predicate Claimed(before: map<string, Node>, id: string, instance: string, labels: map<string, string>, after: map<string, Node>) {
    id in before && !Blocked(before[id].extra) && !Taken(before, id, instance)
    && AssignedAt(before, id, Assigned(before[id].extra, instance, labels), after)
  }

  /** What an attempt can leave: the node as it was, with an empty labels object, or claimed. */
  predicate Left(before: map<string, Node>, id: string, instance: string, labels: map<string, string>, after: map<string, Node>) {
    after == before || Claimed(before, id, instance, labels, after)
    || (id in before && !Taken(before, id, instance) && LABELS !in before[id].extra
        && AssignedAt(before, id, WithLabels(before[id].extra, map[]), after))
  }

  class OpenStackClient {
    const api: Ironic
    const hostClass: string
    const networkClass: string

    constructor (api: Ironic, hostClass: string, networkClass: string)
      ensures this.api == api && this.hostClass == hostClass && this.networkClass == networkClass
    {
      this.api, this.hostClass, this.networkClass := api, hostClass, networkClass;
    }

    function HostOf(n: Node, instance: string, managedBy: string): Host {
      Host(Default(GetNestedLabel(n.extra, POOL_LABEL), ""), instance, n.uuid, n.name,
           n.resourceClass, hostClass, networkClass, n.provisionState, managedBy)
    }

    /** What a search promises, given the views of the inventory it had. */
    ghost predicate Found(selector: map<string, string>, r: Result<Option<Host>>, views: Views) {
      (r.Ok? && r.value.Some? ==> exists q :: 0 <= q < |views| && FoundIn(views[q], selector, r.value.value))
      && (r == Ok(None) ==> forall id :: MissedOnce(views, id, selector))
    }

    ghost predicate FoundIn(view: map<string, Node>, selector: map<string, string>, h: Host) {
      h.inventoryID in view && Eligible(view[h.inventoryID], selector)
      && Shows(h, view[h.inventoryID]) && h.instanceID == "" && h.managedBy == WantedManager(selector)
    }

    /** What a returned host says is what its record says, with the classes of this client. */
    predicate Shows(h: Host, n: Node) {
      h.inventoryID == n.uuid && h.name == n.name && h.hostClass == hostClass && h.networkClass == networkClass
      && h.hostType == n.resourceClass && h.provisionState == n.provisionState
      && h.poolID == Default(GetNestedLabel(n.extra, POOL_LABEL), "")
    }

    /** How a search ends, given what its listing said last. */
    ghost predicate Ended(said: Reply, r: Result<Option<Host>>) {
      !said.Reconnected? && (r == Err ==> said.Faulted?) && (r == Ok(None) ==> said == Answered)
    }

    /** A search whose authentication fails is repeated once, if reconnecting works. */
    ghost predicate Searched(log: seq<Reply>, r: Result<Option<Host>>) {
      || (|log| == 1 && Ended(log[0], r) && (r == Err ==> log[0] == Faulted(false)))
      || (log == [Faulted(true), Reconnected(false)] && r == Err)
      || (|log| == 3 && log[0] == Faulted(true) && log[1] == Reconnected(true) && Ended(log[2], r))
    }

    /**
     FindFreeHost, with one more attempt after an authentication failure.  A host is returned only if
     it was eligible when its page was served; nothing is returned only if no node was eligible all the
     time: for every paging, every shuffle of every page, every place where the listing can fail,
     and whatever others do to the inventory meanwhile.
     */
    method FindFreeHost(selector: map<string, string>) returns (r: Result<Option<Host>>, ghost views: Views)
      requires api.Valid()
      modifies api`nodes, api`log
      ensures api.Valid() && views != [] && Found(selector, r, views)
      ensures old(api.log) <= api.log && Searched(api.log[|old(api.log)|..], r)
    {
      hide Found;
      var auth;
      r, auth, views := FindOnce(selector);
      if auth {
        var reconnected := api.Reconnect();
        if reconnected {
          r, auth, views := FindOnce(selector);
        }
      }
    }

    method FindOnce(selector: map<string, string>) returns (r: Result<Option<Host>>, auth: bool, ghost views: Views)
      requires api.Valid()
      modifies api`nodes, api`log
      ensures api.Valid() && views != [] && views[0] == old(api.nodes) && Found(selector, r, views)
      ensures |api.log| == |old(api.log)| + 1 && old(api.log) <= api.log && Ended(api.log[|old(api.log)|], r)
      ensures auth <==> r == Err && api.log[|old(api.log)|] == Faulted(true)
    {
      hide Complete, AlwaysListed, HasLabels, GetNestedLabel;
      var wantedClass := if "hostType" in selector then selector["hostType"] else "";
      var wantedState := if "provisionState" in selector then selector["provisionState"] else "";
      if wantedState == "" {
        wantedState := DEFAULT_PROVISION_STATE;
      }
      auth := false;
      var pages, ended, unauthorized, seen := api.List(wantedClass, wantedState);
      views := seen;
      var found, q := ScanPages(pages, selector);
      if found.Some? {
        var n := found.value;
        assert Sound(views[q], pages[q], wantedClass, wantedState);
        var managedBy := Or(Default(GetNestedLabel(n.extra, MANAGED_BY_LABEL), ""), DEFAULT_MANAGED_BY);
        r := Ok(Some(HostOf(n, OwnerOf(n.extra), managedBy)));
        assert FoundIn(views[q], selector, r.value.value);
        return;
      }
      if !ended {
        return Err, unauthorized, views;
      }
      forall id
        ensures MissedOnce(views, id, selector)
      {
        NothingFree(views, pages, selector, wantedClass, wantedState, id);
      }
      return Ok(None), false, views;
    }

    /** Page by page, up to the first that has a free node. */
    static method ScanPages(pages: seq<seq<Node>>, selector: map<string, string>) returns (found: Option<Node>, q: nat)
      ensures found.Some? ==> q < |pages| && found.value in pages[q] && Free(found.value, WantedManager(selector))
      ensures forall k, n :: 0 <= k < (if found == None then |pages| else q) && n in pages[k] ==> !Free(n, WantedManager(selector))
    {
      hide Free;
      found := None;
      q := 0;
      while q < |pages|
        invariant q <= |pages|
        invariant forall k, n :: 0 <= k < q && n in pages[k] ==> !Free(n, WantedManager(selector))
      {
        ghost var order;
        found, order := ScanPage(pages[q], selector);
        if found.Some? {
          return;
        }
        q := q + 1;
      }
      found := None;
    }

    /** The first node of a sequence that is free. */
    static ghost predicate FirstFree(nodes: seq<Node>, managedBy: string, found: Option<Node>) {
      match found
      case None => forall k :: 0 <= k < |nodes| ==> !Free(nodes[k], managedBy)
      case Some(n) =>
        exists i :: 0 <= i < |nodes| && nodes[i] == n && Free(n, managedBy) && forall k :: 0 <= k < i ==> !Free(nodes[k], managedBy)
    }

    /** One page: shuffle, then take the first node that is free. */
    static method ScanPage(page: seq<Node>, selector: map<string, string>) returns (found: Option<Node>, ghost order: seq<nat>)
      ensures Picks(order, |page|) && FirstFree(Shuffled(page, order), WantedManager(selector), found)
      ensures found.Some? ==> found.value in page && Free(found.value, WantedManager(selector))
      ensures found == None ==> forall n :: n in page ==> !Free(n, WantedManager(selector))
    {
      hide Shuffled, Picks;
      var a := new Node[|page|](i requires 0 <= i < |page| => page[i]);
      assert a[..] == page;
      order := Shuffle(a);
      SameElements(page, a[..]);
      var i := 0;
      while i < a.Length
        invariant i <= a.Length
        invariant forall j :: 0 <= j < i ==> !Free(a[j], WantedManager(selector))
      {
        var node := a[i];
        i := i + 1;
        if Default(GetNestedLabel(node.extra, OWNER_LABEL), "") != "" {
          continue;
        }
        var managedBy := GetNestedLabel(node.extra, MANAGED_BY_LABEL);
        if managedBy == None || managedBy == Some("") {
          managedBy := Some(DEFAULT_MANAGED_BY);
        }
        var wanted := if "managedBy" in selector then selector["managedBy"] else "";
        if wanted == "" {
          wanted := DEFAULT_MANAGED_BY;
        }
        if managedBy.value != wanted {
          continue;
        }
        assert node in a[..];
        assert a[..][i - 1] == node;
        return Some(node), order;
      }
      return None, order;
    }

    /** The label requests of AssignHost: the owner first, then the labels in any order. */
    static method BuildAssign(ghost extra: Extra, instance: string, labels: map<string, string>)
      returns (ops: seq<Op>)
      ensures Sets(extra, ops, map[OWNER_LABEL := Text(instance)] + Texts(labels))
    {
      hide Sets, LabelPath;
      ops := [Add(LabelPath(OWNER_LABEL), Text(instance))];
      SetsOwner(extra, Text(instance));
      ghost var added: Labels := map[OWNER_LABEL := Text(instance)];
      var rest := labels.Keys;
      while rest != {}
        invariant rest <= labels.Keys
        invariant Sets(extra, ops, added)
        invariant added.Keys == {OWNER_LABEL} + (labels.Keys - rest)
        invariant forall k :: k in labels.Keys - rest ==> added[k] == Text(labels[k])
        invariant OWNER_LABEL !in labels.Keys - rest ==> added[OWNER_LABEL] == Text(instance)
      {
        var k :| k in rest;
        SetsAnother(extra, ops, added, k, Text(labels[k]));
        ops := ops + [Add(LabelPath(k), Text(labels[k]))];
        added := added[k := Text(labels[k])];
        rest := rest - {k};
      }
      assert added == map[OWNER_LABEL := Text(instance)] + Texts(labels);
    }

    /**
     One attempt.  A confirmed claim sets the owner and all labels and nothing else; a refused one
     changes nothing; a failed one leaves the node as it was, initialised, or claimed.  A request is
     refused as inapplicable only when osac_labels is present and is no object.
     */
    method AssignOnce(id: string, instance: string, labels: map<string, string>)
      returns (r: Result<Option<Host>>, auth: bool, ghost fault: Option<bool>)
      requires api.Valid()
      modifies api
      ensures api.Valid()
      ensures old(api.log) <= api.log && Attempt(api.log[|old(api.log)|..], fault) && (auth <==> fault == Some(true))
      ensures r == Err <==> fault.Some? || Unassignable(old(api.nodes), id, instance)
      ensures id == "" || instance == "" ==> fault == None && api.log == old(api.log) && api.nodes == old(api.nodes)
      ensures r == Ok(None) ==> Taken(old(api.nodes), id, instance) && api.nodes == old(api.nodes)
      ensures r.Ok? && r.value.Some? ==>
                Claimed(old(api.nodes), id, instance, labels, api.nodes)
                && Shows(r.value.value, api.nodes[id]) && r.value.value.instanceID == instance
                && r.value.value.managedBy == Default(GetNestedLabel(api.nodes[id].extra, MANAGED_BY_LABEL), DEFAULT_MANAGED_BY)
      ensures Left(old(api.nodes), id, instance, labels, api.nodes)
      ensures api.rejected > old(api.rejected) ==> Unassignable(old(api.nodes), id, instance)
    {
      hide ApplyAll, LabelPath, Document, Attempt;
      auth, fault := false, None;
      NoCalls();
      ghost var log := api.log;
      assert log[|log|..] == [];
      if id == "" {
        return Err, auth, fault;
      }
      if instance == "" {
        return Err, auth, fault;
      }
      var got := api.Get(id);
      OneCallMore(log, [], api.log, got);
      if !got.Given? {
        return Err, got == Broken(true), FaultOf(got);
      }
      var node := got.value;
      var owner := GetNestedLabel(node.extra, OWNER_LABEL);
      if owner.Some? && owner.value != "" && owner.value != instance {
        return Ok(None), auth, fault;
      }
      var updated;
      ghost var said;
      hide Claimed, Left, Assigned, Blocked, HasLabels, WithLabels;
      updated, said := WriteClaim(id, node, instance, labels);
      AnswerAndMore(log, got, said, api.log, FaultOf(updated));
      if !updated.Given? {
        return Err, updated == Broken(true), FaultOf(updated);
      }
      var host := Answer(updated.value, instance);
      return Ok(Some(host)), auth, fault;
    }

    /** What AssignHost returns of the node it claimed. */
    method Answer(node: Node, instance: string) returns (h: Host)
      ensures Shows(h, node) && h.instanceID == instance
      ensures h.managedBy == Default(GetNestedLabel(node.extra, MANAGED_BY_LABEL), DEFAULT_MANAGED_BY)
    {
      var managedBy := GetNestedLabel(node.extra, MANAGED_BY_LABEL);
      if managedBy == None {
        managedBy := Some(DEFAULT_MANAGED_BY);
      }
      var pool := GetNestedLabel(node.extra, POOL_LABEL);
      if pool == None {
        pool := Some("");
      }
      h := Host(pool.value, instance, node.uuid, node.name, node.resourceClass,
                hostClass, networkClass, node.provisionState, managedBy.value);
    }

    /** The requests of a claim, after the owner check. */
    method WriteClaim(id: string, node: Node, instance: string, labels: map<string, string>)
      returns (updated: Try<Node>, ghost said: seq<Reply>)
      requires api.Valid() && id in api.nodes && api.nodes[id] == node && !Taken(api.nodes, id, instance)
      modifies api
      ensures api.Valid() && api.log == old(api.log) + said && Attempt(said, FaultOf(updated))
      ensures Left(old(api.nodes), id, instance, labels, api.nodes)
      ensures updated.Given? ==> Claimed(old(api.nodes), id, instance, labels, api.nodes) && updated.value == api.nodes[id]
      ensures updated == Denied ==> Blocked(node.extra)
      ensures Blocked(node.extra) ==> !updated.Given?
      ensures api.rejected > old(api.rejected) ==> Blocked(node.extra)
    {
      SameAssigned(node.extra, Prepared(node.extra), instance, labels);
      hide Assigned, Blocked, HasLabels, WithLabels, OwnerOf, GetNestedLabel;
      updated := EnsureLabels(id, node);
      said := if LABELS in node.extra then [] else [Said(updated)];
      if !updated.Given? {
        return;
      }
      updated := SendClaim(id, instance, labels);
      said := said + [Said(updated)];
    }

    /** Labels can only be added to an object, so an empty one is created first. */
    method EnsureLabels(id: string, node: Node) returns (initialised: Try<Node>)
      requires api.Valid() && id in api.nodes && api.nodes[id] == node
      modifies api
      ensures api.Valid() && api.rejected == old(api.rejected) && initialised != Denied
      ensures api.log == if LABELS in node.extra then old(api.log) else old(api.log) + [Said(initialised)]
      ensures LABELS in node.extra ==> initialised.Given?
      ensures api.nodes in {old(api.nodes), old(api.nodes)[id := node.(extra := Prepared(node.extra))]}
      ensures initialised.Given? ==> api.nodes == old(api.nodes)[id := node.(extra := Prepared(node.extra))]
    {
      initialised := Given(node);
      if LABELS !in node.extra {
        InitialRequest(node);
        initialised := api.Update(id, [Add(LABELS_PATH, Object(map[]))]);
      }
    }

    /** The one request that sets the owner and the labels. */
    method SendClaim(id: string, instance: string, labels: map<string, string>) returns (updated: Try<Node>)
      requires api.Valid() && id in api.nodes
      modifies api
      ensures api.Valid() && api.requests == old(api.requests) + 1 && api.log == old(api.log) + [Said(updated)]
      ensures api.nodes == old(api.nodes)
              || (HasLabels(old(api.nodes[id]).extra)
                  && AssignedAt(old(api.nodes), id, Assigned(old(api.nodes[id]).extra, instance, labels), api.nodes))
      ensures updated.Given? ==>
                HasLabels(old(api.nodes[id]).extra) && updated.value == api.nodes[id]
                && AssignedAt(old(api.nodes), id, Assigned(old(api.nodes[id]).extra, instance, labels), api.nodes)
      ensures updated == Denied ==> !HasLabels(old(api.nodes[id]).extra)
      ensures api.rejected == old(api.rejected) + if updated == Denied then 1 else 0
    {
      hide ApplyAll, LabelPath, Document, Assigned, HasLabels;
      var ops := BuildAssign(api.nodes[id].extra, instance, labels);
      AssignRequest(api.nodes[id], ops, instance, labels);
      hide Patched;
      updated := api.Update(id, ops);
    }


    /**
     AssignHost: an attempt that fails for authentication is repeated once after reconnecting.  What
     holds of one attempt holds of two, except that a claim whose reply was lost may be refused by
     its own label under the owner's key.
     */
    method AssignHost(id: string, instance: string, labels: map<string, string>)
      returns (r: Result<Option<Host>>, ghost fault: Option<bool>)
      requires api.Valid()
      modifies api
      ensures api.Valid()
      ensures old(api.log) <= api.log && Repeats(api.log[|old(api.log)|..], fault)
      ensures r == Err <==> fault.Some? || Unassignable(old(api.nodes), id, instance)
      ensures id == "" || instance == "" ==> fault == None && api.log == old(api.log) && api.nodes == old(api.nodes)
      ensures r == Ok(None) ==>
                || (Taken(old(api.nodes), id, instance) && api.nodes == old(api.nodes))
                || (OWNER_LABEL in labels && labels[OWNER_LABEL] !in {"", instance}
                    && Claimed(old(api.nodes), id, instance, labels, api.nodes))
      ensures r.Ok? && r.value.Some? ==>
                Claimed(old(api.nodes), id, instance, labels, api.nodes)
                && Shows(r.value.value, api.nodes[id]) && r.value.value.instanceID == instance
                && r.value.value.managedBy == Default(GetNestedLabel(api.nodes[id].extra, MANAGED_BY_LABEL), DEFAULT_MANAGED_BY)
      ensures Left(old(api.nodes), id, instance, labels, api.nodes)
      ensures api.rejected > old(api.rejected) ==> Unassignable(old(api.nodes), id, instance)
    {
      hide Assigned, Attempt, Repeats, Shows, Claimed, Left, Taken, Unassignable, AssignedAt, GetNestedLabel;
      var auth;
      r, auth, fault := AssignOnce(id, instance, labels);
      ghost var first := api.log[|old(api.log)|..];
      RepeatsOnce(first, fault);
      if auth {
        var reconnected := api.Reconnect();
        assert api.log[|old(api.log)|..] == first + [Reconnected(reconnected)];
        if reconnected {
          ghost var mid, before := api.nodes, api.log;
          r, auth, fault := AssignOnce(id, instance, labels);
          RepeatsTwice(first, api.log[|before|..], fault);
          TwoAttempts(old(api.nodes), mid, api.nodes, id, instance, labels);
          assert api.log[|old(api.log)|..] == first + [Reconnected(true)] + api.log[|before|..];
        }
      }
    }

    /** The removal requests of UnassignHost: each key once, and only keys the node has. */
    static method BuildUnassign(extra: Extra, keys: seq<string>) returns (ops: seq<Op>)
      ensures ApplyAll(Document(extra), ops) == Some(Document(Unassigned(extra, set k | k in keys)))
      ensures ops == [] <==> (set k | k in keys) + {OWNER_LABEL} !! LabelsOf(extra).Keys
    {
      hide ApplyAll, LabelPath, Document;
      var seen := {OWNER_LABEL};
      var toRemove := [OWNER_LABEL];
      var i := 0;
      while i < |keys|
        invariant i <= |keys|
        invariant seen == (set k | k in keys[..i]) + {OWNER_LABEL}
        invariant forall k :: k in toRemove <==> k in seen
        invariant forall m, n :: 0 <= m < n < |toRemove| ==> toRemove[m] != toRemove[n]
      {
        var key := keys[i];
        assert keys[..i + 1] == keys[..i] + [key];
        if key !in seen {
          seen := seen + {key};
          toRemove := toRemove + [key];
        }
        i := i + 1;
      }
      assert keys[..i] == keys;
      assert seen == (set k | k in keys) + {OWNER_LABEL};

      var existing := LabelsOf(extra);
      ops := [];
      NoRequest(extra);
      i := 0;
      while i < |toRemove|
        invariant i <= |toRemove|
        invariant Drops(extra, ops, Done(toRemove, i))
        invariant ops == [] <==> Done(toRemove, i) !! existing.Keys
      {
        var key := toRemove[i];
        DoneNext(toRemove, i);
        assert key !in Done(toRemove, i);
        if key in existing {
          DropsAnother(extra, ops, Done(toRemove, i), key);
          ops := ops + [Remove(LabelPath(key))];
        } else {
          DropsMissing(extra, ops, Done(toRemove, i), key);
        }
        i := i + 1;
      }
      assert Done(toRemove, i) == seen;
      DropsAll(extra, ops, set k | k in keys);
    }

    /** One attempt at UnassignHost. */
    method UnassignOnce(id: string, keys: seq<string>) returns (r: Result<()>, auth: bool, ghost fault: Option<bool>)
      requires api.Valid()
      modifies api
      ensures api.Valid()
      ensures old(api.log) <= api.log && Attempt(api.log[|old(api.log)|..], fault) && (auth <==> fault == Some(true))
      ensures r == Err <==> fault.Some? || id !in old(api.nodes)
      ensures r.Ok? ==> id in old(api.nodes)
                        && AssignedAt(old(api.nodes), id, Unassigned(old(api.nodes[id]).extra, set k | k in keys), api.nodes)
      ensures api.nodes == old(api.nodes)
              || (id in old(api.nodes)
                  && AssignedAt(old(api.nodes), id, Unassigned(old(api.nodes[id]).extra, set k | k in keys), api.nodes))
      ensures api.rejected == old(api.rejected)
      ensures id !in old(api.nodes) || (set k | k in keys) + {OWNER_LABEL} !! LabelsOf(old(api.nodes[id]).extra).Keys ==>
                api.requests == old(api.requests)
    {
      hide ApplyAll, LabelPath, Document;
      auth, fault := false, None;
      var got := api.Get(id);
      if !got.Given? {
        return Err, got == Broken(true), FaultOf(got);
      }
      var node := got.value;
      var ops := BuildUnassign(node.extra, keys);
      PatchedExtra(node, ops, Unassigned(node.extra, set k | k in keys));
      if |ops| == 0 {
        NothingSent(node.extra, keys);
        return Ok(()), auth, fault;
      }
      var updated := api.Update(id, ops);
      return if updated.Given? then Ok(()) else Err, updated == Broken(true), FaultOf(updated);
    }

    /**
     UnassignHost, with one more attempt after an authentication failure.  For every key list, with
     duplicates or with the owner key, every removal is applicable; nothing is sent when there is nothing
     to remove; the node ends up unassigned or, after a failure, possibly as it was.
     */
    method UnassignHost(id: string, keys: seq<string>) returns (r: Result<()>, ghost fault: Option<bool>)
      requires api.Valid()
      modifies api
      ensures api.Valid()
      ensures old(api.log) <= api.log && Repeats(api.log[|old(api.log)|..], fault)
      ensures r == Err <==> fault.Some? || id !in old(api.nodes)
      ensures r.Ok? ==> id in old(api.nodes)
                        && AssignedAt(old(api.nodes), id, Unassigned(old(api.nodes[id]).extra, set k | k in keys), api.nodes)
      ensures api.nodes == old(api.nodes)
              || (id in old(api.nodes)
                  && AssignedAt(old(api.nodes), id, Unassigned(old(api.nodes[id]).extra, set k | k in keys), api.nodes))
      ensures api.rejected == old(api.rejected)
      ensures id !in old(api.nodes) || (set k | k in keys) + {OWNER_LABEL} !! LabelsOf(old(api.nodes[id]).extra).Keys ==>
                api.requests == old(api.requests)
    {
      hide Attempt, Repeats, Unassigned;
      var auth;
      r, auth, fault := UnassignOnce(id, keys);
      ghost var first := api.log[|old(api.log)|..];
      RepeatsOnce(first, fault);
      if auth {
        var reconnected := api.Reconnect();
        assert api.log[|old(api.log)|..] == first + [Reconnected(reconnected)];
        if reconnected {
          if id in api.nodes {
            UnassignedAgain(old(api.nodes[id]).extra, set k | k in keys);
          }
          ghost var before := api.log;
          r, auth, fault := UnassignOnce(id, keys);
          RepeatsTwice(first, api.log[|before|..], fault);
          assert api.log[|old(api.log)|..] == first + [Reconnected(true)] + api.log[|before|..];
        }
      }
    }
  }

  /** Only the extra member of one node changes. */
  predicate AssignedAt(before: map<string, Node>, id: string, extra: Extra, after: map<string, Node>)
    requires id in before
  {
    after == before[id := before[id].(extra := extra)]
  }

  lemma InitialRequest(n: Node)
    ensures Patched(n, [Add(LABELS_PATH, Object(map[]))]) == Some(n.(extra := WithLabels(n.extra, map[])))
  {
    AddLabelsObject(n.extra);
    var op := Add(LABELS_PATH, Object(map[]));
    assert [] + [op] == [op];
    ApplyAppend(Document(n.extra), [], op);
    PatchedExtra(n, [op], WithLabels(n.extra, map[]));
  }

  lemma AssignRequest(n: Node, ops: seq<Op>, instance: string, labels: map<string, string>)
    requires Sets(n.extra, ops, map[OWNER_LABEL := Text(instance)] + Texts(labels))
    ensures HasLabels(n.extra) ==> Patched(n, ops) == Some(n.(extra := Assigned(n.extra, instance, labels)))
    ensures !HasLabels(n.extra) ==> Patched(n, ops) == None
  {
    if HasLabels(n.extra) {
      var m: Labels := map[OWNER_LABEL := Text(instance)];
      assert LabelsOf(n.extra) + (m + Texts(labels)) == LabelsOf(n.extra)[OWNER_LABEL := Text(instance)] + Texts(labels);
      PatchedExtra(n, ops, Assigned(n.extra, instance, labels));
    }
  }

  function Prepared(extra: Extra): Extra {
    if LABELS in extra then extra else WithLabels(extra, map[])
  }

  /** Creating the empty labels object first does not change the outcome. */
  lemma SameAssigned(extra: Extra, ready: Extra, instance: string, labels: map<string, string>)
    requires ready == Prepared(extra)
    ensures Assigned(ready, instance, labels) == Assigned(extra, instance, labels)
    ensures HasLabels(ready) <==> !Blocked(extra)
  {
  }

  /** Repeating an assignment on whatever a failed attempt left. */
  lemma SecondAttempt(extra: Extra, extra': Extra, instance: string, labels: map<string, string>)
    requires instance != ""
    requires extra' == extra || (LABELS !in extra && extra' == WithLabels(extra, map[]))
             || extra' == Assigned(extra, instance, labels)
    ensures Assigned(extra', instance, labels) == Assigned(extra, instance, labels)
    ensures Blocked(extra') ==> extra' == extra
    ensures extra' != extra && ForeignOwner(extra', instance) ==>
              extra' == Assigned(extra, instance, labels)
              && OWNER_LABEL in labels && labels[OWNER_LABEL] !in {"", instance}
    ensures extra' != extra ==> LABELS in extra'
  {
    OwnerReadsBackIff(extra, instance, labels);
    var after := LabelsOf(extra)[OWNER_LABEL := Text(instance)] + Texts(labels);
    assert after[OWNER_LABEL := Text(instance)] + Texts(labels) == after;
    assert Assigned(Assigned(extra, instance, labels), instance, labels)
        == extra[LABELS := Object(after)][LABELS := Object(after)];
    if LABELS !in extra {
      SameAssigned(extra, WithLabels(extra, map[]), instance, labels);
    }
  }

  /** What two attempts do is what one does, but for a claim that is refused by its own label. */
  lemma TwoAttempts(before: map<string, Node>, mid: map<string, Node>, after: map<string, Node>, id: string,
                    instance: string, labels: map<string, string>)
    requires instance != "" && Left(before, id, instance, labels, mid)
    ensures Left(mid, id, instance, labels, after) ==> Left(before, id, instance, labels, after)
    ensures Claimed(mid, id, instance, labels, after) ==> Claimed(before, id, instance, labels, after)
    ensures Unassignable(mid, id, instance) ==> Unassignable(before, id, instance)
    ensures Unassignable(before, id, instance) ==> Unassignable(mid, id, instance)
    ensures Taken(mid, id, instance) ==>
              (Taken(before, id, instance) && mid == before)
              || (OWNER_LABEL in labels && labels[OWNER_LABEL] !in {"", instance} && Claimed(before, id, instance, labels, mid))
  {
    if id in before {
      hide Assigned, WithLabels, OwnerOf, Blocked, HasLabels, GetNestedLabel;
      SecondAttempt(before[id].extra, mid[id].extra, instance, labels);
      Initialised(before[id].extra);
    }
  }

  lemma Initialised(extra: Extra)
    ensures LABELS !in extra ==> !Blocked(extra) && LABELS in WithLabels(extra, map[]) && OwnerOf(WithLabels(extra, map[])) == ""
  {
  }

  lemma UnassignedAgain(extra: Extra, keys: set<string>)
    ensures Unassigned(Unassigned(extra, keys), keys) == Unassigned(extra, keys)
    ensures keys + {OWNER_LABEL} !! LabelsOf(extra).Keys ==> Unassigned(extra, keys) == extra
  {
    if HasLabels(extra) {
      var after := LabelsOf(extra) - keys - {OWNER_LABEL};
      assert after - keys - {OWNER_LABEL} == after;
      assert keys + {OWNER_LABEL} !! LabelsOf(extra).Keys ==> after == LabelsOf(extra);
    }
  }

  function Done(keys: seq<string>, n: nat): set<string>
    requires n <= |keys|
  {
    set k | k in keys[..n]
  }

  lemma DoneNext(keys: seq<string>, n: nat)
    requires n < |keys|
    ensures Done(keys, n + 1) == Done(keys, n) + {keys[n]}
  {
  }

  lemma NoRequest(extra: Extra)
    ensures Drops(extra, [], {})
  {
  }

  lemma DropsMissing(extra: Extra, ops: seq<Op>, dropped: set<string>, key: string)
    requires Drops(extra, ops, dropped) && key !in LabelsOf(extra)
    ensures Drops(extra, ops, dropped + {key})
  {
    assert LabelsOf(extra) - (dropped + {key}) == LabelsOf(extra) - dropped;
  }

  lemma DropsAll(extra: Extra, ops: seq<Op>, keys: set<string>)
    requires Drops(extra, ops, keys + {OWNER_LABEL})
    requires ops == [] <==> keys + {OWNER_LABEL} !! LabelsOf(extra).Keys
    ensures ApplyAll(Document(extra), ops) == Some(Document(Unassigned(extra, keys)))
  {
    assert LabelsOf(extra) - (keys + {OWNER_LABEL}) == LabelsOf(extra) - keys - {OWNER_LABEL};
    if ops == [] {
      assert LabelsOf(extra) - keys - {OWNER_LABEL} == LabelsOf(extra);
      assert Unassigned(extra, keys) == extra;
    } else {
      assert HasLabels(extra);
    }
  }

  lemma NothingSent(extra: Extra, keys: seq<string>)
    requires (set k | k in keys) + {OWNER_LABEL} !! LabelsOf(extra).Keys
    ensures Unassigned(extra, set k | k in keys) == extra
  {
    var s := set k | k in keys;
    assert LabelsOf(extra) - s - {OWNER_LABEL} == LabelsOf(extra);
  }

  // ---------------------------------------------------------------- searching and claiming

  /** If no page had a free node, no node was eligible all the time. */
  lemma NothingFree(views: Views, pages: seq<seq<Node>>, selector: map<string, string>, wantedClass: string,
                    wantedState: string, id: string)
    requires |views| == |pages| + 1 && Complete(views, pages, wantedClass, wantedState)
    requires wantedClass == ValueOf(selector, "hostType") && wantedState == WantedState(selector)
    requires forall q, n :: 0 <= q < |pages| && n in pages[q] ==> !Free(n, WantedManager(selector))
    ensures MissedOnce(views, id, selector)
  {
    hide Free, Listed;
    if !AlwaysListed(views, id, wantedClass, wantedState) {
      var view :| view in views && !(id in view && Listed(view[id], wantedClass, wantedState));
      var q :| 0 <= q < |views| && views[q] == view;
      assert Missing(views[q], id, selector);
    } else {
      assert id in views[0].Keys;
      var q :| 0 <= q < |pages| && id in views[q] && views[q][id] in pages[q];
      assert Missing(views[q], id, selector);
    }
  }

  /**
   What a spec's selector means here: only managedBy and provisionState of it are looked at, so two
   selectors that agree on these two find the same nodes.
   */
  lemma OnlyTwoKeysSelect(n: Node, selector: map<string, string>, other: map<string, string>, hostType: string)
    requires ValueOf(selector, "managedBy") == ValueOf(other, "managedBy")
    requires ValueOf(selector, "provisionState") == ValueOf(other, "provisionState")
    ensures Eligible(n, MatchExpressions(selector, hostType)) <==> Eligible(n, MatchExpressions(other, hostType))
    ensures Eligible(n, MatchExpressions(selector, hostType)) ==> hostType == "" || n.resourceClass == hostType
  {
  }

  /** A claimed node is never found again, for any selector, unless a label blanks its owner. */
  lemma ClaimedIsHidden(n: Node, instance: string, labels: map<string, string>, selector: map<string, string>)
    requires instance != ""
    requires OWNER_LABEL in labels ==> labels[OWNER_LABEL] != ""
    ensures !Eligible(n.(extra := Assigned(n.extra, instance, labels)), selector)
  {
  }

  /**
   A released node can be found by a selector exactly when its class and state match and the
   manager label that survived the release does.
   */
  lemma ReleasedIsFoundIff(n: Node, keys: set<string>, selector: map<string, string>)
    ensures Eligible(n.(extra := Unassigned(n.extra, keys)), selector)
            <==> Listed(n, ValueOf(selector, "hostType"), WantedState(selector))
                 && WantedManager(selector) ==
                    if MANAGED_BY_LABEL in keys then DEFAULT_MANAGED_BY
                    else Or(Default(GetNestedLabel(n.extra, MANAGED_BY_LABEL), ""), DEFAULT_MANAGED_BY)
  {
  }
}
