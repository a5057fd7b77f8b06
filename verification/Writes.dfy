/**
 What reaches the API server.  A pass writes the copy it read at its start, yet no edit is lost: an
 applied write changes one field of the object as it is stored, and nothing else in the system.
 */
module Writes {
  import opened Wrappers
  import opened Fleet
  import opened FleetInvariant
  import opened Lease

  /** The stored object with the one field changed that the write is about. */
  function Edited(x: Instance, e: Event, candidate: Option<HostID>): Instance {
    match e
    case AddInventoryFinalizer(_) => x.(inventoryFinalizer := true)
    case StoreHost(_) => x.(host := candidate)
    case StoreClass(_) => x.(fulfilled := true)
    case ClearHost(_) => x.(host := None)
    case AddManagementFinalizer(_) => x.(managementFinalizer := true)
    case DropManagementFinalizer(_) => x.(managementFinalizer := false)
    case DropInventoryFinalizer(_) => x.(inventoryFinalizer := false)
    case _ => x
  }

  predicate IsUpdate(e: Event) {
    e.AddInventoryFinalizer? || e.StoreHost? || e.StoreClass? || e.ClearHost? || e.AddManagementFinalizer?
    || e.DropManagementFinalizer? || e.DropInventoryFinalizer?
  }

  function Candidate(p: Option<Pass>): Option<HostID> {
    if p.Some? && p.value.at.Picked? then Some(p.value.at.candidate) else None
  }

  lemma CopyIsStored(i: InstanceID, l: Local, e: Event)
    requires LocalOk(i, l) && Ready(l, e) && IsUpdate(e) && e.o != Failed
    ensures l.pass.Some? && l.obj == Some(l.pass.value.copy)
  {
    assert l.pass.Some? && l.pass.value.at != Returning;
    assert PassOk(i, l, l.pass.value);
    hide StageOk;
  }

  lemma LocalWrite(i: InstanceID, l: Local, e: Event)
    requires LocalOk(i, l) && Ready(l, e)
    ensures IsUpdate(e) && e.o != Failed ==> l.obj.Some?
    ensures LocalNext(i, l, e).obj
         == if IsUpdate(e) && e.o != Failed then Stored(Edited(l.obj.value, e, Candidate(l.pass))) else l.obj
  {
    if IsUpdate(e) && e.o != Failed {
      CopyIsStored(i, l, e);
      hide LocalOk;
      if DeletionEvent(e) {
        LateWrite(i, l, e);
        hide *;
      } else {
        EarlyWrite(i, l, e);
        hide *;
      }
    } else {
      hide LocalOk;
      if DeletionEvent(e) {
        LateQuiet(i, l, e);
        hide *;
      } else {
        if IsUpdate(e) {
          EarlyRefused(i, l, e);
          hide *;
        } else {
          EarlyQuiet(i, l, e);
          hide *;
        }
      }
    }
  }

  lemma LateWrite(i: InstanceID, l: Local, e: Event)
    requires Ready(l, e) && DeletionEvent(e) && IsUpdate(e) && e.o != Failed && l.pass.Some? && l.obj == Some(l.pass.value.copy)
    ensures LocalNext(i, l, e).obj == Stored(Edited(l.obj.value, e, Candidate(l.pass)))
  {
  }

  lemma EarlyWrite(i: InstanceID, l: Local, e: Event)
    requires Ready(l, e) && !DeletionEvent(e) && IsUpdate(e) && e.o != Failed && l.pass.Some? && l.obj == Some(l.pass.value.copy)
    ensures LocalNext(i, l, e).obj == Stored(Edited(l.obj.value, e, Candidate(l.pass)))
  {
  }

  lemma LateQuiet(i: InstanceID, l: Local, e: Event)
    requires Ready(l, e) && DeletionEvent(e) && !(IsUpdate(e) && e.o != Failed)
    ensures LocalNext(i, l, e).obj == l.obj
  {
  }

  lemma EarlyQuiet(i: InstanceID, l: Local, e: Event)
    requires Ready(l, e) && !DeletionEvent(e) && !IsUpdate(e)
    ensures LocalNext(i, l, e).obj == l.obj
  {
  }

  lemma EarlyRefused(i: InstanceID, l: Local, e: Event)
    requires Ready(l, e) && !DeletionEvent(e) && IsUpdate(e) && e.o == Failed
    ensures LocalNext(i, l, e).obj == l.obj
  {
  }

  /**
   Whatever others did since the pass read its object: a step changes at most this object, an applied
   Update changes one field of it as it is stored, and it is removed exactly with its last finalizer.
   */
  lemma NoLostUpdate(s: State, i: InstanceID, e: Event)
    requires Inv(s) && Enabled(s, Run(i, e))
    ensures IsUpdate(e) && e.o != Failed ==> i in s.objs
    ensures Next(s, Run(i, e)).objs
         == if IsUpdate(e) && e.o != Failed then Put(s.objs, i, Stored(Edited(s.objs[i], e, Candidate(Lookup(s.passes, i)))))
            else s.objs
  {
    hide Inv, Ready, LocalNext, LocalOk, Edited, Stored;
    LocalHolds(s, i);
    LocalWrite(i, View(s, i), e);
  }

  /** A pass that returns at its start leaves everything as it is. */
  lemma QuitWritesNothing(s: State, i: InstanceID)
    requires Inv(s) && Enabled(s, Run(i, Quit)) && !s.passes[i].locking
    ensures Next(s, Run(i, Quit)) == s.(passes := s.passes - {i})
  {
    hide Inv;
    assert Next(s, Run(i, Quit)).passes == s.passes - {i};
    assert Next(s, Run(i, Quit)).owner == s.owner;
    assert Next(s, Run(i, Quit)).locked == s.locked;
  }
}
