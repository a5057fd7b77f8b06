/**
 The Metal3 management backend as the plant the power state machine drives, and the closed
 loop of the two: between passes the host settles (poweredOn follows online, the reboot
 annotation is cleared), and each pass reads and commands it through the backend.
 */
module Metal3Power {
  import opened Wrappers
  import opened Power
  import HostIDs = Metal3Inventory

  /** A BareMetalHost: spec.online, status.poweredOn, and the reboot annotation. */
  datatype Host = Host(online: bool, poweredOn: bool, rebooting: bool)

  function PowerStateOf(h: Host): PowerStatus {
    PowerStatus(h.poweredOn, h.online != h.poweredOn)
  }

  /** SetPowerState: refused while the host is changing; otherwise the host is asked to be on or off. */
  function WithPower(h: Host, on: bool): (CommandReply, Host) {
    if h.online != h.poweredOn then (Transitioning, h) else (Accepted, h.(online := on))
  }

  /** TriggerRestart: refused while the annotation is there. */
  function WithReboot(h: Host): (CommandReply, Host) {
    if h.rebooting then (Transitioning, h) else (Accepted, h.(rebooting := true))
  }

  const REBOOT := "reboot.metal3.io"

  /** A BareMetalHost as the API server stores it, as far as power goes. */
  datatype Machine = Machine(online: bool, poweredOn: bool, annotations: set<string>)

  function View(m: Machine): Host {
    Host(m.online, m.poweredOn, REBOOT in m.annotations)
  }

  class Cluster {
    var machines: map<HostIDs.Key, Machine>
    var faults: nat                       // calls that failed although the object was there
    var patches: nat                      // patch requests sent

    constructor (machines: map<HostIDs.Key, Machine>)
      ensures this.machines == machines && faults == patches == 0
    {
      this.machines, faults, patches := machines, 0, 0;
    }

    method Get(key: HostIDs.Key) returns (r: Option<Machine>)
      modifies this`faults
      ensures r.Some? ==> key in machines && r.value == machines[key]
      ensures faults == old(faults) + if r == None && key in machines then 1 else 0
    {
      var fails: bool := *;
      r := if fails || key !in machines then None else Some(machines[key]);
      faults := faults + if r == None && key in machines then 1 else 0;
    }

    /** A patch is applied or not; an applied one may still be reported as failed. */
    method Patch(key: HostIDs.Key, m: Machine) returns (ok: bool)
      requires key in machines
      modifies this
      ensures machines == old(machines) || machines == old(machines)[key := m]
      ensures ok ==> machines == old(machines)[key := m]
      ensures faults == old(faults) + (if ok then 0 else 1) && patches == old(patches) + 1
    {
      patches := patches + 1;
      var applied: bool := *;
      ok := *;
      ok := ok && applied;
      if applied {
        machines := machines[key := m];
      }
      faults := faults + if ok then 0 else 1;
    }
  }

  class Metal3Client {
    const api: Cluster
    const namespace: string

    constructor (api: Cluster, namespace: string)
      ensures this.api == api && this.namespace == namespace
    {
      this.api, this.namespace := api, namespace;
    }

    /** The ID names an object of the configured namespace that exists. */
    predicate Known(id: string, machines: map<HostIDs.Key, Machine>) {
      HostIDs.ParseHostID(id).Some? && HostIDs.ParseHostID(id).value.0 == namespace && HostIDs.ParseHostID(id).value in machines
    }

    /** getBMH. */
    method Lookup(id: string) returns (r: Option<Machine>)
      modifies api`faults
      ensures r == None <==> !Known(id, api.machines) || api.faults > old(api.faults)
      ensures r.Some? ==> r.value == api.machines[HostIDs.ParseHostID(id).value]
      ensures old(api.faults) <= api.faults
    {
      var key := HostIDs.ParseHostID(id);
      if key == None {
        return None;
      }
      if key.value.0 != namespace {
        return None;
      }
      r := api.Get(key.value);
    }

    method GetPowerState(id: string) returns (r: PowerReply)
      modifies api`faults
      ensures r == NoPower <==> !Known(id, api.machines) || api.faults > old(api.faults)
      ensures r.Power? ==>
                var m := api.machines[HostIDs.ParseHostID(id).value];
                r.status.on == m.poweredOn && (r.status.transitioning <==> m.online != m.poweredOn)
                && r.status == PowerStateOf(View(m))
    {
      var got := Lookup(id);
      if got == None {
        return NoPower;
      }
      var m := got.value;
      var transitioning := m.online != m.poweredOn;
      r := Power(PowerStatus(m.poweredOn, transitioning));
    }

    /**
     A host that is changing is left alone.  An accepted command asks for the target and changes nothing
     else; a failed one may have done so, too.
     */
    method SetPowerState(id: string, on: bool) returns (reply: CommandReply)
      modifies api
      ensures reply == Refused <==> !Known(id, old(api.machines)) || api.faults > old(api.faults)
      ensures reply == Transitioning ==>
                var m := old(api.machines)[HostIDs.ParseHostID(id).value];
                m.online != m.poweredOn && api.machines == old(api.machines)
      ensures reply == Accepted ==>
                var key := HostIDs.ParseHostID(id).value; var m := old(api.machines)[key];
                m.online == m.poweredOn && api.machines == old(api.machines)[key := m.(online := on)]
      ensures reply != Refused ==>
                var key := HostIDs.ParseHostID(id).value;
                (reply, View(api.machines[key])) == WithPower(View(old(api.machines)[key]), on)
      ensures api.patches > old(api.patches) || api.machines != old(api.machines) ==>
                Known(id, old(api.machines))
                && var key := HostIDs.ParseHostID(id).value; var m := old(api.machines)[key];
                   m.online == m.poweredOn && m.online != on
                   && (api.machines == old(api.machines) || api.machines == old(api.machines)[key := m.(online := on)])
    {
      var got := Lookup(id);
      if got == None {
        return Refused;
      }
      var m := got.value;
      if m.online != m.poweredOn {
        return Transitioning;
      }
      if m.online == on {
        assert api.machines[HostIDs.ParseHostID(id).value := m.(online := on)] == api.machines;
        return Accepted;
      }
      var ok := api.Patch(HostIDs.ParseHostID(id).value, m.(online := on));
      reply := if ok then Accepted else Refused;
    }

    /** Refused while the annotation is there; an accepted restart adds it and nothing else. */
    method TriggerRestart(id: string) returns (reply: CommandReply)
      modifies api
      ensures reply == Refused <==> !Known(id, old(api.machines)) || api.faults > old(api.faults)
      ensures reply == Transitioning ==>
                REBOOT in old(api.machines)[HostIDs.ParseHostID(id).value].annotations && api.machines == old(api.machines)
      ensures reply == Accepted ==>
                var key := HostIDs.ParseHostID(id).value; var m := old(api.machines)[key];
                REBOOT !in m.annotations
                && api.machines == old(api.machines)[key := m.(annotations := m.annotations + {REBOOT})]
      ensures reply != Refused ==>
                var key := HostIDs.ParseHostID(id).value;
                (reply, View(api.machines[key])) == WithReboot(View(old(api.machines)[key]))
      ensures api.patches > old(api.patches) || api.machines != old(api.machines) ==>
                Known(id, old(api.machines))
                && var key := HostIDs.ParseHostID(id).value; var m := old(api.machines)[key];
                   REBOOT !in m.annotations
                   && (api.machines == old(api.machines)
                       || api.machines == old(api.machines)[key := m.(annotations := m.annotations + {REBOOT})])
    {
      var got := Lookup(id);
      if got == None {
        return Refused;
      }
      var m := got.value;
      if REBOOT in m.annotations {
        return Transitioning;
      }
      var ok := api.Patch(HostIDs.ParseHostID(id).value, m.(annotations := m.annotations + {REBOOT}));
      reply := if ok then Accepted else Refused;
    }

    method IsRestartComplete(id: string) returns (r: Result<bool>)
      modifies api`faults
      ensures r == Err <==> !Known(id, api.machines) || api.faults > old(api.faults)
      ensures r.Ok? ==> (r.value <==> REBOOT !in api.machines[HostIDs.ParseHostID(id).value].annotations)
    {
      var got := Lookup(id);
      if got == None {
        return Err;
      }
      r := Ok(REBOOT !in got.value.annotations);
    }
  }

  // ---------------------------------------------------------------- the closed loop

  /** What the host does between two passes. */
  function Settle(h: Host): Host {
    Host(h.online, h.online, false)
  }

  /** The host after the commands of a pass. */
  function Commanded(h: Host, cs: seq<Command>): Host
    decreases |cs|
  {
    if cs == [] then h
    else
      var h' := match cs[0] case Restart(_) => WithReboot(h).1 case SetPower(on, _) => WithPower(h, on).1;
      Commanded(h', cs[1..])
  }

  /** The replies a pass gets from this host; there is no template and no API error. */
  function RepliesOf(spec: Spec, h: Host): Answers {
    var p := PowerStateOf(h);
    var desired := spec.runStrategy == Always;
    var after := if p.transitioning || p.on == desired then h else WithPower(h, desired).1;
    Answers(true, true, ProvisionReply(Silent, Done, false), Ok(!h.rebooting), WithReboot(h).0,
            Power(p), WithPower(h, desired).0, Power(PowerStateOf(after)))
  }

  datatype Loop = Loop(status: Status, hasFinalizer: bool, host: Host)

  function RoundEnd(spec: Spec, l: Loop): PassEnd {
    ManagePass(spec, l.status, l.hasFinalizer, RepliesOf(spec, Settle(l.host)))
  }

  /** The host settles, then a pass runs. */
  function Round(spec: Spec, l: Loop): Loop {
    var e := RoundEnd(spec, l);
    Loop(e.status, true, Commanded(Settle(l.host), e.commands))
  }

  function Rounds(spec: Spec, l: Loop, n: nat): Loop
    decreases n
  {
    if n == 0 then l else Rounds(spec, Round(spec, l), n - 1)
  }

  /** Ready, no command, and neither status nor host changes any more. */
  ghost predicate Fixed(spec: Spec, l: Loop) {
    EndsReady(RoundEnd(spec, l)) && RoundEnd(spec, l).commands == [] && Round(spec, l) == l
  }

  /** An upper bound on the rounds still needed. */
  function Rank(spec: Spec, l: Loop): nat {
    if !l.hasFinalizer then 5
    else if l.status.restartTrigger != spec.restartTrigger then
      (if spec.runStrategy == Halted || l.status.powerSynced == RESTARTING then 3 else 4)
    else if spec.runStrategy == Unspecified then 1
    else if l.host.online != (spec.runStrategy == Always) then 3
    else if !WasSynced(l.status) then 2
    else 1
  }

  lemma RankDrops(spec: Spec, l: Loop)
    requires !spec.templated && Rank(spec, l) > 1
    ensures Rank(spec, Round(spec, l)) < Rank(spec, l) || Fixed(spec, Round(spec, l))
  {
    if !l.hasFinalizer || l.status.restartTrigger != spec.restartTrigger {
      RestartRankDrops(spec, l);
      hide *;
    } else {
      PowerRankDrops(spec, l);
      hide *;
    }
  }

  lemma RestartRankDrops(spec: Spec, l: Loop)
    requires !spec.templated && (!l.hasFinalizer || l.status.restartTrigger != spec.restartTrigger)
    ensures Rank(spec, Round(spec, l)) < Rank(spec, l)
  {
    CommandedOnce(spec, l);
  }

  lemma PowerRankDrops(spec: Spec, l: Loop)
    requires !spec.templated && l.hasFinalizer && l.status.restartTrigger == spec.restartTrigger && Rank(spec, l) > 1
    ensures Rank(spec, Round(spec, l)) < Rank(spec, l)
  {
    CommandedOnce(spec, l);
  }

  /** A round gives at most one command. */
  lemma CommandedOnce(spec: Spec, l: Loop)
    requires !spec.templated
    ensures var e := RoundEnd(spec, l); var h := Settle(l.host);
      && |e.commands| <= 1
      && Commanded(h, e.commands) ==
           if e.commands == [] then h
           else match e.commands[0] case Restart(_) => WithReboot(h).1 case SetPower(on, _) => WithPower(h, on).1
  {
  }

  /** The second reading a pass gets is that of the host as the pass's own power command left it. */
  lemma SecondReadingIsTheHost(spec: Spec, l: Loop, on: bool, reply: CommandReply)
    requires !spec.templated && SetPower(on, reply) in RoundEnd(spec, l).commands
    ensures RepliesOf(spec, Settle(l.host)).second == Power(PowerStateOf(Commanded(Settle(l.host), RoundEnd(spec, l).commands)))
    ensures RoundEnd(spec, l).commands == [SetPower(on, WithPower(Settle(l.host), on).0)]
  {
    CommandedOnce(spec, l);
    SetPowerOnlyWhenAcknowledged(spec, l.status, l.hasFinalizer, RepliesOf(spec, Settle(l.host)), on, reply);
  }

  lemma LastRound(spec: Spec, l: Loop)
    requires !spec.templated && Rank(spec, l) == 1
    ensures Fixed(spec, Round(spec, l))
  {
    CommandedOnce(spec, l);
    CommandedOnce(spec, Round(spec, l));
  }

  lemma {:induction false} ReachesFixed(spec: Spec, l: Loop, n: nat)
    requires !spec.templated && (Rank(spec, l) <= n || Fixed(spec, l))
    ensures Fixed(spec, Rounds(spec, l, n))
    decreases n
  {
    hide ManagePass, RoundEnd;
    if Fixed(spec, l) {
      StaysFixed(spec, l, n);
    } else if Rank(spec, l) == 1 {
      LastRound(spec, l);
      ReachesFixed(spec, Round(spec, l), n - 1);
    } else {
      RankDrops(spec, l);
      ReachesFixed(spec, Round(spec, l), n - 1);
    }
  }

  lemma {:induction false} StaysFixed(spec: Spec, l: Loop, n: nat)
    requires Fixed(spec, l)
    ensures Rounds(spec, l, n) == l
    decreases n
  {
    hide ManagePass, RoundEnd;
    if n > 0 {
      StaysFixed(spec, l, n - 1);
    }
  }

  /**
   From any status, any condition, any pending restart and any host, with or without the
   finalizer: after five rounds the instance is Ready, and stays exactly as it is.
   */
  lemma ConvergesInFive(spec: Spec, l: Loop, n: nat)
    requires !spec.templated && n >= 5
    ensures Fixed(spec, Rounds(spec, l, n))
    ensures Rounds(spec, l, n) == Rounds(spec, l, 5)
    ensures spec.runStrategy != Unspecified ==>
      Rounds(spec, l, n).host == Settle(Rounds(spec, l, n).host)
      && Rounds(spec, l, n).host.poweredOn == (spec.runStrategy == Always)
      && Rounds(spec, l, n).status.restartTrigger == spec.restartTrigger
  {
    hide ManagePass, RoundEnd, Round, Fixed;
    ReachesFixed(spec, l, 5);
    RoundsAdd(spec, l, 5, n - 5);
    StaysFixed(spec, Rounds(spec, l, 5), n - 5);
    FixedMeans(spec, Rounds(spec, l, n));
  }

  lemma {:induction false} RoundsAdd(spec: Spec, l: Loop, m: nat, n: nat)
    ensures Rounds(spec, l, m + n) == Rounds(spec, Rounds(spec, l, m), n)
    decreases m
  {
    hide RoundEnd, Round;
    if m > 0 {
      RoundsAdd(spec, Round(spec, l), m - 1, n);
    }
  }

  lemma FixedMeans(spec: Spec, l: Loop)
    requires !spec.templated && Fixed(spec, l)
    ensures l.host == Settle(l.host) && l.status.restartTrigger == spec.restartTrigger
    ensures spec.runStrategy != Unspecified ==> l.host.poweredOn == (spec.runStrategy == Always)
  {
    CommandedOnce(spec, l);
    ReadyIsTruthful(spec, l.status, l.hasFinalizer, RepliesOf(spec, Settle(l.host)));
  }

  /** Five rounds can be needed. */
  lemma FourAreNotEnough() returns (spec: Spec, l: Loop)
    ensures !spec.templated && Rounds(spec, l, 4).status.phase != Ready
  {
    spec := Spec(false, Always, 1);
    l := Loop(Status(Unset, Unspecified, 0, None, None, true), false, Host(false, false, false));
    var l1 := Round(spec, l);
    var l2 := Round(spec, l1);
    var l3 := Round(spec, l2);
    var l4 := Round(spec, l3);
    assert l1.status.phase == Progressing && l1.hasFinalizer && l1.host == Host(false, false, false);
    assert l2.status.powerSynced == RESTARTING && l2.status.restartTrigger == 0 by {
      CommandedOnce(spec, l1);
    }
    assert l3.status.restartTrigger == 1 && l3.host.online && !WasSynced(l3.status) by {
      CommandedOnce(spec, l1);
      CommandedOnce(spec, l2);
    }
    UnsyncedStart(spec, l3.status, true, RepliesOf(spec, Settle(l3.host)));
    hide Round, RoundEnd;
    RoundsAdd(spec, l, 1, 3);
  }
}
