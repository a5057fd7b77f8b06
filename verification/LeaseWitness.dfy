/**
 A run on which two instances lease one host.  No failure, no lost reply and no two passes at
 the same time are needed: an instance that lost the race for a host still names it when it
 is deleted, and its deletion frees the record of the instance that won.
 */
module LeaseWitness {
  import opened Wrappers
  import opened Fleet
  import opened FleetInvariant
  import opened Lease
  import opened SoloPass

  const H: HostID := "host"
  const LOSER: InstanceID := "loser"
  const WINNER: InstanceID := "winner"
  const LATE: InstanceID := "late"

  /** An instance object of the run: it matches the one host there is. */
  function Object(version: nat, deleting: bool, finalizer: bool, host: Option<HostID>, fulfilled: bool): Instance {
    Instance(version, deleting, finalizer, false, host, fulfilled, false, None, {H})
  }

  function Created(): State {
    var x := Object(0, false, false, None, false);
    State(map[LOSER := x, WINNER := x, LATE := x], {LOSER, WINNER, LATE}, map[], {}, map[], {}, {}, map[], {}, map[])
  }

  lemma CreateThree() returns (s: State, acts: seq<Action>)
    ensures Init(s) && Performs(s, acts, Created())
  {
    var x := Object(0, false, false, None, false);
    s := State(map[], {}, map[], {}, map[], {}, {}, map[], {}, map[]);
    var s1 := s.(objs := map[LOSER := x], used := {LOSER});
    var s2 := s.(objs := map[LOSER := x, WINNER := x], used := {LOSER, WINNER});
    var a, b, c := CreateInstance(LOSER, x), CreateInstance(WINNER, x), CreateInstance(LATE, x);
    acts := [a, b, c];
    assert Enabled(s, a) && Next(s, a) == s1;
    assert Enabled(s1, b) && Next(s1, b) == s2;
    assert Enabled(s2, c) && Next(s2, c) == Created();
    hide Enabled, Next;
    assert acts[1..] == [b, c] && [b, c][1..] == [c] && [c][1..] == [];
    assert Performs(Created(), [], Created());
    assert Performs(s2, [c], Created());
    assert Performs(s1, [b, c], Created());
  }

  /** Both earlier instances pick the host; the winner claims it. */
  lemma RaceLost() returns (acts: seq<Action>, s': State)
    requires Inv(Created())
    ensures Performs(Created(), acts, s')
    ensures s' == Created().(
      objs := map[LOSER := Object(2, false, true, Some(H), false), WINNER := Object(3, false, true, Some(H), true),
                  LATE := Object(1, false, true, None, false)],
      owner := map[H := WINNER])
  {
    hide Inv, Performs;
    var s0 := Created();
    var a1, s1 := FinalizerPass(s0, LOSER);
    PerformsInv(s0, a1, s1);
    var a2, s2 := FinalizerPass(s1, WINNER);
    PerformsInv(s1, a2, s2);
    var a3, s3 := FinalizerPass(s2, LATE);
    PerformsInv(s2, a3, s3);
    var a4, s4 := PickPass(s3, LOSER, H);
    PerformsInv(s3, a4, s4);
    var a5, s5 := PickPass(s4, WINNER, H);
    PerformsInv(s4, a5, s5);
    var a6, s6 := ClaimPass(s5, WINNER, H);
    acts, s' := a1 + a2 + a3 + a4 + a5 + a6, s6;
    PerformsConcat(s0, a1, s1, a2, s2);
    PerformsConcat(s0, a1 + a2, s2, a3, s3);
    PerformsConcat(s0, a1 + a2 + a3, s3, a4, s4);
    PerformsConcat(s0, a1 + a2 + a3 + a4, s4, a5, s5);
    PerformsConcat(s0, a1 + a2 + a3 + a4 + a5, s5, a6, s6);
  }

  /** The loser is deleted before it notices; its release frees the host for the third instance. */
  lemma LoserDeleted(s: State) returns (acts: seq<Action>, s': State)
    requires Inv(s)
    requires s == Created().(
      objs := map[LOSER := Object(2, false, true, Some(H), false), WINNER := Object(3, false, true, Some(H), true),
                  LATE := Object(1, false, true, None, false)],
      owner := map[H := WINNER])
    ensures Performs(s, acts, s')
    ensures s'.objs == map[WINNER := Object(3, false, true, Some(H), true), LATE := Object(3, false, true, Some(H), true)]
    ensures s'.owner == map[H := LATE]
  {
    hide Inv, Performs;
    var s1 := DeleteStep(s, LOSER);
    var a2, s2 := ReleasePass(s1, LOSER);
    PerformsInv(s1, a2, s2);
    var a3, s3 := PickPass(s2, LATE, H);
    PerformsInv(s2, a3, s3);
    var a4, s4 := ClaimPass(s3, LATE, H);
    acts, s' := [DeleteInstance(LOSER)] + a2 + a3 + a4, s4;
    PerformsConcat(s, [DeleteInstance(LOSER)], s1, a2, s2);
    PerformsConcat(s, [DeleteInstance(LOSER)] + a2, s2, a3, s3);
    PerformsConcat(s, [DeleteInstance(LOSER)] + a2 + a3, s3, a4, s4);
  }

  /** A user's deletion request for an instance that has its finalizer. */
  lemma DeleteStep(s: State, i: InstanceID) returns (s': State)
    requires Inv(s) && i in s.objs && !s.objs[i].deleting && s.objs[i].inventoryFinalizer
    ensures s' == s.(objs := s.objs[i := s.objs[i].(deleting := true, version := s.objs[i].version + 1)])
    ensures Inv(s') && Performs(s, [DeleteInstance(i)], s')
  {
    var a := DeleteInstance(i);
    s' := Next(s, a);
    StepInv(s, a);
    hide Inv;
    assert [a][1..] == [] && Performs(s', [], s');
  }

  /** The states a fragment goes through. */
  lemma {:induction false} Trace(s: State, acts: seq<Action>, s': State) returns (states: seq<State>)
    requires Performs(s, acts, s')
    ensures |states| == |acts| + 1 && states[0] == s && states[|acts|] == s'
    ensures forall k :: 0 <= k < |acts| ==> Steps(states[k], acts[k], states[k + 1])
    decreases |acts|
  {
    hide Enabled, Next;
    if acts == [] {
      states := [s];
    } else {
      var rest := Trace(Next(s, acts[0]), acts[1..], s');
      states := [s] + rest;
      forall k | 0 <= k < |acts|
        ensures Steps(states[k], acts[k], states[k + 1])
      {
        if k > 0 {
          assert Steps(rest[k - 1], acts[1..][k - 1], rest[k - 1 + 1]);
        }
      }
    }
  }

  /** A run from the empty system to a state in which two instances lease the same host. */
  lemma TwoLeasesOneHost() returns (states: seq<State>, actions: seq<Action>)
    ensures IsRun(states, actions)
    ensures var s := states[|actions|];
      Leases(s, WINNER) && Leases(s, LATE) && s.objs[WINNER].host == s.objs[LATE].host == Some(H)
    ensures exists k :: 0 <= k < |actions| && StrayRelease(states[k], actions[k])
  {
    hide Inv, Enabled, Next, Performs;
    var s0, a0 := CreateThree();
    InitInv(s0);
    PerformsInv(s0, a0, Created());
    var a1, s1 := RaceLost();
    PerformsInv(Created(), a1, s1);
    var a2, s2 := LoserDeleted(s1);
    PerformsConcat(s0, a0, Created(), a1, s1);
    PerformsConcat(s0, a0 + a1, s1, a2, s2);
    actions := a0 + a1 + a2;
    states := Trace(s0, actions, s2);
    LeasesHoldIff(states, actions);
    if LeasesHold(s2) {
      NoSharing(s2, WINNER, LATE);
    }
  }
}
