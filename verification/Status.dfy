/** How readings of a role's LeaderWorkerSets become its component status
    (aggregateLWSStatus, pkg/controller/inferenceservice_controller.go). */
module Status {
  import opened Api
  import opened Scheduling

  datatype LwsStatus = LwsStatus(replicas: int32, readyReplicas: int32)

  /** One reading: nothing when the get failed or found no object. */
  type Reading = Option<LwsStatus>

  datatype Phase = Pending | Deploying | Running

  datatype ComponentStatus = ComponentStatus(
    desiredReplicas: int32, readyReplicas: int32, nodesPerReplica: int32,
    totalPods: int32, readyPods: int32, phase: Phase)

  predicate Ready(o: Reading) {
    o.Some? && o.value.readyReplicas >= 1
  }

  /** Some replica exists, ready or not. */
  predicate Present(o: Reading) {
    o.Some? && (o.value.readyReplicas >= 1 || o.value.replicas > 0)
  }

  function CountReady(obs: seq<Reading>): (n: nat)
    ensures n <= |obs|
  {
    if obs == [] then 0 else CountReady(obs[..|obs| - 1]) + if Ready(obs[|obs| - 1]) then 1 else 0
  }

  function ReadyPodsOf(o: Reading, nodes: int): int {
    if o.Some? then o.value.readyReplicas * nodes else 0
  }

  function SumReadyPods(obs: seq<Reading>, nodes: int): int {
    if obs == [] then 0 else SumReadyPods(obs[..|obs| - 1], nodes) + ReadyPodsOf(obs[|obs| - 1], nodes)
  }

  predicate SomeReady(obs: seq<Reading>) {
    obs != [] && (SomeReady(obs[..|obs| - 1]) || Ready(obs[|obs| - 1]))
  }

  predicate SomeReplica(obs: seq<Reading>) {
    obs != [] && (SomeReplica(obs[..|obs| - 1]) || (obs[|obs| - 1].Some? && obs[|obs| - 1].value.replicas > 0))
  }

  /** The phase decision, from the loop's three results. */
  function PhaseOf(readyReplicas: int, desired: int, anyRunning: bool, allPending: bool): Phase {
    if readyReplicas >= desired then Running
    else if anyRunning || !allPending then Deploying
    else Pending
  }

  /** The status `updateComponentStatusInMemory` stores for a role, from the readings of its sets. */
  function RoleStatus(role: Role, obs: seq<Reading>): ComponentStatus {
    var desired, nodes := GetReplicaCount(role), GetNodeCount(role);
    ComponentStatus(desired, Wrap32(CountReady(obs)), nodes, Wrap32(desired as int * nodes as int),
      Wrap32(SumReadyPods(obs, nodes)),
      PhaseOf(CountReady(obs), desired, SomeReady(obs), !SomeReplica(obs)))
  }

  /* ---- what the status means ---- */

  lemma {:induction false} AllReadyMeans(obs: seq<Reading>)
    ensures CountReady(obs) == |obs| <==> forall o | o in obs :: Ready(o)
  {
    if obs != [] {
      var init, last := obs[..|obs| - 1], obs[|obs| - 1];
      AllReadyMeans(init);
      assert last in obs && forall o | o in obs :: o in init || o == last;
      assert forall o | o in init :: o in obs;
    }
  }

  lemma {:induction false} NoneReadyMeans(obs: seq<Reading>)
    ensures CountReady(obs) == 0 <==> forall o | o in obs :: !Ready(o)
  {
    if obs != [] {
      var init, last := obs[..|obs| - 1], obs[|obs| - 1];
      NoneReadyMeans(init);
      assert last in obs && forall o | o in obs :: o in init || o == last;
      assert forall o | o in init :: o in obs;
    }
  }

  lemma {:induction false} SomeMeans(obs: seq<Reading>)
    ensures SomeReady(obs) <==> exists o | o in obs :: Ready(o)
    ensures SomeReplica(obs) <==> exists o | o in obs :: o.Some? && o.value.replicas > 0
  {
    if obs != [] {
      var init, last := obs[..|obs| - 1], obs[|obs| - 1];
      SomeMeans(init);
      assert forall o :: o in obs <==> o in init || o == last;
    }
  }

  predicate AllReady(obs: seq<Reading>) {
    forall i | 0 <= i < |obs| :: Ready(obs[i])
  }

  lemma PhaseCases(obs: seq<Reading>, desired: int)
    requires |obs| == if desired < 0 then 0 else desired
    ensures var phase := PhaseOf(CountReady(obs), desired, SomeReady(obs), !SomeReplica(obs));
            && (phase == Running <==> AllReady(obs))
            && (phase == Pending <==> phase != Running && forall o | o in obs :: !Present(o))
  {
    AllReadyMeans(obs);
    NoneReadyMeans(obs);
    SomeMeans(obs);
    assert AllReady(obs) <==> forall o | o in obs :: Ready(o);
  }

  /** Running: every index has a readable set with a ready replica. Pending: not Running, and no set
      has any replica, ready or not. ReadyReplicas never exceeds the desired count. */
  lemma PhaseMeans(role: Role, obs: seq<Reading>)
    requires |obs| == Instances(role)
    ensures var c := RoleStatus(role, obs);
            && (c.phase == Running <==> AllReady(obs))
            && (c.phase == Pending <==> c.phase != Running && forall o | o in obs :: !Present(o))
            && 0 <= c.readyReplicas && (GetReplicaCount(role) >= 0 ==> c.readyReplicas <= c.desiredReplicas)
            && (GetReplicaCount(role) >= 0 ==> (c.phase == Running <==> c.readyReplicas == c.desiredReplicas))
  {
    PhaseCases(obs, GetReplicaCount(role));
    WrapFits(CountReady(obs));
  }

  lemma {:induction false} UnitReadyPods(obs: seq<Reading>, nodes: nat)
    requires forall o | o in obs && o.Some? :: 0 <= o.value.readyReplicas <= 1
    ensures SumReadyPods(obs, nodes) == Times(CountReady(obs), nodes)
  {
    if obs != [] {
      var init, last := obs[..|obs| - 1], obs[|obs| - 1];
      assert last in obs && forall o | o in init :: o in obs;
      UnitReadyPods(init, nodes);
    }
  }

  /** When every set reports at most one ready replica and the totals fit, ready pods count whole
      replicas, never exceed the total, and reach it exactly when the role is Running. */
  lemma ReadyPodsMean(role: Role, obs: seq<Reading>)
    requires |obs| == Instances(role) && GetReplicaCount(role) >= 0
    requires forall o | o in obs && o.Some? :: 0 <= o.value.readyReplicas <= 1
    requires Times(Instances(role), GetNodeCount(role)) < TWO_31
    ensures var c := RoleStatus(role, obs);
            && c.readyPods == c.readyReplicas as int * c.nodesPerReplica as int
            && c.totalPods == c.desiredReplicas as int * c.nodesPerReplica as int
            && c.readyPods <= c.totalPods
            && (c.readyPods == c.totalPods <==> c.phase == Running)
  {
    var r, n, nodes := CountReady(obs), Instances(role), GetNodeCount(role);
    UnitReadyPods(obs, nodes);
    PhaseMeans(role, obs);
    if r < n {
      TimesStrict(r, n, nodes);
    }
    WrapFits(Times(r, nodes));
    WrapFits(Times(n, nodes));
    WrapFits(r);
  }

  lemma WrapFits(x: int)
    requires 0 <= x < TWO_31
    ensures Wrap32(x) == x
  {
  }

  lemma {:induction false} TimesStrict(r: nat, n: nat, k: nat)
    requires r < n && k >= 1
    ensures Times(r, k) < Times(n, k)
  {
    if r < n - 1 {
      TimesStrict(r, n - 1, k);
    }
  }
}
