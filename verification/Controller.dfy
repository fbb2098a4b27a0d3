/** The reconciler (pkg/controller/inferenceservice_controller.go), step by step against the API
    server, proved to make only the moves that the convergence theory allows. */
module Controller {
  import opened Api
  import opened Text
  import opened Status
  import opened Conditions
  import opened Scheduling
  import opened Workload
  import opened Router
  import opened PodGroupFacts
  import opened Convergence
  import opened Planning
  import opened PassProgress
  import opened Observation
  import opened Cluster

  class Reconciler {
    const env: Env
    const server: ApiServer
    /** About the last pass that found its service: its calls on owned objects, its error, and the
        number of the call at which the status phase began. */
    ghost var applied: seq<Entry>
    ghost var failure: Option<string>
    ghost var statusBase: nat

    constructor (env: Env, server: ApiServer)
      ensures this.env == env && this.server == server
    {
      this.env, this.server := env, server;
      applied, failure, statusBase := [], None, 0;
    }

    /** No call numbered from a up to b fails. */
    ghost predicate Quiet(a: nat, b: nat) {
      forall c | a <= c < b :: server.faults(c).NoFault?
    }

    lemma QuietJoins(a: nat, b: nat, c: nat)
      requires a <= b <= c
      ensures Quiet(a, c) <==> Quiet(a, b) && Quiet(b, c)
    {
    }

    lemma OneCall(a: nat)
      ensures Quiet(a, a + 1) <==> server.faults(a).NoFault?
    {
    }

    /** An ongoing pass whose calls have all succeeded so far. */
    ghost predicate Going(p: Plan, s0: Store)
      reads server
    {
      InPass(p, s0, server.log, server.store) && AllOk(server.log)
    }

    /** The pass after some more calls, the last of which failed unless ok. */
    ghost predicate Went(p: Plan, s0: Store, before: Store, calls: nat, ok: bool)
      reads server
    {
      && InPass(p, s0, server.log, server.store)
      && Progress(p, before, server.store)
      && (ok <==> AllOk(server.log))
      && calls <= server.calls && (ok <==> Quiet(calls, server.calls))
    }

    method ReadObject(ghost p: Plan, ghost s0: Store, k: Key) returns (r: GetResult)
      requires Going(p, s0)
      modifies server`calls, server`log
      ensures Went(p, s0, old(server.store), old(server.calls), !r.GetFailed?)
      ensures r.GetFailed? || r == Peek(server.store, server.lwsStatus, k)
    {
      ghost var log0 := server.log;
      r := server.Get(k);
      LogMove(p, s0, log0, server.log[|log0|], server.store);
    }

    method CreateObject(ghost p: Plan, ghost s0: Store, k: Key, desired: Obj) returns (err: Option<string>)
      requires Going(p, s0)
      requires k in p.desired && p.desired[k] == desired && k !in server.store
      requires k.kind.LwsKind? ==> GangReady(p, server.store)
      modifies server`store, server`lwsStatus, server`calls, server`log
      ensures Went(p, s0, old(server.store), old(server.calls), err.None?)
      ensures server.store == Settle(p, old(server.store), k) || (server.store == old(server.store) && err.Some?)
    {
      ghost var log0, store0 := server.log, server.store;
      err := server.Create(k, desired);
      LogInstall(p, s0, log0, k, store0, err.None?, server.store, server.log);
      OneCall(old(server.calls));
    }

    method UpdateObject(ghost p: Plan, ghost s0: Store, k: Key, updated: Obj) returns (err: Option<string>)
      requires Going(p, s0)
      requires NeedsWrite(p, server.store, k) && k in server.store && updated == Written(p, server.store, k)
      requires k.kind.LwsKind? ==> GangReady(p, server.store)
      modifies server`store, server`calls, server`log
      ensures Went(p, s0, old(server.store), old(server.calls), err.None?)
      ensures server.store == Settle(p, old(server.store), k) || (server.store == old(server.store) && err.Some?)
    {
      ghost var log0, store0 := server.log, server.store;
      err := server.Update(k, updated);
      LogInstall(p, s0, log0, k, store0, err.None?, server.store, server.log);
      OneCall(old(server.calls));
    }

    method DeleteOrphan(ghost p: Plan, ghost s0: Store, k: Key) returns (r: DeleteResult)
      requires Going(p, s0)
      requires IsOrphan(p, server.store, k) && GangReady(p, server.store)
      modifies server`store, server`lwsStatus, server`calls, server`log
      ensures Went(p, s0, old(server.store), old(server.calls), r.Deleted?)
      ensures r.Deleted? || r.DeleteFailed?
      ensures r.Deleted? ==> server.store == old(server.store) - {k}
    {
      ghost var log0, store0 := server.log, server.store;
      assert k in store0;
      r := server.Delete(k);
      LogDelete(p, s0, log0, k, store0, r.Deleted?, server.store, server.log);
      OneCall(old(server.calls));
    }

    /** The one shape of all get/create/update-if-the-hash-differs helpers. */
    method Ensure(ghost p: Plan, ghost s0: Store, k: Key, desired: Obj) returns (err: Option<string>)
      requires Going(p, s0)
      requires k in p.desired && p.desired[k] == desired
      requires k.kind.LwsKind? ==> GangReady(p, server.store)
      modifies server`store, server`lwsStatus, server`calls, server`log
      ensures Went(p, s0, old(server.store), old(server.calls), err.None?)
      ensures err.None? ==> k !in Unsettled(p, server.store)
      ensures server.store == old(server.store) || server.store == Settle(p, old(server.store), k)
    {
      NotAnOrphan(p, server.store, k);
      var existing := ReadObject(p, s0, k);
      ghost var store1, calls1 := server.store, server.calls;
      match existing {
        case NotFound =>
          err := CreateObject(p, s0, k, desired);
        case GetFailed =>
          err := Some(API_ERROR);
        case Found(o, _) =>
          if !k.kind.ServiceAccountKind? && SpecHash(o) != SpecHash(desired) {
            err := UpdateObject(p, s0, k, Obj(desired.labels, Merge(o.payload, desired.payload)));
          } else {
            err := None;
          }
      }
      ProgressJoins(p, old(server.store), store1, server.store);
      QuietJoins(old(server.calls), calls1, server.calls);
      NotAnOrphan(p, server.store, k);
    }

    /** Nothing to do without gang scheduling; otherwise the one PodGroup. */
    method ReconcilePodGroup(ghost p: Plan, ghost s0: Store, svc: InferenceService) returns (err: Option<string>)
      requires GangPlanned(p, env, svc)
      requires Going(p, s0)
      modifies server`store, server`lwsStatus, server`calls, server`log
      ensures Went(p, s0, old(server.store), old(server.calls), err.None?)
      ensures err.None? ==> GangReady(p, server.store)
    {
      var needed := NeedsGangScheduling(svc);
      if !needed {
        return None;
      }
      var pg := BuildPodGroup(env, svc);
      err := Ensure(p, s0, PodGroupKey(svc), pg);
    }

    /** Replica i of a role: build its set and create or update it. */
    method ReconcileReplica(ghost p: Plan, ghost s0: Store, svc: InferenceService, role: Role, needsGang: bool, i: nat)
      returns (name: string, err: Option<string>)
      requires Buildable(role) && RolePlanned(p, env, svc, role) && i < Instances(role)
      requires needsGang == NeedsGangForRole(PDDisaggregated(svc.roles), role)
      requires Going(p, s0) && GangReady(p, server.store)
      modifies server`store, server`lwsStatus, server`calls, server`log
      ensures Went(p, s0, old(server.store), old(server.calls), err.None?)
      ensures name == LwsName(svc.name, role.name, Some(i))
      ensures err.None? ==> LwsKey(svc, role.name, i) !in Unsettled(p, server.store)
    {
      assert ReplicaPlanned(p, env, svc, role, i);
      var cfg := LwsConfig("", "", needsGang, Some(i));
      if needsGang {
        cfg := cfg.(podGroupName := PodGroupName(svc.name));
        cfg := cfg.(taskName := TaskName(role.name, i));
      }
      assert cfg == ConfigOf(svc, role, i);
      var lws := BuildLWS(env, svc, role, cfg);
      name := lws.name;
      err := Ensure(p, s0, Key(LwsKind, lws.ns, lws.name), lws.Object());
    }

    /** The body of the replica loop, since it began with store start and call number calls. */
    method ReconcileNext(ghost p: Plan, ghost s0: Store, svc: InferenceService, role: Role, needsGang: bool, i: nat,
                         ghost start: Store, ghost calls: nat)
      returns (name: string, err: Option<string>)
      requires Buildable(role) && RolePlanned(p, env, svc, role) && i < Instances(role)
      requires needsGang == NeedsGangForRole(PDDisaggregated(svc.roles), role)
      requires Went(p, s0, start, calls, true) && Replicated(p, svc, role.name, i, server.store)
      modifies server`store, server`lwsStatus, server`calls, server`log
      ensures Went(p, s0, start, calls, err.None?) && name == LwsName(svc.name, role.name, Some(i))
      ensures err.None? ==> Replicated(p, svc, role.name, i + 1, server.store)
    {
      ghost var before, calls1 := server.store, server.calls;
      name, err := ReconcileReplica(p, s0, svc, role, needsGang, i);
      ReplicatedOneMore(p, svc, role.name, i, start, before, server.store);
      QuietJoins(calls, calls1, server.calls);
    }

    /** One LeaderWorkerSet per replica. */
    method ReconcileReplicas(ghost p: Plan, ghost s0: Store, svc: InferenceService, role: Role)
      returns (desiredNames: set<string>, err: Option<string>)
      requires Buildable(role) && RolePlanned(p, env, svc, role)
      requires Going(p, s0) && GangReady(p, server.store)
      modifies server`store, server`lwsStatus, server`calls, server`log
      ensures Went(p, s0, old(server.store), old(server.calls), err.None?)
      ensures err.None? ==> desiredNames == RoleNames(svc, role.name, Instances(role))
      ensures err.None? ==> Replicated(p, svc, role.name, Instances(role), server.store)
    {
      var replicas: int := GetReplicaCount(role);
      var pd := IsPDDisaggregated(svc);
      var needsGang := NeedsGangForRole(pd, role);
      desiredNames, err := {}, None;
      var i: int := 0;
      while i < replicas
        invariant 0 <= i <= Instances(role)
        invariant desiredNames == RoleNames(svc, role.name, i)
        invariant err.None? && Went(p, s0, old(server.store), old(server.calls), true)
        invariant Replicated(p, svc, role.name, i, server.store)
      {
        var name: string;
        name, err := ReconcileNext(p, s0, svc, role, needsGang, i, old(server.store), old(server.calls));
        desiredNames := desiredNames + {name};
        if err.Some? {
          return;
        }
        i := i + 1;
      }
      assert i == Instances(role);
    }

    /** The replicas, then the cleanup of the sets beyond the replica count. */
    method ReconcileLWS(ghost p: Plan, ghost s0: Store, svc: InferenceService, role: Role) returns (err: Option<string>)
      requires Buildable(role) && RolePlanned(p, env, svc, role)
      requires Going(p, s0) && GangReady(p, server.store)
      modifies server`store, server`lwsStatus, server`calls, server`log
      ensures Went(p, s0, old(server.store), old(server.calls), err.None?)
      ensures err.None? ==> RoleDone(p, svc, role, server.store)
    {
      var desiredNames: set<string>;
      desiredNames, err := ReconcileReplicas(p, s0, svc, role);
      if err.Some? {
        return;
      }
      ghost var before, calls1 := server.store, server.calls;
      err := CleanupOrphanLWS(p, s0, svc, role, desiredNames);
      ReplicasStayDone(p, svc, role.name, Instances(role), before, server.store);
      ProgressJoins(p, old(server.store), before, server.store);
      QuietJoins(old(server.calls), calls1, server.calls);
    }

    method CleanupOrphanLWS(ghost p: Plan, ghost s0: Store, svc: InferenceService, role: Role, desiredNames: set<string>)
      returns (err: Option<string>)
      requires p.ns == svc.ns && p.service == svc.name
      requires role.name in p.roleLws && p.roleLws[role.name] == desiredNames
      requires Going(p, s0) && GangReady(p, server.store)
      modifies server`store, server`lwsStatus, server`calls, server`log
      ensures Went(p, s0, old(server.store), old(server.calls), err.None?)
      ensures err.None? ==> OrphanFree(p, server.store, role.name)
    {
      ghost var log0 := server.log;
      var list := server.ListLws(svc.ns, svc.name, role.name);
      LogMove(p, s0, log0, server.log[|log0|], server.store);
      if list.ListFailed? {
        return Some("failed to list LWS for cleanup");
      }
      var keys := list.keys;
      AllListed(p, server.store, role.name, keys);
      err := None;
      for n := 0 to |keys|
        invariant err.None? && Went(p, s0, old(server.store), old(server.calls), true)
        invariant GangReady(p, server.store)
        invariant LeftToCheck(p, server.store, role.name, desiredNames, keys, n)
      {
        var k := keys[n];
        ghost var before, calls1 := server.store, server.calls;
        if k.name !in desiredNames {
          ListedIsOrphan(p, before, role.name, keys, n);
          var r := DeleteOrphan(p, s0, k);
          GangStaysReady(p, before, server.store);
          ProgressJoins(p, old(server.store), before, server.store);
          QuietJoins(old(server.calls), calls1, server.calls);
          match r {
            case DeleteFailed => return Some("failed to delete orphan LWS " + k.name);
            case _ =>
          }
        }
        OneChecked(p, before, role.name, desiredNames, keys, n, server.store);
      }
      AllChecked(p, server.store, role.name, keys);
    }

    /** One of the eight router helpers. */
    method ReconcileRouterObject(ghost p: Plan, ghost s0: Store, svc: InferenceService, role: Role, workerRoles: seq<Role>,
                                 kind: Kind, ghost done: set<Kind>)
      returns (err: Option<string>)
      requires RouterPlanned(p, env, svc, role, workerRoles) && IsRouterKind(kind)
      requires Going(p, s0) && KindsDone(p, svc, done, server.store)
      modifies server`store, server`lwsStatus, server`calls, server`log
      ensures Went(p, s0, old(server.store), old(server.calls), err.None?)
      ensures err.None? ==> KindsDone(p, svc, done + {kind}, server.store)
    {
      ghost var before := server.store;
      err := Ensure(p, s0, RouterKey(svc, kind), RouterObj(env, svc, role, workerRoles, kind));
      if err.Some? {
        return Some("failed to reconcile EPP: " + err.value);
      }
      KindsStayDone(p, svc, done, before, server.store);
    }

    /** The eight router objects in order, up to the first failure. */
    method ReconcileRouter(ghost p: Plan, ghost s0: Store, svc: InferenceService, role: Role, workerRoles: seq<Role>)
      returns (err: Option<string>)
      requires RouterPlanned(p, env, svc, role, workerRoles)
      requires Going(p, s0)
      modifies server`store, server`lwsStatus, server`calls, server`log
      ensures Went(p, s0, old(server.store), old(server.calls), err.None?)
      ensures err.None? ==> KindsDone(p, svc, RouterKinds(), server.store)
    {
      err := ReconcileRouterAccess(p, s0, svc, role, workerRoles);
      if err.Some? {
        return;
      }
      ghost var s1, calls1 := server.store, server.calls;
      ghost var done := {ServiceAccountKind, RoleKind, RoleBindingKind, ConfigMapKind};
      err := ReconcileRouterObject(p, s0, svc, role, workerRoles, DeploymentKind, done);
      ProgressJoins(p, old(server.store), s1, server.store);
      QuietJoins(old(server.calls), calls1, server.calls);
      if err.Some? {
        return;
      }
      ghost var s2, calls2 := server.store, server.calls;
      done := done + {DeploymentKind};
      err := ReconcileRouterObject(p, s0, svc, role, workerRoles, ServiceKind, done);
      ProgressJoins(p, old(server.store), s2, server.store);
      QuietJoins(old(server.calls), calls2, server.calls);
      if err.Some? {
        return;
      }
      ghost var s3, calls3 := server.store, server.calls;
      done := done + {ServiceKind};
      err := ReconcileRouterObject(p, s0, svc, role, workerRoles, InferencePoolKind, done);
      ProgressJoins(p, old(server.store), s3, server.store);
      QuietJoins(old(server.calls), calls3, server.calls);
      if err.Some? {
        return;
      }
      ghost var s4, calls4 := server.store, server.calls;
      done := done + {InferencePoolKind};
      err := ReconcileRouterObject(p, s0, svc, role, workerRoles, HttpRouteKind, done);
      ProgressJoins(p, old(server.store), s4, server.store);
      QuietJoins(old(server.calls), calls4, server.calls);
    }

    /** The body of the router loop, since it began with store start and call number calls. */
    method ReconcileRouterRole(ghost p: Plan, ghost s0: Store, svc: InferenceService, role: Role, workerRoles: seq<Role>,
                               ghost start: Store, ghost calls: nat)
      returns (err: Option<string>)
      requires RouterPlanned(p, env, svc, role, workerRoles)
      requires Went(p, s0, start, calls, true)
      modifies server`store, server`lwsStatus, server`calls, server`log
      ensures Went(p, s0, start, calls, err.None?)
      ensures err.None? ==> RouterDone(p, svc, server.store)
    {
      ghost var before, calls1 := server.store, server.calls;
      err := ReconcileRouter(p, s0, svc, role, workerRoles);
      ProgressJoins(p, start, before, server.store);
      QuietJoins(calls, calls1, server.calls);
      if err.None? {
        AllKindsDone(p, svc, server.store);
      }
    }

    /** The first four of them: identity, permissions and configuration of the endpoint picker. */
    method ReconcileRouterAccess(ghost p: Plan, ghost s0: Store, svc: InferenceService, role: Role, workerRoles: seq<Role>)
      returns (err: Option<string>)
      requires RouterPlanned(p, env, svc, role, workerRoles)
      requires Going(p, s0)
      modifies server`store, server`lwsStatus, server`calls, server`log
      ensures Went(p, s0, old(server.store), old(server.calls), err.None?)
      ensures err.None? ==> KindsDone(p, svc, {ServiceAccountKind, RoleKind, RoleBindingKind, ConfigMapKind}, server.store)
    {
      err := ReconcileRouterObject(p, s0, svc, role, workerRoles, ServiceAccountKind, {});
      if err.Some? {
        return;
      }
      ghost var s1, calls1 := server.store, server.calls;
      err := ReconcileRouterObject(p, s0, svc, role, workerRoles, RoleKind, {ServiceAccountKind});
      ProgressJoins(p, old(server.store), s1, server.store);
      QuietJoins(old(server.calls), calls1, server.calls);
      if err.Some? {
        return;
      }
      ghost var s2, calls2 := server.store, server.calls;
      err := ReconcileRouterObject(p, s0, svc, role, workerRoles, RoleBindingKind, {ServiceAccountKind, RoleKind});
      ProgressJoins(p, old(server.store), s2, server.store);
      QuietJoins(old(server.calls), calls2, server.calls);
      if err.Some? {
        return;
      }
      ghost var s3, calls3 := server.store, server.calls;
      err := ReconcileRouterObject(p, s0, svc, role, workerRoles, ConfigMapKind, {ServiceAccountKind, RoleKind, RoleBindingKind});
      ProgressJoins(p, old(server.store), s3, server.store);
      QuietJoins(old(server.calls), calls3, server.calls);
    }

    /** The first role loop: every workload role, up to the first failure. */
    method ReconcileRoles(ghost p: Plan, ghost s0: Store, svc: InferenceService)
      returns (workerRoles: seq<Role>, err: Option<string>)
      requires AllBuildable(svc.roles)
      requires forall role | role in svc.roles && role.IsWorkload() :: RolePlanned(p, env, svc, role)
      requires Going(p, s0) && GangReady(p, server.store)
      modifies server`store, server`lwsStatus, server`calls, server`log
      ensures Went(p, s0, old(server.store), old(server.calls), err.None?)
      ensures err.None? ==> workerRoles == WorkloadRoles(svc.roles)
      ensures err.None? ==> GangReady(p, server.store) && RolesDone(p, svc, |svc.roles|, server.store)
    {
      workerRoles, err := [], None;
      for n := 0 to |svc.roles|
        invariant err.None? && Went(p, s0, old(server.store), old(server.calls), true)
        invariant workerRoles == WorkloadRoles(svc.roles[..n])
        invariant GangReady(p, server.store) && RolesDone(p, svc, n, server.store)
      {
        var role := svc.roles[n];
        WorkloadStep(svc.roles, n);
        match role.componentType {
          case Router =>
          case _ =>
            ghost var before, calls1 := server.store, server.calls;
            workerRoles := workerRoles + [role];
            err := ReconcileLWS(p, s0, svc, role);
            ProgressJoins(p, old(server.store), before, server.store);
            QuietJoins(old(server.calls), calls1, server.calls);
            if err.Some? {
              return;
            }
            GangStaysReady(p, before, server.store);
            RolesStayDone(p, svc, n, before, server.store);
        }
        NextRoleDone(p, svc, n, server.store);
      }
      assert svc.roles[..|svc.roles|] == svc.roles;
    }

    /** Steps 3 to 6 of `Reconcile`: the PodGroup, then every workload role, then the router. */
    method ReconcileOwned(ghost p: Plan, ghost s0: Store, svc: InferenceService) returns (err: Option<string>)
      requires AllBuildable(svc.roles) && Planned(p, env, svc)
      requires Going(p, s0)
      modifies server`store, server`lwsStatus, server`calls, server`log
      ensures Went(p, s0, old(server.store), old(server.calls), err.None?)
      ensures err.None? ==> AllDone(p, svc, server.store)
    {
      err := ReconcilePodGroup(p, s0, svc);
      if err.None? {
        ghost var s1, calls1 := server.store, server.calls;
        var workerRoles: seq<Role>;
        workerRoles, err := ReconcileRoles(p, s0, svc);
        ProgressJoins(p, old(server.store), s1, server.store);
        QuietJoins(old(server.calls), calls1, server.calls);
        if err.None? {
          ghost var s2, calls2 := server.store, server.calls;
          err := ReconcileRouters(p, s0, svc, workerRoles);
          ProgressJoins(p, old(server.store), s2, server.store);
          QuietJoins(old(server.calls), calls2, server.calls);
          GangStaysReady(p, s2, server.store);
          RolesStayDone(p, svc, |svc.roles|, s2, server.store);
        }
      }
    }

    /** The second role loop: the router role, if any. */
    method ReconcileRouters(ghost p: Plan, ghost s0: Store, svc: InferenceService, workerRoles: seq<Role>)
      returns (err: Option<string>)
      requires forall role | role in svc.roles && role.componentType.Router? :: RouterPlanned(p, env, svc, role, workerRoles)
      requires Going(p, s0)
      modifies server`store, server`lwsStatus, server`calls, server`log
      ensures Went(p, s0, old(server.store), old(server.calls), err.None?)
      ensures err.None? && HasRouter(svc.roles) ==> RouterDone(p, svc, server.store)
    {
      err := None;
      ghost var seen := false;
      for n := 0 to |svc.roles|
        invariant err.None? && Went(p, s0, old(server.store), old(server.calls), true)
        invariant seen ==> RouterDone(p, svc, server.store)
        invariant !seen ==> forall m | 0 <= m < n :: !svc.roles[m].componentType.Router?
      {
        var role := svc.roles[n];
        if role.componentType.Router? {
          err := ReconcileRouterRole(p, s0, svc, role, workerRoles, old(server.store), old(server.calls));
          if err.Some? {
            return;
          }
          seen := true;
        }
      }
    }

    /** What a status phase sees when it begins with this call. */
    ghost function ViewFrom(base: nat): View
      reads server`store, server`lwsStatus
    {
      View(server.faults, base, server.store, server.lwsStatus)
    }

    /** One get of the status phase. */
    method ReadReplica(ghost v: View, svc: InferenceService, roleName: string, i: nat) returns (o: Reading)
      requires v == ViewFrom(v.base)
      modifies server`calls, server`log
      ensures server.calls == old(server.calls) + 1
      ensures o == ReadingOf(v, old(server.calls), LwsKey(svc, roleName, i))
    {
      var r := server.Get(LwsKey(svc, roleName, i));
      o := Observed(r);
    }

    /** What the aggregation loop does with a reading. */
    method CountReading(o: Reading, pods: Reading -> int, t: Tally) returns (t': Tally)
      ensures t' == Counted(t, o, pods)
    {
      var readyReplicas, totalReadyPods, anyRunning, allPending := t.readyReplicas, t.totalReadyPods, t.anyRunning, t.allPending;
      if o.Some? {
        if o.value.readyReplicas >= 1 {
          readyReplicas := readyReplicas + 1;
          anyRunning := true;
        }
        if o.value.replicas > 0 {
          allPending := false;
        }
        totalReadyPods := Wrap32(totalReadyPods + Wrap32(pods(o)));
      }
      t' := Tally(readyReplicas, totalReadyPods, anyRunning, allPending);
    }

    /** The body of the aggregation loop, for replica i. */
    method ReadNext(ghost v: View, ghost call: nat, svc: InferenceService, roleName: string, i: nat, pods: Reading -> int, t: Tally)
      returns (t': Tally)
      requires v == ViewFrom(v.base) && server.calls == call + i
      requires t == TallyOf(Readings(v, call, svc, roleName, i), pods)
      modifies server`calls, server`log
      ensures server.calls == call + i + 1
      ensures t' == TallyOf(Readings(v, call, svc, roleName, i + 1), pods)
    {
      var o := ReadReplica(v, svc, roleName, i);
      NextTally(v, call, svc, roleName, i, pods, o, t);
      t' := CountReading(o, pods, t);
    }

    /** The loop: reads the sets 0 to desired - 1; a failed or empty get is skipped. */
    method ReadReplicas(ghost v: View, svc: InferenceService, role: Role) returns (t: Tally)
      requires v == ViewFrom(v.base)
      modifies server`calls, server`log
      ensures server.calls == old(server.calls) + Instances(role)
      ensures t == TallyOf(Readings(v, old(server.calls), svc, role.name, Instances(role)), PodsPer(GetNodeCount(role)))
    {
      var desired: int := GetReplicaCount(role);
      var pods := PodsPer(GetNodeCount(role));
      t := Tally(0, 0, false, true);
      var i: int := 0;
      while i < desired
        invariant 0 <= i <= Instances(role) && server.calls == old(server.calls) + i
        invariant t == TallyOf(Readings(v, old(server.calls), svc, role.name, i), pods)
      {
        t := ReadNext(v, old(server.calls), svc, role.name, i, pods, t);
        i := i + 1;
      }
    }

    /** `aggregateLWSStatus`: the loop, then the phase. */
    method AggregateLwsStatus(ghost v: View, svc: InferenceService, role: Role) returns (c: ComponentStatus)
      requires v == ViewFrom(v.base)
      modifies server`calls, server`log
      ensures server.calls == old(server.calls) + Instances(role)
      ensures c == AggregateOf(v, old(server.calls), svc, role)
    {
      var t := ReadReplicas(v, svc, role);
      AllTallied(v, old(server.calls), svc, role, t);
      c := ComponentStatus(0, Wrap32(t.readyReplicas), 0, 0, t.totalReadyPods,
                           PhaseOf(t.readyReplicas, GetReplicaCount(role), t.anyRunning, t.allPending));
    }

    /** The component status of one workload role. */
    method UpdateComponent(ghost v: View, svc: InferenceService, role: Role) returns (c: ComponentStatus)
      requires v == ViewFrom(v.base)
      modifies server`calls, server`log
      ensures server.calls == old(server.calls) + Instances(role)
      ensures c == StatusFrom(v, svc)(old(server.calls), role)
    {
      ghost var call := server.calls;
      var status := AggregateLwsStatus(v, svc, role);
      SizedAggregate(v, call, svc, role, status);
      c := status.(nodesPerReplica := GetNodeCount(role), desiredReplicas := GetReplicaCount(role),
                   totalPods := Wrap32(GetReplicaCount(role) as int * GetNodeCount(role) as int));
    }

    method UpdateComponentStatusInMemory(ghost v: View, obj: ServiceObject)
      requires v == ViewFrom(server.calls)
      modifies server`calls, server`log, obj`components
      ensures obj.components == ComponentsOf(v, obj.svc)
      ensures server.calls == v.base + CallsFor(obj.svc.roles)
    {
      var svc := obj.svc;
      ghost var f := StatusFrom(v, svc);
      var components: map<string, ComponentStatus> := map[];
      for n := 0 to |svc.roles|
        invariant Gathered(f, v.base, svc.roles, n, server.calls, components)
      {
        var role := svc.roles[n];
        if role.componentType.Router? {
          PassRouter(f, v.base, svc.roles, n, server.calls, components);
        } else {
          ghost var call := server.calls;
          var status := UpdateComponent(v, svc, role);
          NextRole(f, v.base, svc.roles, n, call, components, status);
          components := components[role.name := status];
        }
      }
      AllGathered(f, v.base, svc.roles, server.calls, components);
      obj.components := components;
    }

    method SetFinalCondition(obj: ServiceObject, reconcileErr: Option<string>)
      modifies obj`conditions, obj`observedGeneration
      ensures obj.conditions == Upsert(old(obj.conditions), FinalCondition(reconcileErr, obj.components))
      ensures obj.observedGeneration == obj.svc.generation
    {
      if reconcileErr.Some? {
        obj.SetFailedCondition(reconcileErr.value);
      } else if AllComponentsReady(obj.components) {
        obj.SetActiveCondition();
      } else {
        obj.SetProcessingCondition();
      }
    }

    /** Steps 3 to 6 of `Reconcile` for the plan of this version of the service. */
    method ReconcilePlan(svc: InferenceService) returns (err: Option<string>)
      requires Admissible(svc) && Named(svc.ns, svc.name, server.store)
      modifies server`store, server`lwsStatus, server`calls, server`log
      ensures PassKept(env, svc, old(server.store), server.log, server.store) && Named(svc.ns, svc.name, server.store)
      ensures err.None? <==> AllOk(server.log)
      ensures old(server.calls) <= server.calls && (err.None? <==> Quiet(old(server.calls), server.calls))
    {
      server.log := [];
      ghost var p, s0 := PlanOf(env, svc), server.store;
      PassBegins(env, svc, s0);
      err := ReconcileOwned(p, s0, svc);
      PassEnds(env, svc, s0, server.log, server.store);
    }

    /** Steps 7 to 9: component statuses, the final condition, the single status write. */
    method WriteStatus(ghost v: View, ns: string, name: string, obj: ServiceObject, reconcileErr: Option<string>, ghost stored: StoredService)
      returns (err: Option<string>)
      requires v == ViewFrom(server.calls)
      requires (ns, name) in server.services && server.services[(ns, name)] == stored
      requires obj.svc == stored.svc && obj.conditions == Initialized(stored.status.conditions)
      modifies obj, server`services, server`calls, server`log
      ensures server.services == StatusWritten(v, stored, reconcileErr, (ns, name), old(server.services))
      ensures err.None? <==> reconcileErr.None? && StatusFault(v, stored.svc).NoFault?
      ensures server.calls == v.base + CallsFor(stored.svc.roles) + 1
    {
      UpdateComponentStatusInMemory(v, obj);
      SetFinalCondition(obj, reconcileErr);
      var status := obj.Status();
      assert status == StatusSeen(v, stored, reconcileErr);
      assert server.faults(server.calls) == StatusFault(v, stored.svc);
      err := server.UpdateServiceStatus(ns, name, status);
      if err.None? {
        err := reconcileErr;
      }
    }

    /** Steps 2 to 9, for the service that was fetched. */
    method ReconcileFetched(ns: string, name: string, stored: StoredService) returns (err: Option<string>)
      requires (ns, name) in server.services && server.services[(ns, name)] == stored
      requires stored.svc.ns == ns && stored.svc.name == name
      requires Admissible(stored.svc) && Named(ns, name, server.store)
      modifies server, this`applied, this`failure, this`statusBase
      ensures PassKept(env, stored.svc, old(server.store), applied, server.store) && Named(ns, name, server.store)
      ensures failure.None? <==> AllOk(applied)
      ensures server.services == StatusWritten(ViewFrom(statusBase), stored, failure, (ns, name), old(server.services))
      ensures err.None? <==> failure.None? && StatusFault(ViewFrom(statusBase), stored.svc).NoFault?
      ensures old(server.calls) <= statusBase && server.calls == statusBase + CallsFor(stored.svc.roles) + 1
      ensures failure.None? <==> Quiet(old(server.calls), statusBase)
    {
      var obj := new ServiceObject(stored.svc, stored.status);
      if |obj.conditions| == 0 {
        obj.SetInitCondition();
      }
      var reconcileErr := ReconcilePlan(stored.svc);
      applied, failure, statusBase := server.log, reconcileErr, server.calls;
      err := WriteStatus(ViewFrom(statusBase), ns, name, obj, reconcileErr, stored);
    }

    /** `Reconcile`, from the fetch to the single status write. A pass that does not fetch its service
        changes nothing. One that does keeps every promise of PassKept, reports its first failed call on
        owned objects, and writes the status it saw; it succeeds exactly if neither a call on owned
        objects nor the status write failed, and then the stored Active condition is true exactly if
        every set was seen ready. */
    method Reconcile(ns: string, name: string) returns (err: Option<string>)
      requires (ns, name) in server.services ==>
                 var svc := server.services[(ns, name)].svc;
                 svc.ns == ns && svc.name == name && Admissible(svc) && Named(ns, name, server.store)
      modifies server, this`applied, this`failure, this`statusBase
      ensures !Fetched(ns, name, old(server.services), old(server.calls)) ==>
                && server.store == old(server.store) && server.services == old(server.services)
                && (err.None? <==> server.faults(old(server.calls)).NoFault?)
      ensures Fetched(ns, name, old(server.services), old(server.calls)) ==>
                var stored, v := old(server.services)[(ns, name)], ViewFrom(statusBase);
                && PassKept(env, stored.svc, old(server.store), applied, server.store) && Named(ns, name, server.store)
                && (failure.None? <==> AllOk(applied))
                && server.services == StatusWritten(v, stored, failure, (ns, name), old(server.services))
                && (err.None? <==> failure.None? && StatusFault(v, stored.svc).NoFault?)
                && server.calls == statusBase + CallsFor(stored.svc.roles) + 1
                && (err.None? && OnePerType(stored.status.conditions) ==> ActiveWritten(v, stored.svc, (ns, name), server.services))
      ensures old(server.calls) < server.calls && (Quiet(old(server.calls), server.calls) ==> err.None?)
    {
      var fetched := server.GetService(ns, name);
      match fetched {
        case ServiceNotFound => err := None;
        case ServiceFailed => err := Some(API_ERROR);
        case ServiceFound(stored) =>
          ghost var services := server.services;
          err := ReconcileFetched(ns, name, stored);
          if err.None? {
            ActiveIsWritten(ViewFrom(statusBase), stored, failure, (ns, name), services);
          }
      }
    }

    /* ---- the work queue ---- */

    /** Some calls of `Reconcile` for an unchanged version svc of the service: the passes that fetched it,
        and how their status writes saw them, lead from store s0 and status status0 to what is stored. */
    ghost predicate Queued(svc: InferenceService, s0: Store, status0: ServiceStatus, passes: seq<seq<Entry>>, history: seq<StatusPass>)
      reads server
    {
      && Admissible(svc) && Named(svc.ns, svc.name, s0) && Named(svc.ns, svc.name, server.store)
      && Composed(env, svc, s0, passes, server.store)
      && (svc.ns, svc.name) in server.services && server.services[(svc.ns, svc.name)].svc == svc
      && server.services[(svc.ns, svc.name)].status == StatusLeft(status0, history)
      && |history| == |passes| && (forall n | 0 <= n < |passes| :: history[n].error.None? <==> AllOk(passes[n]))
    }

    /** One call, before which the LeaderWorkerSet controller may have reported any status. */
    method ReconcileAgain(svc: InferenceService, statuses: map<Key, LwsStatus>, ghost s0: Store, ghost status0: ServiceStatus,
                          ghost passes: seq<seq<Entry>>, ghost history: seq<StatusPass>)
      returns (err: Option<string>, ghost passes': seq<seq<Entry>>, ghost history': seq<StatusPass>)
      requires Queued(svc, s0, status0, passes, history)
      modifies server, this`applied, this`failure, this`statusBase
      ensures Queued(svc, s0, status0, passes', history')
      ensures err.None? ==> server.store == TargetOf(env, svc, s0)
      ensures old(server.calls) < server.calls && (Quiet(old(server.calls), server.calls) ==> err.None?)
    {
      server.lwsStatus := statuses;
      ghost var services, store := server.services, server.store;
      ghost var fetched := Fetched(svc.ns, svc.name, services, server.calls);
      err := Reconcile(svc.ns, svc.name);
      passes', history' := passes, history;
      if fetched {
        ghost var stored := services[(svc.ns, svc.name)];
        OneMorePass(env, svc, s0, passes, store, applied, server.store);
        StatusFollowsHistory(ViewFrom(statusBase), stored, failure, (svc.ns, svc.name), services, status0, history);
        passes', history' := passes + [applied], history + [PassSeen(ViewFrom(statusBase), stored, failure)];
      }
    }

    /** Any number of calls, which may fail anywhere: whenever the last one returns no error, the owned
        objects are those of the target of the store it all began with, whatever failed before; it
        returns none if none of its API calls fails; and the stored status is that of the history of
        passes. */
    method ReconcileEach(svc: InferenceService, statuses: seq<map<Key, LwsStatus>>)
      returns (err: Option<string>, ghost passes: seq<seq<Entry>>, ghost history: seq<StatusPass>, ghost last: nat)
      requires (svc.ns, svc.name) in server.services && server.services[(svc.ns, svc.name)].svc == svc
      requires Admissible(svc) && Named(svc.ns, svc.name, server.store)
      modifies server, this`applied, this`failure, this`statusBase
      ensures Queued(svc, old(server.store), old(server.services[(svc.ns, svc.name)].status), passes, history)
      ensures statuses != [] && err.None? ==> server.store == TargetOf(env, svc, old(server.store))
      ensures statuses != [] ==> last < server.calls && (Quiet(last, server.calls) ==> err.None?)
    {
      err, passes, history, last := None, [], [], server.calls;
      for n := 0 to |statuses|
        invariant Queued(svc, old(server.store), old(server.services[(svc.ns, svc.name)].status), passes, history)
        invariant n > 0 && err.None? ==> server.store == TargetOf(env, svc, old(server.store))
        invariant n > 0 ==> last < server.calls && (Quiet(last, server.calls) ==> err.None?)
      {
        last := server.calls;
        err, passes, history := ReconcileAgain(svc, statuses[n], old(server.store),
                                               old(server.services[(svc.ns, svc.name)].status), passes, history);
      }
    }

    ghost predicate Fetched(ns: string, name: string, services: map<(string, string), StoredService>, call: nat) {
      server.faults(call).NoFault? && (ns, name) in services
    }
  }
}
