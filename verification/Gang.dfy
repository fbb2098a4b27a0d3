/** Results that join the two independent builders: the PodGroup and the LeaderWorkerSets agree
    after an error-free pass, and never disagree dangerously in the middle of a failing one. */
module Gang {
  import opened Api
  import opened Text
  import opened Scheduling
  import opened Workload
  import opened Router
  import opened PodGroupFacts
  import opened Convergence
  import opened Planning

  /* ---- what an error-free pass installs ---- */

  /** The parts an update does not rewrite are already those of this service. */
  predicate SelectorsKept(svc: InferenceService, s: Store) {
    && (var k := RouterKey(svc, DeploymentKind);
        k in s && s[k].payload.DeploymentPayload? ==> s[k].payload.selector == AppLabels(svc))
    && (var k := RouterKey(svc, ServiceKind);
        k in s && s[k].payload.ServicePayload? ==> s[k].payload.serviceType == "ClusterIP")
  }

  lemma RouterMergeable(env: Env, svc: InferenceService, role: Role, workerRoles: seq<Role>, kind: Kind, s: Store)
    requires SelectorsKept(svc, s) && IsRouterKind(kind) && RouterKey(svc, kind) in s
    ensures var d := RouterObj(env, svc, role, workerRoles, kind).payload;
            Merge(s[RouterKey(svc, kind)].payload, d) == d
  {
  }

  lemma SelectorsMakeMergeable(env: Env, svc: InferenceService, s: Store, k: Key)
    requires AllBuildable(svc.roles) && SelectorsKept(svc, s) && k in PlanOf(env, svc).desired
    ensures Mergeable(PlanOf(env, svc), s, k)
  {
    PlanSpec(env, svc, k);
    if k.kind.LwsKind? {
      DesiredPayload(env, svc, svc.roles, k);
    } else if IsRouterKind(k.kind) && k in s {
      RouterMergeable(env, svc, RouterOf(svc.roles), WorkloadRoles(svc.roles), k.kind, s);
    }
  }

  lemma {:induction false} DesiredPayload(env: Env, svc: InferenceService, roles: seq<Role>, k: Key)
    requires AllBuildable(roles) && k in DesiredLws(env, svc, roles)
    ensures DesiredLws(env, svc, roles)[k].payload.LwsPayload?
  {
    var init, last := roles[..|roles| - 1], roles[|roles| - 1];
    if last.IsWorkload() && k in RoleLws(env, svc, last, Instances(last)) {
      RolePayloads(env, svc, last, Instances(last), k);
    } else {
      DesiredPayload(env, svc, init, k);
    }
  }

  lemma {:induction false} RolePayloads(env: Env, svc: InferenceService, role: Role, n: nat, k: Key)
    requires Buildable(role) && k in RoleLws(env, svc, role, n)
    ensures RoleLws(env, svc, role, n)[k].payload.LwsPayload?
  {
    if k != LwsKey(svc, role.name, n - 1) {
      RolePayloads(env, svc, role, n - 1, k);
    }
  }

  /** Updates rewrite all of a LeaderWorkerSet and all of a PodGroup. */
  lemma WhollyRewritten(env: Env, svc: InferenceService, s: Store, k: Key)
    requires AllBuildable(svc.roles) && k in PlanOf(env, svc).desired && (k.kind.LwsKind? || k.kind.PodGroupKind?)
    ensures Mergeable(PlanOf(env, svc), s, k)
  {
    PlanSpec(env, svc, k);
    if k.kind.LwsKind? {
      DesiredPayload(env, svc, svc.roles, k);
    }
  }

  ghost predicate CleanPass(env: Env, svc: InferenceService, s0: Store, log: seq<Entry>)
    requires AllBuildable(svc.roles)
  {
    PassLog(PlanOf(env, svc), s0, log) && AllOk(log)
  }

  /** After an error-free pass a desired object is stored exactly as built, if and only if it did not
      collide and an update could install it; the selectors that updates keep make that so. */
  lemma CleanPassInstalls(env: Env, svc: InferenceService, s0: Store, log: seq<Entry>, k: Key)
    requires Admissible(svc) && Named(svc.ns, svc.name, s0) && CleanPass(env, svc, s0, log)
    requires k in PlanOf(env, svc).desired
    ensures k in Last(s0, log)
    ensures Last(s0, log)[k] == PlanOf(env, svc).desired[k]
            <==> !Collides(PlanOf(env, svc), s0, k) && Mergeable(PlanOf(env, svc), s0, k)
    ensures SelectorsKept(svc, s0) || k.kind.LwsKind? || k.kind.PodGroupKind? ==> Mergeable(PlanOf(env, svc), s0, k)
  {
    PlanApplies(env, svc, s0);
    ConvergesIff(PlanOf(env, svc), s0, log, k);
    if k.kind.LwsKind? || k.kind.PodGroupKind? {
      WhollyRewritten(env, svc, s0, k);
    } else if SelectorsKept(svc, s0) {
      SelectorsMakeMergeable(env, svc, s0, k);
    }
  }

  /* ---- which sets a pass removes ---- */

  predicate HasWorkload(svc: InferenceService, r: string) {
    exists role :: role in svc.roles && role.IsWorkload() && role.name == r
  }

  /** Of the service's sets that are not wanted, an error-free pass deletes those of current workload
      roles; a set of a role that the spec no longer has stays as it is. */
  lemma RemovedRolesStay(env: Env, svc: InferenceService, s0: Store, log: seq<Entry>, k: Key, r: string)
    requires Admissible(svc) && Named(svc.ns, svc.name, s0) && CleanPass(env, svc, s0, log)
    requires MatchesLabels(s0, k, svc.ns, svc.name, r) && k !in PlanOf(env, svc).desired
    ensures k in Last(s0, log) <==> !HasWorkload(svc, r)
    ensures k in Last(s0, log) ==> Last(s0, log)[k] == s0[k]
  {
    PlanApplies(env, svc, s0);
    NamesByRoleSpec(svc, svc.roles, r);
    CleanupIff(PlanOf(env, svc), s0, log, k);
  }

  /* ---- the sets of all roles at once ---- */

  lemma PlannedNames(env: Env, svc: InferenceService, role: Role, k: Key)
    requires Admissible(svc) && role in svc.roles && role.IsWorkload()
    ensures var p := PlanOf(env, svc);
            && role.name in p.roleLws
            && ((k.kind.LwsKind? && k.ns == p.ns && k.name in p.roleLws[role.name])
                <==> exists i: nat :: i < Instances(role) && k == LwsKey(svc, role.name, i))
  {
    NamesByRoleSpec(svc, svc.roles, role.name);
    RoleNamesSpec(svc, role.name, Instances(role), k.name);
    forall i: nat | k == LwsKey(svc, role.name, i)
      ensures k.name == LwsName(svc.name, role.name, Some(i))
    {
    }
    if k.kind.LwsKind? && k.ns == svc.ns {
      forall i: nat | k.name == LwsName(svc.name, role.name, Some(i))
        ensures k == LwsKey(svc, role.name, i)
      {
      }
    }
  }

  /** For every workload role at once: the LeaderWorkerSets labelled (service, role) are exactly
      `service-role-i` for i below the replica count, */
  lemma ServiceRolesCompose(env: Env, svc: InferenceService, s0: Store, log: seq<Entry>, role: Role, k: Key)
    requires Admissible(svc) && Named(svc.ns, svc.name, s0) && CleanPass(env, svc, s0, log)
    requires role in svc.roles && role.IsWorkload() && !Collides(PlanOf(env, svc), s0, k)
    ensures ListedFor(PlanOf(env, svc), Last(s0, log), k, role.name)
            <==> exists i: nat :: i < Instances(role) && k == LwsKey(svc, role.name, i)
  {
    PlanApplies(env, svc, s0);
    PlannedNames(env, svc, role, k);
    if k.kind.LwsKind? {
      if k in PlanOf(env, svc).desired {
        WhollyRewritten(env, svc, s0, k);
      }
      RolesCompose(PlanOf(env, svc), s0, log, role.name, k);
    }
  }

  /** each with the labels and the spec built for its index. */
  lemma ReplicaInstalled(env: Env, svc: InferenceService, s0: Store, log: seq<Entry>, role: Role, i: nat)
    requires Admissible(svc) && Named(svc.ns, svc.name, s0) && CleanPass(env, svc, s0, log)
    requires role in svc.roles && role.IsWorkload() && i < Instances(role)
    requires !Collides(PlanOf(env, svc), s0, LwsKey(svc, role.name, i))
    ensures var k := LwsKey(svc, role.name, i);
            k in Last(s0, log) && Last(s0, log)[k] == ReplicaObj(env, svc, role, i)
  {
    var k := LwsKey(svc, role.name, i);
    DesiredLwsAt(env, svc, svc.roles, role, i);
    PlanSpec(env, svc, k);
    CleanPassInstalls(env, svc, s0, log, k);
  }

  /* ---- a role that is dropped ---- */

  lemma NotDesiredWithoutRole(env: Env, svc: InferenceService, r: string, i: nat)
    requires AllBuildable(svc.roles) && !HasWorkload(svc, r)
    ensures LwsKey(svc, r, i) !in PlanOf(env, svc).desired
  {
    var k := LwsKey(svc, r, i);
    PlanSpec(env, svc, k);
    DesiredLwsKeys(env, svc, svc.roles, k);
    if role, j :| IsReplica(svc, svc.roles, role, j, k) {
      LwsNameInjective(svc.name, r, i, role.name, j);
    }
  }

  /** A set that one version installs outlives every error-free pass of a later version that no longer
      has its role. */
  lemma DroppedSetStays(env: Env, before: InferenceService, after: InferenceService, role: Role, i: nat,
                        s0: Store, log: seq<Entry>, log': seq<Entry>)
    requires Admissible(before) && Named(before.ns, before.name, s0) && CleanPass(env, before, s0, log)
    requires role in before.roles && role.IsWorkload() && i < Instances(role)
    requires !Collides(PlanOf(env, before), s0, LwsKey(before, role.name, i))
    requires Admissible(after) && after.ns == before.ns && after.name == before.name && !HasWorkload(after, role.name)
    requires CleanPass(env, after, Last(s0, log), log')
    ensures var k, s := LwsKey(before, role.name, i), Last(s0, log);
            && k in s && s[k] == ReplicaObj(env, before, role, i)
            && k in Last(s, log') && Last(s, log')[k] == s[k]
  {
    var k, s := LwsKey(before, role.name, i), Last(s0, log);
    ReplicaInstalled(env, before, s0, log, role, i);
    ReplicaLabels(env, before, role, i);
    TraceKeepsNamed(env, before, s0, log);
    NotDesiredWithoutRole(env, after, role.name, i);
    RemovedRolesStay(env, after, s, log', k, role.name);
  }

  /** For instance, of a service that starts with two workers and drops one. */
  const FIRST := Role("a", Worker, "", None, "", None, None, None)
  const SECOND := Role("b", Worker, "", None, "", None, None, None)
  const BOTH := InferenceService("default", "demo", 1, [FIRST, SECOND])
  const DROPPED := InferenceService("default", "demo", 2, [FIRST])

  lemma DemoAdmissible()
    ensures Admissible(BOTH) && Admissible(DROPPED)
    ensures SECOND in BOTH.roles && SECOND.IsWorkload() && Instances(SECOND) == 1 && !HasWorkload(DROPPED, SECOND.name)
  {
  }

  /** From an empty cluster, an error-free pass for both and then one for the first alone: the set of
      the dropped role is still there. */
  lemma DroppedRoleStays(env: Env, both: InferenceService, dropped: InferenceService, log: seq<Entry>, log': seq<Entry>)
    requires both == BOTH && dropped == DROPPED && AllBuildable(both.roles) && AllBuildable(dropped.roles)
    requires CleanPass(env, both, map[], log) && CleanPass(env, dropped, Last(map[], log), log')
    ensures var k, s := LwsKey(both, "b", 0), Last(map[], log);
            k in s && k in Last(s, log') && Last(s, log')[k] == s[k]
  {
    DemoAdmissible();
    DroppedSetStays(env, both, dropped, SECOND, 0, map[], log, log');
  }

  /* ---- gang integrity ---- */

  predicate GroupAnnotated(o: Obj) {
    o.payload.LwsPayload? && ANNOTATION_GROUP_NAME in o.payload.lws.worker.annotations
  }

  /** A gang-annotated LeaderWorkerSet of a current role, carrying task t. */
  ghost predicate CarriesTask(env: Env, svc: InferenceService, s: Store, k: Key, t: string)
    requires AllBuildable(svc.roles)
  {
    && (exists role :: role in svc.roles && role.IsWorkload() && ListedFor(PlanOf(env, svc), s, k, role.name))
    && k in s && GroupAnnotated(s[k])
    && ANNOTATION_TASK_SPEC in s[k].payload.lws.worker.annotations
    && s[k].payload.lws.worker.annotations[ANNOTATION_TASK_SPEC] == t
  }

  /** What BuildLWS writes for replica i agrees with what BuildPodGroup writes for it. */
  lemma ReplicaAnnotations(env: Env, svc: InferenceService, role: Role, i: nat)
    requires Buildable(role) && role.IsWorkload() && svc.name != ""
    ensures var o := ReplicaObj(env, svc, role, i);
            && o.payload.LwsPayload? && o.payload.lws.size == GetNodeCount(role)
            && (GroupAnnotated(o) <==> Gang(PDDisaggregated(svc.roles), role))
            && (GroupAnnotated(o) ==>
                  var a := o.payload.lws.worker.annotations;
                  && a[ANNOTATION_GROUP_NAME] == PodGroupKey(svc).name
                  && ANNOTATION_TASK_SPEC in a && a[ANNOTATION_TASK_SPEC] == TaskName(role.name, i)
                  && (o.payload.lws.leader.Some? ==> o.payload.lws.leader.value.annotations == a))
  {
  }

  /** A set of a current role that an error-free pass leaves is a replica, as built. */
  lemma ListedReplica(env: Env, svc: InferenceService, s0: Store, log: seq<Entry>, k: Key, role: Role) returns (i: nat)
    requires Admissible(svc) && Named(svc.ns, svc.name, s0) && CleanPass(env, svc, s0, log)
    requires role in svc.roles && role.IsWorkload() && !Collides(PlanOf(env, svc), s0, k)
    requires ListedFor(PlanOf(env, svc), Last(s0, log), k, role.name)
    ensures i < Instances(role) && k == LwsKey(svc, role.name, i)
    ensures k in Last(s0, log) && Last(s0, log)[k] == ReplicaObj(env, svc, role, i)
  {
    ServiceRolesCompose(env, svc, s0, log, role, k);
    i :| i < Instances(role) && k == LwsKey(svc, role.name, i);
    ReplicaInstalled(env, svc, s0, log, role, i);
  }

  /** Soundness and completeness of the gang after an error-free pass. Every group-annotated set of a
      current role carries some task; */
  lemma GangTotal(env: Env, svc: InferenceService, s0: Store, log: seq<Entry>, role: Role, k: Key) returns (t: string)
    requires Admissible(svc) && svc.name != "" && Named(svc.ns, svc.name, s0) && CleanPass(env, svc, s0, log)
    requires !Collides(PlanOf(env, svc), s0, k) && role in svc.roles && role.IsWorkload()
    requires ListedFor(PlanOf(env, svc), Last(s0, log), k, role.name) && GroupAnnotated(Last(s0, log)[k])
    ensures CarriesTask(env, svc, Last(s0, log), k, t)
  {
    var i := ListedReplica(env, svc, s0, log, k, role);
    ReplicaAnnotations(env, svc, role, i);
    t := TaskName(role.name, i);
  }

  /** a set that carries task t names the service's PodGroup, and t is a key of that PodGroup whose
      value is the set's size; */
  lemma GangIntegrity(env: Env, svc: InferenceService, s0: Store, log: seq<Entry>, k: Key, t: string)
    requires Admissible(svc) && svc.name != "" && Named(svc.ns, svc.name, s0) && CleanPass(env, svc, s0, log)
    requires !Collides(PlanOf(env, svc), s0, k) && !Collides(PlanOf(env, svc), s0, PodGroupKey(svc))
    requires CarriesTask(env, svc, Last(s0, log), k, t)
    ensures TaskListed(svc, Last(s0, log), k, t)
  {
    var role :| role in svc.roles && role.IsWorkload() && ListedFor(PlanOf(env, svc), Last(s0, log), k, role.name);
    var i := ListedReplica(env, svc, s0, log, k, role);
    ReplicaAnnotations(env, svc, role, i);
    PodGroupInstalled(env, svc, s0, log, role);
    TaskMembersSpec(PDDisaggregated(svc.roles), svc.roles, t);
    assert IsTask(PDDisaggregated(svc.roles), svc.roles, role, i, t);
  }

  /** The set names the PodGroup of its service, which lists task t with the set's size. */
  predicate TaskListed(svc: InferenceService, s: Store, k: Key, t: string)
    requires k in s && GroupAnnotated(s[k])
  {
    var g := PodGroupKey(svc);
    && s[k].payload.lws.worker.annotations[ANNOTATION_GROUP_NAME] == g.name
    && g in s && s[g].payload.PodGroupPayload?
    && t in s[g].payload.podGroup.minTaskMember
    && s[g].payload.podGroup.minTaskMember[t] == s[k].payload.lws.size
  }

  lemma PodGroupInstalled(env: Env, svc: InferenceService, s0: Store, log: seq<Entry>, role: Role)
    requires Admissible(svc) && Named(svc.ns, svc.name, s0) && CleanPass(env, svc, s0, log)
    requires !Collides(PlanOf(env, svc), s0, PodGroupKey(svc))
    requires role in svc.roles && Gang(PDDisaggregated(svc.roles), role)
    ensures PodGroupKey(svc) in Last(s0, log) && Last(s0, log)[PodGroupKey(svc)] == PodGroupObj(env, svc)
  {
    PlanSpec(env, svc, PodGroupKey(svc));
    CleanPassInstalls(env, svc, s0, log, PodGroupKey(svc));
  }

  /** No LeaderWorkerSet of the service collides. */
  ghost predicate SetsFree(env: Env, svc: InferenceService, s: Store)
    requires AllBuildable(svc.roles)
  {
    forall k | k in PlanOf(env, svc).desired && k.kind.LwsKind? :: !Collides(PlanOf(env, svc), s, k)
  }

  /** every key of the stored PodGroup is carried by some set, */
  lemma GangComplete(env: Env, svc: InferenceService, s0: Store, log: seq<Entry>, t: string) returns (k: Key)
    requires Admissible(svc) && svc.name != "" && Named(svc.ns, svc.name, s0) && CleanPass(env, svc, s0, log)
    requires SetsFree(env, svc, s0) && !Collides(PlanOf(env, svc), s0, PodGroupKey(svc))
    requires NeedsGang(svc.roles)
    requires PodGroupKey(svc) in Last(s0, log) && Last(s0, log)[PodGroupKey(svc)].payload.PodGroupPayload?
    requires t in Last(s0, log)[PodGroupKey(svc)].payload.podGroup.minTaskMember
    ensures CarriesTask(env, svc, Last(s0, log), k, t)
  {
    var pd := PDDisaggregated(svc.roles);
    var r :| r in svc.roles && Gang(pd, r);
    PodGroupInstalled(env, svc, s0, log, r);
    TaskMembersSpec(pd, svc.roles, t);
    var role, i :| IsTask(pd, svc.roles, role, i, t);
    k := LwsKey(svc, role.name, i);
    ReplicaInstalled(env, svc, s0, log, role, i);
    ServiceRolesCompose(env, svc, s0, log, role, k);
    ReplicaAnnotations(env, svc, role, i);
  }

  /** and no two sets carry the same task: with the three lemmas above, the task annotation is a
      bijection between the group-annotated sets of current roles and the PodGroup's tasks. */
  lemma GangInjective(env: Env, svc: InferenceService, s0: Store, log: seq<Entry>, k: Key, k': Key, t: string)
    requires Admissible(svc) && svc.name != "" && Named(svc.ns, svc.name, s0) && CleanPass(env, svc, s0, log)
    requires !Collides(PlanOf(env, svc), s0, k) && !Collides(PlanOf(env, svc), s0, k')
    requires CarriesTask(env, svc, Last(s0, log), k, t) && CarriesTask(env, svc, Last(s0, log), k', t)
    ensures k == k'
  {
    var p, s := PlanOf(env, svc), Last(s0, log);
    var role :| role in svc.roles && role.IsWorkload() && ListedFor(p, s, k, role.name);
    var i := ListedReplica(env, svc, s0, log, k, role);
    ReplicaAnnotations(env, svc, role, i);
    var role' :| role' in svc.roles && role'.IsWorkload() && ListedFor(p, s, k', role'.name);
    var i' := ListedReplica(env, svc, s0, log, k', role');
    ReplicaAnnotations(env, svc, role', i');
    DashedInjective(role.name, i, role'.name, i');
  }

  /** Without a need for gang scheduling no current role's set is annotated. */
  lemma NoGangNoAnnotation(env: Env, svc: InferenceService, s0: Store, log: seq<Entry>, role: Role, k: Key)
    requires Admissible(svc) && svc.name != "" && Named(svc.ns, svc.name, s0) && CleanPass(env, svc, s0, log)
    requires !NeedsGang(svc.roles) && role in svc.roles && role.IsWorkload() && !Collides(PlanOf(env, svc), s0, k)
    requires ListedFor(PlanOf(env, svc), Last(s0, log), k, role.name)
    ensures !GroupAnnotated(Last(s0, log)[k])
  {
    var i := ListedReplica(env, svc, s0, log, k, role);
    ReplicaAnnotations(env, svc, role, i);
  }

  /* ---- safety at every step of every run ---- */

  /** Every annotated LeaderWorkerSet names a PodGroup that exists in its namespace. */
  ghost predicate Anchored(s: Store) {
    forall k | k in s && k.kind.LwsKind? && GroupAnnotated(s[k]) :: Anchor(s, k) in s
  }

  function Anchor(s: Store, k: Key): Key
    requires k in s && GroupAnnotated(s[k])
  {
    Key(PodGroupKind, k.ns, s[k].payload.lws.worker.annotations[ANNOTATION_GROUP_NAME])
  }

  lemma MoveKeepsAnchored(env: Env, svc: InferenceService, s: Store, e: Entry)
    requires Admissible(svc) && Anchored(s) && Move(PlanOf(env, svc), s, e)
    ensures Anchored(e.store)
  {
    var p := PlanOf(env, svc);
    if e.store != s {
      var k :| Settles(p, s, k, e.store);
      PlanSpec(env, svc, k);
      forall j | j in e.store && j.kind.LwsKind? && GroupAnnotated(e.store[j])
        ensures Anchor(e.store, j) in e.store
      {
        if j != k {
          assert Anchor(s, j) in s;
        } else if k in p.desired {
          var role, i := WrittenReplica(env, svc, s, k);
          GangIsReady(env, svc, s, role, i);
        }
      }
    }
  }

  /** What a settling write leaves at a desired LeaderWorkerSet key, */
  lemma WrittenReplica(env: Env, svc: InferenceService, s: Store, k: Key) returns (role: Role, i: nat)
    requires Admissible(svc) && k in PlanOf(env, svc).desired && k.kind.LwsKind?
    ensures IsReplica(svc, svc.roles, role, i, k) && Written(PlanOf(env, svc), s, k) == ReplicaObj(env, svc, role, i)
  {
    PlanSpec(env, svc, k);
    DesiredLwsKeys(env, svc, svc.roles, k);
    role, i :| IsReplica(svc, svc.roles, role, i, k);
    DesiredLwsAt(env, svc, svc.roles, role, i);
    IsLws(env, svc, role, i);
  }

  lemma IsLws(env: Env, svc: InferenceService, role: Role, i: nat)
    requires Buildable(role)
    ensures ReplicaObj(env, svc, role, i).payload.LwsPayload?
  {
  }

  /** and the PodGroup it finds if it is annotated. */
  lemma GangIsReady(env: Env, svc: InferenceService, s: Store, role: Role, i: nat)
    requires Admissible(svc) && role in svc.roles && role.IsWorkload()
    requires GangReady(PlanOf(env, svc), s) && GroupAnnotated(ReplicaObj(env, svc, role, i))
    ensures svc.name != "" && NeedsGang(svc.roles)
    ensures PodGroupKey(svc) in s && !NeedsWrite(PlanOf(env, svc), s, PodGroupKey(svc))
    ensures ReplicaObj(env, svc, role, i).payload.lws.worker.annotations[ANNOTATION_GROUP_NAME] == svc.name
  {
    ReplicaGroup(env, svc, role, i);
    GroupPlanned(env, svc, s);
  }

  lemma ReplicaGroup(env: Env, svc: InferenceService, role: Role, i: nat)
    requires Buildable(role) && role.IsWorkload() && GroupAnnotated(ReplicaObj(env, svc, role, i))
    ensures svc.name != "" && Gang(PDDisaggregated(svc.roles), role)
    ensures ReplicaObj(env, svc, role, i).payload.lws.worker.annotations[ANNOTATION_GROUP_NAME] == svc.name
  {
  }

  lemma GroupPlanned(env: Env, svc: InferenceService, s: Store)
    requires AllBuildable(svc.roles) && NeedsGang(svc.roles) && GangReady(PlanOf(env, svc), s)
    ensures PodGroupKey(svc) in s && !NeedsWrite(PlanOf(env, svc), s, PodGroupKey(svc))
  {
    PlanSpec(env, svc, PodGroupKey(svc));
  }

  /** One pass of some version of the service. */
  datatype Pass = Pass(svc: InferenceService, log: seq<Entry>)

  /** The store that the m-th pass starts from, or that the last one leaves. */
  function StartOf(s0: Store, passes: seq<Pass>, m: nat): Store
    requires m <= |passes|
  {
    if m == 0 then s0 else Last(StartOf(s0, passes, m - 1), passes[m - 1].log)
  }

  ghost predicate PassAt(env: Env, s0: Store, passes: seq<Pass>, m: nat)
    requires m < |passes|
  {
    Admissible(passes[m].svc) && PassLog(PlanOf(env, passes[m].svc), StartOf(s0, passes, m), passes[m].log)
  }

  /** Any sequence of passes over changing versions, each of which may fail anywhere. */
  ghost predicate Run(env: Env, s0: Store, passes: seq<Pass>) {
    forall m | 0 <= m < |passes| :: PassAt(env, s0, passes, m)
  }

  lemma {:induction false} StartOfPrefix(s0: Store, passes: seq<Pass>, more: seq<Pass>, m: nat)
    requires m <= |passes|
    ensures StartOf(s0, passes + more, m) == StartOf(s0, passes, m)
  {
    if m > 0 {
      StartOfPrefix(s0, passes, more, m - 1);
    }
  }

  lemma PassOfPrefix(env: Env, s0: Store, passes: seq<Pass>, more: seq<Pass>, m: nat)
    requires m < |passes| && PassAt(env, s0, passes, m)
    ensures PassAt(env, s0, passes + more, m)
  {
    StartOfPrefix(s0, passes, more, m);
  }

  lemma NewPass(env: Env, s0: Store, passes: seq<Pass>, p: Pass)
    requires Admissible(p.svc) && PassLog(PlanOf(env, p.svc), StartOf(s0, passes, |passes|), p.log)
    ensures PassAt(env, s0, passes + [p], |passes|)
    ensures StartOf(s0, passes + [p], |passes| + 1) == Last(StartOf(s0, passes, |passes|), p.log)
  {
    StartOfPrefix(s0, passes, [p], |passes|);
  }

  /** A run with one more pass. */
  lemma RunOneMore(env: Env, s0: Store, passes: seq<Pass>, svc: InferenceService, log: seq<Entry>)
    requires Run(env, s0, passes) && Admissible(svc) && PassLog(PlanOf(env, svc), StartOf(s0, passes, |passes|), log)
    ensures Run(env, s0, passes + [Pass(svc, log)])
    ensures StartOf(s0, passes + [Pass(svc, log)], |passes| + 1) == Last(StartOf(s0, passes, |passes|), log)
  {
    var p := Pass(svc, log);
    NewPass(env, s0, passes, p);
    forall m | 0 <= m < |passes|
      ensures PassAt(env, s0, passes + [p], m)
    {
      assert PassAt(env, s0, passes, m);
      PassOfPrefix(env, s0, passes, [p], m);
    }
  }

  lemma {:induction false} TraceKeepsAnchored(env: Env, svc: InferenceService, s0: Store, log: seq<Entry>, n: nat)
    requires Admissible(svc) && Anchored(s0) && Trace(PlanOf(env, svc), s0, log) && n <= |log|
    ensures Anchored(At(s0, log, n))
  {
    if n > 0 {
      TraceKeepsAnchored(env, svc, s0, log, n - 1);
      assert Move(PlanOf(env, svc), At(s0, log, n - 1), log[n - 1]);
      MoveKeepsAnchored(env, svc, At(s0, log, n - 1), log[n - 1]);
    }
  }

  lemma {:induction false} StartIsAnchored(env: Env, s0: Store, passes: seq<Pass>, m: nat)
    requires Run(env, s0, passes) && Anchored(s0) && m <= |passes|
    ensures Anchored(StartOf(s0, passes, m))
  {
    if m > 0 {
      StartIsAnchored(env, s0, passes, m - 1);
      assert PassAt(env, s0, passes, m - 1);
      TraceKeepsAnchored(env, passes[m - 1].svc, StartOf(s0, passes, m - 1), passes[m - 1].log, |passes[m - 1].log|);
    }
  }

  /** Step safety: at every API step of every run, over changing specs and failures in mid-pass,
      no annotated LeaderWorkerSet is without its PodGroup. */
  lemma RunKeepsAnchored(env: Env, s0: Store, passes: seq<Pass>, m: nat, n: nat)
    requires Run(env, s0, passes) && Anchored(s0) && m < |passes| && n <= |passes[m].log|
    ensures Anchored(At(StartOf(s0, passes, m), passes[m].log, n))
  {
    StartIsAnchored(env, s0, passes, m);
    assert PassAt(env, s0, passes, m);
    TraceKeepsAnchored(env, passes[m].svc, StartOf(s0, passes, m), passes[m].log, n);
  }

  /** The PodGroup lists the task of this annotated set, with the set's size. */
  predicate TaskReady(svc: InferenceService, s: Store, o: Obj)
    requires GroupAnnotated(o)
  {
    var a, g := o.payload.lws.worker.annotations, PodGroupKey(svc);
    && ANNOTATION_TASK_SPEC in a && g in s && s[g].payload.PodGroupPayload?
    && a[ANNOTATION_TASK_SPEC] in s[g].payload.podGroup.minTaskMember
    && s[g].payload.podGroup.minTaskMember[a[ANNOTATION_TASK_SPEC]] == o.payload.lws.size
  }

  /** Within a pass, even one that fails later: whenever a set with a task is written, the PodGroup
      already lists that task with the set's size, unless the PodGroup's own hash collided. */
  lemma TaskListedBeforeWrite(env: Env, svc: InferenceService, s0: Store, log: seq<Entry>, n: nat, k: Key)
    requires Admissible(svc) && Named(svc.ns, svc.name, s0) && PassLog(PlanOf(env, svc), s0, log)
    requires !Collides(PlanOf(env, svc), s0, PodGroupKey(svc))
    requires n < |log| && Settles(PlanOf(env, svc), At(s0, log, n), k, log[n].store)
    requires k.kind.LwsKind? && k in log[n].store && GroupAnnotated(log[n].store[k])
    ensures TaskReady(svc, At(s0, log, n), log[n].store[k])
  {
    var p, s, pd := PlanOf(env, svc), At(s0, log, n), PDDisaggregated(svc.roles);
    var role, i := WrittenReplica(env, svc, s, k);
    GangIsReady(env, svc, s, role, i);
    ReplicaAnnotations(env, svc, role, i);
    PodGroupDuringPass(env, svc, s0, log, n);
    var t := TaskName(role.name, i);
    TaskMembersSpec(pd, svc.roles, t);
    assert IsTask(pd, svc.roles, role, i, t);
  }

  /** Once the PodGroup needs no write, it is the desired one for the rest of the pass. */
  lemma PodGroupDuringPass(env: Env, svc: InferenceService, s0: Store, log: seq<Entry>, n: nat)
    requires Admissible(svc) && Named(svc.ns, svc.name, s0) && PassLog(PlanOf(env, svc), s0, log) && n <= |log|
    requires NeedsGang(svc.roles) && !Collides(PlanOf(env, svc), s0, PodGroupKey(svc))
    requires !NeedsWrite(PlanOf(env, svc), At(s0, log, n), PodGroupKey(svc))
    ensures PodGroupKey(svc) in At(s0, log, n) && At(s0, log, n)[PodGroupKey(svc)] == PodGroupObj(env, svc)
  {
    PlanIsOk(env, svc);
    NamedIsCoherent(env, svc, s0);
    PlanSpec(env, svc, PodGroupKey(svc));
    SettledAtLast(PlanOf(env, svc), s0, log, n, PodGroupKey(svc));
  }

  /** A key that starts without collision and needs no write now holds the desired object. */
  lemma SettledAtLast(p: Plan, s0: Store, log: seq<Entry>, n: nat, k: Key)
    requires PlanOk(p) && Coherent(p, s0) && Trace(p, s0, log) && n <= |log|
    requires k in p.desired && !k.kind.LwsKind? && !Collides(p, s0, k) && Mergeable(p, s0, k)
    requires !NeedsWrite(p, At(s0, log, n), k)
    ensures k in At(s0, log, n) && At(s0, log, n)[k] == p.desired[k]
  {
    TracePrefix(p, s0, log, n);
    assert At(s0, log, n) == Last(s0, log[..n]);
    SettledAtEnd(p, s0, log[..n], k);
  }

  lemma SettledAtEnd(p: Plan, s0: Store, log: seq<Entry>, k: Key)
    requires PlanOk(p) && Coherent(p, s0) && Trace(p, s0, log)
    requires k in p.desired && !k.kind.LwsKind? && !Collides(p, s0, k) && Mergeable(p, s0, k)
    requires !NeedsWrite(p, Last(s0, log), k)
    ensures k in Last(s0, log) && Last(s0, log)[k] == p.desired[k]
  {
    TraceKeeps(p, s0, log);
    TargetOfSettled(p, Last(s0, log), k);
    TargetOfDesired(p, s0, k);
  }

  lemma TargetOfSettled(p: Plan, s: Store, k: Key)
    requires k in p.desired && !k.kind.LwsKind? && !NeedsWrite(p, s, k)
    ensures k in s && k in Target(p, s) && Target(p, s)[k] == s[k]
  {
  }

  lemma TargetOfDesired(p: Plan, s: Store, k: Key)
    requires k in p.desired && !k.kind.LwsKind? && !Collides(p, s, k) && Mergeable(p, s, k)
    ensures k in Target(p, s) && Target(p, s)[k] == p.desired[k]
  {
  }
}
