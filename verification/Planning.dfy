/** The plan of one service version: the objects its builders produce, and the proof that this
    plan is one the convergence theory applies to. */
module Planning {
  import opened Api
  import opened Text
  import opened Scheduling
  import opened Workload
  import opened Router
  import opened PodGroupFacts
  import opened Convergence

  /* ---- hypotheses on a service ---- */

  ghost predicate OneRouter(roles: seq<Role>) {
    forall i, j | 0 <= i < j < |roles| :: !(roles[i].componentType.Router? && roles[j].componentType.Router?)
  }

  predicate AllBuildable(roles: seq<Role>) {
    forall r | r in roles && r.IsWorkload() :: Buildable(r)
  }

  /** What the code takes for granted: workload role names are distinct, there is at most one
      router role, and multi-node roles have a container. */
  ghost predicate Admissible(svc: InferenceService) {
    DistinctNames(svc.roles) && OneRouter(svc.roles) && AllBuildable(svc.roles)
  }

  /* ---- desired LeaderWorkerSets ---- */

  function LwsKey(svc: InferenceService, roleName: string, i: nat): Key {
    Key(LwsKind, svc.ns, LwsName(svc.name, roleName, Some(i)))
  }

  /** The configuration `reconcileLWS` builds for replica i. */
  function ConfigOf(svc: InferenceService, role: Role, i: nat): LwsConfig {
    if NeedsGangForRole(PDDisaggregated(svc.roles), role)
    then LwsConfig(PodGroupName(svc.name), TaskName(role.name, i), true, Some(i))
    else LwsConfig("", "", false, Some(i))
  }

  function ReplicaObj(env: Env, svc: InferenceService, role: Role, i: nat): Obj
    requires Buildable(role)
  {
    LwsObj(env, svc, role, ConfigOf(svc, role, i))
  }

  function RoleLws(env: Env, svc: InferenceService, role: Role, n: nat): map<Key, Obj>
    requires Buildable(role)
  {
    if n == 0 then map[] else RoleLws(env, svc, role, n - 1)[LwsKey(svc, role.name, n - 1) := ReplicaObj(env, svc, role, n - 1)]
  }

  function RoleNames(svc: InferenceService, roleName: string, n: nat): set<string> {
    if n == 0 then {} else RoleNames(svc, roleName, n - 1) + {LwsName(svc.name, roleName, Some(n - 1))}
  }

  function DesiredLws(env: Env, svc: InferenceService, roles: seq<Role>): map<Key, Obj>
    requires AllBuildable(roles)
  {
    if roles == [] then map[]
    else
      var r := roles[|roles| - 1];
      DesiredLws(env, svc, roles[..|roles| - 1])
      + if r.IsWorkload() then RoleLws(env, svc, r, Instances(r)) else map[]
  }

  function NamesByRole(svc: InferenceService, roles: seq<Role>): map<string, set<string>> {
    if roles == [] then map[]
    else
      var r := roles[|roles| - 1];
      var m := NamesByRole(svc, roles[..|roles| - 1]);
      if r.IsWorkload() then m[r.name := RoleNames(svc, r.name, Instances(r))] else m
  }

  /* ---- the plan ---- */

  ghost predicate HasRouter(roles: seq<Role>) {
    exists r | r in roles :: r.componentType.Router?
  }

  ghost function RouterOf(roles: seq<Role>): Role
    requires HasRouter(roles)
  {
    var r :| r in roles && r.componentType.Router?;
    r
  }

  ghost function DesiredPodGroup(env: Env, svc: InferenceService): map<Key, Obj> {
    if NeedsGang(svc.roles) then map[PodGroupKey(svc) := PodGroupObj(env, svc)] else map[]
  }

  ghost function DesiredRouter(env: Env, svc: InferenceService): map<Key, Obj> {
    if HasRouter(svc.roles) then
      map kind | kind in RouterKinds() :: RouterKey(svc, kind) := RouterObj(env, svc, RouterOf(svc.roles), WorkloadRoles(svc.roles), kind)
    else map[]
  }

  function RouterKinds(): set<Kind> {
    {ServiceAccountKind, RoleKind, RoleBindingKind, ConfigMapKind, DeploymentKind, ServiceKind, InferencePoolKind, HttpRouteKind}
  }

  ghost function PlanOf(env: Env, svc: InferenceService): Plan
    requires AllBuildable(svc.roles)
  {
    Plan(svc.ns, svc.name,
      DesiredPodGroup(env, svc) + DesiredLws(env, svc, svc.roles) + DesiredRouter(env, svc),
      NamesByRole(svc, svc.roles),
      if NeedsGang(svc.roles) then Some(PodGroupKey(svc)) else None)
  }

  /* ---- what is in it ---- */

  lemma {:induction false} RoleLwsKeys(env: Env, svc: InferenceService, role: Role, n: nat, k: Key)
    requires Buildable(role)
    ensures k in RoleLws(env, svc, role, n) <==> exists i: nat :: i < n && k == LwsKey(svc, role.name, i)
  {
    if n > 0 {
      RoleLwsKeys(env, svc, role, n - 1, k);
    }
  }

  lemma RoleLwsBelow(env: Env, svc: InferenceService, role: Role, n: nat, k: Key)
    requires Buildable(role) && n > 0 && k != LwsKey(svc, role.name, n - 1) && k in RoleLws(env, svc, role, n - 1)
    ensures k in RoleLws(env, svc, role, n) && RoleLws(env, svc, role, n)[k] == RoleLws(env, svc, role, n - 1)[k]
  {
  }

  lemma {:induction false} RoleLwsAt(env: Env, svc: InferenceService, role: Role, n: nat, i: nat)
    requires Buildable(role) && i < n
    ensures var k := LwsKey(svc, role.name, i);
            k in RoleLws(env, svc, role, n) && RoleLws(env, svc, role, n)[k] == ReplicaObj(env, svc, role, i)
  {
    if i < n - 1 {
      RoleLwsAt(env, svc, role, n - 1, i);
      OtherReplica(svc, role.name, i, n - 1);
      RoleLwsBelow(env, svc, role, n, LwsKey(svc, role.name, i));
    }
  }

  lemma OtherReplica(svc: InferenceService, roleName: string, i: nat, j: nat)
    requires i != j
    ensures LwsKey(svc, roleName, i) != LwsKey(svc, roleName, j)
  {
    if LwsKey(svc, roleName, i) == LwsKey(svc, roleName, j) {
      LwsNameInjective(svc.name, roleName, i, roleName, j);
    }
  }

  ghost predicate IsReplica(svc: InferenceService, roles: seq<Role>, r: Role, i: nat, k: Key) {
    r in roles && r.IsWorkload() && i < Instances(r) && k == LwsKey(svc, r.name, i)
  }

  /** The desired LeaderWorkerSets are named after the replicas of the workload roles, */
  lemma {:induction false} DesiredLwsKeys(env: Env, svc: InferenceService, roles: seq<Role>, k: Key)
    requires AllBuildable(roles)
    ensures k in DesiredLws(env, svc, roles) <==> exists r, i :: IsReplica(svc, roles, r, i, k)
  {
    if roles != [] {
      var init, last := roles[..|roles| - 1], roles[|roles| - 1];
      DesiredLwsKeys(env, svc, init, k);
      assert roles == init + [last];
      if last.IsWorkload() {
        RoleLwsKeys(env, svc, last, Instances(last), k);
      }
      forall r, i | IsReplica(svc, init, r, i, k)
        ensures IsReplica(svc, roles, r, i, k)
      {
      }
      if last.IsWorkload() && k in RoleLws(env, svc, last, Instances(last)) {
        var j: nat :| j < Instances(last) && k == LwsKey(svc, last.name, j);
        assert IsReplica(svc, roles, last, j, k);
      }
      forall r, i | IsReplica(svc, roles, r, i, k)
        ensures k in DesiredLws(env, svc, roles)
      {
        if r in init {
          assert IsReplica(svc, init, r, i, k);
        }
      }
    }
  }

  /** and each is built for its own role and index, for all roles at once: a later role never
      overwrites an earlier one's, because names are injective. */
  lemma {:induction false} DesiredLwsAt(env: Env, svc: InferenceService, roles: seq<Role>, r: Role, i: nat)
    requires AllBuildable(roles) && DistinctNames(roles)
    requires r in roles && r.IsWorkload() && i < Instances(r)
    ensures var k := LwsKey(svc, r.name, i);
            k in DesiredLws(env, svc, roles) && DesiredLws(env, svc, roles)[k] == ReplicaObj(env, svc, r, i)
  {
    var init, last := roles[..|roles| - 1], roles[|roles| - 1];
    assert roles == init + [last];
    if r == last {
      RoleLwsAt(env, svc, r, Instances(r), i);
    } else {
      DesiredLwsAt(env, svc, init, r, i);
      if last.IsWorkload() {
        NotLaterRole(env, svc, r, i, last);
      }
    }
  }

  lemma NotLaterRole(env: Env, svc: InferenceService, r: Role, i: nat, last: Role)
    requires Buildable(last) && r.name != last.name
    ensures LwsKey(svc, r.name, i) !in RoleLws(env, svc, last, Instances(last))
  {
    RoleLwsKeys(env, svc, last, Instances(last), LwsKey(svc, r.name, i));
    if j: nat :| j < Instances(last) && LwsKey(svc, r.name, i) == LwsKey(svc, last.name, j) {
      LwsNameInjective(svc.name, r.name, i, last.name, j);
    }
  }

  lemma {:induction false} RoleNamesSpec(svc: InferenceService, roleName: string, n: nat, name: string)
    ensures name in RoleNames(svc, roleName, n) <==> exists i: nat :: i < n && name == LwsName(svc.name, roleName, Some(i))
  {
    if n > 0 {
      RoleNamesSpec(svc, roleName, n - 1, name);
    }
  }

  lemma {:induction false} NamesByRoleKeys(svc: InferenceService, roles: seq<Role>, roleName: string)
    ensures roleName in NamesByRole(svc, roles) <==> exists r :: r in roles && r.IsWorkload() && r.name == roleName
  {
    if roles != [] {
      var init, last := roles[..|roles| - 1], roles[|roles| - 1];
      NamesByRoleKeys(svc, init, roleName);
      assert forall r :: r in roles <==> r in init || r == last;
    }
  }

  lemma {:induction false} NamesByRoleAt(svc: InferenceService, roles: seq<Role>, r: Role)
    requires DistinctNames(roles) && r in roles && r.IsWorkload()
    ensures r.name in NamesByRole(svc, roles) && NamesByRole(svc, roles)[r.name] == RoleNames(svc, r.name, Instances(r))
  {
    var init, last := roles[..|roles| - 1], roles[|roles| - 1];
    if r != last {
      assert r in init;
      NamesByRoleAt(svc, init, r);
    }
  }

  lemma NamesByRoleSpec(svc: InferenceService, roles: seq<Role>, roleName: string)
    requires DistinctNames(roles)
    ensures roleName in NamesByRole(svc, roles) <==> exists r :: r in roles && r.IsWorkload() && r.name == roleName
    ensures forall r | r in roles && r.IsWorkload() ::
              r.name in NamesByRole(svc, roles) && NamesByRole(svc, roles)[r.name] == RoleNames(svc, r.name, Instances(r))
  {
    NamesByRoleKeys(svc, roles, roleName);
    forall r | r in roles && r.IsWorkload()
      ensures r.name in NamesByRole(svc, roles) && NamesByRole(svc, roles)[r.name] == RoleNames(svc, r.name, Instances(r))
    {
      NamesByRoleAt(svc, roles, r);
    }
  }

  lemma RouterKeys(svc: InferenceService)
    ensures forall kind :: kind in RouterKinds() <==> IsRouterKind(kind)
    ensures forall kind :: RouterKey(svc, kind).kind == kind
  {
  }

  lemma DesiredKinds(env: Env, svc: InferenceService, k: Key)
    requires AllBuildable(svc.roles)
    ensures k in DesiredPodGroup(env, svc) ==> k.kind.PodGroupKind?
    ensures k in DesiredLws(env, svc, svc.roles) ==> k.kind.LwsKind?
  {
    DesiredLwsKeys(env, svc, svc.roles, k);
  }

  lemma DesiredRouterSpec(env: Env, svc: InferenceService, k: Key)
    ensures k in DesiredRouter(env, svc) <==> IsRouterKind(k.kind) && HasRouter(svc.roles) && k == RouterKey(svc, k.kind)
    ensures k in DesiredRouter(env, svc) ==>
              DesiredRouter(env, svc)[k] == RouterObj(env, svc, RouterOf(svc.roles), WorkloadRoles(svc.roles), k.kind)
  {
    RouterKeys(svc);
  }

  /** Membership in the plan, kind by kind. */
  lemma PlanSpec(env: Env, svc: InferenceService, k: Key)
    requires AllBuildable(svc.roles)
    ensures var d := PlanOf(env, svc).desired;
            && (k.kind.PodGroupKind? ==> (k in d <==> NeedsGang(svc.roles) && k == PodGroupKey(svc)))
            && (k.kind.LwsKind? ==> (k in d <==> k in DesiredLws(env, svc, svc.roles)))
            && (IsRouterKind(k.kind) ==> (k in d <==> HasRouter(svc.roles) && k == RouterKey(svc, k.kind)))
            && (k in d && k.kind.PodGroupKind? ==> d[k] == PodGroupObj(env, svc))
            && (k in d && k.kind.LwsKind? ==> d[k] == DesiredLws(env, svc, svc.roles)[k])
            && (k in d && IsRouterKind(k.kind) ==>
                  d[k] == RouterObj(env, svc, RouterOf(svc.roles), WorkloadRoles(svc.roles), k.kind))
  {
    DesiredKinds(env, svc, k);
    DesiredRouterSpec(env, svc, k);
  }

  lemma ReplicaLabels(env: Env, svc: InferenceService, role: Role, i: nat)
    requires Buildable(role)
    ensures var l := ReplicaObj(env, svc, role, i).labels;
            && LABEL_SERVICE in l && l[LABEL_SERVICE] == svc.name
            && LABEL_ROLE_NAME in l && l[LABEL_ROLE_NAME] == role.name
  {
  }

  lemma PlanIsOk(env: Env, svc: InferenceService)
    requires Admissible(svc)
    ensures PlanOk(PlanOf(env, svc))
  {
    var p := PlanOf(env, svc);
    forall k | k in p.desired
      ensures k.ns == p.ns
      ensures k.kind.LwsKind? ==>
                && LABEL_SERVICE in p.desired[k].labels && p.desired[k].labels[LABEL_SERVICE] == p.service
                && LABEL_ROLE_NAME in p.desired[k].labels
                && OwnsName(p, p.desired[k].labels[LABEL_ROLE_NAME], k.name)
    {
      PlanSpec(env, svc, k);
      if k.kind.LwsKind? {
        DesiredLwsKeys(env, svc, svc.roles, k);
        var r, i :| IsReplica(svc, svc.roles, r, i, k);
        DesiredLwsAt(env, svc, svc.roles, r, i);
        ReplicaLabels(env, svc, r, i);
        NamesByRoleSpec(svc, svc.roles, r.name);
        RoleNamesSpec(svc, r.name, Instances(r), k.name);
      }
    }
    forall r, n | OwnsName(p, r, n)
      ensures var k := Key(LwsKind, p.ns, n);
              k in p.desired && LABEL_ROLE_NAME in p.desired[k].labels && p.desired[k].labels[LABEL_ROLE_NAME] == r
    {
      NamesByRoleSpec(svc, svc.roles, r);
      var role :| role in svc.roles && role.IsWorkload() && role.name == r;
      RoleNamesSpec(svc, r, Instances(role), n);
      var i: nat :| i < Instances(role) && n == LwsName(svc.name, r, Some(i));
      DesiredLwsAt(env, svc, svc.roles, role, i);
      ReplicaLabels(env, svc, role, i);
      PlanSpec(env, svc, LwsKey(svc, r, i));
    }
    PlanSpec(env, svc, PodGroupKey(svc));
  }

  /* ---- the hypothesis on the store ---- */

  /** Every LeaderWorkerSet labelled for the service and some role bears a name this service gives
      to that role: it was last written by this controller. */
  ghost predicate Named(ns: string, service: string, s: Store) {
    forall k | k in s && k.kind.LwsKind? && k.ns == ns
               && LABEL_SERVICE in s[k].labels && s[k].labels[LABEL_SERVICE] == service
               && LABEL_ROLE_NAME in s[k].labels ::
      NamedFor(service, s[k].labels[LABEL_ROLE_NAME], k.name)
  }

  ghost predicate NamedFor(service: string, r: string, name: string) {
    exists i: nat :: name == LwsName(service, r, Some(i))
  }

  lemma NamedIsCoherent(env: Env, svc: InferenceService, s: Store)
    requires Admissible(svc) && Named(svc.ns, svc.name, s)
    ensures Coherent(PlanOf(env, svc), s)
  {
    var p := PlanOf(env, svc);
    forall k, r, r' | ListedFor(p, s, k, r) && r in p.roleLws && OwnsName(p, r', k.name)
      ensures r == r'
    {
      assert NamedFor(svc.name, r, k.name);
      var i: nat :| k.name == LwsName(svc.name, r, Some(i));
      NamesByRoleSpec(svc, svc.roles, r');
      var role :| role in svc.roles && role.IsWorkload() && role.name == r';
      RoleNamesSpec(svc, r', Instances(role), k.name);
      var j: nat :| j < Instances(role) && k.name == LwsName(svc.name, r', Some(j));
      LwsNameInjective(svc.name, r, i, r', j);
    }
  }

  /** Any pass, failed or not, keeps the hypothesis. */
  lemma MoveKeepsNamed(env: Env, svc: InferenceService, s: Store, e: Entry)
    requires Admissible(svc) && Named(svc.ns, svc.name, s) && Move(PlanOf(env, svc), s, e)
    ensures Named(svc.ns, svc.name, e.store)
  {
    var p := PlanOf(env, svc);
    if e.store != s {
      var k :| Settles(p, s, k, e.store);
      if k in p.desired && k.kind.LwsKind? {
        var r := DesiredIsNamed(env, svc, k);
      }
    }
  }

  lemma DesiredIsNamed(env: Env, svc: InferenceService, k: Key) returns (r: string)
    requires Admissible(svc) && k in PlanOf(env, svc).desired && k.kind.LwsKind?
    ensures var l := PlanOf(env, svc).desired[k].labels;
            LABEL_ROLE_NAME in l && l[LABEL_ROLE_NAME] == r && NamedFor(svc.name, r, k.name)
  {
    PlanSpec(env, svc, k);
    DesiredLwsKeys(env, svc, svc.roles, k);
    var role, i :| IsReplica(svc, svc.roles, role, i, k);
    DesiredLwsAt(env, svc, svc.roles, role, i);
    ReplicaLabels(env, svc, role, i);
    r := role.name;
  }

  lemma {:induction false} TraceKeepsNamed(env: Env, svc: InferenceService, s0: Store, log: seq<Entry>)
    requires Admissible(svc) && Named(svc.ns, svc.name, s0) && Trace(PlanOf(env, svc), s0, log)
    ensures Named(svc.ns, svc.name, Last(s0, log))
  {
    if log != [] {
      TraceInit(PlanOf(env, svc), s0, log);
      TraceKeepsNamed(env, svc, s0, log[..|log| - 1]);
      MoveKeepsNamed(env, svc, Last(s0, log[..|log| - 1]), log[|log| - 1]);
    }
  }

  /* ---- convergence, in the service's own terms ---- */

  /** A plan that the theory applies to, and the work and the target it has on store s. */
  lemma PlanApplies(env: Env, svc: InferenceService, s: Store)
    requires Admissible(svc) && Named(svc.ns, svc.name, s)
    ensures PlanOk(PlanOf(env, svc)) && Coherent(PlanOf(env, svc), s)
  {
    PlanIsOk(env, svc);
    NamedIsCoherent(env, svc, s);
  }

  /** For a fixed spec, passes that fail anywhere followed by one error-free pass leave the same
      labels and specs as one error-free pass from the start, and whatever is neither desired nor an
      orphan is as it was. */
  lemma ServiceHistoryIndependence(env: Env, svc: InferenceService, s0: Store,
                                   failed: seq<seq<Entry>>, last: seq<Entry>, clean: seq<Entry>)
    requires Admissible(svc) && Named(svc.ns, svc.name, s0)
    requires Passes(PlanOf(env, svc), s0, failed)
    requires PassLog(PlanOf(env, svc), End(s0, failed), last) && AllOk(last)
    requires PassLog(PlanOf(env, svc), s0, clean) && AllOk(clean)
    ensures Last(End(s0, failed), last) == Last(s0, clean)
    ensures forall k | k !in PlanOf(env, svc).desired && !IsOrphan(PlanOf(env, svc), s0, k) ::
              && (k in Last(s0, clean) <==> k in s0)
              && (k in s0 ==> Last(s0, clean)[k] == s0[k])
  {
    PlanApplies(env, svc, s0);
    HistoryIndependence(PlanOf(env, svc), s0, failed, last, clean);
    forall k | k !in PlanOf(env, svc).desired && !IsOrphan(PlanOf(env, svc), s0, k)
      ensures k in Last(s0, clean) <==> k in s0
      ensures k in s0 ==> Last(s0, clean)[k] == s0[k]
    {
      BystandersUntouched(PlanOf(env, svc), s0, [clean], k);
    }
  }

  /** An error-free pass writes once for each missing or stale desired object and each orphan, and
      the next one not at all. */
  lemma ServiceExactWork(env: Env, svc: InferenceService, s0: Store, log: seq<Entry>, next: seq<Entry>)
    requires Admissible(svc) && Named(svc.ns, svc.name, s0)
    requires PassLog(PlanOf(env, svc), s0, log) && AllOk(log)
    requires PassLog(PlanOf(env, svc), Last(s0, log), next) && AllOk(next)
    ensures WriteCount(log) == |Unsettled(PlanOf(env, svc), s0)| && WriteCount(next) == 0
  {
    PlanApplies(env, svc, s0);
    ExactWork(PlanOf(env, svc), s0, log);
    Fixpoint(PlanOf(env, svc), s0, log, next);
  }
}
