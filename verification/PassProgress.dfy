/** How far a pass has come: what each of its methods leaves settled, and that nothing a later
    method does can unsettle it again. */
module PassProgress {
  import opened Api
  import opened Scheduling
  import opened Workload
  import opened Router
  import opened PodGroupFacts
  import opened Convergence
  import opened Planning

  /* ---- progress of a pass ---- */

  /** Every call but the last succeeded. */
  predicate FailFast(log: seq<Entry>) {
    forall n | 0 <= n < |log| - 1 :: log[n].ok
  }

  /** A pass for plan p that began with store s0 and has made the logged calls. */
  ghost predicate InPass(p: Plan, s0: Store, log: seq<Entry>, store: Store) {
    && PlanOk(p) && Trace(p, s0, log) && FailFast(log) && store == Last(s0, log) && Coherent(p, store)
  }

  predicate Untouched(s: Store, s': Store, k: Key) {
    (k in s <==> k in s') && (k in s ==> s[k] == s'[k])
  }

  /** From s to s' nothing became unsettled, and what is still unsettled has not been touched. */
  ghost predicate Progress(p: Plan, s: Store, s': Store) {
    && Unsettled(p, s') <= Unsettled(p, s)
    && (forall k | k in Unsettled(p, s') :: Untouched(s, s', k))
  }

  lemma ProgressJoins(p: Plan, a: Store, b: Store, c: Store)
    requires Progress(p, a, b) && Progress(p, b, c)
    ensures Progress(p, a, c)
  {
    forall k | k in Unsettled(p, c)
      ensures Untouched(a, c, k)
    {
      assert k in Unsettled(p, b) && Untouched(a, b, k) && Untouched(b, c, k);
    }
  }

  lemma SettleIsProgress(p: Plan, s: Store, k: Key)
    requires PlanOk(p) && Coherent(p, s) && k in Unsettled(p, s)
    ensures Progress(p, s, Settle(p, s, k))
  {
    SettleShrinks(p, s, k);
    forall j | j in Unsettled(p, Settle(p, s, k))
      ensures Untouched(s, Settle(p, s, k), j)
    {
      assert j != k;
    }
  }

  lemma MoveIsProgress(p: Plan, s: Store, e: Entry)
    requires PlanOk(p) && Coherent(p, s) && Move(p, s, e)
    ensures Progress(p, s, e.store) && Coherent(p, e.store)
  {
    MoveKeeps(p, s, e);
    if e.store != s {
      var k :| Settles(p, s, k, e.store);
      SettleIsProgress(p, s, k);
    }
  }

  lemma AtBefore(s0: Store, log: seq<Entry>, e: Entry, n: nat)
    requires n <= |log|
    ensures At(s0, log + [e], n) == At(s0, log, n)
  {
  }

  lemma TraceOneMore(p: Plan, s0: Store, log: seq<Entry>, e: Entry)
    requires Trace(p, s0, log) && Move(p, Last(s0, log), e)
    ensures Trace(p, s0, log + [e])
  {
    forall n | 0 <= n < |log + [e]|
      ensures Move(p, At(s0, log + [e], n), (log + [e])[n])
    {
      AtBefore(s0, log, e, n);
      assert n < |log| ==> Move(p, At(s0, log, n), log[n]);
    }
  }

  lemma LogMove(p: Plan, s0: Store, log: seq<Entry>, e: Entry, store: Store)
    requires InPass(p, s0, log, store) && AllOk(log) && Move(p, store, e)
    ensures InPass(p, s0, log + [e], e.store) && Progress(p, store, e.store)
    ensures AllOk(log + [e]) <==> e.ok
  {
    MoveIsProgress(p, store, e);
    TraceOneMore(p, s0, log, e);
    assert (log + [e])[|log|] == e;
  }

  /** A write aimed at an unsettled key is a move, whether it took effect or failed before. */
  lemma WriteIsMove(p: Plan, s: Store, k: Key, e: Entry)
    requires k in Unsettled(p, s) && (k.kind.LwsKind? ==> GangReady(p, s))
    requires e.write && (e.store == Settle(p, s, k) || (e.store == s && !e.ok))
    ensures Move(p, s, e)
  {
    if e.store == Settle(p, s, k) {
      assert Settles(p, s, k, e.store);
    }
  }

  lemma LogWrite(p: Plan, s0: Store, log: seq<Entry>, k: Key, e: Entry, store: Store)
    requires InPass(p, s0, log, store) && AllOk(log)
    requires (NeedsWrite(p, store, k) || IsOrphan(p, store, k)) && (k.kind.LwsKind? ==> GangReady(p, store))
    requires e.write && (e.store == Settle(p, store, k) || (e.store == store && !e.ok))
    ensures InPass(p, s0, log + [e], e.store) && Progress(p, store, e.store)
    ensures AllOk(log + [e]) <==> e.ok
  {
    UnsettledMeans(p, store, k);
    WriteIsMove(p, store, k, e);
    LogMove(p, s0, log, e, store);
  }

  lemma OrphanWrite(p: Plan, s: Store, k: Key)
    requires PlanOk(p) && Coherent(p, s) && IsOrphan(p, s, k)
    ensures k in s && k.kind.LwsKind? && Settle(p, s, k) == s - {k}
  {
    OrphansAreNotDesired(p, s, k);
  }

  /** The log after deleting an orphan, */
  lemma LogDelete(p: Plan, s0: Store, log: seq<Entry>, k: Key, store: Store, ok: bool, store': Store, log': seq<Entry>)
    requires InPass(p, s0, log, store) && AllOk(log) && IsOrphan(p, store, k) && GangReady(p, store)
    requires store' == store - {k} || (store' == store && !ok)
    requires log' == log + [Entry(true, ok, store')]
    ensures InPass(p, s0, log', store') && Progress(p, store, store') && (AllOk(log') <==> ok)
  {
    OrphanWrite(p, store, k);
    LogWrite(p, s0, log, k, Entry(true, ok, store'), store);
  }

  /** and after writing a desired object. */
  lemma LogInstall(p: Plan, s0: Store, log: seq<Entry>, k: Key, store: Store, ok: bool, store': Store, log': seq<Entry>)
    requires InPass(p, s0, log, store) && AllOk(log) && NeedsWrite(p, store, k) && (k.kind.LwsKind? ==> GangReady(p, store))
    requires store' == store[k := Written(p, store, k)] || (store' == store && !ok)
    requires log' == log + [Entry(true, ok, store')]
    ensures InPass(p, s0, log', store') && Progress(p, store, store') && (AllOk(log') <==> ok)
    ensures store' == Settle(p, store, k) || (store' == store && !ok)
  {
    LogWrite(p, s0, log, k, Entry(true, ok, store'), store);
  }

  lemma NotAnOrphan(p: Plan, s: Store, k: Key)
    requires PlanOk(p) && Coherent(p, s) && k in p.desired
    ensures k in Unsettled(p, s) <==> NeedsWrite(p, s, k)
  {
    if IsOrphan(p, s, k) {
      OrphansAreNotDesired(p, s, k);
    }
  }

  /** No orphan of role r is left. */
  predicate OrphanFree(p: Plan, s: Store, r: string) {
    forall k | k in s && IsOrphan(p, s, k) :: s[k].labels[LABEL_ROLE_NAME] != r
  }

  lemma StaysOrphanFree(p: Plan, s: Store, s': Store, r: string)
    requires OrphanFree(p, s, r) && Progress(p, s, s')
    ensures OrphanFree(p, s', r)
  {
    forall k | k in s' && IsOrphan(p, s', k)
      ensures s'[k].labels[LABEL_ROLE_NAME] != r
    {
      assert k in Unsettled(p, s') && Untouched(s, s', k);
    }
  }

  lemma GangStaysReady(p: Plan, s: Store, s': Store)
    requires PlanOk(p) && GangReady(p, s) && Progress(p, s, s')
    ensures GangReady(p, s')
  {
    if p.gangGroup.Some? {
      var g := p.gangGroup.value;
      assert g in Unsettled(p, s') ==> g in Unsettled(p, s);
    }
  }

  /* ---- what is planned and what is done ---- */

  /** The plan wants replica i of the role exactly as `BuildLWS` makes it. */
  ghost predicate ReplicaPlanned(p: Plan, env: Env, svc: InferenceService, role: Role, i: nat)
    requires Buildable(role)
  {
    var k := LwsKey(svc, role.name, i);
    k in p.desired && p.desired[k] == ReplicaObj(env, svc, role, i)
  }

  ghost predicate RolePlanned(p: Plan, env: Env, svc: InferenceService, role: Role)
    requires Buildable(role)
  {
    && p.ns == svc.ns && p.service == svc.name
    && role.name in p.roleLws && p.roleLws[role.name] == RoleNames(svc, role.name, Instances(role))
    && forall i: nat | i < Instances(role) :: ReplicaPlanned(p, env, svc, role, i)
  }

  lemma EveryRolePlanned(env: Env, svc: InferenceService, role: Role)
    requires Admissible(svc) && role in svc.roles && role.IsWorkload()
    ensures RolePlanned(PlanOf(env, svc), env, svc, role)
  {
    NamesByRoleSpec(svc, svc.roles, role.name);
    forall i: nat | i < Instances(role)
      ensures ReplicaPlanned(PlanOf(env, svc), env, svc, role, i)
    {
      DesiredLwsAt(env, svc, svc.roles, role, i);
      PlanSpec(env, svc, LwsKey(svc, role.name, i));
    }
  }

  /** The first n replicas of a role are settled. */
  ghost predicate ReplicasDone(p: Plan, svc: InferenceService, roleName: string, n: nat, s: Store) {
    forall i: nat | i < n :: LwsKey(svc, roleName, i) !in Unsettled(p, s)
  }

  /** The replica loop before replica n: nothing became unsettled since start, and the first n are done. */
  ghost predicate Replicated(p: Plan, svc: InferenceService, roleName: string, n: nat, s: Store) {
    GangReady(p, s) && ReplicasDone(p, svc, roleName, n, s)
  }

  lemma ReplicatedOneMore(p: Plan, svc: InferenceService, roleName: string, n: nat, start: Store, s: Store, s': Store)
    requires PlanOk(p) && Replicated(p, svc, roleName, n, s) && Progress(p, start, s) && Progress(p, s, s')
    ensures Progress(p, start, s')
    ensures LwsKey(svc, roleName, n) !in Unsettled(p, s') ==> Replicated(p, svc, roleName, n + 1, s')
  {
    ProgressJoins(p, start, s, s');
    GangStaysReady(p, s, s');
    ReplicasStayDone(p, svc, roleName, n, s, s');
  }

  /** Cleaning up: the listed sets not yet looked at are still there, and every other listed one
      has a desired name. */
  ghost predicate LeftToCheck(p: Plan, s: Store, r: string, desiredNames: set<string>, keys: seq<Key>, n: nat)
    requires n <= |keys|
  {
    && r in p.roleLws && p.roleLws[r] == desiredNames
    && (forall i, j | 0 <= i < j < |keys| :: keys[i] != keys[j])
    && (forall m | n <= m < |keys| :: ListedFor(p, s, keys[m], r))
    && (forall k | ListedFor(p, s, k, r) :: k in keys[n..] || k.name in desiredNames)
  }

  lemma AllListed(p: Plan, s: Store, r: string, keys: seq<Key>)
    requires r in p.roleLws
    requires forall k :: k in keys <==> MatchesLabels(s, k, p.ns, p.service, r)
    requires forall i, j | 0 <= i < j < |keys| :: keys[i] != keys[j]
    ensures LeftToCheck(p, s, r, p.roleLws[r], keys, 0)
  {
    assert keys[0..] == keys;
  }

  lemma ListedIsOrphan(p: Plan, s: Store, r: string, keys: seq<Key>, n: nat)
    requires n < |keys| && r in p.roleLws && LeftToCheck(p, s, r, p.roleLws[r], keys, n)
    requires keys[n].name !in p.roleLws[r]
    ensures IsOrphan(p, s, keys[n])
  {
    assert ListedFor(p, s, keys[n], r);
  }

  lemma OneChecked(p: Plan, s: Store, r: string, desiredNames: set<string>, keys: seq<Key>, n: nat, s': Store)
    requires n < |keys| && LeftToCheck(p, s, r, desiredNames, keys, n)
    requires s' == if keys[n].name in desiredNames then s else s - {keys[n]}
    ensures LeftToCheck(p, s', r, desiredNames, keys, n + 1)
  {
    forall k | ListedFor(p, s', k, r)
      ensures k in keys[n + 1..] || k.name in desiredNames
    {
      assert ListedFor(p, s, k, r);
      assert keys[n..] == [keys[n]] + keys[n + 1..];
    }
    forall m | n + 1 <= m < |keys|
      ensures ListedFor(p, s', keys[m], r)
    {
      assert ListedFor(p, s, keys[m], r);
    }
  }

  lemma AllChecked(p: Plan, s: Store, r: string, keys: seq<Key>)
    requires r in p.roleLws && LeftToCheck(p, s, r, p.roleLws[r], keys, |keys|)
    ensures OrphanFree(p, s, r)
  {
    forall k | k in s && IsOrphan(p, s, k)
      ensures s[k].labels[LABEL_ROLE_NAME] != r
    {
      assert s[k].labels[LABEL_ROLE_NAME] == r ==> ListedFor(p, s, k, r);
    }
  }

  /** All replicas of a role are settled and no orphan of it is left. */
  ghost predicate RoleDone(p: Plan, svc: InferenceService, role: Role, s: Store) {
    ReplicasDone(p, svc, role.name, Instances(role), s) && OrphanFree(p, s, role.name)
  }

  lemma ReplicasStayDone(p: Plan, svc: InferenceService, roleName: string, n: nat, s: Store, s': Store)
    requires ReplicasDone(p, svc, roleName, n, s) && Progress(p, s, s')
    ensures ReplicasDone(p, svc, roleName, n, s')
  {
  }

  ghost predicate RouterPlanned(p: Plan, env: Env, svc: InferenceService, role: Role, workerRoles: seq<Role>) {
    forall kind | IsRouterKind(kind) ::
      RouterKey(svc, kind) in p.desired && p.desired[RouterKey(svc, kind)] == RouterObj(env, svc, role, workerRoles, kind)
  }

  ghost predicate KindsDone(p: Plan, svc: InferenceService, kinds: set<Kind>, s: Store) {
    forall kind | kind in kinds :: RouterKey(svc, kind) !in Unsettled(p, s)
  }

  ghost predicate RouterDone(p: Plan, svc: InferenceService, s: Store) {
    forall kind | IsRouterKind(kind) :: RouterKey(svc, kind) !in Unsettled(p, s)
  }

  lemma AllKindsDone(p: Plan, svc: InferenceService, s: Store)
    requires KindsDone(p, svc, RouterKinds(), s)
    ensures RouterDone(p, svc, s)
  {
    assert forall kind | IsRouterKind(kind) :: kind in RouterKinds();
  }

  lemma KindsStayDone(p: Plan, svc: InferenceService, kinds: set<Kind>, s: Store, s': Store)
    requires KindsDone(p, svc, kinds, s) && Progress(p, s, s')
    ensures KindsDone(p, svc, kinds, s')
  {
  }

  lemma EveryRouterPlanned(env: Env, svc: InferenceService, role: Role)
    requires Admissible(svc) && role in svc.roles && role.componentType.Router?
    ensures RouterPlanned(PlanOf(env, svc), env, svc, role, WorkloadRoles(svc.roles))
  {
    assert RouterOf(svc.roles) == role;
    forall kind | IsRouterKind(kind)
      ensures RouterKey(svc, kind) in PlanOf(env, svc).desired
      ensures PlanOf(env, svc).desired[RouterKey(svc, kind)] == RouterObj(env, svc, role, WorkloadRoles(svc.roles), kind)
    {
      PlanSpec(env, svc, RouterKey(svc, kind));
    }
  }

  /** The workload roles among the first n are done. */
  ghost predicate RolesDone(p: Plan, svc: InferenceService, n: nat, s: Store)
    requires n <= |svc.roles|
  {
    forall m | 0 <= m < n && svc.roles[m].IsWorkload() :: RoleDone(p, svc, svc.roles[m], s)
  }

  lemma NextRoleDone(p: Plan, svc: InferenceService, n: nat, s: Store)
    requires n < |svc.roles| && RolesDone(p, svc, n, s)
    requires svc.roles[n].IsWorkload() ==> RoleDone(p, svc, svc.roles[n], s)
    ensures RolesDone(p, svc, n + 1, s)
  {
  }

  lemma WorkloadStep(roles: seq<Role>, n: nat)
    requires n < |roles|
    ensures WorkloadRoles(roles[..n + 1]) ==
            if roles[n].IsWorkload() then WorkloadRoles(roles[..n]) + [roles[n]] else WorkloadRoles(roles[..n])
  {
    assert roles[..n + 1][..n] == roles[..n];
  }

  lemma RolesStayDone(p: Plan, svc: InferenceService, n: nat, s: Store, s': Store)
    requires n <= |svc.roles| && RolesDone(p, svc, n, s) && Progress(p, s, s')
    ensures RolesDone(p, svc, n, s')
  {
    forall m | 0 <= m < n && svc.roles[m].IsWorkload()
      ensures RoleDone(p, svc, svc.roles[m], s')
    {
      assert RoleDone(p, svc, svc.roles[m], s);
      ReplicasStayDone(p, svc, svc.roles[m].name, Instances(svc.roles[m]), s, s');
      StaysOrphanFree(p, s, s', svc.roles[m].name);
    }
  }

  ghost predicate GangPlanned(p: Plan, env: Env, svc: InferenceService) {
    if NeedsGang(svc.roles) then
      var g := PodGroupKey(svc);
      p.gangGroup == Some(g) && g in p.desired && p.desired[g] == PodGroupObj(env, svc)
    else p.gangGroup == None
  }

  /** The plan wants what the builders make, for every step of the pass. */
  ghost predicate Planned(p: Plan, env: Env, svc: InferenceService)
    requires AllBuildable(svc.roles)
  {
    && GangPlanned(p, env, svc)
    && (forall role | role in svc.roles && role.IsWorkload() :: RolePlanned(p, env, svc, role))
    && (forall role | role in svc.roles && role.componentType.Router? ::
          RouterPlanned(p, env, svc, role, WorkloadRoles(svc.roles)))
  }

  lemma PlanIsPlanned(env: Env, svc: InferenceService)
    requires Admissible(svc)
    ensures Planned(PlanOf(env, svc), env, svc)
  {
    PlanSpec(env, svc, PodGroupKey(svc));
    forall role | role in svc.roles && role.IsWorkload()
      ensures RolePlanned(PlanOf(env, svc), env, svc, role)
    {
      EveryRolePlanned(env, svc, role);
    }
    forall role | role in svc.roles && role.componentType.Router?
      ensures RouterPlanned(PlanOf(env, svc), env, svc, role, WorkloadRoles(svc.roles))
    {
      EveryRouterPlanned(env, svc, role);
    }
  }

  /** PodGroup, roles and router are done. */
  ghost predicate AllDone(p: Plan, svc: InferenceService, s: Store) {
    && GangReady(p, s)
    && RolesDone(p, svc, |svc.roles|, s)
    && (HasRouter(svc.roles) ==> RouterDone(p, svc, s))
  }

  lemma ReplicaDone(p: Plan, svc: InferenceService, s: Store, r: Role, i: nat)
    requires RolesDone(p, svc, |svc.roles|, s) && r in svc.roles && r.IsWorkload() && i < Instances(r)
    ensures LwsKey(svc, r.name, i) !in Unsettled(p, s)
  {
    var m :| 0 <= m < |svc.roles| && svc.roles[m] == r;
    assert RoleDone(p, svc, svc.roles[m], s);
  }

  lemma RolesOrphanFree(p: Plan, svc: InferenceService, s: Store)
    requires RolesDone(p, svc, |svc.roles|, s)
    ensures forall role | role in svc.roles && role.IsWorkload() :: OrphanFree(p, s, role.name)
  {
    forall role | role in svc.roles && role.IsWorkload()
      ensures OrphanFree(p, s, role.name)
    {
      var m :| 0 <= m < |svc.roles| && svc.roles[m] == role;
      assert RoleDone(p, svc, svc.roles[m], s);
    }
  }

  lemma OrphanHasRole(env: Env, svc: InferenceService, s: Store, k: Key)
    requires Admissible(svc) && IsOrphan(PlanOf(env, svc), s, k)
    ensures exists role :: role in svc.roles && role.IsWorkload() && !OrphanFree(PlanOf(env, svc), s, role.name)
  {
    NamesByRoleSpec(svc, svc.roles, s[k].labels[LABEL_ROLE_NAME]);
    var role :| role in svc.roles && role.IsWorkload() && role.name == s[k].labels[LABEL_ROLE_NAME];
    assert !OrphanFree(PlanOf(env, svc), s, role.name);
  }

  /** The three kinds of desired keys. */
  ghost predicate KnownKey(p: Plan, svc: InferenceService, k: Key) {
    || p.gangGroup == Some(k)
    || (exists r, i :: IsReplica(svc, svc.roles, r, i, k))
    || (HasRouter(svc.roles) && IsRouterKind(k.kind) && k == RouterKey(svc, k.kind))
  }

  lemma DesiredIsKnown(env: Env, svc: InferenceService, k: Key)
    requires AllBuildable(svc.roles) && k in PlanOf(env, svc).desired
    ensures KnownKey(PlanOf(env, svc), svc, k)
  {
    PlanSpec(env, svc, k);
    DesiredLwsKeys(env, svc, svc.roles, k);
  }

  lemma KnownIsSettled(p: Plan, svc: InferenceService, s: Store, k: Key)
    requires PlanOk(p) && Coherent(p, s) && AllDone(p, svc, s) && k in p.desired && KnownKey(p, svc, k)
    ensures k !in Unsettled(p, s)
  {
    NotAnOrphan(p, s, k);
    if r, i :| IsReplica(svc, svc.roles, r, i, k) {
      ReplicaDone(p, svc, s, r, i);
    }
  }

  /** Then nothing of the plan is left. */
  lemma NothingLeft(env: Env, svc: InferenceService, s: Store)
    requires Admissible(svc) && AllDone(PlanOf(env, svc), svc, s) && Coherent(PlanOf(env, svc), s)
    ensures Unsettled(PlanOf(env, svc), s) == {}
  {
    var p := PlanOf(env, svc);
    PlanIsOk(env, svc);
    RolesOrphanFree(p, svc, s);
    forall k
      ensures k !in Unsettled(p, s)
    {
      if k in p.desired {
        DesiredIsKnown(env, svc, k);
        KnownIsSettled(p, svc, s, k);
      } else if IsOrphan(p, s, k) {
        OrphanHasRole(env, svc, s, k);
      }
    }
  }

  /* ---- a whole pass ---- */

  /** What a pass over the owned objects promises, given its calls and the store it leaves. */
  ghost predicate PassKept(env: Env, svc: InferenceService, s0: Store, log: seq<Entry>, store: Store)
    requires AllBuildable(svc.roles)
  {
    PassLog(PlanOf(env, svc), s0, log) && store == Last(s0, log)
  }

  lemma PassBegins(env: Env, svc: InferenceService, s0: Store)
    requires Admissible(svc) && Named(svc.ns, svc.name, s0)
    ensures InPass(PlanOf(env, svc), s0, [], s0) && Planned(PlanOf(env, svc), env, svc)
  {
    PlanIsOk(env, svc);
    NamedIsCoherent(env, svc, s0);
    PlanIsPlanned(env, svc);
  }

  lemma PassEnds(env: Env, svc: InferenceService, s0: Store, log: seq<Entry>, store: Store)
    requires Admissible(svc) && Named(svc.ns, svc.name, s0)
    requires InPass(PlanOf(env, svc), s0, log, store)
    requires AllOk(log) ==> AllDone(PlanOf(env, svc), svc, store)
    ensures PassKept(env, svc, s0, log, store) && Named(svc.ns, svc.name, store)
  {
    if AllOk(log) {
      NothingLeft(env, svc, store);
    }
    TraceKeepsNamed(env, svc, s0, log);
  }

  /* ---- several passes ---- */

  /** These passes of one version lead from store s0 to store s. */
  ghost predicate Composed(env: Env, svc: InferenceService, s0: Store, passes: seq<seq<Entry>>, s: Store)
    requires AllBuildable(svc.roles)
  {
    Passes(PlanOf(env, svc), s0, passes) && s == End(s0, passes)
  }

  /** Where every run of passes of one version ends that ends without error. */
  ghost function TargetOf(env: Env, svc: InferenceService, s0: Store): Store
    requires AllBuildable(svc.roles)
  {
    Target(PlanOf(env, svc), s0)
  }

  lemma OneMorePass(env: Env, svc: InferenceService, s0: Store, passes: seq<seq<Entry>>, s: Store, log: seq<Entry>, s': Store)
    requires Admissible(svc) && Named(svc.ns, svc.name, s0)
    requires Composed(env, svc, s0, passes, s) && PassKept(env, svc, s, log, s')
    ensures Composed(env, svc, s0, passes + [log], s')
    ensures AllOk(log) ==> s' == TargetOf(env, svc, s0)
  {
    PlanApplies(env, svc, s0);
    PassesOneMore(PlanOf(env, svc), s0, passes, log);
    if AllOk(log) {
      CleanPassHitsTarget(PlanOf(env, svc), s0, passes, log);
    }
  }
}
