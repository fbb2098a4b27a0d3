/** Runs over changing specs of one service: every stored object stays one that was built for some
    version, so hashes that tell these versions' specs apart are all that the next pass needs. */
module Versions {
  import opened Api
  import opened Scheduling
  import opened Workload
  import opened WorkloadFacts
  import opened Router
  import opened PodGroupFacts
  import opened Convergence
  import opened Planning
  import opened Gang

  /** Versions of the one service ns/name. */
  ghost predicate AreVersions(ns: string, name: string, versions: set<InferenceService>) {
    forall v | v in versions :: v.ns == ns && v.name == name && Admissible(v)
  }

  /** o is what version v builds at k. */
  ghost predicate Builds(env: Env, v: InferenceService, k: Key, o: Obj) {
    AllBuildable(v.roles) && k in PlanOf(env, v).desired && PlanOf(env, v).desired[k] == o
  }

  ghost predicate Wanted(env: Env, v: InferenceService, k: Key) {
    AllBuildable(v.roles) && k in PlanOf(env, v).desired
  }

  /** Whatever is stored at a key that some version wants was built there for some version. */
  ghost predicate BuiltStore(env: Env, versions: set<InferenceService>, s: Store) {
    forall k, v | k in s && v in versions && Wanted(env, v, k) :: BuiltForSome(env, versions, k, s[k])
  }

  ghost predicate BuiltForSome(env: Env, versions: set<InferenceService>, k: Key, o: Obj) {
    exists v :: v in versions && Builds(env, v, k, o)
  }

  /* ---- every move of every version keeps it ---- */

  /** An update over an object built for another version leaves the newly built one whole. */
  lemma BuiltMerges(env: Env, v: InferenceService, w: InferenceService, k: Key)
    requires v.ns == w.ns && v.name == w.name && Wanted(env, v, k) && Wanted(env, w, k)
    ensures var d := PlanOf(env, w).desired[k].payload; Merge(PlanOf(env, v).desired[k].payload, d) == d
  {
    PlanSpec(env, v, k);
    PlanSpec(env, w, k);
    if k.kind.LwsKind? {
      DesiredPayload(env, w, w.roles, k);
    } else if IsRouterKind(k.kind) {
      RouterMerges(env, v, w, RouterOf(v.roles), WorkloadRoles(v.roles), RouterOf(w.roles), WorkloadRoles(w.roles), k.kind);
    }
  }

  lemma RouterMerges(env: Env, v: InferenceService, w: InferenceService, role: Role, workers: seq<Role>,
                     role': Role, workers': seq<Role>, kind: Kind)
    requires v.ns == w.ns && v.name == w.name && IsRouterKind(kind)
    ensures var d := RouterObj(env, w, role', workers', kind).payload;
            Merge(RouterObj(env, v, role, workers, kind).payload, d) == d
  {
  }

  lemma WrittenIsBuilt(env: Env, versions: set<InferenceService>, ns: string, name: string, w: InferenceService, s: Store, k: Key)
    requires AreVersions(ns, name, versions) && w in versions && BuiltStore(env, versions, s) && k in PlanOf(env, w).desired
    ensures Written(PlanOf(env, w), s, k) == PlanOf(env, w).desired[k]
    ensures Mergeable(PlanOf(env, w), s, k)
  {
    if k in s {
      assert Wanted(env, w, k);
      var v :| v in versions && Builds(env, v, k, s[k]);
      BuiltMerges(env, v, w, k);
    }
  }

  lemma MoveKeepsBuilt(env: Env, versions: set<InferenceService>, ns: string, name: string, w: InferenceService, s: Store, e: Entry)
    requires AreVersions(ns, name, versions) && w in versions
    requires BuiltStore(env, versions, s) && Move(PlanOf(env, w), s, e)
    ensures BuiltStore(env, versions, e.store)
  {
    if e.store != s {
      var p := PlanOf(env, w);
      var k :| Settles(p, s, k, e.store);
      forall j, v | j in e.store && v in versions && Wanted(env, v, j)
        ensures BuiltForSome(env, versions, j, e.store[j])
      {
        if j == k && k in p.desired {
          WrittenIsBuilt(env, versions, ns, name, w, s, k);
          assert Builds(env, w, k, e.store[k]);
        } else {
          assert BuiltForSome(env, versions, j, s[j]);
        }
      }
    }
  }

  lemma {:induction false} TraceKeepsBuilt(env: Env, versions: set<InferenceService>, ns: string, name: string,
                                           w: InferenceService, s0: Store, log: seq<Entry>)
    requires AreVersions(ns, name, versions) && w in versions
    requires BuiltStore(env, versions, s0) && Trace(PlanOf(env, w), s0, log)
    ensures BuiltStore(env, versions, Last(s0, log))
  {
    if log != [] {
      TraceInit(PlanOf(env, w), s0, log);
      TraceKeepsBuilt(env, versions, ns, name, w, s0, log[..|log| - 1]);
      MoveKeepsBuilt(env, versions, ns, name, w, Last(s0, log[..|log| - 1]), log[|log| - 1]);
    }
  }

  /* ---- equal hashes mean equal objects ---- */

  /** The payloads that the builders of version v hash. */
  ghost predicate Hashes(env: Env, v: InferenceService, a: Payload) {
    || a == PodGroupPayload(PodGroupSpecOf(v.roles))
    || (exists r, i: nat :: HashesSet(v, r, i, a))
    || (HasRouter(v.roles) && exists kind :: HashesRouter(env, v, kind, a))
  }

  ghost predicate HashesSet(v: InferenceService, r: Role, i: nat, a: Payload) {
    r in v.roles && r.IsWorkload() && Buildable(r) && i < Instances(r) && a == LwsPayload(LwsSpecOf(v, r, ConfigOf(v, r, i)))
  }

  ghost predicate HashesRouter(env: Env, v: InferenceService, kind: Kind, a: Payload)
    requires HasRouter(v.roles)
  {
    a == RouterPayload(env, v, RouterOf(v.roles), WorkloadRoles(v.roles), kind)
  }

  /** The hash tells apart all payloads that these versions hash. */
  ghost predicate HashTells(env: Env, versions: set<InferenceService>) {
    forall v, w, a, b | v in versions && w in versions && Hashes(env, v, a) && Hashes(env, w, b) && env.hash(a) == env.hash(b) ::
      a == b
  }

  /** Then no update is skipped wrongly: objects built for two versions at one key that carry the same
      hash label are the same object. */
  lemma SameHashSameObject(env: Env, versions: set<InferenceService>, v: InferenceService, w: InferenceService, k: Key)
    requires HashTells(env, versions) && v in versions && w in versions && v.ns == w.ns && v.name == w.name
    requires Admissible(v) && Admissible(w) && k in PlanOf(env, v).desired && k in PlanOf(env, w).desired
    requires k.kind.ServiceAccountKind? || SpecHash(PlanOf(env, v).desired[k]) == SpecHash(PlanOf(env, w).desired[k])
    ensures PlanOf(env, v).desired[k] == PlanOf(env, w).desired[k]
  {
    PlanSpec(env, v, k);
    PlanSpec(env, w, k);
    match k.kind {
      case PodGroupKind =>
        assert Hashes(env, v, PodGroupPayload(PodGroupSpecOf(v.roles)));
        assert Hashes(env, w, PodGroupPayload(PodGroupSpecOf(w.roles)));
      case LwsKind =>
        var r, i := WantedReplica(env, v, k);
        var r', i' := WantedReplica(env, w, k);
        SameHashSameSet(env, versions, v, r, i, w, r', i');
      case _ =>
        SameHashSameRouter(env, versions, v, w, k.kind);
    }
  }

  lemma WantedReplica(env: Env, v: InferenceService, k: Key) returns (r: Role, i: nat)
    requires Admissible(v) && k in PlanOf(env, v).desired && k.kind.LwsKind?
    ensures IsReplica(v, v.roles, r, i, k) && PlanOf(env, v).desired[k] == ReplicaObj(env, v, r, i)
  {
    PlanSpec(env, v, k);
    DesiredLwsKeys(env, v, v.roles, k);
    r, i :| IsReplica(v, v.roles, r, i, k);
    DesiredLwsAt(env, v, v.roles, r, i);
  }

  lemma SameHashSameSet(env: Env, versions: set<InferenceService>, v: InferenceService, r: Role, i: nat,
                        w: InferenceService, r': Role, i': nat)
    requires HashTells(env, versions) && v in versions && w in versions
    requires r in v.roles && r.IsWorkload() && Buildable(r) && i < Instances(r)
    requires r' in w.roles && r'.IsWorkload() && Buildable(r') && i' < Instances(r')
    requires SpecHash(ReplicaObj(env, v, r, i)) == SpecHash(ReplicaObj(env, w, r', i'))
    ensures ReplicaObj(env, v, r, i) == ReplicaObj(env, w, r', i')
  {
    var a, b := LwsPayload(LwsSpecOf(v, r, ConfigOf(v, r, i))), LwsPayload(LwsSpecOf(w, r', ConfigOf(w, r', i')));
    assert HashesSet(v, r, i, a) && HashesSet(w, r', i', b);
    assert Hashes(env, v, a) && Hashes(env, w, b);
    LabelDecidesStaleness(env, v, r, ConfigOf(v, r, i), w, r', ConfigOf(w, r', i'));
  }

  lemma SameHashSameRouter(env: Env, versions: set<InferenceService>, v: InferenceService, w: InferenceService, kind: Kind)
    requires HashTells(env, versions) && v in versions && w in versions && v.ns == w.ns && v.name == w.name
    requires HasRouter(v.roles) && HasRouter(w.roles) && IsRouterKind(kind)
    requires var a := RouterObj(env, v, RouterOf(v.roles), WorkloadRoles(v.roles), kind);
             var b := RouterObj(env, w, RouterOf(w.roles), WorkloadRoles(w.roles), kind);
             kind.ServiceAccountKind? || SpecHash(a) == SpecHash(b)
    ensures RouterObj(env, v, RouterOf(v.roles), WorkloadRoles(v.roles), kind)
            == RouterObj(env, w, RouterOf(w.roles), WorkloadRoles(w.roles), kind)
  {
    var a := RouterPayload(env, v, RouterOf(v.roles), WorkloadRoles(v.roles), kind);
    var b := RouterPayload(env, w, RouterOf(w.roles), WorkloadRoles(w.roles), kind);
    assert HashesRouter(env, v, kind, a) && HashesRouter(env, w, kind, b);
    assert Hashes(env, v, a) && Hashes(env, w, b);
  }

  /** So the next pass, of whatever version, meets no collision and can install everything. */
  lemma NothingCollides(env: Env, versions: set<InferenceService>, ns: string, name: string, w: InferenceService, s: Store, k: Key)
    requires AreVersions(ns, name, versions) && w in versions && HashTells(env, versions) && BuiltStore(env, versions, s)
    ensures !Collides(PlanOf(env, w), s, k)
    ensures k in PlanOf(env, w).desired ==> Mergeable(PlanOf(env, w), s, k)
  {
    if k in PlanOf(env, w).desired {
      WrittenIsBuilt(env, versions, ns, name, w, s, k);
      if k in s && !NeedsWrite(PlanOf(env, w), s, k) {
        assert Wanted(env, w, k);
        var v :| v in versions && Builds(env, v, k, s[k]);
        SameHashSameObject(env, versions, v, w, k);
      }
    }
  }

  /* ---- runs over changing specs ---- */

  /** All passes are passes of these versions. */
  predicate PassesOf(versions: set<InferenceService>, passes: seq<Pass>) {
    forall m | 0 <= m < |passes| :: passes[m].svc in versions
  }

  /** A run over these versions, from a store whose objects were built for them. */
  ghost predicate OnTrack(env: Env, versions: set<InferenceService>, ns: string, name: string, s0: Store, passes: seq<Pass>) {
    && AreVersions(ns, name, versions) && PassesOf(versions, passes) && Run(env, s0, passes)
    && BuiltStore(env, versions, s0) && Named(ns, name, s0)
  }

  /** Any pass of any version keeps both. */
  lemma PassKeepsBuilt(env: Env, versions: set<InferenceService>, ns: string, name: string, s: Store, p: Pass, s': Store)
    requires AreVersions(ns, name, versions) && p.svc in versions
    requires Admissible(p.svc) && PassLog(PlanOf(env, p.svc), s, p.log) && s' == Last(s, p.log)
    ensures BuiltStore(env, versions, s) && Named(ns, name, s) ==> BuiltStore(env, versions, s') && Named(ns, name, s')
  {
    if BuiltStore(env, versions, s) && Named(ns, name, s) {
      TraceKeepsBuilt(env, versions, ns, name, p.svc, s, p.log);
      TraceKeepsNamed(env, p.svc, s, p.log);
    }
  }

  /** Hence the store s that the m-th pass of a run starts from is still such a store. */
  lemma {:induction false} StartIsBuilt(env: Env, versions: set<InferenceService>, ns: string, name: string,
                                        s0: Store, passes: seq<Pass>, m: nat, s: Store)
    requires OnTrack(env, versions, ns, name, s0, passes) && m <= |passes| && s == StartOf(s0, passes, m)
    ensures BuiltStore(env, versions, s) && Named(ns, name, s)
  {
    if m > 0 {
      var s' := StartOf(s0, passes, m - 1);
      StartIsBuilt(env, versions, ns, name, s0, passes, m - 1, s');
      assert PassAt(env, s0, passes, m - 1);
      PassKeepsBuilt(env, versions, ns, name, s', passes[m - 1], s);
    }
  }

  lemma PassOfRun(env: Env, versions: set<InferenceService>, ns: string, name: string, s0: Store, passes: seq<Pass>, m: nat, s: Store)
    requires OnTrack(env, versions, ns, name, s0, passes) && m < |passes| && s == StartOf(s0, passes, m)
    ensures BuiltStore(env, versions, s) && Named(ns, name, s)
    ensures passes[m].svc in versions && Admissible(passes[m].svc) && PassLog(PlanOf(env, passes[m].svc), s, passes[m].log)
  {
    StartIsBuilt(env, versions, ns, name, s0, passes, m, s);
    assert PassAt(env, s0, passes, m);
  }

  /** After each error-free pass of such a run, whatever failed before it and whatever versions went
      before, every object of the pass's own version is stored exactly as built, */
  lemma RunInstalls(env: Env, versions: set<InferenceService>, ns: string, name: string,
                    s0: Store, passes: seq<Pass>, m: nat, k: Key)
    requires OnTrack(env, versions, ns, name, s0, passes) && m < |passes| && HashTells(env, versions)
    requires AllOk(passes[m].log) && Wanted(env, passes[m].svc, k)
    ensures var s := Last(StartOf(s0, passes, m), passes[m].log);
            k in s && s[k] == PlanOf(env, passes[m].svc).desired[k]
  {
    PassOfRun(env, versions, ns, name, s0, passes, m, StartOf(s0, passes, m));
    NothingCollides(env, versions, ns, name, passes[m].svc, StartOf(s0, passes, m), k);
    CleanPassInstalls(env, passes[m].svc, StartOf(s0, passes, m), passes[m].log, k);
  }

  /** The sets of current roles and the PodGroup fit together: every group-annotated set carries a
      task, its PodGroup lists that task with the set's size, every listed task is carried, none twice. */
  ghost predicate GangWhole(env: Env, svc: InferenceService, s: Store)
    requires AllBuildable(svc.roles)
  {
    && (forall k, role | role in svc.roles && role.IsWorkload() && ListedFor(PlanOf(env, svc), s, k, role.name) && GroupAnnotated(s[k]) ::
          NeedsGang(svc.roles) && exists t :: CarriesTask(env, svc, s, k, t))
    && (forall k, t | CarriesTask(env, svc, s, k, t) :: TaskListed(svc, s, k, t))
    && (forall t | NeedsGang(svc.roles) && ListedTask(svc, s, t) :: exists k :: CarriesTask(env, svc, s, k, t))
    && (forall k, k', t | CarriesTask(env, svc, s, k, t) && CarriesTask(env, svc, s, k', t) :: k == k')
  }

  predicate ListedTask(svc: InferenceService, s: Store, t: string) {
    var g := PodGroupKey(svc);
    g in s && s[g].payload.PodGroupPayload? && t in s[g].payload.podGroup.minTaskMember
  }

  /** and gang integrity holds. */
  lemma RunGangWhole(env: Env, versions: set<InferenceService>, ns: string, name: string, s0: Store, passes: seq<Pass>, m: nat)
    requires OnTrack(env, versions, ns, name, s0, passes) && m < |passes| && HashTells(env, versions)
    requires AllOk(passes[m].log) && name != ""
    ensures AllBuildable(passes[m].svc.roles)
    ensures GangWhole(env, passes[m].svc, Last(StartOf(s0, passes, m), passes[m].log))
  {
    PassOfRun(env, versions, ns, name, s0, passes, m, StartOf(s0, passes, m));
    PassGangWhole(env, versions, ns, name, passes[m].svc, StartOf(s0, passes, m), passes[m].log);
  }

  lemma PassGangWhole(env: Env, versions: set<InferenceService>, ns: string, name: string, svc: InferenceService, s0: Store, log: seq<Entry>)
    requires AreVersions(ns, name, versions) && svc in versions && name != "" && HashTells(env, versions)
    requires BuiltStore(env, versions, s0) && Named(ns, name, s0) && CleanPass(env, svc, s0, log)
    ensures GangWhole(env, svc, Last(s0, log))
  {
    var s := Last(s0, log);
    forall k
      ensures !Collides(PlanOf(env, svc), s0, k)
    {
      NothingCollides(env, versions, ns, name, svc, s0, k);
    }
    forall k, role | role in svc.roles && role.IsWorkload() && ListedFor(PlanOf(env, svc), s, k, role.name) && GroupAnnotated(s[k])
      ensures NeedsGang(svc.roles) && exists t :: CarriesTask(env, svc, s, k, t)
    {
      if !NeedsGang(svc.roles) {
        NoGangNoAnnotation(env, svc, s0, log, role, k);
      }
      var t := GangTotal(env, svc, s0, log, role, k);
    }
    forall k, t | CarriesTask(env, svc, s, k, t)
      ensures TaskListed(svc, s, k, t)
    {
      GangIntegrity(env, svc, s0, log, k, t);
    }
    forall t | NeedsGang(svc.roles) && ListedTask(svc, s, t)
      ensures exists k :: CarriesTask(env, svc, s, k, t)
    {
      var k := GangComplete(env, svc, s0, log, t);
    }
    forall k, k', t | CarriesTask(env, svc, s, k, t) && CarriesTask(env, svc, s, k', t)
      ensures k == k'
    {
      GangInjective(env, svc, s0, log, k, k', t);
    }
  }

  /** In mid-pass, too, and in passes that fail: at every call of every such run that writes a set with
      a task, the PodGroup already lists that task with the set's size. */
  lemma RunListsTaskFirst(env: Env, versions: set<InferenceService>, ns: string, name: string,
                          s0: Store, passes: seq<Pass>, m: nat, n: nat, k: Key)
    requires OnTrack(env, versions, ns, name, s0, passes) && m < |passes| && HashTells(env, versions)
    requires n < |passes[m].log| && k.kind.LwsKind? && k in passes[m].log[n].store && GroupAnnotated(passes[m].log[n].store[k])
    requires AllBuildable(passes[m].svc.roles)
    requires Settles(PlanOf(env, passes[m].svc), At(StartOf(s0, passes, m), passes[m].log, n), k, passes[m].log[n].store)
    ensures TaskReady(passes[m].svc, At(StartOf(s0, passes, m), passes[m].log, n), passes[m].log[n].store[k])
  {
    PassOfRun(env, versions, ns, name, s0, passes, m, StartOf(s0, passes, m));
    NothingCollides(env, versions, ns, name, passes[m].svc, StartOf(s0, passes, m), PodGroupKey(passes[m].svc));
    TaskListedBeforeWrite(env, passes[m].svc, StartOf(s0, passes, m), passes[m].log, n, k);
  }

  /** The hypotheses on the start of a run are met by an empty cluster. */
  lemma EmptyStoreIsBuilt(env: Env, versions: set<InferenceService>, ns: string, name: string)
    ensures BuiltStore(env, versions, map[]) && Named(ns, name, map[])
  {
  }
}
