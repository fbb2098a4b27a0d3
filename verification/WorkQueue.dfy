/** The work queue: `Reconcile` called again and again while users edit the service and the
    LeaderWorkerSet controller reports statuses. What is proved of runs of passes holds of these calls. */
module WorkQueue {
  import opened Api
  import opened Status
  import opened Conditions
  import opened Workload
  import opened Convergence
  import opened Planning
  import opened PassProgress
  import opened Observation
  import opened Cluster
  import opened Controller
  import opened Gang
  import opened Versions

  /** What may happen before a call: a new version of the service, new statuses of its sets. */
  datatype Edit = Edit(svc: InferenceService, statuses: map<Key, LwsStatus>)

  ghost predicate AreEdits(ns: string, name: string, edits: seq<Edit>) {
    forall e | e in edits :: IsEdit(ns, name, e)
  }

  ghost predicate IsEdit(ns: string, name: string, e: Edit) {
    e.svc.ns == ns && e.svc.name == name && Admissible(e.svc)
  }

  ghost function VersionsOf(edits: seq<Edit>): set<InferenceService> {
    set e | e in edits :: e.svc
  }

  lemma EditsAreVersions(ns: string, name: string, edits: seq<Edit>)
    requires AreEdits(ns, name, edits)
    ensures AreVersions(ns, name, VersionsOf(edits))
  {
    forall v | v in VersionsOf(edits)
      ensures v.ns == ns && v.name == name && Admissible(v)
    {
      var e :| e in edits && e.svc == v;
      assert IsEdit(ns, name, e);
    }
  }

  /** A run of passes, and the store it leads to. */
  ghost predicate Leads(env: Env, ns: string, name: string, s0: Store, passes: seq<Pass>, s: Store) {
    Run(env, s0, passes) && s == StartOf(s0, passes, |passes|) && Named(ns, name, s)
  }

  lemma LeadsOn(env: Env, ns: string, name: string, s0: Store, passes: seq<Pass>, s: Store,
                svc: InferenceService, log: seq<Entry>, s': Store)
    requires Leads(env, ns, name, s0, passes, s) && Admissible(svc) && PassKept(env, svc, s, log, s') && Named(ns, name, s')
    ensures Leads(env, ns, name, s0, passes + [Pass(svc, log)], s')
  {
    RunOneMore(env, s0, passes, svc, log);
  }

  /** What the calls so far have done: their passes lead from store s0 to what is stored, and the stored
      status is that of the history of their status writes. */
  ghost predicate Served(r: Reconciler, ns: string, name: string, s0: Store, passes: seq<Pass>,
                         status0: ServiceStatus, history: seq<StatusPass>)
    reads r.server
  {
    && Leads(r.env, ns, name, s0, passes, r.server.store)
    && (ns, name) in r.server.services && r.server.services[(ns, name)].status == StatusLeft(status0, history)
  }

  /** One call, after an edit. */
  method ReconcileEdit(r: Reconciler, ns: string, name: string, edit: Edit, ghost s0: Store, ghost passes: seq<Pass>,
                       ghost status0: ServiceStatus, ghost history: seq<StatusPass>)
    returns (err: Option<string>, ghost passes': seq<Pass>, ghost history': seq<StatusPass>)
    requires IsEdit(ns, name, edit) && Served(r, ns, name, s0, passes, status0, history)
    modifies r.server, r`applied, r`failure, r`statusBase
    ensures Served(r, ns, name, s0, passes', status0, history')
    ensures passes' == passes || passes' == passes + [Pass(edit.svc, r.applied)]
    ensures err.None? ==> passes' == passes + [Pass(edit.svc, r.applied)] && AllOk(r.applied)
    ensures old(r.server.calls) < r.server.calls && (r.Quiet(old(r.server.calls), r.server.calls) ==> err.None?)
  {
    var stored := r.server.services[(ns, name)].(svc := edit.svc);
    r.server.services := r.server.services[(ns, name) := stored];
    r.server.lwsStatus := edit.statuses;
    ghost var services, store := r.server.services, r.server.store;
    ghost var fetched := r.Fetched(ns, name, services, r.server.calls);
    err := r.Reconcile(ns, name);
    passes', history' := passes, history;
    if fetched {
      ghost var v := r.ViewFrom(r.statusBase);
      LeadsOn(r.env, ns, name, s0, passes, store, edit.svc, r.applied, r.server.store);
      StatusFollowsHistory(v, stored, r.failure, (ns, name), services, status0, history);
      passes', history' := passes + [Pass(edit.svc, r.applied)], history + [PassSeen(v, stored, r.failure)];
    }
  }

  /** At every API call of every pass, an annotated LeaderWorkerSet's PodGroup exists. */
  ghost predicate AlwaysAnchored(s0: Store, passes: seq<Pass>) {
    forall m, n | 0 <= m < |passes| && 0 <= n <= |passes[m].log| :: Anchored(At(StartOf(s0, passes, m), passes[m].log, n))
  }

  /** Every object of this version is stored exactly as built. */
  ghost predicate Installed(env: Env, svc: InferenceService, s: Store)
    requires AllBuildable(svc.roles)
  {
    forall k | k in PlanOf(env, svc).desired :: k in s && s[k] == PlanOf(env, svc).desired[k]
  }

  lemma CallsStayAnchored(env: Env, ns: string, name: string, s0: Store, passes: seq<Pass>, s: Store)
    requires Leads(env, ns, name, s0, passes, s) && Anchored(s0)
    ensures AlwaysAnchored(s0, passes) && Anchored(s)
  {
    forall m, n | 0 <= m < |passes| && 0 <= n <= |passes[m].log|
      ensures Anchored(At(StartOf(s0, passes, m), passes[m].log, n))
    {
      RunKeepsAnchored(env, s0, passes, m, n);
    }
    StartIsAnchored(env, s0, passes, |passes|);
  }

  lemma LastPassWhole(env: Env, versions: set<InferenceService>, ns: string, name: string, s0: Store, passes: seq<Pass>,
                      svc: InferenceService, s: Store)
    requires OnTrack(env, versions, ns, name, s0, passes) && HashTells(env, versions)
    requires passes != [] && passes[|passes| - 1].svc == svc && AllOk(passes[|passes| - 1].log)
    requires s == StartOf(s0, passes, |passes|) && AllBuildable(svc.roles)
    ensures Installed(env, svc, s) && (name != "" ==> GangWhole(env, svc, s))
  {
    var m := |passes| - 1;
    forall k | k in PlanOf(env, svc).desired
      ensures k in s && s[k] == PlanOf(env, svc).desired[k]
    {
      RunInstalls(env, versions, ns, name, s0, passes, m, k);
    }
    if name != "" {
      RunGangWhole(env, versions, ns, name, s0, passes, m);
    }
  }

  /** Any number of calls over a service that changes as it likes, each of which may fail anywhere. A last
      call none of whose API calls fails returns no error. Whenever the last one returns none, everything
      its version wants is stored as built and the gang is whole, whatever failed before, provided the
      hash tells the versions apart. In the middle of all of them no annotated set lacks its PodGroup. */
  method ReconcileEdits(r: Reconciler, ns: string, name: string, edits: seq<Edit>)
    returns (err: Option<string>, ghost passes: seq<Pass>, ghost history: seq<StatusPass>, ghost last: nat)
    requires (ns, name) in r.server.services && AreEdits(ns, name, edits) && Named(ns, name, r.server.store)
    modifies r.server, r`applied, r`failure, r`statusBase
    ensures Served(r, ns, name, old(r.server.store), passes, old(r.server.services[(ns, name)].status), history)
    ensures PassesOf(VersionsOf(edits), passes)
    ensures edits != [] ==> last < r.server.calls && (r.Quiet(last, r.server.calls) ==> err.None?)
    ensures edits != [] && err.None? && BuiltStore(r.env, VersionsOf(edits), old(r.server.store)) && HashTells(r.env, VersionsOf(edits)) ==>
              var svc := edits[|edits| - 1].svc;
              AllBuildable(svc.roles) && Installed(r.env, svc, r.server.store) && (name != "" ==> GangWhole(r.env, svc, r.server.store))
    ensures Anchored(old(r.server.store)) ==> AlwaysAnchored(old(r.server.store), passes) && Anchored(r.server.store)
  {
    ghost var s0, status0 := r.server.store, r.server.services[(ns, name)].status;
    err, passes, history, last := None, [], [], r.server.calls;
    for n := 0 to |edits|
      invariant Served(r, ns, name, s0, passes, status0, history)
      invariant PassesOf(VersionsOf(edits), passes)
      invariant n > 0 ==> last < r.server.calls && (r.Quiet(last, r.server.calls) ==> err.None?)
      invariant n > 0 && err.None? ==> LastOf(passes, edits[n - 1].svc)
    {
      last := r.server.calls;
      assert IsEdit(ns, name, edits[n]);
      err, passes, history := ReconcileEdit(r, ns, name, edits[n], s0, passes, status0, history);
    }
    QueueEnds(r.env, ns, name, edits, s0, passes, r.server.store, err.None?);
  }

  /** The last pass was an error-free one of this version. */
  predicate LastOf(passes: seq<Pass>, svc: InferenceService) {
    passes != [] && passes[|passes| - 1].svc == svc && AllOk(passes[|passes| - 1].log)
  }

  lemma QueueEnds(env: Env, ns: string, name: string, edits: seq<Edit>, s0: Store, passes: seq<Pass>, s: Store, clean: bool)
    requires AreEdits(ns, name, edits) && Named(ns, name, s0) && Leads(env, ns, name, s0, passes, s)
    requires PassesOf(VersionsOf(edits), passes)
    requires edits != [] && clean ==> LastOf(passes, edits[|edits| - 1].svc)
    ensures edits != [] && clean && BuiltStore(env, VersionsOf(edits), s0) && HashTells(env, VersionsOf(edits)) ==>
              var svc := edits[|edits| - 1].svc;
              AllBuildable(svc.roles) && Installed(env, svc, s) && (name != "" ==> GangWhole(env, svc, s))
    ensures Anchored(s0) ==> AlwaysAnchored(s0, passes) && Anchored(s)
  {
    EditsAreVersions(ns, name, edits);
    assert edits != [] ==> IsEdit(ns, name, edits[|edits| - 1]);
    if edits != [] && clean && BuiltStore(env, VersionsOf(edits), s0) && HashTells(env, VersionsOf(edits)) {
      LastPassWhole(env, VersionsOf(edits), ns, name, s0, passes, edits[|edits| - 1].svc, s);
    }
    if Anchored(s0) {
      CallsStayAnchored(env, ns, name, s0, passes, s);
    }
  }
}
