/** What passes leave in the store, key by key, and how much they write: in terms of stored objects,
    desired objects and their hash labels alone. */
module Outcome {
  import opened Api
  import opened Convergence
  import opened Planning
  import opened PassProgress

  /** Owned by a current role of the plan: labelled for it, in its namespace. */
  predicate OfCurrentRole(p: Plan, s: Store, k: Key) {
    && k in s && k.kind.LwsKind? && k.ns == p.ns
    && LABEL_SERVICE in s[k].labels && s[k].labels[LABEL_SERVICE] == p.service
    && LABEL_ROLE_NAME in s[k].labels && s[k].labels[LABEL_ROLE_NAME] in p.roleLws
  }

  /** What an update leaves of a stored object: the desired labels and spec, but for the selector of a
      Deployment and the type of a Service. */
  ghost predicate IsUpdated(before: Obj, desired: Obj, o: Obj) {
    && o.labels == desired.labels
    && (match desired.payload
        case DeploymentPayload(_, template) =>
          o.payload == if before.payload.DeploymentPayload? then DeploymentPayload(before.payload.selector, template) else desired.payload
        case ServicePayload(_, selector) =>
          o.payload == if before.payload.ServicePayload? then ServicePayload(before.payload.serviceType, selector) else desired.payload
        case _ => o.payload == desired.payload)
  }

  /** s is what one error-free pass makes of s0, at k: a desired object is created if it is missing,
      updated if its hash label differs and it is not a ServiceAccount, and else left alone; of the
      others, the sets of current roles are deleted and everything else stays. */
  ghost predicate LeftAt(p: Plan, s0: Store, s: Store, k: Key) {
    if k in p.desired then
      && k in s
      && (k !in s0 ==> s[k] == p.desired[k])
      && (k in s0 && !k.kind.ServiceAccountKind? && SpecHash(s0[k]) != SpecHash(p.desired[k]) ==> IsUpdated(s0[k], p.desired[k], s[k]))
      && (k in s0 && (k.kind.ServiceAccountKind? || SpecHash(s0[k]) == SpecHash(p.desired[k])) ==> s[k] == s0[k])
    else
      && (k in s <==> k in s0 && !OfCurrentRole(p, s0, k))
      && (k in s ==> s[k] == s0[k])
  }

  /** The target of all passes from s0, everywhere, */
  lemma TargetLeaves(p: Plan, s0: Store, k: Key)
    requires PlanOk(p) && Coherent(p, s0)
    ensures LeftAt(p, s0, Target(p, s0), k)
  {
    OrphanIff(p, s0, k);
  }

  /** Outside the plan, orphans are the sets of current roles. */
  lemma OrphanIff(p: Plan, s: Store, k: Key)
    requires PlanOk(p) && Coherent(p, s)
    ensures IsOrphan(p, s, k) <==> k !in p.desired && OfCurrentRole(p, s, k)
  {
    if IsOrphan(p, s, k) {
      OrphansAreNotDesired(p, s, k);
    }
    if k !in p.desired && OfCurrentRole(p, s, k) {
      var r := s[k].labels[LABEL_ROLE_NAME];
      assert k.name in p.roleLws[r] ==> OwnsName(p, r, k.name) && k == Key(LwsKind, p.ns, k.name);
    }
  }

  /** and so what an error-free pass leaves; */
  lemma CleanPassLeaves(p: Plan, s0: Store, log: seq<Entry>, k: Key)
    requires PlanOk(p) && Coherent(p, s0) && PassLog(p, s0, log) && AllOk(log)
    ensures LeftAt(p, s0, Last(s0, log), k)
  {
    ExactWork(p, s0, log);
    TargetLeaves(p, s0, k);
  }

  /** in particular no desired object other than a ServiceAccount is left with another hash label. */
  lemma NoneStale(p: Plan, s0: Store, log: seq<Entry>, k: Key)
    requires PlanOk(p) && Coherent(p, s0) && PassLog(p, s0, log) && AllOk(log)
    requires k in p.desired
    ensures var s := Last(s0, log);
            k in s && (!k.kind.ServiceAccountKind? ==> SpecHash(s[k]) == SpecHash(p.desired[k]))
  {
    CleanPassLeaves(p, s0, log, k);
  }

  /* ---- how much is written ---- */

  function Missing(p: Plan, s: Store): set<Key> {
    set k | k in p.desired && k !in s
  }

  function Stale(p: Plan, s: Store): set<Key> {
    set k | k in p.desired && k in s && !k.kind.ServiceAccountKind? && SpecHash(s[k]) != SpecHash(p.desired[k])
  }

  function Unwanted(p: Plan, s: Store): set<Key> {
    set k | k in s && k !in p.desired && OfCurrentRole(p, s, k)
  }

  lemma WorkIs(p: Plan, s: Store, k: Key)
    requires PlanOk(p) && Coherent(p, s)
    ensures k in Unsettled(p, s) <==> k in Missing(p, s) || k in Stale(p, s) || k in Unwanted(p, s)
  {
    UnsettledMeans(p, s, k);
    OrphanIff(p, s, k);
  }

  lemma AllWork(p: Plan, s: Store)
    requires PlanOk(p) && Coherent(p, s)
    ensures Unsettled(p, s) == Missing(p, s) + Stale(p, s) + Unwanted(p, s)
  {
    forall k
      ensures k in Unsettled(p, s) <==> k in Missing(p, s) || k in Stale(p, s) || k in Unwanted(p, s)
    {
      WorkIs(p, s, k);
    }
    SameSet(Unsettled(p, s), Missing(p, s), Stale(p, s), Unwanted(p, s));
  }

  lemma SameSet(w: set<Key>, a: set<Key>, b: set<Key>, c: set<Key>)
    requires forall k :: k in w <==> k in a || k in b || k in c
    ensures w == a + b + c
  {
  }

  lemma Apart(p: Plan, s: Store)
    ensures Missing(p, s) !! Stale(p, s) && (Missing(p, s) + Stale(p, s)) !! Unwanted(p, s)
  {
  }

  lemma Disjoint(a: set<Key>, b: set<Key>, c: set<Key>)
    requires a !! b && (a + b) !! c
    ensures |a + b + c| == |a| + |b| + |c|
  {
  }

  /** The writes of an error-free pass: one for each missing object, each one with another hash label
      and each unwanted set. */
  lemma CleanPassWrites(p: Plan, s0: Store, log: seq<Entry>)
    requires PlanOk(p) && Coherent(p, s0) && PassLog(p, s0, log) && AllOk(log)
    ensures WriteCount(log) == |Missing(p, s0)| + |Stale(p, s0)| + |Unwanted(p, s0)|
  {
    ExactWork(p, s0, log);
    AllWork(p, s0);
    Apart(p, s0);
    Disjoint(Missing(p, s0), Stale(p, s0), Unwanted(p, s0));
  }

  /* ---- for a service ---- */

  /** Whatever failed before it, the first error-free pass for this version leaves every key so, */
  lemma ServiceLeaves(env: Env, svc: InferenceService, s0: Store, failed: seq<seq<Entry>>, last: seq<Entry>, k: Key)
    requires Admissible(svc) && Named(svc.ns, svc.name, s0) && Passes(PlanOf(env, svc), s0, failed)
    requires PassLog(PlanOf(env, svc), End(s0, failed), last) && AllOk(last)
    ensures LeftAt(PlanOf(env, svc), s0, Last(End(s0, failed), last), k)
  {
    PlanApplies(env, svc, s0);
    CleanPassHitsTarget(PlanOf(env, svc), s0, failed, last);
    TargetLeaves(PlanOf(env, svc), s0, k);
  }

  /** and writes this often. */
  lemma ServiceWrites(env: Env, svc: InferenceService, s0: Store, log: seq<Entry>)
    requires Admissible(svc) && Named(svc.ns, svc.name, s0) && PassLog(PlanOf(env, svc), s0, log) && AllOk(log)
    ensures var p := PlanOf(env, svc); WriteCount(log) == |Missing(p, s0)| + |Stale(p, s0)| + |Unwanted(p, s0)|
  {
    PlanApplies(env, svc, s0);
    CleanPassWrites(PlanOf(env, svc), s0, log);
  }

  /** It is what `Reconciler.ReconcileEach` ends in. */
  lemma TargetOfLeaves(env: Env, svc: InferenceService, s0: Store, k: Key)
    requires Admissible(svc) && Named(svc.ns, svc.name, s0)
    ensures LeftAt(PlanOf(env, svc), s0, TargetOf(env, svc, s0), k)
  {
    PlanApplies(env, svc, s0);
    TargetLeaves(PlanOf(env, svc), s0, k);
  }
}
