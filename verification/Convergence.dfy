/** What one reconcile pass may do to the owned objects, independent of who builds them.
    A plan is everything a pass derives from one version of a service. */
module Convergence {
  import opened Api

  /** desired: the owned objects; roleLws: for each current workload role the names of its
      LeaderWorkerSets; gangGroup: the PodGroup that gang scheduling needs first. */
  datatype Plan = Plan(
    ns: string, service: string,
    desired: map<Key, Obj>, roleLws: map<string, set<string>>, gangGroup: Option<Key>)

  /** The desired LeaderWorkerSets are exactly the names listed per role, each labelled with
      the service and its role; every desired object is in the service's namespace. */
  ghost predicate PlanOk(p: Plan) {
    && (forall k | k in p.desired :: k.ns == p.ns)
    && (forall k | k in p.desired && k.kind.LwsKind? ::
          && LABEL_SERVICE in p.desired[k].labels && p.desired[k].labels[LABEL_SERVICE] == p.service
          && LABEL_ROLE_NAME in p.desired[k].labels
          && OwnsName(p, p.desired[k].labels[LABEL_ROLE_NAME], k.name))
    && (forall r, n | OwnsName(p, r, n) ::
          var k := Key(LwsKind, p.ns, n);
          k in p.desired && LABEL_ROLE_NAME in p.desired[k].labels && p.desired[k].labels[LABEL_ROLE_NAME] == r)
    && (p.gangGroup.Some? ==> p.gangGroup.value in p.desired && p.gangGroup.value.kind.PodGroupKind?)
  }

  predicate OwnsName(p: Plan, r: string, n: string) {
    r in p.roleLws && n in p.roleLws[r]
  }

  /** The label selector of the orphan listing: this namespace, service and role. */
  predicate MatchesLabels(s: Store, k: Key, ns: string, service: string, r: string) {
    && k in s && k.kind.LwsKind? && k.ns == ns
    && LABEL_SERVICE in s[k].labels && s[k].labels[LABEL_SERVICE] == service
    && LABEL_ROLE_NAME in s[k].labels && s[k].labels[LABEL_ROLE_NAME] == r
  }

  predicate ListedFor(p: Plan, s: Store, k: Key, r: string) {
    MatchesLabels(s, k, p.ns, p.service, r)
  }

  /** Listed for a current role whose desired names do not include it. */
  predicate IsOrphan(p: Plan, s: Store, k: Key) {
    && k in s && LABEL_ROLE_NAME in s[k].labels
    && var r := s[k].labels[LABEL_ROLE_NAME];
    && ListedFor(p, s, k, r) && r in p.roleLws && k.name !in p.roleLws[r]
  }

  /** Desired, and missing or carrying another hash. A ServiceAccount is never updated. */
  predicate NeedsWrite(p: Plan, s: Store, k: Key) {
    && k in p.desired
    && (k !in s || (!k.kind.ServiceAccountKind? && SpecHash(s[k]) != SpecHash(p.desired[k])))
  }

  /** The work left: one write for each of these keys. */
  function Unsettled(p: Plan, s: Store): set<Key> {
    (set k | k in p.desired && NeedsWrite(p, s, k)) + (set k | k in s && IsOrphan(p, s, k))
  }

  /** An update keeps the immutable selector of a Deployment and the type of a Service. */
  function Merge(existing: Payload, desired: Payload): Payload {
    match (existing, desired)
    case (DeploymentPayload(sel, _), DeploymentPayload(_, t)) => DeploymentPayload(sel, t)
    case (ServicePayload(ty, _), ServicePayload(_, sel)) => ServicePayload(ty, sel)
    case _ => desired
  }

  /** What a create or an update leaves at k. */
  function Written(p: Plan, s: Store, k: Key): Obj
    requires k in p.desired
  {
    if k in s then Obj(p.desired[k].labels, Merge(s[k].payload, p.desired[k].payload)) else p.desired[k]
  }

  /** The store after the one write that settles k. */
  function Settle(p: Plan, s: Store, k: Key): Store {
    if k in p.desired then s[k := Written(p, s, k)] else s - {k}
  }

  /** No LeaderWorkerSet listed for one current role bears a name that another current role wants. */
  ghost predicate Coherent(p: Plan, s: Store) {
    forall k, r, r' | ListedFor(p, s, k, r) && r in p.roleLws && OwnsName(p, r', k.name) :: r == r'
  }

  /** Where every run of passes ends: orphans gone, every unsettled desired object written. */
  function Target(p: Plan, s: Store): Store {
    map k | k in s.Keys + p.desired.Keys && !IsOrphan(p, s, k) ::
      if NeedsWrite(p, s, k) then Written(p, s, k) else s[k]
  }

  /* ---- one settling write ---- */

  lemma OrphansAreNotDesired(p: Plan, s: Store, k: Key)
    requires PlanOk(p) && Coherent(p, s) && IsOrphan(p, s, k)
    ensures k !in p.desired
  {
  }

  /** A settling write leaves every other key's standing alone, and its own key settled. */
  lemma SettleIsLocal(p: Plan, s: Store, k: Key, j: Key)
    requires PlanOk(p) && Coherent(p, s) && k in Unsettled(p, s)
    ensures j != k ==> NeedsWrite(p, Settle(p, s, k), j) == NeedsWrite(p, s, j)
    ensures j != k ==> IsOrphan(p, Settle(p, s, k), j) == IsOrphan(p, s, j)
    ensures !NeedsWrite(p, Settle(p, s, k), k) && !IsOrphan(p, Settle(p, s, k), k)
  {
    if IsOrphan(p, s, k) {
      OrphansAreNotDesired(p, s, k);
    } else if k.kind.LwsKind? {
      var s' := Settle(p, s, k);
      assert s'[k].labels == p.desired[k].labels;
      assert OwnsName(p, s'[k].labels[LABEL_ROLE_NAME], k.name);
    }
  }

  lemma UnsettledMeans(p: Plan, s: Store, k: Key)
    ensures k in Unsettled(p, s) <==> NeedsWrite(p, s, k) || IsOrphan(p, s, k)
  {
  }

  lemma SettleSettlesOne(p: Plan, s: Store, k: Key, j: Key)
    requires PlanOk(p) && Coherent(p, s) && k in Unsettled(p, s)
    ensures j in Unsettled(p, Settle(p, s, k)) <==> j in Unsettled(p, s) && j != k
  {
    SettleIsLocal(p, s, k, j);
    UnsettledMeans(p, s, j);
    UnsettledMeans(p, Settle(p, s, k), j);
  }

  /** Each settling write takes exactly its own key off the work list. */
  lemma SettleShrinks(p: Plan, s: Store, k: Key)
    requires PlanOk(p) && Coherent(p, s) && k in Unsettled(p, s)
    ensures Unsettled(p, Settle(p, s, k)) == Unsettled(p, s) - {k}
    ensures |Unsettled(p, Settle(p, s, k))| == |Unsettled(p, s)| - 1
  {
    forall j
      ensures j in Unsettled(p, Settle(p, s, k)) <==> j in Unsettled(p, s) - {k}
    {
      SettleSettlesOne(p, s, k, j);
    }
    assert Unsettled(p, Settle(p, s, k)) == Unsettled(p, s) - {k};
  }

  lemma SettleKeepsCoherent(p: Plan, s: Store, k: Key)
    requires PlanOk(p) && Coherent(p, s) && k in Unsettled(p, s)
    ensures Coherent(p, Settle(p, s, k))
  {
    var s' := Settle(p, s, k);
    forall j, r, r' | ListedFor(p, s', j, r) && r in p.roleLws && OwnsName(p, r', j.name)
      ensures r == r'
    {
      if j != k {
        assert ListedFor(p, s, j, r);
      } else if k in p.desired {
        // The desired object of this one key carries the role name of whoever wants the name.
        assert p.desired[k].labels[LABEL_ROLE_NAME] == r';
      }
    }
  }

  lemma SettleKeepsTarget(p: Plan, s: Store, k: Key)
    requires PlanOk(p) && Coherent(p, s) && k in Unsettled(p, s)
    ensures Target(p, Settle(p, s, k)) == Target(p, s)
  {
    var s' := Settle(p, s, k);
    if k !in p.desired {
      assert IsOrphan(p, s, k);
    }
    forall j
      ensures j in Target(p, s') <==> j in Target(p, s)
      ensures j in Target(p, s) ==> Target(p, s')[j] == Target(p, s)[j]
    {
      SettleIsLocal(p, s, k, j);
      if k in p.desired && IsOrphan(p, s, k) {
        OrphansAreNotDesired(p, s, k);
      }
    }
  }

  lemma SettledMeansTarget(p: Plan, s: Store)
    requires Unsettled(p, s) == {}
    ensures Target(p, s) == s
  {
    forall k
      ensures !NeedsWrite(p, s, k) && !IsOrphan(p, s, k)
    {
      assert k !in Unsettled(p, s);
    }
  }

  /* ---- whole passes ---- */

  /** One API call of a pass on owned objects: whether it is a write, whether the caller
      saw it succeed, and the store just after it. */
  datatype Entry = Entry(write: bool, ok: bool, store: Store)

  function At(s0: Store, log: seq<Entry>, n: nat): Store
    requires n <= |log|
  {
    if n == 0 then s0 else log[n - 1].store
  }

  function Last(s0: Store, log: seq<Entry>): Store {
    At(s0, log, |log|)
  }

  predicate AllOk(log: seq<Entry>) {
    forall n | 0 <= n < |log| :: log[n].ok
  }

  function WriteCount(log: seq<Entry>): nat {
    if log == [] then 0
    else WriteCount(log[..|log| - 1]) + if log[|log| - 1].write then 1 else 0
  }

  predicate GangReady(p: Plan, s: Store) {
    p.gangGroup.Some? ==> !NeedsWrite(p, s, p.gangGroup.value)
  }

  /** A write that takes effect settles one unsettled key; a LeaderWorkerSet is touched only
      once the PodGroup of the plan is in place. */
  predicate Settles(p: Plan, s: Store, k: Key, s': Store) {
    k in Unsettled(p, s) && s' == Settle(p, s, k) && (k.kind.LwsKind? ==> GangReady(p, s))
  }

  /** Reads change nothing; a successful write settles a key; a failed write may or may not
      have taken effect before the failure. */
  ghost predicate Move(p: Plan, s: Store, e: Entry) {
    || (e.store == s && !(e.write && e.ok))
    || (e.write && exists k :: Settles(p, s, k, e.store))
  }

  ghost predicate Trace(p: Plan, s0: Store, log: seq<Entry>) {
    forall n | 0 <= n < |log| :: Move(p, At(s0, log, n), log[n])
  }

  /** Everything a pass promises about owned objects: every call is a Move, the first failed
      call is the last one, and a pass without a failed call leaves nothing to do. */
  ghost predicate PassLog(p: Plan, s0: Store, log: seq<Entry>) {
    && Trace(p, s0, log)
    && (forall n | 0 <= n < |log| - 1 :: log[n].ok)
    && (AllOk(log) ==> Unsettled(p, Last(s0, log)) == {})
  }

  /** One call keeps coherence and the target; a write lowers the work left by at most one, a
      successful write by exactly one, a read not at all. */
  lemma MoveKeeps(p: Plan, s: Store, e: Entry)
    requires PlanOk(p) && Coherent(p, s) && Move(p, s, e)
    ensures Coherent(p, e.store) && Target(p, e.store) == Target(p, s)
    ensures Unsettled(p, e.store) <= Unsettled(p, s)
    ensures |Unsettled(p, s)| - |Unsettled(p, e.store)| <= if e.write then 1 else 0
    ensures e.ok ==> |Unsettled(p, s)| - |Unsettled(p, e.store)| == if e.write then 1 else 0
  {
    if !(e.store == s && !(e.write && e.ok)) {
      var k :| Settles(p, s, k, e.store);
      SettleShrinks(p, s, k);
      SettleKeepsCoherent(p, s, k);
      SettleKeepsTarget(p, s, k);
    }
  }

  lemma AtPrefix(s0: Store, log: seq<Entry>, n: nat, m: nat)
    requires m <= n <= |log|
    ensures At(s0, log[..n], m) == At(s0, log, m)
  {
  }

  lemma TraceAt(p: Plan, s0: Store, log: seq<Entry>, m: nat)
    requires Trace(p, s0, log) && m < |log|
    ensures Move(p, At(s0, log, m), log[m])
  {
  }

  lemma TracePrefix(p: Plan, s0: Store, log: seq<Entry>, n: nat)
    requires Trace(p, s0, log) && n <= |log|
    ensures Trace(p, s0, log[..n])
  {
    forall m | 0 <= m < n
      ensures Move(p, At(s0, log[..n], m), log[..n][m])
    {
      AtPrefix(s0, log, n, m);
      TraceAt(p, s0, log, m);
    }
  }

  lemma TraceInit(p: Plan, s0: Store, log: seq<Entry>)
    requires Trace(p, s0, log) && log != []
    ensures Trace(p, s0, log[..|log| - 1])
    ensures Move(p, Last(s0, log[..|log| - 1]), log[|log| - 1])
  {
    var n := |log| - 1;
    TracePrefix(p, s0, log, n);
    AtPrefix(s0, log, n, n);
    TraceAt(p, s0, log, n);
  }

  /** Step by step through any trace: coherence is kept, the target never moves, and the work
      left falls by at most one a write, by exactly one a successful write. */
  lemma {:induction false} TraceKeeps(p: Plan, s0: Store, log: seq<Entry>)
    requires PlanOk(p) && Coherent(p, s0) && Trace(p, s0, log)
    ensures Coherent(p, Last(s0, log)) && Target(p, Last(s0, log)) == Target(p, s0)
    ensures Unsettled(p, Last(s0, log)) <= Unsettled(p, s0)
    ensures |Unsettled(p, s0)| - |Unsettled(p, Last(s0, log))| <= WriteCount(log)
    ensures AllOk(log) ==> |Unsettled(p, s0)| - |Unsettled(p, Last(s0, log))| == WriteCount(log)
  {
    if log != [] {
      var init, e := log[..|log| - 1], log[|log| - 1];
      TraceInit(p, s0, log);
      TraceKeeps(p, s0, init);
      MoveKeeps(p, Last(s0, init), e);
      assert e.store == Last(s0, log);
    }
  }

  /** An error-free pass issues one write for each missing desired object, each desired object
      with a stale hash and each orphan, and no other. */
  lemma ExactWork(p: Plan, s0: Store, log: seq<Entry>)
    requires PlanOk(p) && Coherent(p, s0) && PassLog(p, s0, log) && AllOk(log)
    ensures WriteCount(log) == |Unsettled(p, s0)|
    ensures Last(s0, log) == Target(p, s0)
  {
    TraceKeeps(p, s0, log);
    SettledMeansTarget(p, Last(s0, log));
  }

  /** The pass that follows an error-free one writes nothing, even if its reads fail. */
  lemma Fixpoint(p: Plan, s0: Store, log: seq<Entry>, next: seq<Entry>)
    requires PlanOk(p) && Coherent(p, s0) && PassLog(p, s0, log) && AllOk(log)
    requires PassLog(p, Last(s0, log), next)
    ensures Last(Last(s0, log), next) == Last(s0, log)
    ensures AllOk(next) ==> WriteCount(next) == 0
  {
    TraceKeeps(p, s0, log);
    TraceKeeps(p, Last(s0, log), next);
    SettledMeansTarget(p, Last(s0, log));
    SettledMeansTarget(p, Last(Last(s0, log), next));
  }

  /* ---- any number of passes ---- */

  ghost predicate Passes(p: Plan, s0: Store, passes: seq<seq<Entry>>)
    decreases |passes|
  {
    passes == [] || (PassLog(p, s0, passes[0]) && Passes(p, Last(s0, passes[0]), passes[1..]))
  }

  ghost function End(s0: Store, passes: seq<seq<Entry>>): Store
    decreases |passes|
  {
    if passes == [] then s0 else End(Last(s0, passes[0]), passes[1..])
  }

  lemma {:induction false} PassesKeep(p: Plan, s0: Store, passes: seq<seq<Entry>>)
    requires PlanOk(p) && Coherent(p, s0) && Passes(p, s0, passes)
    ensures Coherent(p, End(s0, passes)) && Target(p, End(s0, passes)) == Target(p, s0)
    ensures Unsettled(p, End(s0, passes)) <= Unsettled(p, s0)
    decreases |passes|
  {
    if passes != [] {
      TraceKeeps(p, s0, passes[0]);
      PassesKeep(p, Last(s0, passes[0]), passes[1..]);
    }
  }

  lemma {:induction false} PassesOneMore(p: Plan, s0: Store, passes: seq<seq<Entry>>, log: seq<Entry>)
    requires Passes(p, s0, passes) && PassLog(p, End(s0, passes), log)
    ensures Passes(p, s0, passes + [log]) && End(s0, passes + [log]) == Last(End(s0, passes), log)
    decreases |passes|
  {
    if passes == [] {
      assert (passes + [log])[1..] == [];
    } else {
      assert (passes + [log])[1..] == passes[1..] + [log];
      PassesOneMore(p, Last(s0, passes[0]), passes[1..], log);
    }
  }

  /** One more pass, an error-free one, ends in the target of the store it all began with. */
  lemma CleanPassHitsTarget(p: Plan, s0: Store, passes: seq<seq<Entry>>, log: seq<Entry>)
    requires PlanOk(p) && Coherent(p, s0) && Passes(p, s0, passes)
    requires PassLog(p, End(s0, passes), log) && AllOk(log)
    ensures Last(End(s0, passes), log) == Target(p, s0)
  {
    PassesKeep(p, s0, passes);
    ExactWork(p, End(s0, passes), log);
  }

  /** History independence: passes that fail anywhere, before or after the failing call took
      effect, followed by one error-free pass leave exactly the owned objects that one
      error-free pass leaves from the original store. */
  lemma HistoryIndependence(p: Plan, s0: Store, failed: seq<seq<Entry>>, last: seq<Entry>, clean: seq<Entry>)
    requires PlanOk(p) && Coherent(p, s0)
    requires Passes(p, s0, failed)
    requires PassLog(p, End(s0, failed), last) && AllOk(last)
    requires PassLog(p, s0, clean) && AllOk(clean)
    ensures Last(End(s0, failed), last) == Last(s0, clean)
  {
    PassesKeep(p, s0, failed);
    ExactWork(p, End(s0, failed), last);
    ExactWork(p, s0, clean);
  }

  /** Neither failed nor error-free passes ever touch an object that is not desired and was
      not an orphan to begin with. */
  lemma BystandersUntouched(p: Plan, s0: Store, passes: seq<seq<Entry>>, k: Key)
    requires PlanOk(p) && Coherent(p, s0) && Passes(p, s0, passes)
    requires k !in p.desired && !IsOrphan(p, s0, k)
    ensures k in End(s0, passes) <==> k in s0
    ensures k in s0 ==> End(s0, passes)[k] == s0[k]
  {
    var s := End(s0, passes);
    PassesKeep(p, s0, passes);
    assert k !in Unsettled(p, s0);
    assert k !in Unsettled(p, s);
    assert k in Target(p, s) <==> k in s;
    assert k in Target(p, s0) <==> k in s0;
  }

  /* ---- when the hash decides right ---- */

  /** The hash (or, for a ServiceAccount, mere existence) hides a difference from the desired object. */
  predicate Collides(p: Plan, s: Store, k: Key) {
    k in p.desired && k in s && !NeedsWrite(p, s, k) && s[k] != p.desired[k]
  }

  /** An update can install the desired payload: the parts it keeps are already right. */
  predicate Mergeable(p: Plan, s: Store, k: Key) {
    k in p.desired && (k in s ==> Merge(s[k].payload, p.desired[k].payload) == p.desired[k].payload)
  }

  /** An error-free pass leaves the desired labels and spec at a desired key exactly when no
      collision was there to begin with and the parts an update keeps were already right. */
  lemma ConvergesIff(p: Plan, s0: Store, log: seq<Entry>, k: Key)
    requires PlanOk(p) && Coherent(p, s0) && PassLog(p, s0, log) && AllOk(log)
    requires k in p.desired
    ensures k in Last(s0, log)
    ensures Last(s0, log)[k] == p.desired[k] <==> !Collides(p, s0, k) && Mergeable(p, s0, k)
  {
    ExactWork(p, s0, log);
    if IsOrphan(p, s0, k) {
      OrphansAreNotDesired(p, s0, k);
    }
  }

  /** After an error-free pass the LeaderWorkerSets listed for each current role are exactly the
      desired ones, for all roles at once; only a collision at a key itself could change that. */
  lemma RolesCompose(p: Plan, s0: Store, log: seq<Entry>, r: string, k: Key)
    requires PlanOk(p) && Coherent(p, s0) && PassLog(p, s0, log) && AllOk(log)
    requires k in p.desired ==> Mergeable(p, s0, k) && !Collides(p, s0, k)
    requires r in p.roleLws
    ensures ListedFor(p, Last(s0, log), k, r) <==>
            k.kind.LwsKind? && k.ns == p.ns && k.name in p.roleLws[r]
    ensures ListedFor(p, Last(s0, log), k, r) ==> k in p.desired && Last(s0, log)[k] == p.desired[k]
  {
    var s := Last(s0, log);
    if ListedFor(p, s, k, r) {
      assert k !in Unsettled(p, s);
      assert !IsOrphan(p, s, k);
      assert OwnsName(p, r, k.name);
    }
    if k.kind.LwsKind? && k.ns == p.ns && k.name in p.roleLws[r] {
      assert OwnsName(p, r, k.name) && k == Key(LwsKind, p.ns, k.name);
      ConvergesIff(p, s0, log, k);
    }
  }

  /** What the cleanup of an error-free pass deletes: of the service's sets that are not wanted, those
      of current roles and no others. The sets of a role that is gone stay as they are. */
  lemma CleanupIff(p: Plan, s0: Store, log: seq<Entry>, k: Key)
    requires PlanOk(p) && Coherent(p, s0) && PassLog(p, s0, log) && AllOk(log)
    requires k in s0 && k !in p.desired && LABEL_ROLE_NAME in s0[k].labels
    requires ListedFor(p, s0, k, s0[k].labels[LABEL_ROLE_NAME])
    ensures k in Last(s0, log) <==> s0[k].labels[LABEL_ROLE_NAME] !in p.roleLws
    ensures k in Last(s0, log) ==> Last(s0, log)[k] == s0[k]
  {
    var r := s0[k].labels[LABEL_ROLE_NAME];
    ExactWork(p, s0, log);
    assert OwnsName(p, r, k.name) ==> Key(LwsKind, p.ns, k.name) in p.desired;
  }
}
