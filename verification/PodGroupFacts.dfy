/** What the PodGroup's numbers mean: its tasks are exactly the gang replicas, `minMember` counts
    their pods, `minResources` covers their limits, and the order of the roles is irrelevant. */
module PodGroupFacts {
  import opened Api
  import opened Text
  import opened Scheduling

  ghost predicate DistinctNames(roles: seq<Role>) {
    forall i, j | 0 <= i < j < |roles| && roles[i].IsWorkload() && roles[j].IsWorkload() ::
      roles[i].name != roles[j].name
  }

  lemma SameNameSameRole(roles: seq<Role>, r: Role, r': Role)
    requires DistinctNames(roles) && r in roles && r' in roles
    requires r.IsWorkload() && r'.IsWorkload() && r.name == r'.name
    ensures r == r'
  {
  }

  /** Task t stands for replica i of role r. */
  ghost predicate IsTask(pd: bool, roles: seq<Role>, r: Role, i: nat, t: string) {
    r in roles && Gang(pd, r) && i < Instances(r) && t == TaskName(r.name, i)
  }

  /* ---- minTaskMember ---- */

  lemma {:induction false} RoleTasksSpec(roleName: string, n: nat, nodes: int32, t: string)
    ensures t in RoleTasks(roleName, n, nodes) <==> exists i: nat :: i < n && t == TaskName(roleName, i)
    ensures t in RoleTasks(roleName, n, nodes) ==> RoleTasks(roleName, n, nodes)[t] == nodes
  {
    if n > 0 {
      RoleTasksSpec(roleName, n - 1, nodes, t);
    }
  }

  /** The keys of `minTaskMember` are exactly the replicas of the gang roles, each with the node
      count of its own role. */
  lemma {:induction false} TaskMembersSpec(pd: bool, roles: seq<Role>, t: string)
    requires DistinctNames(roles)
    ensures t in TaskMembers(pd, roles) <==> exists r, i :: IsTask(pd, roles, r, i, t)
    ensures forall r, i | IsTask(pd, roles, r, i, t) ::
              t in TaskMembers(pd, roles) && TaskMembers(pd, roles)[t] == GetNodeCount(r)
  {
    if roles != [] {
      var init, last := roles[..|roles| - 1], roles[|roles| - 1];
      TaskMembersSpec(pd, init, t);
      RoleTasksSpec(last.name, Instances(last), GetNodeCount(last), t);
      forall r, i | IsTask(pd, roles, r, i, t)
        ensures IsTask(pd, init, r, i, t) || (r == last && Gang(pd, last))
      {
      }
      forall r, i | IsTask(pd, init, r, i, t)
        ensures IsTask(pd, roles, r, i, t)
        ensures Gang(pd, last) ==> t !in RoleTasks(last.name, Instances(last), GetNodeCount(last))
      {
        if Gang(pd, last) && t in RoleTasks(last.name, Instances(last), GetNodeCount(last)) {
          var j: nat :| j < Instances(last) && t == TaskName(last.name, j);
          DashedInjective(r.name, i, last.name, j);
        }
      }
      if Gang(pd, last) && t in RoleTasks(last.name, Instances(last), GetNodeCount(last)) {
        var j: nat :| j < Instances(last) && t == TaskName(last.name, j);
        assert IsTask(pd, roles, last, j, t);
      }
    }
  }

  /* ---- minMember ---- */

  ghost function SumValues(m: map<string, int32>): int {
    if m == map[] then 0 else
      var k :| k in m;
      m[k] as int + SumValues(m - {k})
  }

  lemma {:induction false} SumValuesPick(m: map<string, int32>, k: string)
    requires k in m
    ensures SumValues(m) == m[k] as int + SumValues(m - {k})
    decreases |m|
  {
    var k0 :| k0 in m && SumValues(m) == m[k0] as int + SumValues(m - {k0});
    if k0 != k {
      SumValuesPick(m - {k0}, k);
      SumValuesPick(m - {k}, k0);
      assert m - {k0} - {k} == m - {k} - {k0};
    }
  }

  lemma SumValuesAdd(m: map<string, int32>, k: string, v: int32)
    requires k !in m
    ensures SumValues(m[k := v]) == SumValues(m) + v as int
  {
    SumValuesPick(m[k := v], k);
    assert m[k := v] - {k} == m;
  }

  lemma NextTaskIsNew(roleName: string, n: nat, nodes: int32)
    ensures TaskName(roleName, n) !in RoleTasks(roleName, n, nodes)
  {
    RoleTasksSpec(roleName, n, nodes, TaskName(roleName, n));
    if i: nat :| i < n && TaskName(roleName, n) == TaskName(roleName, i) {
      DashedInjective(roleName, n, roleName, i);
    }
  }

  lemma {:induction false} SumValuesTasks(m: map<string, int32>, roleName: string, n: nat, nodes: int32)
    requires forall i: nat | i < n :: TaskName(roleName, i) !in m
    requires nodes >= 0
    ensures SumValues(m + RoleTasks(roleName, n, nodes)) == SumValues(m) + Times(n, nodes)
  {
    if n == 0 {
      assert m + RoleTasks(roleName, 0, nodes) == m;
    } else {
      var t := TaskName(roleName, n - 1);
      SumValuesTasks(m, roleName, n - 1, nodes);
      NextTaskIsNew(roleName, n - 1, nodes);
      SumValuesAdd(m + RoleTasks(roleName, n - 1, nodes), t, nodes);
      NextTask(m, roleName, n - 1, nodes);
    }
  }

  /** The values of `minTaskMember` add up to replicas x nodes over the gang roles. */
  lemma {:induction false} TaskMembersSum(pd: bool, roles: seq<Role>)
    requires DistinctNames(roles)
    ensures SumValues(TaskMembers(pd, roles)) == GangPods(pd, roles)
  {
    if roles != [] {
      var init, last := roles[..|roles| - 1], roles[|roles| - 1];
      TaskMembersSum(pd, init);
      if Gang(pd, last) {
        forall i: nat | i < Instances(last)
          ensures TaskName(last.name, i) !in TaskMembers(pd, init)
        {
          TaskMembersSpec(pd, init, TaskName(last.name, i));
          if r, j :| IsTask(pd, init, r, j, TaskName(last.name, i)) {
            DashedInjective(r.name, j, last.name, i);
          }
        }
        SumValuesTasks(TaskMembers(pd, init), last.name, Instances(last), GetNodeCount(last));
      }
    }
  }

  /** `minMember` is the sum of `minTaskMember`'s values exactly when that sum fits 32 bits. */
  lemma MinMemberCountsTasks(roles: seq<Role>)
    requires DistinctNames(roles)
    ensures var spec := PodGroupSpecOf(roles);
            && SumValues(spec.minTaskMember) == GangPods(PDDisaggregated(roles), roles)
            && (spec.minMember == SumValues(spec.minTaskMember) <==> SumValues(spec.minTaskMember) < TWO_31)
  {
    TaskMembersSum(PDDisaggregated(roles), roles);
    GangPodsGrow(PDDisaggregated(roles), roles, 0);
  }

  lemma {:induction false} GangPodsGrow(pd: bool, roles: seq<Role>, n: nat)
    requires n <= |roles|
    ensures 0 <= GangPods(pd, roles[..n]) <= GangPods(pd, roles)
    decreases |roles|, n
  {
    if n < |roles| {
      var init := roles[..|roles| - 1];
      GangPodsGrow(pd, init, n);
      assert init[..n] == roles[..n];
    } else {
      assert roles[..n] == roles;
      if n > 0 {
        GangPodsGrow(pd, roles, n - 1);
        PrefixStep(pd, roles, n - 1);
      }
    }
  }

  lemma RoleFits(pd: bool, roles: seq<Role>, n: nat)
    requires n < |roles| && GangPods(pd, roles) < TWO_31
    ensures 0 <= GangPods(pd, roles[..n]) && GangPods(pd, roles[..n]) + PodsOf(pd, roles[n]) < TWO_31
  {
    GangPodsGrow(pd, roles, n);
    GangPodsGrow(pd, roles, n + 1);
    PrefixStep(pd, roles, n);
  }

  lemma RunningFits(pd: bool, roles: seq<Role>, n: nat, i: nat)
    requires n < |roles| && Gang(pd, roles[n]) && i <= Instances(roles[n])
    requires GangPods(pd, roles) < TWO_31
    ensures 0 <= GangPods(pd, roles[..n]) + i * GetNodeCount(roles[n]) < TWO_31
  {
    RoleFits(pd, roles, n);
    TimesMonotone(i, Instances(roles[n]), GetNodeCount(roles[n]));
  }

  lemma ProductWraps(r: nat, k: nat)
    requires Times(r, k) < TWO_31
    ensures Wrap32(r * k) == Times(r, k)
  {
  }

  lemma ProductFits(pd: bool, roles: seq<Role>, n: nat)
    requires n < |roles| && Gang(pd, roles[n]) && GetReplicaCount(roles[n]) >= 0
    requires GangPods(pd, roles) < TWO_31
    ensures TotalPods(roles[n]) == GetReplicaCount(roles[n]) as int * GetNodeCount(roles[n]) as int == PodsOf(pd, roles[n])
  {
    RoleFits(pd, roles, n);
    ProductWraps(Instances(roles[n]), GetNodeCount(roles[n]));
  }

  /** If the total fits 32 bits, so does every running value of `minMember` (after role n's replica
      i) and every product `replicas*nodeCount`. */
  lemma NoIntermediateOverflow(pd: bool, roles: seq<Role>, n: nat, i: nat)
    requires n < |roles| && Gang(pd, roles[n]) && i <= Instances(roles[n])
    requires GangPods(pd, roles) < TWO_31
    ensures 0 <= GangPods(pd, roles[..n]) + i * GetNodeCount(roles[n]) < TWO_31
    ensures GetReplicaCount(roles[n]) >= 0 ==>
              TotalPods(roles[n]) == GetReplicaCount(roles[n]) as int * GetNodeCount(roles[n]) as int == PodsOf(pd, roles[n])
  {
    RunningFits(pd, roles, n, i);
    if GetReplicaCount(roles[n]) >= 0 {
      ProductFits(pd, roles, n);
    }
  }

  lemma {:induction false} TimesMonotone(i: nat, n: nat, k: nat)
    requires i <= n
    ensures i * k <= n * k
  {
    if i < n {
      TimesMonotone(i, n - 1, k);
      assert Times(n, k) == Times(n - 1, k) + k;
    }
  }

  /* ---- minResources ---- */

  /** A negative fraction, which rounding away from zero makes smaller. */
  predicate Cut(q: real) {
    q < 0.0 && q != q.Floor as real
  }

  lemma RoundAwayBounds(q: real)
    ensures q - 1.0 < RoundAway(q) as real < q + 1.0
    ensures q <= RoundAway(q) as real <==> !Cut(q)
  {
  }

  /** The exact demand of one container in `pods` pods, fraction and all. */
  function ExactLimit(c: Container, res: string, pods: int): real {
    if res in c.limits then c.limits[res] * pods as real else 0.0
  }

  function Exact(cs: seq<Container>, res: string, pods: int): real {
    if cs == [] then 0.0 else Exact(cs[..|cs| - 1], res, pods) + ExactLimit(cs[|cs| - 1], res, pods)
  }

  /** How many (container, pod) pairs ask for res. */
  function PairsIn(cs: seq<Container>, res: string, pods: nat): nat {
    if cs == [] then 0 else PairsIn(cs[..|cs| - 1], res, pods) + if res in cs[|cs| - 1].limits then pods else 0
  }

  /** Every product of a rounded limit with the pod count fits 64 bits. */
  ghost predicate LimitsFit(cs: seq<Container>, res: string, pods: int) {
    forall c | c in cs && res in c.limits :: -TWO_63 <= RoundAway(c.limits[res]) * pods < TWO_63
  }

  /** x differs from e by less than n, or not at all when n is zero; and if whole, x is at least e. */
  predicate Covers(x: int, e: real, n: int, whole: bool) {
    if n == 0 then x as real == e else e - n as real < x as real < e + n as real && (whole ==> e <= x as real)
  }

  /** No container limits res to a negative fraction. */
  ghost predicate NoneCut(cs: seq<Container>, res: string) {
    forall c | c in cs && res in c.limits :: !Cut(c.limits[res])
  }

  lemma CoversSum(x: int, e: real, n: nat, x': int, e': real, n': nat, whole: bool)
    requires Covers(x, e, n, whole) && Covers(x', e', n', whole)
    ensures Covers(x + x', e + e', n + n', whole)
  {
    assert (n + n') as real == n as real + n' as real;
  }

  lemma OneMorePair(x: int, e: real, n: nat, v: int, q: real, whole: bool)
    requires Covers(x, e, n, whole) && q - 1.0 < v as real < q + 1.0 && (whole ==> q <= v as real)
    ensures Covers(x + v, e + q, n + 1, whole)
  {
    assert (n + 1) as real == n as real + 1.0;
  }

  lemma OneMoreTime(v: int, q: real, n: nat)
    ensures v * (n + 1) == v * n + v && q * (n + 1) as real == q * n as real + q
  {
    assert (n + 1) as real == n as real + 1.0;
  }

  lemma ScaledNext(v: int, q: real, n: nat, whole: bool)
    requires q - 1.0 < v as real < q + 1.0 && (whole ==> q <= v as real)
    requires Covers(v * n, q * n as real, n, whole)
    ensures Covers(v * (n + 1), q * (n + 1) as real, n + 1, whole)
  {
    OneMoreTime(v, q, n);
    OneMorePair(v * n, q * n as real, n, v, q, whole);
  }

  lemma {:induction false} Scaled(v: int, q: real, pods: nat, whole: bool)
    requires q - 1.0 < v as real < q + 1.0 && (whole ==> q <= v as real)
    ensures Covers(v * pods, q * pods as real, pods, whole)
  {
    if pods > 0 {
      var n: nat := pods - 1;
      Scaled(v, q, n, whole);
      ScaledNext(v, q, n, whole);
      assert n + 1 == pods;
    } else {
      assert v * pods == 0 && q * pods as real == 0.0;
    }
  }

  lemma RoundedLimit(c: Container, res: string, pods: nat, whole: bool)
    requires res in c.limits && -TWO_63 <= RoundAway(c.limits[res]) * pods < TWO_63 && (whole ==> !Cut(c.limits[res]))
    ensures Covers(Limit(c, res, pods), ExactLimit(c, res, pods), pods, whole)
  {
    RoundAwayBounds(c.limits[res]);
    LimitCovers(RoundAway(c.limits[res]), c.limits[res], pods, whole);
  }

  lemma LimitCovers(v: int, q: real, pods: nat, whole: bool)
    requires q - 1.0 < v as real < q + 1.0 && (whole ==> q <= v as real) && -TWO_63 <= v * pods < TWO_63
    ensures Covers(Wrap64(v * pods), q * pods as real, pods, whole)
  {
    Scaled(v, q, pods, whole);
    Wrap64Fits(v * pods);
  }

  lemma Wrap64Fits(a: int)
    requires -TWO_63 <= a < TWO_63
    ensures Wrap64(a) == a
  {
  }

  /** One role: the request differs from the exact demand by less than one unit for each (container,
      pod) pair, and covers it if no limit is a negative fraction. */
  lemma {:induction false} DemandBounds(cs: seq<Container>, res: string, pods: nat, whole: bool)
    requires LimitsFit(cs, res, pods) && (whole ==> NoneCut(cs, res))
    ensures Covers(Demand(cs, res, pods), Exact(cs, res, pods), PairsIn(cs, res, pods), whole)
  {
    if cs != [] {
      var init, c := cs[..|cs| - 1], cs[|cs| - 1];
      assert c in cs && forall x | x in init :: x in cs;
      DemandBounds(init, res, pods, whole);
      if res in c.limits {
        RoundedLimit(c, res, pods, whole);
        CoversSum(Demand(init, res, pods), Exact(init, res, pods), PairsIn(init, res, pods),
                  Limit(c, res, pods), ExactLimit(c, res, pods), pods, whole);
      }
    }
  }

  function RoleExact(pd: bool, role: Role, res: string): real {
    if Gang(pd, role) then Exact(TemplateContainers(role), res, PodsOf(pd, role)) else 0.0
  }

  function RolePairs(pd: bool, role: Role, res: string): nat {
    if Gang(pd, role) then PairsIn(TemplateContainers(role), res, PodsOf(pd, role)) else 0
  }

  function ExactTotal(pd: bool, roles: seq<Role>, res: string): real {
    if roles == [] then 0.0
    else
      var r := roles[|roles| - 1];
      ExactTotal(pd, roles[..|roles| - 1], res)
      + RoleExact(pd, r, res)
  }

  /** The (container, pod) pairs of the gang that ask for res. */
  function Pairs(pd: bool, roles: seq<Role>, res: string): nat {
    if roles == [] then 0
    else
      var r := roles[|roles| - 1];
      Pairs(pd, roles[..|roles| - 1], res)
      + RolePairs(pd, r, res)
  }

  /** The arithmetic of the gang roles stays inside its 32 and 64 bits. */
  ghost predicate ResourcesFit(pd: bool, roles: seq<Role>, res: string) {
    forall r | r in roles && Gang(pd, r) :: RoleArithmeticFits(pd, r, res)
  }

  /** No gang container limits res to a negative fraction. */
  ghost predicate NoGangCut(pd: bool, roles: seq<Role>, res: string) {
    forall r | r in roles && Gang(pd, r) :: NoneCut(TemplateContainers(r), res)
  }

  lemma {:induction false} GangDemandBounds(pd: bool, roles: seq<Role>, res: string, whole: bool)
    requires ResourcesFit(pd, roles, res) && (whole ==> NoGangCut(pd, roles, res))
    ensures Covers(GangDemand(pd, roles, res), ExactTotal(pd, roles, res), Pairs(pd, roles, res), whole)
  {
    if roles != [] {
      var init, r := roles[..|roles| - 1], roles[|roles| - 1];
      assert r in roles && forall x | x in init :: x in roles;
      GangDemandBounds(pd, init, res, whole);
      RoleBounds(pd, r, res, whole);
      CoversSum(GangDemand(pd, init, res), ExactTotal(pd, init, res), Pairs(pd, init, res),
                RoleDemand(pd, r, res), RoleExact(pd, r, res), RolePairs(pd, r, res), whole);
    }
  }

  /** The arithmetic of one gang role stays inside its 32 and 64 bits. */
  ghost predicate RoleArithmeticFits(pd: bool, r: Role, res: string) {
    GetReplicaCount(r) >= 0 && PodsOf(pd, r) < TWO_31 && LimitsFit(TemplateContainers(r), res, PodsOf(pd, r))
  }

  lemma RoleBounds(pd: bool, r: Role, res: string, whole: bool)
    requires Gang(pd, r) ==> RoleArithmeticFits(pd, r, res) && (whole ==> NoneCut(TemplateContainers(r), res))
    ensures Covers(RoleDemand(pd, r, res), RoleExact(pd, r, res), RolePairs(pd, r, res), whole)
  {
    if Gang(pd, r) {
      ProductWraps(Instances(r), GetNodeCount(r));
      assert TotalPods(r) == PodsOf(pd, r);
      DemandBounds(TemplateContainers(r), res, PodsOf(pd, r), whole);
    }
  }

  lemma {:induction false} LimitNamesSpec(cs: seq<Container>, res: string)
    ensures res in LimitNames(cs) <==> exists c :: c in cs && res in c.limits
  {
    if cs != [] {
      var init, last := cs[..|cs| - 1], cs[|cs| - 1];
      LimitNamesSpec(init, res);
      assert cs == init + [last];
    }
  }

  lemma {:induction false} ResourceNamesSpec(pd: bool, roles: seq<Role>, res: string)
    ensures res in ResourceNames(pd, roles) <==>
            exists r, c :: r in roles && Gang(pd, r) && c in TemplateContainers(r) && res in c.limits
  {
    if roles != [] {
      var init, last := roles[..|roles| - 1], roles[|roles| - 1];
      ResourceNamesSpec(pd, init, res);
      LimitNamesSpec(TemplateContainers(last), res);
      assert roles == init + [last];
    }
  }

  /** `minResources` names exactly the resources that gang containers limit, and asks for each within
      one unit per (container, pod) of the exact demand; for no less than that, unless some limit is a
      negative fraction. */
  lemma ResourceAccounting(roles: seq<Role>, res: string)
    requires ResourcesFit(PDDisaggregated(roles), roles, res)
    ensures var pd := PDDisaggregated(roles);
            var m := PodGroupSpecOf(roles).minResources;
            && (res in m <==> exists r, c :: r in roles && Gang(pd, r) && c in TemplateContainers(r) && res in c.limits)
            && (res in m ==> Covers(m[res], ExactTotal(pd, roles, res), Pairs(pd, roles, res), NoGangCut(pd, roles, res)))
  {
    var pd := PDDisaggregated(roles);
    GangDemandBounds(pd, roles, res, NoGangCut(pd, roles, res));
    ResourceNamesSpec(pd, roles, res);
  }

  /* ---- the order of the roles ---- */

  lemma {:induction false} SumConcat(a: seq<Role>, b: seq<Role>, f: Role -> int)
    ensures Sum(a + b, f) == Sum(a, f) + Sum(b, f)
  {
    if b == [] {
      assert a + b == a;
    } else {
      var n := |b| - 1;
      SumConcat(a, b[..n], f);
      assert (a + b)[..|a| + n] == a + b[..n];
    }
  }

  lemma {:induction false} SumPermutes(a: seq<Role>, b: seq<Role>, f: Role -> int)
    requires multiset(a) == multiset(b)
    ensures Sum(a, f) == Sum(b, f)
    decreases |a|
  {
    assert |a| == |multiset(a)| == |multiset(b)| == |b|;
    if a != [] {
      var init, x := a[..|a| - 1], a[|a| - 1];
      assert a == init + [x];
      assert x in multiset(b);
      var k :| 0 <= k < |b| && b[k] == x;
      assert b == b[..k] + ([x] + b[k + 1..]);
      assert multiset(a) == multiset(init) + multiset{x};
      assert multiset(b) == multiset(b[..k]) + (multiset{x} + multiset(b[k + 1..]));
      assert multiset(b[..k] + b[k + 1..]) == multiset(b) - multiset{x};
      assert multiset(init) == multiset(a) - multiset{x};
      SumPermutes(init, b[..k] + b[k + 1..], f);
      SumConcat(b[..k], b[k + 1..], f);
      SumConcat(b[..k], [x] + b[k + 1..], f);
      SumConcat([x], b[k + 1..], f);
      SumConcat([], [x], f);
    }
  }

  lemma OccursTwice(a: seq<Role>, x: Role)
    requires multiset(a)[x] >= 2
    ensures exists i, j :: 0 <= i < j < |a| && a[i] == x && a[j] == x
  {
    var k :| 0 <= k < |a| && a[k] == x;
    assert a == a[..k] + ([x] + a[k + 1..]);
    assert multiset(a) == multiset(a[..k]) + (multiset{x} + multiset(a[k + 1..]));
    if x in multiset(a[..k]) {
      assert x in a[..k];
    } else {
      assert x in multiset(a[k + 1..]);
      assert x in a[k + 1..];
    }
  }

  lemma DistinctPermutes(a: seq<Role>, b: seq<Role>)
    requires multiset(a) == multiset(b) && DistinctNames(a)
    ensures DistinctNames(b)
  {
    forall i, j | 0 <= i < j < |b| && b[i].IsWorkload() && b[j].IsWorkload()
      ensures b[i].name != b[j].name
    {
      if b[i].name == b[j].name {
        var x := b[j];
        assert b[i] in multiset(a) && b[j] in multiset(a);
        SameNameSameRole(a, b[i], b[j]);
        assert b == b[..j] + b[j..];
        assert x in multiset(b[..j]) && x in multiset(b[j..]);
        OccursTwice(a, x);
      }
    }
  }

  lemma SameRoles(a: seq<Role>, b: seq<Role>)
    requires multiset(a) == multiset(b)
    ensures forall r :: r in a <==> r in b
  {
    assert forall r :: r in a <==> r in multiset(a);
    assert forall r :: r in b <==> r in multiset(b);
  }

  lemma TasksPermute(pd: bool, a: seq<Role>, b: seq<Role>)
    requires multiset(a) == multiset(b) && DistinctNames(a) && DistinctNames(b)
    ensures TaskMembers(pd, a) == TaskMembers(pd, b)
  {
    SameRoles(a, b);
    forall t
      ensures t in TaskMembers(pd, a) <==> t in TaskMembers(pd, b)
      ensures t in TaskMembers(pd, a) ==> TaskMembers(pd, a)[t] == TaskMembers(pd, b)[t]
    {
      TaskMembersSpec(pd, a, t);
      TaskMembersSpec(pd, b, t);
      assert forall r, i :: IsTask(pd, a, r, i, t) <==> IsTask(pd, b, r, i, t);
    }
  }

  lemma ResourcesPermute(pd: bool, a: seq<Role>, b: seq<Role>)
    requires multiset(a) == multiset(b)
    ensures MinResources(pd, a) == MinResources(pd, b)
  {
    SameRoles(a, b);
    forall res
      ensures res in ResourceNames(pd, a) <==> res in ResourceNames(pd, b)
    {
      ResourceNamesSpec(pd, a, res);
      ResourceNamesSpec(pd, b, res);
    }
    forall res | res in ResourceNames(pd, a)
      ensures GangDemand(pd, a, res) == GangDemand(pd, b, res)
    {
      SumPermutes(a, b, r => RoleDemand(pd, r, res));
    }
  }

  /** Permuting the roles changes nothing in the PodGroup spec, hence nothing in its hash. */
  lemma OrderIrrelevant(a: seq<Role>, b: seq<Role>)
    requires multiset(a) == multiset(b) && DistinctNames(a)
    ensures PodGroupSpecOf(a) == PodGroupSpecOf(b)
  {
    DistinctPermutes(a, b);
    SameRoles(a, b);
    var pd := PDDisaggregated(a);
    SumPermutes(a, b, r => PodsOf(pd, r));
    TasksPermute(pd, a, b);
    ResourcesPermute(pd, a, b);
  }
}
