/** The status conditions of an InferenceService and their setters (pkg/controller/condition.go),
    and what a history of passes leaves in them. */
module Conditions {
  import opened Api
  import opened Status

  const INITIALIZED := "Initialized"
  const ACTIVE := "Active"
  const FAILED := "Failed"

  datatype Condition = Condition(ctype: string, status: bool, reason: string, message: string)

  datatype ServiceStatus = ServiceStatus(
    conditions: seq<Condition>, observedGeneration: int, components: map<string, ComponentStatus>)

  const EMPTY_STATUS := ServiceStatus([], 0, map[])

  const INIT_CONDITION := Condition(INITIALIZED, true, "InferenceServiceCreating", "InferenceService initialized")
  const PROCESSING_CONDITION := Condition(ACTIVE, false, "InferenceServiceProcessing", "InferenceService is being reconciled")
  const ACTIVE_CONDITION := Condition(ACTIVE, true, "InferenceServiceAvailable", "InferenceService is ready")

  function FailedCondition(message: string): Condition {
    Condition(FAILED, true, "InferenceServiceFailed", message)
  }

  /** `meta.SetStatusCondition`: replaces the first condition of the type, or appends. */
  function Upsert(cs: seq<Condition>, c: Condition): seq<Condition> {
    if cs == [] then [c]
    else if cs[0].ctype == c.ctype then [c] + cs[1..]
    else [cs[0]] + Upsert(cs[1..], c)
  }

  /** The in-memory copy of a service that a pass edits and finally writes back. */
  class ServiceObject {
    const svc: InferenceService
    var conditions: seq<Condition>
    var observedGeneration: int
    var components: map<string, ComponentStatus>

    constructor (svc: InferenceService, status: ServiceStatus)
      ensures this.svc == svc && Status() == status
    {
      this.svc := svc;
      conditions, observedGeneration, components := status.conditions, status.observedGeneration, status.components;
    }

    function Status(): ServiceStatus
      reads this
    {
      ServiceStatus(conditions, observedGeneration, components)
    }

    method SetStatusCondition(c: Condition)
      modifies this`conditions
      ensures conditions == Upsert(old(conditions), c)
    {
      var i := 0;
      while i < |conditions| && conditions[i].ctype != c.ctype
        invariant 0 <= i <= |conditions|
        invariant Upsert(conditions, c) == conditions[..i] + Upsert(conditions[i..], c)
      {
        i := i + 1;
      }
      if i < |conditions| {
        conditions := conditions[i := c];
      } else {
        conditions := conditions + [c];
      }
    }

    method SetInitCondition()
      modifies this`conditions, this`observedGeneration
      ensures conditions == Upsert(old(conditions), INIT_CONDITION) && observedGeneration == svc.generation
    {
      SetStatusCondition(INIT_CONDITION);
      observedGeneration := svc.generation;
    }

    method SetProcessingCondition()
      modifies this`conditions, this`observedGeneration
      ensures conditions == Upsert(old(conditions), PROCESSING_CONDITION) && observedGeneration == svc.generation
    {
      SetStatusCondition(PROCESSING_CONDITION);
      observedGeneration := svc.generation;
    }

    method SetFailedCondition(message: string)
      modifies this`conditions, this`observedGeneration
      ensures conditions == Upsert(old(conditions), FailedCondition(message)) && observedGeneration == svc.generation
    {
      SetStatusCondition(FailedCondition(message));
      observedGeneration := svc.generation;
    }

    method SetActiveCondition()
      modifies this`conditions, this`observedGeneration
      ensures conditions == Upsert(old(conditions), ACTIVE_CONDITION) && observedGeneration == svc.generation
    {
      SetStatusCondition(ACTIVE_CONDITION);
      observedGeneration := svc.generation;
    }
  }

  /** An empty list of conditions starts with the init condition. */
  function Initialized(cs: seq<Condition>): seq<Condition> {
    if cs == [] then Upsert([], INIT_CONDITION) else cs
  }

  /** The condition of a pass's outcome; `error` is the message of a failed one. */
  function FinalCondition(error: Option<string>, components: map<string, ComponentStatus>): Condition {
    if error.Some? then FailedCondition(error.value)
    else if AllComponentsReady(components) then ACTIVE_CONDITION
    else PROCESSING_CONDITION
  }

  function PassStatus(before: ServiceStatus, generation: int, error: Option<string>, components: map<string, ComponentStatus>): ServiceStatus {
    ServiceStatus(Upsert(Initialized(before.conditions), FinalCondition(error, components)), generation, components)
  }

  /** `checkAllComponentsReady`. */
  predicate AllComponentsReady(components: map<string, ComponentStatus>) {
    components != map[] && forall r | r in components :: components[r].phase == Running
  }

  /* ---- histories ---- */

  /** One pass as its status write sees it; `persisted` tells whether that write took effect. */
  datatype StatusPass = StatusPass(
    generation: int, error: Option<string>, components: map<string, ComponentStatus>, persisted: bool)

  /** The status that these passes leave of the one they start from. */
  function StatusLeft(start: ServiceStatus, passes: seq<StatusPass>): ServiceStatus {
    if passes == [] then start
    else
      var before, p := StatusLeft(start, passes[..|passes| - 1]), passes[|passes| - 1];
      if p.persisted then PassStatus(before, p.generation, p.error, p.components) else before
  }

  function StatusAfter(passes: seq<StatusPass>): ServiceStatus {
    StatusLeft(EMPTY_STATUS, passes)
  }

  lemma NextStatus(start: ServiceStatus, passes: seq<StatusPass>, p: StatusPass)
    ensures StatusLeft(start, passes + [p]) ==
            if p.persisted then PassStatus(StatusLeft(start, passes), p.generation, p.error, p.components)
            else StatusLeft(start, passes)
  {
    assert (passes + [p])[..|passes|] == passes;
  }

  /** The last pass that was persisted and satisfies the flag's side: failed or error-free. */
  function LastPersisted(passes: seq<StatusPass>, failed: bool): Option<StatusPass> {
    if passes == [] then None
    else
      var p := passes[|passes| - 1];
      if p.persisted && p.error.Some? == failed then Some(p) else LastPersisted(passes[..|passes| - 1], failed)
  }

  function LastWritten(passes: seq<StatusPass>): Option<StatusPass> {
    if passes == [] then None
    else if passes[|passes| - 1].persisted then Some(passes[|passes| - 1])
    else LastWritten(passes[..|passes| - 1])
  }

  ghost predicate OnePerType(cs: seq<Condition>) {
    forall i, j | 0 <= i < j < |cs| :: cs[i].ctype != cs[j].ctype
  }

  lemma {:induction false} UpsertSpec(cs: seq<Condition>, c: Condition)
    requires OnePerType(cs)
    ensures OnePerType(Upsert(cs, c))
    ensures c in Upsert(cs, c)
    ensures forall d: Condition | d.ctype != c.ctype :: d in Upsert(cs, c) <==> d in cs
    ensures forall d | d in Upsert(cs, c) && d.ctype == c.ctype :: d == c
  {
    if cs != [] {
      UpsertSpec(cs[1..], c);
      assert cs == [cs[0]] + cs[1..];
      if cs[0].ctype != c.ctype {
        var u := Upsert(cs[1..], c);
        forall i | 0 <= i < |u|
          ensures u[i].ctype != cs[0].ctype
        {
          if u[i].ctype != c.ctype {
            assert u[i] in cs[1..];
          }
        }
      } else {
        forall i | 0 <= i < |cs[1..]|
          ensures cs[1..][i].ctype != c.ctype
        {
          assert cs[1..][i] == cs[i + 1];
        }
      }
    }
  }

  /** What any history of persisted and lost status writes leaves: no condition at all until the
      first persisted pass, then one per type. Initialized is true from then on; Active, if any
      persisted pass was free of errors, says whether that last one found all components running;
      Failed is there exactly when some persisted pass failed and is never cleared; and the
      observed generation is that of the last persisted pass. */
  lemma {:induction false} ConditionHistory(passes: seq<StatusPass>)
    ensures var s := StatusAfter(passes);
            && OnePerType(s.conditions)
            && (s.conditions == [] <==> LastWritten(passes).None?)
            && (LastWritten(passes).Some? ==> INIT_CONDITION in s.conditions && s.observedGeneration == LastWritten(passes).value.generation)
            && (forall c | c in s.conditions && c.ctype == INITIALIZED :: c == INIT_CONDITION)
            && (forall c: Condition | c.ctype == ACTIVE :: c in s.conditions <==>
                  LastPersisted(passes, false).Some?
                  && c == if AllComponentsReady(LastPersisted(passes, false).value.components) then ACTIVE_CONDITION else PROCESSING_CONDITION)
            && (forall c: Condition | c.ctype == FAILED :: c in s.conditions <==>
                  LastPersisted(passes, true).Some?
                  && LastPersisted(passes, true).value.error.Some?
                  && c == FailedCondition(LastPersisted(passes, true).value.error.value))
            && (forall c | c in s.conditions :: c.ctype in {INITIALIZED, ACTIVE, FAILED})
  {
    if passes != [] {
      var init, p := passes[..|passes| - 1], passes[|passes| - 1];
      ConditionHistory(init);
      if p.persisted {
        PassUpserts(StatusAfter(init), p);
      }
    }
  }

  /* ---- what the conditions say ---- */

  predicate Persisted(passes: seq<StatusPass>, i: nat, failed: bool) {
    i < |passes| && passes[i].persisted && passes[i].error.Some? == failed
  }

  /** The last persisted pass that failed, or that did not. */
  ghost predicate IsLast(passes: seq<StatusPass>, i: nat, failed: bool) {
    Persisted(passes, i, failed) && forall j: nat | i < j :: !Persisted(passes, j, failed)
  }

  lemma {:induction false} LastPersistedMeans(passes: seq<StatusPass>, failed: bool)
    ensures LastPersisted(passes, failed).Some? <==> exists i: nat :: Persisted(passes, i, failed)
    ensures forall i: nat | IsLast(passes, i, failed) :: LastPersisted(passes, failed) == Some(passes[i])
  {
    if passes != [] {
      var init, n := passes[..|passes| - 1], |passes| - 1;
      LastPersistedMeans(init, failed);
      assert forall i: nat :: Persisted(init, i, failed) <==> i < n && Persisted(passes, i, failed);
      if !Persisted(passes, n, failed) {
        assert forall i: nat :: IsLast(passes, i, failed) ==> IsLast(init, i, failed);
      }
    }
  }

  /** After any history of persisted and lost writes: Initialized is there, and true, once a pass was
      persisted; Active once an error-free one was, and it is true exactly if the last of them found at
      least one component and all of them running; Failed once a failed one was, true and with the last
      one's message; and there is no other condition. */
  lemma ConditionsMean(passes: seq<StatusPass>, c: Condition)
    ensures var cs := StatusAfter(passes).conditions;
            && (c in cs && c.ctype == "Initialized" ==> c.status && c.reason == "InferenceServiceCreating")
            && (c in cs && c.ctype == "Failed" ==> c.status && c.reason == "InferenceServiceFailed")
            && (c in cs && c.ctype == "Active" ==>
                  c.reason == if c.status then "InferenceServiceAvailable" else "InferenceServiceProcessing")
            && (c in cs ==> c.ctype == "Initialized" || c.ctype == "Active" || c.ctype == "Failed")
            && (forall i: nat | c in cs && c.ctype == "Active" && IsLast(passes, i, false) ::
                  c.status <==>
                    && passes[i].components != map[]
                    && forall r | r in passes[i].components :: passes[i].components[r].phase.Running?)
            && (forall i: nat | c in cs && c.ctype == "Failed" && IsLast(passes, i, true) :: Some(c.message) == passes[i].error)
  {
    ConditionHistory(passes);
    LastPersistedMeans(passes, false);
    LastPersistedMeans(passes, true);
  }

  /** And each of them is there exactly then. */
  lemma ConditionsThere(passes: seq<StatusPass>)
    ensures var cs := StatusAfter(passes).conditions;
            && ((exists c :: c in cs && c.ctype == "Initialized") <==> exists i :: 0 <= i < |passes| && passes[i].persisted)
            && ((exists c :: c in cs && c.ctype == "Active") <==> exists i: nat :: Persisted(passes, i, false))
            && ((exists c :: c in cs && c.ctype == "Failed") <==> exists i: nat :: Persisted(passes, i, true))
  {
    ConditionHistory(passes);
    LastPersistedMeans(passes, false);
    LastPersistedMeans(passes, true);
    LastWrittenMeans(passes);
    var cs := StatusAfter(passes).conditions;
    if LastPersisted(passes, false).Some? {
      var ready := AllComponentsReady(LastPersisted(passes, false).value.components);
      assert (if ready then ACTIVE_CONDITION else PROCESSING_CONDITION) in cs;
    }
    if LastPersisted(passes, true).Some? {
      LastFailed(passes);
      assert FailedCondition(LastPersisted(passes, true).value.error.value) in cs;
    }
  }

  lemma {:induction false} LastFailed(passes: seq<StatusPass>)
    requires LastPersisted(passes, true).Some?
    ensures LastPersisted(passes, true).value.error.Some?
  {
    if !(passes[|passes| - 1].persisted && passes[|passes| - 1].error.Some?) {
      LastFailed(passes[..|passes| - 1]);
    }
  }

  /** The rest of the status is that of the last persisted pass. */
  lemma {:induction false} LastWrittenMeans(passes: seq<StatusPass>)
    ensures LastWritten(passes).Some? <==> exists i :: 0 <= i < |passes| && passes[i].persisted
    ensures var s := StatusAfter(passes);
            forall i | 0 <= i < |passes| && passes[i].persisted && (forall j | i < j < |passes| :: !passes[j].persisted) ::
              s.components == passes[i].components && s.observedGeneration == passes[i].generation
  {
    if passes != [] {
      var init, n := passes[..|passes| - 1], |passes| - 1;
      LastWrittenMeans(init);
      assert forall i | 0 <= i < n :: init[i] == passes[i];
    }
  }

  lemma {:induction false} UpsertAppends(cs: seq<Condition>, c: Condition)
    requires forall d | d in cs :: d.ctype != c.ctype
    ensures Upsert(cs, c) == cs + [c]
  {
    if cs != [] {
      assert cs == [cs[0]] + cs[1..];
      UpsertAppends(cs[1..], c);
    }
  }

  predicate FirstOfType(cs: seq<Condition>, c: Condition, i: nat) {
    i < |cs| && cs[i].ctype == c.ctype && forall j | 0 <= j < i :: cs[j].ctype != c.ctype
  }

  lemma {:induction false} UpsertReplaces(cs: seq<Condition>, c: Condition, i: nat)
    requires FirstOfType(cs, c, i)
    ensures Upsert(cs, c) == cs[i := c]
  {
    if i == 0 {
      assert cs[0 := c] == [c] + cs[1..];
    } else {
      assert forall j | 0 <= j < i :: cs[1..][j] == cs[j + 1];
      UpsertReplaces(cs[1..], c, i - 1);
      assert cs[i := c] == [cs[0]] + cs[1..][i - 1 := c];
    }
  }

  /** `SetStatusCondition` by positions: the first condition of the type gives way, or the new one comes
      last; all others keep their places. */
  lemma UpsertPositions(cs: seq<Condition>, c: Condition)
    ensures (forall d | d in cs :: d.ctype != c.ctype) ==> Upsert(cs, c) == cs + [c]
    ensures forall i: nat | FirstOfType(cs, c, i) :: Upsert(cs, c) == cs[i := c]
  {
    if forall d | d in cs :: d.ctype != c.ctype {
      UpsertAppends(cs, c);
    }
    forall i: nat | FirstOfType(cs, c, i)
      ensures Upsert(cs, c) == cs[i := c]
    {
      UpsertReplaces(cs, c, i);
    }
  }

  lemma PassUpserts(before: ServiceStatus, p: StatusPass)
    requires OnePerType(before.conditions)
    requires before.conditions != [] ==> INIT_CONDITION in before.conditions
    requires forall c | c in before.conditions && c.ctype == INITIALIZED :: c == INIT_CONDITION
    ensures var s, final := PassStatus(before, p.generation, p.error, p.components), FinalCondition(p.error, p.components);
            && OnePerType(s.conditions) && s.conditions != [] && INIT_CONDITION in s.conditions
            && (forall c | c in s.conditions && c.ctype == final.ctype :: c == final)
            && final in s.conditions
            && (forall c: Condition | c.ctype != final.ctype && c != INIT_CONDITION :: c in s.conditions <==> c in before.conditions)
  {
    var cs := Initialized(before.conditions);
    assert before.conditions == [] ==> cs == [INIT_CONDITION];
    UpsertSpec(cs, FinalCondition(p.error, p.components));
  }
}
