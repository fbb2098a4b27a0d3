/** What a built LeaderWorkerSet satisfies: one label map with the right hash in it, a leader and a
    worker that differ only in container 0, and a leader command line made of the user's words. */
module WorkloadFacts {
  import opened Api
  import opened Text
  import opened Scheduling
  import opened Workload

  /* ---- the aliased hash label ---- */

  function Unstamp(t: PodTemplate): PodTemplate {
    t.(labels := t.labels - {LABEL_SPEC_HASH})
  }

  /** The final spec with the hash label erased from every template. */
  function EraseHash(spec: LwsSpec): LwsSpec {
    spec.(worker := Unstamp(spec.worker),
          leader := if spec.leader.Some? then Some(Unstamp(spec.leader.value)) else None)
  }

  lemma EraseUndoesStamp(spec: LwsSpec, h: string)
    requires LABEL_SPEC_HASH !in spec.worker.labels
    requires spec.leader.Some? ==> LABEL_SPEC_HASH !in spec.leader.value.labels
    ensures EraseHash(StampSpec(spec, h)) == spec
  {
    assert spec.worker.labels[LABEL_SPEC_HASH := h] - {LABEL_SPEC_HASH} == spec.worker.labels;
    if spec.leader.Some? {
      var l := spec.leader.value.labels;
      assert l[LABEL_SPEC_HASH := h] - {LABEL_SPEC_HASH} == l;
    }
  }

  /** Although the hash ends up inside the spec it was computed from, the label is the hash of the
      final spec with that key erased, and the object and both pod templates carry equal labels. */
  lemma HashLabelOfFinalSpec(env: Env, svc: InferenceService, role: Role, cfg: LwsConfig)
    requires Buildable(role)
    ensures var o := LwsObj(env, svc, role, cfg);
            && o.payload.LwsPayload?
            && SpecHash(o) == env.hash(LwsPayload(EraseHash(o.payload.lws)))
            && o.payload.lws.worker.labels == o.labels
            && (o.payload.lws.leader.Some? ==> o.payload.lws.leader.value.labels == o.labels)
  {
    EraseUndoesStamp(LwsSpecOf(svc, role, cfg), SpecHash(LwsObj(env, svc, role, cfg)));
  }

  /** Two built sets have the same hash label exactly when they are the same object, labels and
      spec, unless their two specs collide. So comparing labels decides staleness. */
  lemma LabelDecidesStaleness(
    env: Env, svc: InferenceService, role: Role, cfg: LwsConfig, svc': InferenceService, role': Role, cfg': LwsConfig)
    requires Buildable(role) && Buildable(role')
    requires var a, b := LwsPayload(LwsSpecOf(svc, role, cfg)), LwsPayload(LwsSpecOf(svc', role', cfg'));
             env.hash(a) == env.hash(b) ==> a == b
    ensures SpecHash(LwsObj(env, svc, role, cfg)) == SpecHash(LwsObj(env, svc', role', cfg'))
            <==> LwsObj(env, svc, role, cfg) == LwsObj(env, svc', role', cfg')
  {
    assert LwsSpecOf(svc, role, cfg).worker.labels == BaseLabels(svc, role, cfg);
    assert LwsSpecOf(svc', role', cfg').worker.labels == BaseLabels(svc', role', cfg');
  }

  /* ---- leader and worker ---- */

  /** l is c started as Ray head: one shell line, one more port, and a probe if c brings none. */
  predicate IsLeaderOf(l: Container, c: Container) {
    && l.name == c.name && l.image == c.image && l.limits == c.limits
    && l.command == ["/bin/sh", "-c"] && |l.args| == 1 && Words(l.args[0]) == LeaderWords(c)
    && l.ports == c.ports + [ContainerPort("ray-head", 6379)]
    && l.readinessProbe == (if c.readinessProbe.Some? then c.readinessProbe else Some(TcpProbe(6379, 10, 10, 5, 1, 6)))
  }

  /** w is c with its command line replaced, and nothing else. */
  predicate IsWorkerOf(w: Container, c: Container) {
    && w.command == ["/bin/sh", "-c"] && w.args == ["ray start --address=$LWS_LEADER_ADDRESS:6379 --block"]
    && w.(command := c.command, args := c.args) == c
  }

  /** Multi-node pods: same labels, annotations, scheduler and other fields, the template's own
      containers from position 1 on, and container 0 differing only in its Ray wrapping. */
  lemma LeaderWorkerAgree(svc: InferenceService, role: Role, cfg: LwsConfig)
    requires Buildable(role)
    ensures var spec := LwsSpecOf(svc, role, cfg);
            && (spec.leader.Some? <==> MultiNode(role))
            && (spec.leader.Some? ==>
                  var l, w := spec.leader.value, spec.worker;
                  && l.labels == w.labels && l.annotations == w.annotations
                  && l.spec.schedulerName == w.spec.schedulerName && l.spec.rest == w.spec.rest
                  && |l.spec.containers| == |w.spec.containers| == |TemplateContainers(role)|
                  && l.spec.containers[1..] == w.spec.containers[1..] == TemplateContainers(role)[1..]
                  && IsLeaderOf(l.spec.containers[0], TemplateContainers(role)[0])
                  && IsWorkerOf(w.spec.containers[0], TemplateContainers(role)[0]))
  {
    if MultiNode(role) {
      LeaderLineWords(TemplateContainers(role)[0].command, TemplateContainers(role)[0].args);
    }
  }

  /* ---- the leader's command line ---- */

  function LeaderWords(c: Container): seq<string> {
    RayHeadWords()
    + (if Join(c.command, " ") == "" then ["vllm", "serve"] else WordsOf(c.command))
    + WordsOf(c.args)
    + (if exists a | a in c.args :: Contains(a, "distributed-executor-backend") then [] else ["--distributed-executor-backend", "ray"])
  }

  function RayHeadWords(): seq<string> {
    ["ray", "start", "--head", "--port=6379", "&&"]
  }

  predicate IsWord(w: string) {
    w != [] && ' ' !in w
  }

  lemma TwoWords(line: string, a: string, b: string)
    requires IsWord(a) && IsWord(b) && line == a + " " + b
    ensures Words(line) == [a, b]
  {
    WordsConcat(a, b);
    OneWord(a);
    OneWord(b);
  }

  lemma ConsWord(line: string, w: string, rest: string)
    requires IsWord(w) && line == w + " " + rest
    ensures Words(line) == [w] + Words(rest)
  {
    WordsConcat(w, rest);
    OneWord(w);
  }

  lemma FiveWords(line: string, l1: string, l2: string, l3: string, a: string, b: string, c: string, d: string, e: string)
    requires IsWord(a) && IsWord(b) && IsWord(c) && IsWord(d) && IsWord(e)
    requires line == a + " " + l1 && l1 == b + " " + l2 && l2 == c + " " + l3 && l3 == d + " " + e
    ensures Words(line) == [a, b, c, d, e]
  {
    ConsWord(line, a, l1);
    ConsWord(l1, b, l2);
    ConsWord(l2, c, l3);
    TwoWords(l3, d, e);
  }

  const RAY_TAIL1 := "start --head --port=6379 &&"
  const RAY_TAIL2 := "--head --port=6379 &&"
  const RAY_TAIL3 := "--port=6379 &&"

  lemma RayHeadSplits()
    ensures RAY_HEAD == "ray" + " " + RAY_TAIL1
  {
  }

  lemma RayStartSplits()
    ensures RAY_TAIL1 == "start" + " " + RAY_TAIL2
  {
  }

  lemma RayTailSplits()
    ensures RAY_TAIL2 == "--head" + " " + RAY_TAIL3 && RAY_TAIL3 == "--port=6379" + " " + "&&"
  {
  }

  lemma RayHeadLine()
    ensures Words(RAY_HEAD) == RayHeadWords()
  {
    RayHeadSplits();
    RayStartSplits();
    RayTailSplits();
    FiveWords(RAY_HEAD, RAY_TAIL1, RAY_TAIL2, RAY_TAIL3, "ray", "start", "--head", "--port=6379", "&&");
  }

  /** A leader line in its four pieces, whatever their words are. */
  lemma LineWords(head: string, cmd: string, args: string, flags: string)
    ensures Words(head + " " + cmd + " " + args + " " + flags) == Words(head) + Words(cmd) + Words(args) + Words(flags)
  {
    WordsConcat(head, cmd);
    WordsConcat(head + " " + cmd, args);
    WordsConcat(head + " " + cmd + " " + args, flags);
  }

  lemma CommandWords(command: seq<string>, cmd: string)
    requires cmd == if Join(command, " ") == "" then "vllm serve" else Join(command, " ")
    ensures Words(cmd) == if Join(command, " ") == "" then ["vllm", "serve"] else WordsOf(command)
  {
    if Join(command, " ") == "" {
      TwoWords(cmd, "vllm", "serve");
    } else {
      WordsJoin(command);
    }
  }

  lemma FlagWords(args: seq<string>, flags: string)
    requires flags == if Contains(Join(args, " "), BACKEND_FLAG) then "" else "--distributed-executor-backend ray"
    ensures Words(flags) ==
            if exists a | a in args :: Contains(a, BACKEND_FLAG) then [] else ["--distributed-executor-backend", "ray"]
  {
    ContainsJoin(args, BACKEND_FLAG);
    if !Contains(Join(args, " "), BACKEND_FLAG) {
      TwoWords(flags, "--distributed-executor-backend", "ray");
    }
  }

  /** The words of the leader line are the Ray prefix, the command's own words (or `vllm serve`
      when the joined command is empty), the words of the arguments, and the backend flag exactly
      when no single argument contains it. */
  lemma LeaderLineWords(command: seq<string>, args: seq<string>)
    ensures Words(LeaderLine(command, args)) ==
            RayHeadWords()
            + (if Join(command, " ") == "" then ["vllm", "serve"] else WordsOf(command))
            + WordsOf(args)
            + (if exists a | a in args :: Contains(a, BACKEND_FLAG) then [] else ["--distributed-executor-backend", "ray"])
  {
    var cmd := if Join(command, " ") == "" then "vllm serve" else Join(command, " ");
    var flags := if Contains(Join(args, " "), BACKEND_FLAG) then "" else "--distributed-executor-backend ray";
    LineWords(RAY_HEAD, cmd, Join(args, " "), flags);
    RayHeadLine();
    CommandWords(command, cmd);
    WordsJoin(args);
    FlagWords(args, flags);
  }
}
