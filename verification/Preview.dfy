/** The simulation preview of an Agent, compared with the deployment that the
    agent controller would create. */
module Preview {
  import opened Kube
  import opened Deployment

  datatype Warning = TemplateImage | NoProtocols | SandboxInjected | PolicyInjected(index: nat) | CostBudgetSet

  /** What the preview reads of the Agent besides its policy references; `env` are
      the user's variables only. */
  datatype Options = Options(image: string, framework: string, ports: seq<int>, env: string, sandboxRef: bool, costBudget: bool)

  const TEMPLATE_IMAGE_ADK := "ghcr.io/agentic-layer/agent-template-adk:0.8.0"
  const TEMPLATE_IMAGE_MSAF := "ghcr.io/agentic-layer/agent-template-msaf:0.1.0"
  const PREVIEW_RESOURCES := "requests 300Mi 100m, limits 500Mi 500m"

  function PreviewImage(o: Options): string {
    if o.image != "" then o.image else if o.framework == "msaf" then TEMPLATE_IMAGE_MSAF else TEMPLATE_IMAGE_ADK
  }

  const PREVIEW_SANDBOX := EmptyContainer(SANDBOX).(image := "wasmedge/wasmedge:0.14.1")
  const PREVIEW_OPA := EmptyContainer(OPA).(image := "openpolicyagent/opa:1.4.2-static")
  const PREVIEW_EBPF := EmptyContainer(EBPF).(image := "cilium/cilium:v1.17.3")

  /** The agent container, then the sandbox, before the policies. */
  function PreviewBase(o: Options): seq<Container> {
    [EmptyContainer(AGENT).(image := PreviewImage(o), ports := o.ports, env := o.env, resources := PREVIEW_RESOURCES)] +
    if o.sandboxRef then [PREVIEW_SANDBOX] else []
  }

  /** The agent container as the preview shows it. */
  lemma PreviewBaseIs(o: Options)
    ensures var cs := PreviewBase(o);
            && |cs| == (if o.sandboxRef then 2 else 1)
            && cs[0].name == "agent" && cs[0].ports == o.ports && cs[0].env == o.env && cs[0].resources == PREVIEW_RESOURCES
            && cs[0] == Container("agent", cs[0].image, o.ports, o.env, "", "", None, PREVIEW_RESOURCES, None, "")
            && (o.image != "" ==> cs[0].image == o.image)
            && (o.image == "" ==> cs[0].image == if o.framework == "msaf" then TEMPLATE_IMAGE_MSAF else TEMPLATE_IMAGE_ADK)
            && (o.sandboxRef ==> cs[1].name == "wasm-sandbox" && cs[1].image == "wasmedge/wasmedge:0.14.1")
            && PREVIEW_OPA.name == "opa-policy" && PREVIEW_EBPF.name == "ebpf-probe"
  {
  }

  ghost predicate IsWarning(o: Options, policyRefs: nat, w: Warning) {
    match w
    case TemplateImage => o.image == ""
    case NoProtocols => o.ports == []
    case SandboxInjected => o.sandboxRef
    case PolicyInjected(i) => i < policyRefs
    case CostBudgetSet => o.costBudget
  }

  method PreviewAgent(o: Options) returns (containers: seq<Container>, warnings: seq<Warning>)
    ensures containers == PreviewBase(o)
    ensures NoDuplicates(warnings) && forall w :: w in warnings <==> w != CostBudgetSet && IsWarning(o, 0, w)
  {
    warnings := [];
    var image := o.image;
    if image == "" {
      if o.framework == "google-adk" {
        image := TEMPLATE_IMAGE_ADK;
      } else if o.framework == "msaf" {
        image := TEMPLATE_IMAGE_MSAF;
      } else {
        image := TEMPLATE_IMAGE_ADK;
      }
      warnings := warnings + [TemplateImage];
    }
    if |o.ports| == 0 {
      warnings := warnings + [NoProtocols];
    }
    containers := [EmptyContainer(AGENT).(image := image, ports := o.ports, env := o.env, resources := PREVIEW_RESOURCES)];
    if o.sandboxRef {
      containers := containers + [PREVIEW_SANDBOX];
      warnings := warnings + [SandboxInjected];
    }
  }

  /** One OPA container and one eBPF init container for every policy reference,
      whether it resolves or not, and whatever rules it has. */
  method BuildPreviewDeployment(o: Options, d: Desired)
      returns (containers: seq<Container>, initContainers: seq<Container>, warnings: seq<Warning>)
    ensures containers == PreviewBase(o) + seq(|d.policies|, _ => PREVIEW_OPA)
    ensures initContainers == seq(|d.policies|, _ => PREVIEW_EBPF)
    ensures |containers| + |initContainers| == PreviewCount(o, d)
    ensures NoDuplicates(warnings) && forall w :: w in warnings <==> IsWarning(o, |d.policies|, w)
    ensures TemplateImage in warnings <==> o.image == ""
    ensures NoProtocols in warnings <==> |o.ports| == 0
    ensures SandboxInjected in warnings <==> o.sandboxRef
    ensures CostBudgetSet in warnings <==> o.costBudget
    ensures forall i: nat :: PolicyInjected(i) in warnings <==> i < |d.policies|
  {
    containers, warnings := PreviewAgent(o);
    initContainers := [];
    for i := 0 to |d.policies|
      invariant containers == PreviewBase(o) + seq(i, _ => PREVIEW_OPA) && initContainers == seq(i, _ => PREVIEW_EBPF)
      invariant NoDuplicates(warnings)
      invariant forall w :: w in warnings <==> w != CostBudgetSet && IsWarning(o, i, w)
    {
      assert PolicyInjected(i) !in warnings;
      containers := containers + [PREVIEW_OPA];
      initContainers := initContainers + [PREVIEW_EBPF];
      warnings := warnings + [PolicyInjected(i)];
    }
    if o.costBudget {
      assert CostBudgetSet !in warnings;
      warnings := warnings + [CostBudgetSet];
    }
  }

  function PreviewCount(o: Options, d: Desired): nat {
    1 + (if o.sandboxRef then 1 else 0) + 2 * |d.policies|
  }

  /** The containers and init containers that the first pass creates. */
  ghost function RealCount(v: View, d: Desired, lands: bool): nat {
    var created := Mutated(v, d, true, lands);
    |created.containers| + |created.initContainers|
  }

  ghost predicate AnyOPA(policies: seq<Option<Policy>>) {
    exists i :: 0 <= i < |policies| && policies[i].Some? && HasOPARules(policies[i].value)
  }

  ghost predicate AnyEBPF(policies: seq<Option<Policy>>) {
    exists i :: 0 <= i < |policies| && policies[i].Some? && HasEBPFRules(policies[i].value)
  }

  lemma {:induction false} PoliciesAddAtMostOne(cs: seq<Container>, policies: seq<Option<Policy>>)
    ensures |WithPolicies(cs, policies)| == |cs| + if IndexOf(cs, OPA) == |cs| && AnyOPA(policies) then 1 else 0
    decreases |policies|
  {
    if policies != [] {
      PoliciesAddAtMostOne(WithPolicy(cs, policies[0]), policies[1..]);
      assert forall i :: 0 <= i < |policies| - 1 ==> policies[1..][i] == policies[i + 1];
      if policies[0].Some? {
        IndexOfAppend(cs, BuildOPASidecar(policies[0].value), OPA);
      }
    }
  }

  lemma {:induction false} InitsAddAtMostOne(cs: seq<Container>, policies: seq<Option<Policy>>)
    ensures |WithInits(cs, policies)| == |cs| + if IndexOf(cs, EBPF) == |cs| && AnyEBPF(policies) then 1 else 0
    decreases |policies|
  {
    if policies != [] {
      InitsAddAtMostOne(WithInit(cs, policies[0]), policies[1..]);
      assert forall i :: 0 <= i < |policies| - 1 ==> policies[1..][i] == policies[i + 1];
      if policies[0].Some? {
        IndexOfAppend(cs, BuildEBPFInitContainer(policies[0].value), EBPF);
      }
    }
  }

  lemma RealCountIs(v: View, d: Desired, lands: bool)
    requires WellFormed(d) && v.containers == [] && v.initContainers == []
    ensures RealCount(v, d, lands) ==
            1 + (if d.sandbox.Some? then 1 else 0) + (if AnyOPA(d.policies) then 1 else 0) + (if AnyEBPF(d.policies) then 1 else 0)
  {
    FreshSandbox(d);
    PoliciesAddAtMostOne(WithSandbox(WithAgent([], d.agent), d.sandbox), d.policies);
    InitsAddAtMostOne([], d.policies);
  }

  lemma FreshSandbox(d: Desired)
    requires WellFormed(d)
    ensures var cs := WithSandbox(WithAgent([], d.agent), d.sandbox);
            |cs| == 1 + (if d.sandbox.Some? then 1 else 0) && IndexOf(cs, OPA) == |cs|
  {
    var cs1 := WithAgent([], d.agent);
    var cs2 := WithSandbox(cs1, d.sandbox);
    assert cs1 == [WithAgentFields(EmptyContainer(AGENT), d.agent)];
    assert IndexOf(cs1, SANDBOX) == 1;
    assert forall i :: 0 <= i < |cs2| ==> cs2[i].name != OPA;
  }

  /** The preview never shows too few containers.  It shows exactly those of a
      fresh deployment if and only if a sandbox reference resolves, and there is
      no policy reference or a single one that resolves to a policy with both
      OPA and eBPF rules. */
  lemma PreviewCountsContainers(o: Options, v: View, d: Desired, lands: bool)
    requires WellFormed(d) && v.containers == [] && v.initContainers == []
    requires d.sandbox.Some? ==> o.sandboxRef
    ensures PreviewCount(o, d) >= RealCount(v, d, lands)
    ensures PreviewCount(o, d) == RealCount(v, d, lands) <==>
            (o.sandboxRef ==> d.sandbox.Some?) &&
            (d.policies == [] ||
             (|d.policies| == 1 && d.policies[0].Some? && HasOPARules(d.policies[0].value) && HasEBPFRules(d.policies[0].value)))
  {
    RealCountIs(v, d, lands);
  }
}
