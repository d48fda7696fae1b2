/** The mutation that ensureDeployment applies to a Deployment on every
    reconcile.

    The container list is a Go slice: a length and a backing array.  The agent
    container is found or appended, and a pointer to it is kept.  Appending a
    sidecar later may move the slice to a larger array; the liveness probe that
    is then written through the pointer ends up in the abandoned one. */
module Deployment {
  import opened Kube

  /******* Values *******/

  datatype Container = Container(
    name: string,
    image: string,
    ports: seq<int>,
    env: string,
    envFrom: string,
    volumeMounts: string,
    readinessProbe: Option<string>,
    resources: string,
    livenessProbe: Option<int>,
    other: string)

  /** `port` of the TCP liveness probe that self-healing asks for, if it does
      and the agent has a protocol. */
  datatype Lifecycle = Lifecycle(strategy: string, graceSeconds: int, probePort: Option<int>)

  datatype Rule = Rule(opa: bool, ebpf: bool)

  datatype Policy = Policy(name: string, rules: seq<Rule>)

  /** Everything the mutation reads: the agent's spec and what its references
      resolve to.  An unresolved sandbox or policy is None. */
  datatype Desired = Desired(
    name: string,
    framework: string,
    replicas: Option<int>,
    agent: Container,
    volumes: string,
    commonLabels: map<string, string>,
    commonAnnotations: map<string, string>,
    podLabels: map<string, string>,
    podAnnotations: map<string, string>,
    sandbox: Option<Container>,
    policies: seq<Option<Policy>>,
    lifecycle: Option<Lifecycle>,
    featureAnnotations: seq<map<string, string>>)

  const AGENT := "agent"
  const SANDBOX := "wasm-sandbox"
  const OPA := "opa-policy"
  const EBPF := "ebpf-probe"

  ghost predicate WellFormed(d: Desired) {
    d.sandbox.Some? ==> d.sandbox.value.name == SANDBOX
  }

  function EmptyContainer(name: string): Container {
    Container(name, "", [], "", "", "", None, "", None, "")
  }

  function BuildOPASidecar(p: Policy): Container {
    EmptyContainer(OPA).(image := "openpolicyagent/opa:1.4.2-static", ports := [8181], env := p.name)
  }

  function BuildEBPFInitContainer(p: Policy): Container {
    EmptyContainer(EBPF).(image := "cilium/cilium:v1.17.3", env := p.name)
  }

  function HasOPARules(p: Policy): bool {
    exists i :: 0 <= i < |p.rules| && p.rules[i].opa
  }

  function HasEBPFRules(p: Policy): bool {
    exists i :: 0 <= i < |p.rules| && p.rules[i].ebpf
  }

  /******* The mutation as a function *******/

  /** findContainerByName: the first index, or the length. */
  function IndexOf(cs: seq<Container>, name: string): (i: nat)
    ensures i <= |cs|
    ensures i < |cs| ==> cs[i].name == name
    ensures forall j :: 0 <= j < i ==> cs[j].name != name
  {
    if cs == [] || cs[0].name == name then 0 else 1 + IndexOf(cs[1..], name)
  }

  /** The fields of the agent container that every pass overwrites. */
  function WithAgentFields(c: Container, a: Container): Container {
    c.(image := a.image, ports := a.ports, env := a.env, envFrom := a.envFrom, volumeMounts := a.volumeMounts,
       readinessProbe := a.readinessProbe, resources := a.resources)
  }

  function WithAgent(cs: seq<Container>, a: Container): seq<Container> {
    var i := IndexOf(cs, AGENT);
    if i < |cs| then cs[i := WithAgentFields(cs[i], a)] else cs + [WithAgentFields(EmptyContainer(AGENT), a)]
  }

  function WithSandboxFields(c: Container, w: Container): Container {
    c.(image := w.image, ports := w.ports, env := w.env, resources := w.resources)
  }

  function WithSandbox(cs: seq<Container>, sandbox: Option<Container>): seq<Container> {
    if sandbox.None? then cs
    else
      var i := IndexOf(cs, sandbox.value.name);
      if i < |cs| then cs[i := WithSandboxFields(cs[i], sandbox.value)] else cs + [sandbox.value]
  }

  function WithPolicy(cs: seq<Container>, policy: Option<Policy>): seq<Container> {
    if policy.Some? && HasOPARules(policy.value) && IndexOf(cs, OPA) == |cs| then cs + [BuildOPASidecar(policy.value)] else cs
  }

  function WithPolicies(cs: seq<Container>, policies: seq<Option<Policy>>): seq<Container>
    decreases |policies|
  {
    if policies == [] then cs else WithPolicies(WithPolicy(cs, policies[0]), policies[1..])
  }

  function WithInit(cs: seq<Container>, policy: Option<Policy>): seq<Container> {
    if policy.Some? && HasEBPFRules(policy.value) && IndexOf(cs, EBPF) == |cs|
    then cs + [BuildEBPFInitContainer(policy.value)] else cs
  }

  function WithInits(cs: seq<Container>, policies: seq<Option<Policy>>): seq<Container>
    decreases |policies|
  {
    if policies == [] then cs else WithInits(WithInit(cs, policies[0]), policies[1..])
  }

  function SelfHealingPort(d: Desired): Option<int> {
    if d.lifecycle.Some? then d.lifecycle.value.probePort else None
  }

  /** ConfigureSelfHealing: an existing probe is kept. */
  function WithProbeField(c: Container, port: Option<int>): Container {
    if port.Some? && c.livenessProbe.None? then c.(livenessProbe := port) else c
  }

  function WithProbe(cs: seq<Container>, port: Option<int>): seq<Container> {
    var i := IndexOf(cs, AGENT);
    if i < |cs| then cs[i := WithProbeField(cs[i], port)] else cs
  }

  /** The containers before the probe is written. */
  function WithSidecars(cs: seq<Container>, d: Desired): seq<Container> {
    WithPolicies(WithSandbox(WithAgent(cs, d.agent), d.sandbox), d.policies)
  }

  function WithProbeIf(cs: seq<Container>, d: Desired, lands: bool): seq<Container> {
    if lands then WithProbe(cs, SelfHealingPort(d)) else cs
  }

  function MergeAll(m: map<string, string>, more: seq<map<string, string>>): map<string, string>
    decreases |more|
  {
    if more == [] then m else MergeAll(m + more[0], more[1..])
  }

  function SelectorLabels(d: Desired): map<string, string> {
    map["app" := d.name]
  }

  function ManagedLabels(d: Desired): map<string, string> {
    map["app" := d.name, "framework" := d.framework]
  }

  datatype View = View(
    labels: map<string, string>,
    annotations: map<string, string>,
    selector: Option<map<string, string>>,
    templateLabels: map<string, string>,
    templateAnnotations: map<string, string>,
    replicas: Option<int>,
    strategy: Option<string>,
    containers: seq<Container>,
    initContainers: seq<Container>,
    volumes: string,
    graceSeconds: Option<int>)

  /** One pass.  `creating` holds when the Deployment does not exist yet;
      `lands` when the probe is written into the current slice. */
  function Mutated(v: View, d: Desired, creating: bool, lands: bool): View {
    View(
      v.labels + d.commonLabels + ManagedLabels(d),
      v.annotations + d.commonAnnotations,
      if creating then Some(SelectorLabels(d)) else v.selector,
      d.commonLabels + d.podLabels + SelectorLabels(d),
      MergeAll(d.commonAnnotations + d.podAnnotations, d.featureAnnotations),
      if d.replicas.Some? then d.replicas else if v.replicas.None? then Some(0) else v.replicas,
      if d.lifecycle.Some? then Some(d.lifecycle.value.strategy) else v.strategy,
      WithProbeIf(WithSidecars(v.containers, d), d, lands),
      WithInits(v.initContainers, d.policies),
      d.volumes,
      if d.lifecycle.Some? then Some(d.lifecycle.value.graceSeconds) else v.graceSeconds)
  }

  /******* The mutation on a slice *******/

  /** The capacity after the agent container was found or appended: that of the
      decoded slice if there is room, else any that suffices. */
  ghost predicate IsRoom(room: nat, capacity: nat, cs: seq<Container>, d: Desired) {
    var needed := |WithAgent(cs, d.agent)|;
    if needed <= capacity then room == capacity else needed <= room
  }

  class PodSpec {
    var backing: array<Container>
    var len: nat
    var initContainers: seq<Container>
    var volumes: string
    var graceSeconds: Option<int>

    ghost predicate Valid()
      reads this
    {
      len <= backing.Length
    }

    function Containers(): seq<Container>
      reads this, backing
      requires Valid()
    {
      backing[..len]
    }

    /** A decoded pod spec; Go gives the slice any capacity that suffices. */
    constructor (v: View, spare: nat)
      ensures Valid() && fresh(backing) && backing.Length == |v.containers| + spare
      ensures Containers() == v.containers
      ensures initContainers == v.initContainers && volumes == v.volumes && graceSeconds == v.graceSeconds
    {
      backing := new Container[|v.containers| + spare](i => if 0 <= i < |v.containers| then v.containers[i] else EmptyContainer(""));
      len := |v.containers|;
      initContainers, volumes, graceSeconds := v.initContainers, v.volumes, v.graceSeconds;
      new;
      assert backing[..len] == v.containers;
    }

    method FindContainerByName(name: string) returns (i: nat)
      requires Valid()
      ensures i == IndexOf(Containers(), name)
    {
      i := 0;
      while i < len
        invariant i <= len
        invariant IndexOf(Containers(), name) == i + IndexOf(Containers()[i..], name)
      {
        if backing[i].name == name {
          return;
        }
        assert Containers()[i..][1..] == Containers()[i + 1..];
        i := i + 1;
      }
    }

    /** append: in place while there is room, else into a new, larger array. */
    method Append(c: Container)
      requires Valid()
      modifies this`backing, this`len, backing
      ensures Valid() && Containers() == old(Containers()) + [c]
      ensures backing == old(backing) || fresh(backing)
      ensures backing == old(backing) <==> len <= old(backing.Length)
      ensures old(backing)[..old(len)] == old(Containers())
    {
      if len < backing.Length {
        backing[len] := c;
      } else {
        var spare: nat :| true;
        var bigger := new Container[len + 1 + spare](i reads this, backing requires Valid() =>
          if 0 <= i < len then backing[i] else c);
        assert bigger[..len] == old(Containers());
        backing := bigger;
      }
      len := len + 1;
    }

    /** Finds or appends the agent container, fills it in and returns a pointer
        to it. */
    method EnsureAgent(a: Container) returns (p: array<Container>, i: nat)
      requires Valid()
      modifies this`backing, this`len, backing
      ensures Valid() && Containers() == WithAgent(old(Containers()), a)
      ensures backing == old(backing) || fresh(backing)
      ensures backing == old(backing) <==> len <= old(backing.Length)
      ensures p == backing && i == IndexOf(Containers(), AGENT) && i < len
    {
      i := FindContainerByName(AGENT);
      if i == len {
        Append(EmptyContainer(AGENT));
        i := len - 1;
      }
      p := backing;
      ghost var before := Containers();
      SetAgentFields(p, i, a);
      assert Containers() == before[i := WithAgentFields(before[i], a)];
      IndexOfAt(Containers(), AGENT, i);
    }

    method EnsureSandbox(sandbox: Option<Container>)
      requires Valid()
      modifies this`backing, this`len, backing
      ensures Valid() && Containers() == WithSandbox(old(Containers()), sandbox)
      ensures backing == old(backing) || fresh(backing)
      ensures len >= old(len) && (backing == old(backing) <==> len <= old(backing.Length))
    {
      if sandbox.None? {
        return;
      }
      ghost var before := Containers();
      var w := sandbox.value;
      var i := FindContainerByName(w.name);
      if i == len {
        Append(w);
      } else {
        SetSandboxFields(backing, i, w);
        assert Containers() == before[i := WithSandboxFields(before[i], w)];
      }
    }

    method EnsureOPA(policy: Policy)
      requires Valid()
      modifies this`backing, this`len, backing
      ensures Valid() && Containers() == WithPolicy(old(Containers()), Some(policy))
      ensures backing == old(backing) || fresh(backing)
      ensures len >= old(len) && (backing == old(backing) <==> len <= old(backing.Length))
    {
      if HasOPARules(policy) {
        var i := FindContainerByName(OPA);
        if i == len {
          Append(BuildOPASidecar(policy));
        }
      }
    }

    method EnsureEBPF(policy: Policy)
      modifies this`initContainers
      ensures initContainers == WithInit(old(initContainers), Some(policy))
    {
      if HasEBPFRules(policy) {
        var found := false;
        for j := 0 to |initContainers|
          invariant !found && forall m :: 0 <= m < j ==> initContainers[m].name != EBPF
        {
          if initContainers[j].name == EBPF {
            found := true;
            break;
          }
        }
        if !found {
          initContainers := initContainers + [BuildEBPFInitContainer(policy)];
        }
      }
    }

    method EnsurePolicies(policies: seq<Option<Policy>>)
      requires Valid()
      modifies this`backing, this`len, this`initContainers, backing
      ensures Valid() && Containers() == WithPolicies(old(Containers()), policies)
      ensures initContainers == WithInits(old(initContainers), policies)
      ensures backing == old(backing) || fresh(backing)
      ensures len >= old(len) && (backing == old(backing) <==> len <= old(backing.Length))
    {
      for n := 0 to |policies|
        invariant Valid() && WithPolicies(Containers(), policies[n..]) == WithPolicies(old(Containers()), policies)
        invariant WithInits(initContainers, policies[n..]) == WithInits(old(initContainers), policies)
        invariant backing == old(backing) || fresh(backing)
        invariant len >= old(len) && (backing == old(backing) <==> len <= old(backing.Length))
      {
        assert policies[n..][1..] == policies[n + 1..];
        if policies[n].None? {
          continue;
        }
        EnsureOPA(policies[n].value);
        EnsureEBPF(policies[n].value);
      }
    }

    /** The agent container and its sidecars.  The pointer to the agent container
        is stale if and only if the sidecars do not fit into the array it points
        into. */
    method EnsureContainers(d: Desired) returns (p: array<Container>, i: nat)
      requires Valid()
      modifies this`backing, this`len, this`initContainers, this`volumes, backing
      ensures Valid() && Containers() == WithSidecars(old(Containers()), d)
      ensures initContainers == WithInits(old(initContainers), d.policies) && volumes == d.volumes
      ensures (p == old(backing) || fresh(p)) && (backing == old(backing) || fresh(backing))
      ensures i < p.Length && (p == backing ==> i == IndexOf(Containers(), AGENT) && i < len)
      ensures p == backing <==> |Containers()| <= p.Length
      ensures IsRoom(p.Length, old(backing.Length), old(Containers()), d)
    {
      SidecarsKeepAgentIndex(Containers(), d);
      p, i := EnsureAgent(d.agent);
      volumes := d.volumes;
      EnsureSandbox(d.sandbox);
      EnsurePolicies(d.policies);
    }

    /** The part of the closure that concerns the pod.  `room` is the capacity of
        the slice when the pointer is taken. */
    method Mutate(d: Desired) returns (lands: bool, room: nat)
      requires Valid()
      modifies this, backing
      ensures Valid()
      ensures Containers() == WithProbeIf(WithSidecars(old(Containers()), d), d, lands)
      ensures lands <==> |Containers()| <= room
      ensures IsRoom(room, old(backing.Length), old(Containers()), d)
      ensures initContainers == WithInits(old(initContainers), d.policies) && volumes == d.volumes
      ensures graceSeconds == if d.lifecycle.Some? then Some(d.lifecycle.value.graceSeconds) else old(graceSeconds)
    {
      var p, i := EnsureContainers(d);
      lands, room := p == backing, p.Length;
      if d.lifecycle.Some? {
        graceSeconds := Some(d.lifecycle.value.graceSeconds);
        WriteProbe(p, i, d);
      }
    }

    /** Writes the probe through the pointer taken earlier. */
    method WriteProbe(p: array<Container>, i: nat, d: Desired)
      requires Valid() && i < p.Length && d.lifecycle.Some?
      requires p == backing ==> i == IndexOf(Containers(), AGENT) && i < len
      modifies p
      ensures Containers() == WithProbeIf(old(Containers()), d, p == backing)
    {
      ghost var before := Containers();
      if d.lifecycle.value.probePort.Some? {
        ConfigureSelfHealing(p, i, d.lifecycle.value.probePort.value);
        assert p == backing ==> Containers() == before[i := WithProbeField(before[i], SelfHealingPort(d))];
      }
    }
  }

  lemma {:induction false} IndexOfAt(cs: seq<Container>, name: string, i: nat)
    requires i < |cs| && cs[i].name == name
    requires forall j :: 0 <= j < i ==> cs[j].name != name
    ensures IndexOf(cs, name) == i
  {
  }

  /** Writes through a container pointer, that is an array and an index. */
  method SetAgentFields(a: array<Container>, i: nat, c: Container)
    requires i < a.Length
    modifies a
    ensures a[..] == old(a[..])[i := WithAgentFields(old(a[i]), c)]
  {
    a[i] := a[i].(image := c.image);
    a[i] := a[i].(ports := c.ports);
    a[i] := a[i].(env := c.env);
    a[i] := a[i].(envFrom := c.envFrom);
    a[i] := a[i].(volumeMounts := c.volumeMounts);
    a[i] := a[i].(readinessProbe := c.readinessProbe);
    a[i] := a[i].(resources := c.resources);
  }

  method SetSandboxFields(a: array<Container>, i: nat, c: Container)
    requires i < a.Length
    modifies a
    ensures a[..] == old(a[..])[i := WithSandboxFields(old(a[i]), c)]
  {
    a[i] := a[i].(image := c.image);
    a[i] := a[i].(ports := c.ports);
    a[i] := a[i].(env := c.env);
    a[i] := a[i].(resources := c.resources);
  }

  method ConfigureSelfHealing(a: array<Container>, i: nat, port: int)
    requires i < a.Length
    modifies a
    ensures a[..] == old(a[..])[i := WithProbeField(old(a[i]), Some(port))]
  {
    if a[i].livenessProbe.Some? {
      return;
    }
    a[i] := a[i].(livenessProbe := Some(port));
  }

  class Object {
    const pod: PodSpec
    var labels: map<string, string>
    var annotations: map<string, string>
    var selector: Option<map<string, string>>
    var templateLabels: map<string, string>
    var templateAnnotations: map<string, string>
    var replicas: Option<int>
    var strategy: Option<string>

    ghost predicate Valid()
      reads this, pod
    {
      pod.Valid()
    }

    function Current(): View
      reads this, pod, pod.backing
      requires Valid()
    {
      View(labels, annotations, selector, templateLabels, templateAnnotations, replicas, strategy,
           pod.Containers(), pod.initContainers, pod.volumes, pod.graceSeconds)
    }

    constructor (v: View, spare: nat)
      ensures Valid() && Current() == v && fresh(pod) && fresh(pod.backing)
      ensures pod.backing.Length == |v.containers| + spare
    {
      pod := new PodSpec(v, spare);
      labels, annotations, selector := v.labels, v.annotations, v.selector;
      templateLabels, templateAnnotations := v.templateLabels, v.templateAnnotations;
      replicas, strategy := v.replicas, v.strategy;
    }

    /** The mutate closure. */
    method Mutate(d: Desired, creating: bool) returns (lands: bool, room: nat)
      requires Valid()
      modifies this, pod, pod.backing
      ensures Valid() && Current() == Mutated(old(Current()), d, creating, lands)
      ensures lands <==> |pod.Containers()| <= room
      ensures IsRoom(room, old(pod.backing.Length), old(pod.Containers()), d)
    {
      MutateMetadata(d, creating);
      lands, room := pod.Mutate(d);
      MergeAnnotations(d.featureAnnotations);
      if d.lifecycle.Some? {
        strategy := Some(d.lifecycle.value.strategy);
      }
    }

    method MergeAnnotations(more: seq<map<string, string>>)
      modifies this`templateAnnotations
      ensures templateAnnotations == MergeAll(old(templateAnnotations), more)
    {
      for n := 0 to |more|
        invariant MergeAll(templateAnnotations, more[n..]) == MergeAll(old(templateAnnotations), more)
      {
        templateAnnotations := templateAnnotations + more[n];
        assert more[n..][1..] == more[n + 1..];
      }
    }

    method MutateMetadata(d: Desired, creating: bool)
      modifies this
      ensures labels == old(labels) + d.commonLabels + ManagedLabels(d)
      ensures annotations == old(annotations) + d.commonAnnotations
      ensures selector == if creating then Some(SelectorLabels(d)) else old(selector)
      ensures templateLabels == d.commonLabels + d.podLabels + SelectorLabels(d)
      ensures templateAnnotations == d.commonAnnotations + d.podAnnotations
      ensures replicas == if d.replicas.Some? then d.replicas else if old(replicas).None? then Some(0) else old(replicas)
      ensures strategy == old(strategy)
    {
      MutateTemplate(d, creating);
      MutateLabels(d);
    }

    /** Selector, pod template metadata and replicas. */
    method MutateTemplate(d: Desired, creating: bool)
      modifies this`selector, this`templateLabels, this`templateAnnotations, this`replicas
      ensures selector == if creating then Some(SelectorLabels(d)) else old(selector)
      ensures templateLabels == d.commonLabels + d.podLabels + SelectorLabels(d)
      ensures templateAnnotations == d.commonAnnotations + d.podAnnotations
      ensures replicas == if d.replicas.Some? then d.replicas else if old(replicas).None? then Some(0) else old(replicas)
    {
      if creating {
        selector := Some(SelectorLabels(d));
      }
      templateLabels := d.commonLabels + d.podLabels + SelectorLabels(d);
      templateAnnotations := d.commonAnnotations + d.podAnnotations;
      if replicas.None? {
        replicas := Some(0);
      }
      if d.replicas.Some? {
        replicas := d.replicas;
      }
    }

    /** Labels and annotations of the Deployment itself: others are kept. */
    method MutateLabels(d: Desired)
      modifies this`labels, this`annotations
      ensures labels == old(labels) + d.commonLabels + ManagedLabels(d)
      ensures annotations == old(annotations) + d.commonAnnotations
    {
      labels := labels + d.commonLabels;
      annotations := annotations + d.commonAnnotations;
      labels := labels + ManagedLabels(d);
    }
  }

  /******* What a pass does to the container list *******/

  /** `cs'` is `cs` with the contents of some containers rewritten and others
      appended, but none removed, renamed or moved. */
  ghost predicate Extends(cs: seq<Container>, cs': seq<Container>, rewritten: set<string>, added: set<string>) {
    && |cs| <= |cs'|
    && (forall i :: 0 <= i < |cs| ==> cs'[i].name == cs[i].name && (cs[i].name !in rewritten ==> cs'[i] == cs[i]))
    && (forall i :: |cs| <= i < |cs'| ==> cs'[i].name in added)
  }

  ghost predicate UniqueNames(cs: seq<Container>) {
    forall i, j :: 0 <= i < j < |cs| ==> cs[i].name != cs[j].name
  }

  lemma IndexOfExtends(cs: seq<Container>, cs': seq<Container>, rewritten: set<string>, added: set<string>, name: string)
    requires Extends(cs, cs', rewritten, added) && IndexOf(cs, name) < |cs|
    ensures IndexOf(cs', name) == IndexOf(cs, name)
  {
    IndexOfAt(cs', name, IndexOf(cs, name));
  }

  lemma IndexOfAppend(cs: seq<Container>, c: Container, name: string)
    ensures IndexOf(cs + [c], name) ==
            if IndexOf(cs, name) < |cs| || c.name == name then IndexOf(cs, name) else |cs| + 1
  {
    var cs' := cs + [c];
    var i := IndexOf(cs, name);
    if i < |cs| || c.name == name {
      assert cs'[i].name == name;
      IndexOfAt(cs', name, i);
    } else {
      assert forall j :: 0 <= j < |cs'| ==> cs'[j].name != name;
    }
  }

  lemma ExtendsTransitive(cs: seq<Container>, cs': seq<Container>, cs'': seq<Container>, rewritten: set<string>, added: set<string>,
                          rewritten': set<string>, added': set<string>, all: set<string>, allAdded: set<string>)
    requires Extends(cs, cs', rewritten, added) && Extends(cs', cs'', rewritten', added')
    requires rewritten + rewritten' <= all && added + added' <= allAdded
    ensures Extends(cs, cs'', all, allAdded)
  {
  }

  lemma AgentExtends(cs: seq<Container>, a: Container)
    ensures Extends(cs, WithAgent(cs, a), {AGENT}, {AGENT})
    ensures UniqueNames(cs) ==> UniqueNames(WithAgent(cs, a))
  {
  }

  ghost function SandboxName(sandbox: Option<Container>): set<string> {
    if sandbox.Some? then {sandbox.value.name} else {}
  }

  lemma SandboxExtends(cs: seq<Container>, sandbox: Option<Container>)
    ensures Extends(cs, WithSandbox(cs, sandbox), SandboxName(sandbox), SandboxName(sandbox))
    ensures UniqueNames(cs) ==> UniqueNames(WithSandbox(cs, sandbox))
  {
  }

  lemma PolicyExtends(cs: seq<Container>, policy: Option<Policy>)
    ensures Extends(cs, WithPolicy(cs, policy), {}, {OPA})
    ensures UniqueNames(cs) ==> UniqueNames(WithPolicy(cs, policy))
  {
  }

  lemma {:induction false} PoliciesExtend(cs: seq<Container>, policies: seq<Option<Policy>>)
    ensures Extends(cs, WithPolicies(cs, policies), {}, {OPA})
    ensures UniqueNames(cs) ==> UniqueNames(WithPolicies(cs, policies))
    decreases |policies|
  {
    if policies != [] {
      var cs1 := WithPolicy(cs, policies[0]);
      PolicyExtends(cs, policies[0]);
      PoliciesExtend(cs1, policies[1..]);
      ExtendsTransitive(cs, cs1, WithPolicies(cs1, policies[1..]), {}, {OPA}, {}, {OPA}, {}, {OPA});
    }
  }

  lemma ProbeExtends(cs: seq<Container>, d: Desired, lands: bool)
    ensures Extends(cs, WithProbeIf(cs, d, lands), {AGENT}, {})
    ensures UniqueNames(cs) ==> UniqueNames(WithProbeIf(cs, d, lands))
  {
  }

  lemma SidecarsKeepAgentIndex(cs: seq<Container>, d: Desired)
    ensures var cs1 := WithAgent(cs, d.agent);
            IndexOf(cs1, AGENT) < |cs1| && IndexOf(WithSidecars(cs, d), AGENT) == IndexOf(cs1, AGENT)
  {
    var cs1 := WithAgent(cs, d.agent);
    var cs2 := WithSandbox(cs1, d.sandbox);
    IndexOfAt(cs1, AGENT, IndexOf(cs, AGENT));
    SandboxExtends(cs1, d.sandbox);
    IndexOfExtends(cs1, cs2, SandboxName(d.sandbox), SandboxName(d.sandbox), AGENT);
    PoliciesExtend(cs2, d.policies);
    IndexOfExtends(cs2, WithPolicies(cs2, d.policies), {}, {OPA}, AGENT);
  }

  /** Containers that the agent does not ask for keep their content and their
      place, and names stay unique. */
  lemma PassKeepsOthers(v: View, d: Desired, creating: bool, lands: bool)
    ensures var managed := {AGENT} + SandboxName(d.sandbox);
            Extends(v.containers, Mutated(v, d, creating, lands).containers, managed, managed + {OPA})
    ensures UniqueNames(v.containers) ==> UniqueNames(Mutated(v, d, creating, lands).containers)
  {
    var cs, sandbox := v.containers, SandboxName(d.sandbox);
    var cs1 := WithAgent(cs, d.agent);
    var cs2 := WithSandbox(cs1, d.sandbox);
    var cs3 := WithPolicies(cs2, d.policies);
    var managed := {AGENT} + sandbox;
    AgentExtends(cs, d.agent);
    SandboxExtends(cs1, d.sandbox);
    PoliciesExtend(cs2, d.policies);
    ProbeExtends(cs3, d, lands);
    ExtendsTransitive(cs, cs1, cs2, {AGENT}, {AGENT}, sandbox, sandbox, managed, managed);
    ExtendsTransitive(cs, cs2, cs3, managed, managed, {}, {OPA}, managed, managed + {OPA});
    ExtendsTransitive(cs, cs3, WithProbeIf(cs3, d, lands), managed, managed + {OPA}, {AGENT}, {}, managed, managed + {OPA});
  }

  /******* What a deployment looks like after a pass *******/

  /** A new container has nothing but a name. */
  lemma EmptyContainerIs(name: string)
    ensures var c := EmptyContainer(name);
            && c.name == name && c.image == "" && c.ports == [] && c.env == c.envFrom == c.volumeMounts == ""
            && c.readinessProbe == None && c.resources == "" && c.livenessProbe == None && c.other == ""
  {
  }

  lemma WellFormedIff(d: Desired)
    ensures WellFormed(d) <==> d.sandbox.None? || d.sandbox.value.name == "wasm-sandbox"
  {
  }

  /** Names are unique exactly if every container is the first of its name. */
  lemma UniqueNamesIff(cs: seq<Container>)
    ensures UniqueNames(cs) <==> forall i :: 0 <= i < |cs| ==> IsFirst(cs, cs[i].name, i)
  {
  }

  /** `i` is the first container named `name`. */
  ghost predicate IsFirst(cs: seq<Container>, name: string, i: nat) {
    i < |cs| && cs[i].name == name && forall j :: 0 <= j < i ==> cs[j].name != name
  }

  lemma FirstIs(cs: seq<Container>, name: string, i: nat)
    ensures IsFirst(cs, name, i) <==> i < |cs| && IndexOf(cs, name) == i
  {
    if IsFirst(cs, name, i) {
      IndexOfAt(cs, name, i);
    }
  }

  /** There is an agent container, and it runs what the Agent asks for now. */
  lemma AgentAfterPass(v: View, d: Desired, creating: bool, lands: bool) returns (i: nat)
    requires WellFormed(d)
    ensures var cs := Mutated(v, d, creating, lands).containers;
            IsFirst(cs, "agent", i) &&
            var c, a := cs[i], d.agent;
            && c.image == a.image && c.ports == a.ports && c.env == a.env && c.envFrom == a.envFrom
            && c.volumeMounts == a.volumeMounts && c.readinessProbe == a.readinessProbe && c.resources == a.resources
  {
    var sidecars := WithSidecars(v.containers, d);
    SidecarsSettle(v.containers, d);
    ProbeKeepsSettled(sidecars, d, SelfHealingPort(d));
    i := IndexOf(Mutated(v, d, creating, lands).containers, AGENT);
    FirstIs(Mutated(v, d, creating, lands).containers, AGENT, i);
  }

  /** A sandbox that resolves has its container, which runs what it asks for now. */
  lemma SandboxAfterPass(v: View, d: Desired, creating: bool, lands: bool) returns (i: nat)
    requires WellFormed(d) && d.sandbox.Some?
    ensures var cs := Mutated(v, d, creating, lands).containers;
            IsFirst(cs, "wasm-sandbox", i) &&
            var c, w := cs[i], d.sandbox.value;
            c.image == w.image && c.ports == w.ports && c.env == w.env && c.resources == w.resources
  {
    var sidecars := WithSidecars(v.containers, d);
    SidecarsSettle(v.containers, d);
    ProbeKeepsSettled(sidecars, d, SelfHealingPort(d));
    i := IndexOf(Mutated(v, d, creating, lands).containers, SANDBOX);
    FirstIs(Mutated(v, d, creating, lands).containers, SANDBOX, i);
  }

  /** What the rewriting of a managed container leaves alone. */
  ghost predicate SameOtherwise(c: Container, c': Container) {
    && c'.name == c.name && c'.other == c.other && c'.livenessProbe == c.livenessProbe
    && (c.name == SANDBOX ==> c'.envFrom == c.envFrom && c'.volumeMounts == c.volumeMounts &&
                              c'.readinessProbe == c.readinessProbe)
  }

  lemma AgentKeepsFields(cs: seq<Container>, a: Container, i: nat)
    requires i < |cs|
    ensures |cs| <= |WithAgent(cs, a)| && SameOtherwise(cs[i], WithAgent(cs, a)[i])
  {
  }

  lemma SandboxKeepsFields(cs: seq<Container>, sandbox: Option<Container>, i: nat)
    requires i < |cs|
    ensures |cs| <= |WithSandbox(cs, sandbox)| && SameOtherwise(cs[i], WithSandbox(cs, sandbox)[i])
  {
  }

  /** Before the probe is written every old container is the same otherwise. */
  lemma SidecarsKeepFields(cs: seq<Container>, d: Desired, i: nat)
    requires i < |cs|
    ensures |cs| <= |WithSidecars(cs, d)| && SameOtherwise(cs[i], WithSidecars(cs, d)[i])
  {
    var cs1 := WithAgent(cs, d.agent);
    var cs2 := WithSandbox(cs1, d.sandbox);
    AgentKeepsFields(cs, d.agent, i);
    SandboxKeepsFields(cs1, d.sandbox, i);
    PoliciesExtend(cs2, d.policies);
  }

  lemma NewAgentHasNoProbe(cs: seq<Container>, d: Desired)
    requires WellFormed(d) && IndexOf(cs, AGENT) == |cs|
    ensures IndexOf(WithSidecars(cs, d), AGENT) == |cs| < |WithSidecars(cs, d)|
    ensures WithSidecars(cs, d)[|cs|].livenessProbe.None?
  {
    var cs1 := WithAgent(cs, d.agent);
    SidecarsKeepAgentIndex(cs, d);
    IndexOfAppend(cs, WithAgentFields(EmptyContainer(AGENT), d.agent), AGENT);
    SandboxExtends(cs1, d.sandbox);
    PoliciesExtend(WithSandbox(cs1, d.sandbox), d.policies);
  }

  /** The probe of the agent container after a pass: an existing one is kept, and a
      missing one is set to the port that self-healing asks for, if it lands. */
  lemma ProbeAfterPass(v: View, d: Desired, creating: bool, lands: bool) returns (i: nat)
    requires WellFormed(d)
    ensures var before := if i < |v.containers| then v.containers[i].livenessProbe else None;
            && IsFirst(Mutated(v, d, creating, lands).containers, "agent", i)
            && Mutated(v, d, creating, lands).containers[i].livenessProbe ==
               if before.Some? then before else if lands && d.lifecycle.Some? then d.lifecycle.value.probePort else None
  {
    var cs, sidecars := v.containers, WithSidecars(v.containers, d);
    SidecarsKeepAgentIndex(cs, d);
    i := IndexOf(sidecars, AGENT);
    if IndexOf(cs, AGENT) < |cs| {
      SidecarsKeepFields(cs, d, i);
    } else {
      NewAgentHasNoProbe(cs, d);
    }
    ProbeExtends(sidecars, d, lands);
    IndexOfExtends(sidecars, WithProbeIf(sidecars, d, lands), {AGENT}, {}, AGENT);
    FirstIs(Mutated(v, d, creating, lands).containers, AGENT, i);
  }

  /** The fields of old containers that no pass touches. */
  lemma PassKeepsFields(v: View, d: Desired, creating: bool, lands: bool, i: nat)
    requires i < |v.containers|
    ensures i < |Mutated(v, d, creating, lands).containers|
    ensures var c, c' := v.containers[i], Mutated(v, d, creating, lands).containers[i];
            && c'.name == c.name && c'.other == c.other
            && (c.livenessProbe.Some? || c.name != AGENT ==> c'.livenessProbe == c.livenessProbe)
            && (c.name == SANDBOX ==> c'.envFrom == c.envFrom && c'.volumeMounts == c.volumeMounts &&
                                      c'.readinessProbe == c.readinessProbe)
  {
    SidecarsKeepFields(v.containers, d, i);
    ProbeExtends(WithSidecars(v.containers, d), d, lands);
  }

  ghost predicate AsksForOPA(policy: Option<Policy>) {
    policy.Some? && exists rule :: rule in policy.value.rules && rule.opa
  }

  ghost predicate AsksForEBPF(policy: Option<Policy>) {
    policy.Some? && exists rule :: rule in policy.value.rules && rule.ebpf
  }

  lemma AsksIff(policy: Option<Policy>)
    ensures AsksForOPA(policy) <==> policy.Some? && HasOPARules(policy.value)
    ensures AsksForEBPF(policy) <==> policy.Some? && HasEBPFRules(policy.value)
  {
    if policy.Some? {
      assert forall r :: r in policy.value.rules <==> exists i :: 0 <= i < |policy.value.rules| && policy.value.rules[i] == r;
    }
  }

  /** The first policy with OPA rules gets its container, unless there is one. */
  lemma {:induction false} OPAContainer(cs: seq<Container>, policies: seq<Option<Policy>>, n: nat)
    requires n < |policies| && AsksForOPA(policies[n]) && forall m :: 0 <= m < n ==> !AsksForOPA(policies[m])
    ensures WithPolicies(cs, policies) ==
            if exists c :: c in cs && c.name == "opa-policy" then cs
            else cs + [EmptyContainer("opa-policy").(image := "openpolicyagent/opa:1.4.2-static", ports := [8181],
                                                     env := policies[n].value.name)]
    decreases n
  {
    AsksIff(policies[0]);
    assert forall c :: c in cs <==> exists i :: 0 <= i < |cs| && cs[i] == c;
    if n > 0 {
      assert WithPolicy(cs, policies[0]) == cs;
      OPAContainer(cs, policies[1..], n - 1);
    } else {
      var cs1 := WithPolicy(cs, policies[0]);
      IndexOfAppend(cs, BuildOPASidecar(policies[0].value), OPA);
      SetPoliciesAddNothing(cs1, policies[1..]);
    }
  }

  lemma {:induction false} EBPFContainer(cs: seq<Container>, policies: seq<Option<Policy>>, n: nat)
    requires n < |policies| && AsksForEBPF(policies[n]) && forall m :: 0 <= m < n ==> !AsksForEBPF(policies[m])
    ensures WithInits(cs, policies) ==
            if exists c :: c in cs && c.name == "ebpf-probe" then cs
            else cs + [EmptyContainer("ebpf-probe").(image := "cilium/cilium:v1.17.3", env := policies[n].value.name)]
    decreases n
  {
    AsksIff(policies[0]);
    assert forall c :: c in cs <==> exists i :: 0 <= i < |cs| && cs[i] == c;
    if n > 0 {
      assert WithInit(cs, policies[0]) == cs;
      EBPFContainer(cs, policies[1..], n - 1);
    } else {
      var cs1 := WithInit(cs, policies[0]);
      IndexOfAppend(cs, BuildEBPFInitContainer(policies[0].value), EBPF);
      SetInitsAddNothing(cs1, policies[1..]);
    }
  }

  lemma {:induction false} NothingAsked(cs: seq<Container>, policies: seq<Option<Policy>>)
    ensures (forall p :: p in policies ==> !AsksForOPA(p)) ==> WithPolicies(cs, policies) == cs
    ensures (forall p :: p in policies ==> !AsksForEBPF(p)) ==> WithInits(cs, policies) == cs
    decreases |policies|
  {
    if policies != [] {
      AsksIff(policies[0]);
      assert policies[0] in policies && forall p :: p in policies[1..] ==> p in policies;
      NothingAsked(cs, policies[1..]);
    }
  }

  /** A fresh deployment has the agent, then the sandbox, then what the policies add. */
  lemma FreshContainers(v: View, d: Desired, creating: bool)
    requires WellFormed(d) && v.containers == []
    ensures Mutated(v, d, creating, false).containers ==
            WithPolicies([EmptyContainer("agent").(image := d.agent.image, ports := d.agent.ports, env := d.agent.env,
                                                   envFrom := d.agent.envFrom, volumeMounts := d.agent.volumeMounts,
                                                   readinessProbe := d.agent.readinessProbe, resources := d.agent.resources)] +
                         (if d.sandbox.Some? then [d.sandbox.value] else []), d.policies)
  {
    var cs := WithAgent([], d.agent);
    assert cs == [WithAgentFields(EmptyContainer(AGENT), d.agent)];
    assert d.sandbox.Some? ==> IndexOf(cs, d.sandbox.value.name) == 1;
    assert d.sandbox.None? ==> cs + [] == cs;
  }

  ghost function Lookup(m: map<string, string>, key: string): Option<string> {
    if key in m then Some(m[key]) else None
  }

  /** The last of the feature annotations of a key wins. */
  lemma {:induction false} MergeAllAt(m: map<string, string>, more: seq<map<string, string>>, key: string)
    ensures (forall i :: 0 <= i < |more| ==> key !in more[i]) ==> Lookup(MergeAll(m, more), key) == Lookup(m, key)
    ensures forall i | 0 <= i < |more| && key in more[i] && (forall j :: i < j < |more| ==> key !in more[j]) ::
              Lookup(MergeAll(m, more), key) == Some(more[i][key])
    decreases |more|
  {
    if more != [] {
      MergeAllAt(m + more[0], more[1..], key);
      assert forall i :: 0 < i < |more| ==> more[1..][i - 1] == more[i];
    }
  }

  lemma LookupSum(m: map<string, string>, n: map<string, string>, key: string)
    ensures Lookup(m + n, key) == if key in n then Some(n[key]) else Lookup(m, key)
  {
  }

  lemma ManagedLabelsAre(d: Desired, key: string)
    ensures Lookup(ManagedLabels(d), key) ==
            if key == "app" then Some(d.name) else if key == "framework" then Some(d.framework) else None
    ensures Lookup(SelectorLabels(d), key) == if key == "app" then Some(d.name) else None
  {
  }

  /** Labels and annotations key by key: what the operator manages comes first,
      then what the user asks for, and the Deployment's own others are kept. */
  lemma LabelsAfterPass(v: View, d: Desired, creating: bool, lands: bool, key: string)
    ensures Lookup(Mutated(v, d, creating, lands).labels, key) ==
            if key == "app" then Some(d.name) else if key == "framework" then Some(d.framework)
            else if key in d.commonLabels then Some(d.commonLabels[key]) else Lookup(v.labels, key)
    ensures Lookup(Mutated(v, d, creating, lands).annotations, key) ==
            if key in d.commonAnnotations then Some(d.commonAnnotations[key]) else Lookup(v.annotations, key)
  {
    ManagedLabelsAre(d, key);
    LookupSum(v.labels + d.commonLabels, ManagedLabels(d), key);
    LookupSum(v.labels, d.commonLabels, key);
    LookupSum(v.annotations, d.commonAnnotations, key);
  }

  lemma TemplateLabelsAfterPass(v: View, d: Desired, creating: bool, lands: bool, key: string)
    ensures Lookup(Mutated(v, d, creating, lands).templateLabels, key) ==
            if key == "app" then Some(d.name)
            else if key in d.podLabels then Some(d.podLabels[key]) else Lookup(d.commonLabels, key)
  {
    ManagedLabelsAre(d, key);
    LookupSum(d.commonLabels + d.podLabels, SelectorLabels(d), key);
    LookupSum(d.commonLabels, d.podLabels, key);
  }

  /** The pod template's annotations: features come first, and the last of them. */
  lemma TemplateAnnotationsAfterPass(v: View, d: Desired, creating: bool, lands: bool, key: string)
    ensures (forall i :: 0 <= i < |d.featureAnnotations| ==> key !in d.featureAnnotations[i]) ==>
              Lookup(Mutated(v, d, creating, lands).templateAnnotations, key) ==
              if key in d.podAnnotations then Some(d.podAnnotations[key]) else Lookup(d.commonAnnotations, key)
    ensures forall i | 0 <= i < |d.featureAnnotations| && key in d.featureAnnotations[i] &&
                       (forall j :: i < j < |d.featureAnnotations| ==> key !in d.featureAnnotations[j]) ::
              Lookup(Mutated(v, d, creating, lands).templateAnnotations, key) == Some(d.featureAnnotations[i][key])
  {
    MergeAllAt(d.commonAnnotations + d.podAnnotations, d.featureAnnotations, key);
  }

  /** The remaining fields of the Deployment. */
  lemma SpecAfterPass(v: View, d: Desired, creating: bool, lands: bool)
    ensures var v1 := Mutated(v, d, creating, lands);
            && v1.selector == (if creating then Some(map["app" := d.name]) else v.selector)
            && v1.replicas.Some?
            && (d.replicas.Some? ==> v1.replicas == d.replicas)
            && (d.replicas.None? ==> v1.replicas == if v.replicas.Some? then v.replicas else Some(0))
            && v1.volumes == d.volumes
            && (d.lifecycle.None? ==> v1.strategy == v.strategy && v1.graceSeconds == v.graceSeconds)
            && (d.lifecycle.Some? ==> v1.strategy == Some(d.lifecycle.value.strategy) &&
                                      v1.graceSeconds == Some(d.lifecycle.value.graceSeconds))
            && v1.initContainers == WithInits(v.initContainers, d.policies)
  {
  }

  /******* Convergence *******/

  ghost predicate AgentSet(cs: seq<Container>, a: Container) {
    var i := IndexOf(cs, AGENT);
    i < |cs| && WithAgentFields(cs[i], a) == cs[i]
  }

  ghost predicate SandboxSet(cs: seq<Container>, sandbox: Option<Container>) {
    sandbox.Some? ==>
      var i := IndexOf(cs, sandbox.value.name);
      i < |cs| && WithSandboxFields(cs[i], sandbox.value) == cs[i]
  }

  ghost predicate PoliciesSet(cs: seq<Container>, policies: seq<Option<Policy>>) {
    forall p :: p in policies && p.Some? && HasOPARules(p.value) ==> IndexOf(cs, OPA) < |cs|
  }

  ghost predicate InitsSet(cs: seq<Container>, policies: seq<Option<Policy>>) {
    forall p :: p in policies && p.Some? && HasEBPFRules(p.value) ==> IndexOf(cs, EBPF) < |cs|
  }

  ghost predicate Settled(cs: seq<Container>, d: Desired) {
    AgentSet(cs, d.agent) && SandboxSet(cs, d.sandbox) && PoliciesSet(cs, d.policies)
  }

  lemma {:induction false} PoliciesSettle(cs: seq<Container>, policies: seq<Option<Policy>>)
    ensures PoliciesSet(WithPolicies(cs, policies), policies)
    decreases |policies|
  {
    if policies != [] {
      var cs1 := WithPolicy(cs, policies[0]);
      PoliciesSettle(cs1, policies[1..]);
      PoliciesExtend(cs1, policies[1..]);
      assert forall p :: p in policies ==> p == policies[0] || p in policies[1..];
      if policies[0].Some? && HasOPARules(policies[0].value) {
        IndexOfAppend(cs, BuildOPASidecar(policies[0].value), OPA);
        IndexOfExtends(cs1, WithPolicies(cs1, policies[1..]), {}, {OPA}, OPA);
      }
    }
  }

  lemma {:induction false} SetPoliciesAddNothing(cs: seq<Container>, policies: seq<Option<Policy>>)
    requires PoliciesSet(cs, policies)
    ensures WithPolicies(cs, policies) == cs
    decreases |policies|
  {
    if policies != [] {
      assert policies[0] in policies && forall p :: p in policies[1..] ==> p in policies;
      SetPoliciesAddNothing(cs, policies[1..]);
    }
  }

  lemma {:induction false} InitsSettle(cs: seq<Container>, policies: seq<Option<Policy>>)
    ensures InitsSet(WithInits(cs, policies), policies)
    ensures IndexOf(cs, EBPF) < |cs| ==> IndexOf(WithInits(cs, policies), EBPF) < |WithInits(cs, policies)|
    decreases |policies|
  {
    if policies != [] {
      InitsSettle(WithInit(cs, policies[0]), policies[1..]);
      assert forall p :: p in policies ==> p == policies[0] || p in policies[1..];
      if policies[0].Some? {
        IndexOfAppend(cs, BuildEBPFInitContainer(policies[0].value), EBPF);
      }
    }
  }

  lemma {:induction false} SetInitsAddNothing(cs: seq<Container>, policies: seq<Option<Policy>>)
    requires InitsSet(cs, policies)
    ensures WithInits(cs, policies) == cs
    decreases |policies|
  {
    if policies != [] {
      assert policies[0] in policies && forall p :: p in policies[1..] ==> p in policies;
      SetInitsAddNothing(cs, policies[1..]);
    }
  }

  lemma AgentIsSet(cs: seq<Container>, d: Desired)
    requires WellFormed(d)
    ensures AgentSet(WithSidecars(cs, d), d.agent)
  {
    var cs1 := WithAgent(cs, d.agent);
    var cs2 := WithSandbox(cs1, d.sandbox);
    SidecarsKeepAgentIndex(cs, d);
    IndexOfAt(cs1, AGENT, IndexOf(cs, AGENT));
    SandboxExtends(cs1, d.sandbox);
    PoliciesExtend(cs2, d.policies);
  }

  lemma SandboxIsSet(cs: seq<Container>, d: Desired)
    requires WellFormed(d)
    ensures SandboxSet(WithSidecars(cs, d), d.sandbox)
  {
    var cs1 := WithAgent(cs, d.agent);
    var cs2 := WithSandbox(cs1, d.sandbox);
    PoliciesExtend(cs2, d.policies);
    if d.sandbox.Some? {
      IndexOfAt(cs2, SANDBOX, IndexOf(cs1, SANDBOX));
      IndexOfExtends(cs2, WithPolicies(cs2, d.policies), {}, {OPA}, SANDBOX);
    }
  }

  lemma SidecarsSettle(cs: seq<Container>, d: Desired)
    requires WellFormed(d)
    ensures Settled(WithSidecars(cs, d), d)
  {
    AgentIsSet(cs, d);
    SandboxIsSet(cs, d);
    PoliciesSettle(WithSandbox(WithAgent(cs, d.agent), d.sandbox), d.policies);
  }

  lemma ProbeKeepsSettled(cs: seq<Container>, d: Desired, port: Option<int>)
    requires WellFormed(d) && Settled(cs, d)
    ensures Settled(WithProbe(cs, port), d) && WithProbe(WithProbe(cs, port), port) == WithProbe(cs, port)
  {
    var cs' := WithProbe(cs, port);
    IndexOfExtends(cs, cs', {AGENT}, {}, AGENT);
    if d.sandbox.Some? {
      IndexOfExtends(cs, cs', {AGENT}, {}, SANDBOX);
    }
    if IndexOf(cs, OPA) < |cs| {
      IndexOfExtends(cs, cs', {AGENT}, {}, OPA);
    }
  }

  lemma SettledStays(cs: seq<Container>, d: Desired)
    requires Settled(cs, d)
    ensures WithAgent(cs, d.agent) == cs && WithSidecars(cs, d) == cs
  {
    assert WithAgent(cs, d.agent) == cs;
    assert WithSandbox(cs, d.sandbox) == cs;
    SetPoliciesAddNothing(cs, d.policies);
  }

  /** From any deployment a second pass changes nothing but the probe of the
      agent container, and only if the first pass lost it; a third pass changes
      nothing.  In passes after the first the probe always lands. */
  lemma MutationConverges(v: View, d: Desired, creating: bool, lands: bool)
    requires WellFormed(d)
    ensures var v1 := Mutated(v, d, creating, lands);
            var v2 := Mutated(v1, d, false, true);
            && v2 == v1.(containers := WithProbe(v1.containers, SelfHealingPort(d)))
            && (lands ==> v2 == v1)
            && Mutated(v2, d, false, true) == v2
            && |WithSidecars(v1.containers, d)| == |WithAgent(v1.containers, d.agent)|
            && |WithSidecars(v2.containers, d)| == |WithAgent(v2.containers, d.agent)|
  {
    ContainersConverge(v.containers, d, lands);
    InitsSettle(v.initContainers, d.policies);
    SetInitsAddNothing(WithInits(v.initContainers, d.policies), d.policies);
    LabelsSettle(v.labels, d.commonLabels, ManagedLabels(d));
    LabelsSettle(v.annotations, d.commonAnnotations, map[]);
  }

  lemma ContainersConverge(cs: seq<Container>, d: Desired, lands: bool)
    requires WellFormed(d)
    ensures var cs1 := WithProbeIf(WithSidecars(cs, d), d, lands);
            var cs2 := WithProbe(cs1, SelfHealingPort(d));
            && WithAgent(cs1, d.agent) == WithSidecars(cs1, d) == cs1
            && WithAgent(cs2, d.agent) == WithSidecars(cs2, d) == cs2
            && (lands ==> cs2 == cs1) && WithProbe(cs2, SelfHealingPort(d)) == cs2
  {
    var port, sidecars := SelfHealingPort(d), WithSidecars(cs, d);
    SidecarsSettle(cs, d);
    ProbeKeepsSettled(sidecars, d, port);
    SettledStays(sidecars, d);
    SettledStays(WithProbe(sidecars, port), d);
  }

  lemma LabelsSettle(m: map<string, string>, common: map<string, string>, managed: map<string, string>)
    ensures m + common + managed + common + managed == m + common + managed
    ensures m + common + common == m + common
  {
  }

  /** What the second pass finds to do. */
  ghost predicate ProbeMissing(cs: seq<Container>, d: Desired) {
    var i := IndexOf(cs, AGENT);
    SelfHealingPort(d).Some? && i < |cs| && cs[i].livenessProbe.None?
  }

  /** The second pass changes something if and only if the first one was to
      write a probe and wrote it into the abandoned array. */
  lemma SecondPassChangesIff(v: View, d: Desired, creating: bool, lands: bool)
    requires WellFormed(d)
    ensures var v1 := Mutated(v, d, creating, lands);
            Mutated(v1, d, false, true) != v1 <==> !lands && ProbeMissing(WithSidecars(v.containers, d), d)
  {
    MutationConverges(v, d, creating, lands);
    SidecarsKeepAgentIndex(v.containers, d);
  }

  /** Passes over the stored object, decoded anew each time with any spare
      capacity.  The first pass loses the probe exactly if one is missing and the
      sidecars do not fit; the second writes it, and the third changes nothing. */
  method ReconcileThreeTimes(v: View, d: Desired, creating: bool, spare1: nat, spare2: nat, spare3: nat)
      returns (room: nat, v1: View, v2: View, v3: View)
    requires WellFormed(d)
    ensures IsRoom(room, |v.containers| + spare1, v.containers, d)
    ensures v1 == Mutated(v, d, creating, |WithSidecars(v.containers, d)| <= room)
    ensures v2 == v1.(containers := WithProbe(v1.containers, SelfHealingPort(d)))
    ensures v2 != v1 <==> |WithSidecars(v.containers, d)| > room && ProbeMissing(WithSidecars(v.containers, d), d)
    ensures v3 == v2
  {
    var lands, lands2, lands3, room2, room3;
    lands, room, v1 := Reconcile(v, d, creating, spare1);
    MutationConverges(v, d, creating, lands);
    SecondPassChangesIff(v, d, creating, lands);
    lands2, room2, v2 := Reconcile(v1, d, false, spare2);
    assert lands2;
    lands3, room3, v3 := Reconcile(v2, d, false, spare3);
    assert lands3;
  }

  /** One pass over a stored deployment. */
  method Reconcile(v: View, d: Desired, creating: bool, spare: nat) returns (lands: bool, room: nat, v': View)
    ensures v' == Mutated(v, d, creating, lands)
    ensures lands <==> |WithSidecars(v.containers, d)| <= room
    ensures IsRoom(room, |v.containers| + spare, v.containers, d)
  {
    var o := new Object(v, spare);
    lands, room := o.Mutate(d, creating);
    v' := o.Current();
  }

  /******* A deployment that loses its probe *******/

  const EMPTY_VIEW := View(map[], map[], None, map[], map[], None, None, [], [], "", None)

  /** A Deployment that holds the agent container only. */
  const AGENT_ONLY := EMPTY_VIEW.(containers := [EmptyContainer(AGENT)])

  /** An Agent whose owner has just asked for a tool sandbox and self-healing. */
  const WITH_SANDBOX := Desired("a", "adk", None, EmptyContainer(AGENT), "", map[], map[], map[], map[],
                                Some(EmptyContainer(SANDBOX)), [], Some(Lifecycle("RollingUpdate", 30, Some(8080))), [])

  lemma SandboxDoesNotFit()
    ensures WithAgent(AGENT_ONLY.containers, WITH_SANDBOX.agent) == AGENT_ONLY.containers
    ensures WithSidecars(AGENT_ONLY.containers, WITH_SANDBOX) == [EmptyContainer(AGENT), EmptyContainer(SANDBOX)]
    ensures WithProbe([EmptyContainer(AGENT), EmptyContainer(SANDBOX)], Some(8080)) ==
            [EmptyContainer(AGENT).(livenessProbe := Some(8080)), EmptyContainer(SANDBOX)]
  {
    assert WithSandbox(AGENT_ONLY.containers, WITH_SANDBOX.sandbox) == [EmptyContainer(AGENT), EmptyContainer(SANDBOX)];
  }

  /** A slice decoded without spare room: after one pass there is no probe, after
      the next there is. */
  method LosesProbe() returns (v1: View, v2: View)
    ensures v1.containers == [EmptyContainer(AGENT), EmptyContainer(SANDBOX)]
    ensures v2.containers == [EmptyContainer(AGENT).(livenessProbe := Some(8080)), EmptyContainer(SANDBOX)]
  {
    var lands, room;
    SandboxDoesNotFit();
    lands, room, v1 := Reconcile(AGENT_ONLY, WITH_SANDBOX, false, 0);
    MutationConverges(AGENT_ONLY, WITH_SANDBOX, false, lands);
    lands, room, v2 := Reconcile(v1, WITH_SANDBOX, false, 0);
  }
}
