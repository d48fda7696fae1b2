/** Readiness propagation between Agents.

    An Agent gets a Status.Url only when every cluster sub-agent it references
    already has one.  The references may form cycles.  Reconciles of different
    Agents interleave; a reconcile that fails to resolve something is dropped, so
    that only the watch on sub-agents can wake a parent up again. */
module Readiness {
  import opened Kube
  import opened Resolve
  import Text

  /** What stays fixed during a run: the specs of the Agents that exist, the
      ToolServers and the AiGateways. */
  datatype Cluster = Cluster(specs: map<Key, AgentSpec>, servers: map<Key, ToolServerStatus>, gateways: seq<Gateway>)

  /******* The URL of a ready Agent *******/

  function FindA2AProtocol(protocols: seq<Protocol>): Option<Protocol> {
    if protocols == [] then None
    else if protocols[0].kind == A2A_PROTOCOL then Some(protocols[0])
    else FindA2AProtocol(protocols[1..])
  }

  function RpcUrl(k: Key, spec: AgentSpec): string {
    var protocol := FindA2AProtocol(spec.protocols);
    if protocol.None? then ""
    else "http://" + k.name + "." + k.ns + ".svc.cluster.local:" + Text.Dec(protocol.value.port) + protocol.value.path
  }

  function CardUrl(k: Key, spec: AgentSpec): string {
    var rpcUrl := RpcUrl(k, spec);
    if rpcUrl == "" then "" else rpcUrl + "/.well-known/agent-card.json"
  }

  predicate HasA2A(spec: AgentSpec) {
    exists i :: 0 <= i < |spec.protocols| && spec.protocols[i].kind == A2A_PROTOCOL
  }

  lemma {:induction false} FindA2AFinds(protocols: seq<Protocol>)
    ensures FindA2AProtocol(protocols).Some? <==>
            exists i :: 0 <= i < |protocols| && protocols[i].kind == A2A_PROTOCOL
  {
    if protocols != [] && protocols[0].kind != A2A_PROTOCOL {
      FindA2AFinds(protocols[1..]);
      assert forall i :: 0 <= i < |protocols| - 1 ==> protocols[1..][i] == protocols[i + 1];
    }
  }

  lemma CardUrlIffA2A(k: Key, spec: AgentSpec)
    ensures CardUrl(k, spec) != "" <==> HasA2A(spec)
  {
    FindA2AFinds(spec.protocols);
  }

  /** The agent card is served by the first A2A protocol. */
  lemma {:induction false} CardUrlIs(k: Key, spec: AgentSpec, i: nat)
    requires i < |spec.protocols| && spec.protocols[i].kind == "A2A"
    requires forall j :: 0 <= j < i ==> spec.protocols[j].kind != "A2A"
    ensures CardUrl(k, spec) ==
            "http://" + k.name + "." + k.ns + ".svc.cluster.local:" + Text.Dec(spec.protocols[i].port) +
            spec.protocols[i].path + "/.well-known/agent-card.json"
  {
    FindA2AIsFirst(spec.protocols, i);
  }

  lemma {:induction false} FindA2AIsFirst(protocols: seq<Protocol>, i: nat)
    requires i < |protocols| && protocols[i].kind == "A2A" && forall j :: 0 <= j < i ==> protocols[j].kind != "A2A"
    ensures FindA2AProtocol(protocols) == Some(protocols[i])
  {
    if i > 0 {
      FindA2AIsFirst(protocols[1..], i - 1);
    }
  }

  /******* One reconcile *******/

  datatype Outcome = Failed | NotReady | Ready(url: string)

  predicate GatewayResolves(cluster: Cluster, k: Key)
    requires k in cluster.specs
  {
    ResolveGateway(cluster.gateways, cluster.specs[k].aiGatewayRef, k.ns, DEFAULT_AI_GATEWAY_NAMESPACE).Ok?
  }

  /** What Reconcile decides to write: nothing when a sub-agent or a tool does
      not resolve, an empty URL when the gateway does not, else the URL. */
  function Reconcile(cluster: Cluster, urls: map<Key, string>, k: Key): Outcome
    requires k in cluster.specs
  {
    if !SubAgentsResolve(urls, cluster.specs[k].subAgents, k.ns) then Failed
    else if !ToolsResolve(cluster.servers, cluster.specs[k].tools, k.ns) then Failed
    else if !GatewayResolves(cluster, k) then NotReady
    else Ready(CardUrl(k, cluster.specs[k]))
  }

  /** What the references of an Agent ask of the objects they name. */
  ghost predicate SubAgentHasUrl(urls: map<Key, string>, sub: SubAgent, ns: string) {
    sub.url != "" ||
    (sub.agentRef.Some? &&
     var key := Key(if sub.agentRef.value.ns == "" then ns else sub.agentRef.value.ns, sub.agentRef.value.name);
     key in urls && urls[key] != "")
  }

  ghost predicate ToolHasUrl(servers: map<Key, ToolServerStatus>, tool: Tool, ns: string) {
    tool.url != "" ||
    (tool.toolServerRef.Some? &&
     var key := Key(if tool.toolServerRef.value.ns == "" then ns else tool.toolServerRef.value.ns, tool.toolServerRef.value.name);
     key in servers && (servers[key].gatewayUrl != "" || servers[key].url != ""))
  }

  ghost predicate GatewayExists(gateways: seq<Gateway>, ref: Option<ObjectRef>, ns: string) {
    ref.Some? ==>
      exists g :: g in gateways && g.key.name == ref.value.name && g.key.ns == if ref.value.ns == "" then ns else ref.value.ns
  }

  ghost predicate SubAgentsHaveUrls(urls: map<Key, string>, spec: AgentSpec, ns: string) {
    forall i :: 0 <= i < |spec.subAgents| ==> SubAgentHasUrl(urls, spec.subAgents[i], ns)
  }

  ghost predicate ToolsHaveUrls(servers: map<Key, ToolServerStatus>, spec: AgentSpec, ns: string) {
    forall i :: 0 <= i < |spec.tools| ==> ToolHasUrl(servers, spec.tools[i], ns)
  }

  lemma ToolsResolveIff(servers: map<Key, ToolServerStatus>, spec: AgentSpec, ns: string)
    ensures ToolsResolve(servers, spec.tools, ns) <==> ToolsHaveUrls(servers, spec, ns)
  {
    forall i | 0 <= i < |spec.tools|
      ensures ResolveToolServerUrl(servers, spec.tools[i], ns).Ok? <==> ToolHasUrl(servers, spec.tools[i], ns)
    {
      ToolServerUrl(servers, spec.tools[i], ns);
    }
  }

  lemma SubAgentsResolveIff(urls: map<Key, string>, spec: AgentSpec, ns: string)
    ensures SubAgentsResolve(urls, spec.subAgents, ns) <==> SubAgentsHaveUrls(urls, spec, ns)
  {
    forall i | 0 <= i < |spec.subAgents|
      ensures ResolveSubAgentUrl(urls, spec.subAgents[i], ns).Ok? <==> SubAgentHasUrl(urls, spec.subAgents[i], ns)
    {
      SubAgentUrl(urls, spec.subAgents[i], ns);
    }
  }

  lemma GatewayResolvesIff(cluster: Cluster, k: Key)
    requires k in cluster.specs
    ensures GatewayResolves(cluster, k) <==> GatewayExists(cluster.gateways, cluster.specs[k].aiGatewayRef, k.ns)
  {
    var ref := cluster.specs[k].aiGatewayRef;
    if ref.Some? {
      LookupFinds(cluster.gateways, Target(ref.value, k.ns), "");
    }
  }

  /** A reconcile fails if and only if some sub-agent or tool has no URL; otherwise
      it is ready if and only if a gateway that is asked for exists. */
  lemma ReconcileIs(cluster: Cluster, urls: map<Key, string>, k: Key)
    requires k in cluster.specs
    ensures var spec, o := cluster.specs[k], Reconcile(cluster, urls, k);
            var found := SubAgentsHaveUrls(urls, spec, k.ns) && ToolsHaveUrls(cluster.servers, spec, k.ns);
            var gateway := GatewayExists(cluster.gateways, spec.aiGatewayRef, k.ns);
            && (o.Failed? <==> !found)
            && (o.NotReady? <==> found && !gateway)
            && (o.Ready? <==> found && gateway)
            && (o.Ready? ==> o.url == CardUrl(k, spec))
  {
    SubAgentsResolveIff(urls, cluster.specs[k], k.ns);
    ToolsResolveIff(cluster.servers, cluster.specs[k], k.ns);
    GatewayResolvesIff(cluster, k);
  }

  /** Failing leaves every URL alone, not being ready clears the Agent's own, and
      being ready writes it. */
  lemma WriteStatusIs(urls: map<Key, string>, k: Key, outcome: Outcome, j: Key)
    ensures var urls' := WriteStatus(urls, k, outcome);
            && (j != k || outcome.Failed? ==> SameAt(urls, urls', j))
            && (outcome.NotReady? ==> k in urls' && urls'[k] == "")
            && (outcome.Ready? ==> k in urls' && urls'[k] == outcome.url)
  {
  }

  function WriteStatus(urls: map<Key, string>, k: Key, outcome: Outcome): map<Key, string> {
    match outcome
    case Failed => urls
    case NotReady => urls[k := ""]
    case Ready(url) => urls[k := url]
  }

  /******* The least fixpoint *******/

  predicate Enabled(cluster: Cluster, k: Key)
    requires k in cluster.specs
  {
    HasA2A(cluster.specs[k]) && ToolsResolve(cluster.servers, cluster.specs[k].tools, k.ns) && GatewayResolves(cluster, k)
  }

  predicate SubAgentsIn(subs: seq<SubAgent>, ns: string, S: set<Key>) {
    forall i :: 0 <= i < |subs| ==>
      subs[i].url != "" || (subs[i].agentRef.Some? && Target(subs[i].agentRef.value, ns) in S)
  }

  ghost function Step(cluster: Cluster, S: set<Key>): set<Key> {
    set k | k in cluster.specs && Enabled(cluster, k) && SubAgentsIn(cluster.specs[k].subAgents, k.ns, S)
  }

  ghost function Iterate(cluster: Cluster, n: nat): set<Key> {
    if n == 0 then {} else Step(cluster, Iterate(cluster, n - 1))
  }

  /** The Agents that can become ready. */
  ghost function Fix(cluster: Cluster): set<Key> {
    Iterate(cluster, |cluster.specs|)
  }

  lemma StepMonotone(cluster: Cluster, S: set<Key>, T: set<Key>)
    requires S <= T
    ensures Step(cluster, S) <= Step(cluster, T)
  {
  }

  lemma {:induction false} IterateIncreases(cluster: Cluster, m: nat, n: nat)
    requires m <= n
    ensures Iterate(cluster, m) <= Iterate(cluster, n)
    decreases m
  {
    if m > 0 {
      IterateIncreases(cluster, m - 1, n - 1);
      StepMonotone(cluster, Iterate(cluster, m - 1), Iterate(cluster, n - 1));
    }
  }

  lemma {:induction false} IterateGrows(cluster: Cluster, n: nat)
    ensures Step(cluster, Iterate(cluster, n)) == Iterate(cluster, n) || |Iterate(cluster, n + 1)| > n
  {
    IterateIncreases(cluster, n, n + 1);
    if n > 0 {
      IterateGrows(cluster, n - 1);
    }
    if Iterate(cluster, n) != Iterate(cluster, n + 1) {
      SubsetCardinality(Iterate(cluster, n), Iterate(cluster, n + 1));
    }
  }

  lemma SubsetCardinality<T>(A: set<T>, B: set<T>)
    requires A <= B
    ensures |A| <= |B|
    ensures A != B ==> |A| < |B|
  {
    assert |B| == |A| + |B - A| by {
      assert B == A + (B - A);
    }
  }

  lemma FixIsFixpoint(cluster: Cluster)
    ensures Step(cluster, Fix(cluster)) == Fix(cluster)
  {
    var n := |cluster.specs|;
    IterateGrows(cluster, n);
    assert Iterate(cluster, n + 1) <= cluster.specs.Keys;
    SubsetCardinality(Iterate(cluster, n + 1), cluster.specs.Keys);
  }

  lemma {:induction false} FixIsLeast(cluster: Cluster, S: set<Key>)
    requires Step(cluster, S) <= S
    ensures Fix(cluster) <= S
  {
    forall n: nat
      ensures Iterate(cluster, n) <= S
    {
      IterateWithin(cluster, S, n);
    }
  }

  lemma {:induction false} IterateWithin(cluster: Cluster, S: set<Key>, n: nat)
    requires Step(cluster, S) <= S
    ensures Iterate(cluster, n) <= S
  {
    if n > 0 {
      IterateWithin(cluster, S, n - 1);
      StepMonotone(cluster, Iterate(cluster, n - 1), S);
    }
  }

  /******* Safety of status writes *******/

  ghost function ReadySet(urls: map<Key, string>): set<Key> {
    set k | k in urls && urls[k] != ""
  }

  /** Only Agents of the fixpoint hold a URL, and it is the right one. */
  ghost predicate UrlsSound(cluster: Cluster, urls: map<Key, string>) {
    && urls.Keys == cluster.specs.Keys
    && ReadySet(urls) <= Fix(cluster)
    && forall k :: k in ReadySet(urls) ==> urls[k] == CardUrl(k, cluster.specs[k])
  }

  lemma ResolvedIffReady(urls: map<Key, string>, subs: seq<SubAgent>, ns: string)
    ensures SubAgentsResolve(urls, subs, ns) <==> SubAgentsIn(subs, ns, ReadySet(urls))
  {
    forall i | 0 <= i < |subs|
      ensures ResolveSubAgentUrl(urls, subs[i], ns).Ok? <==>
              (subs[i].url != "" || (subs[i].agentRef.Some? && Target(subs[i].agentRef.value, ns) in ReadySet(urls)))
    {
    }
  }

  /** A status write decided on sound, possibly older URLs keeps the URLs sound,
      and no Agent ever loses its URL. */
  lemma WriteKeepsSound(cluster: Cluster, seen: map<Key, string>, urls: map<Key, string>, k: Key)
    requires k in cluster.specs && UrlsSound(cluster, seen) && UrlsSound(cluster, urls)
    ensures UrlsSound(cluster, WriteStatus(urls, k, Reconcile(cluster, seen, k)))
    ensures ReadySet(urls) <= ReadySet(WriteStatus(urls, k, Reconcile(cluster, seen, k)))
  {
    var spec, outcome := cluster.specs[k], Reconcile(cluster, seen, k);
    ResolvedIffReady(seen, spec.subAgents, k.ns);
    CardUrlIffA2A(k, spec);
    FixIsFixpoint(cluster);
    if outcome.Ready? && outcome.url != "" {
      assert k in Step(cluster, ReadySet(seen));
      StepMonotone(cluster, ReadySet(seen), Fix(cluster));
    }
  }

  /******* Interleaved reconciles *******/

  /** A reconcile that has read the cache: the version of the Agent it started
      from, and what it is about to write. */
  datatype Work = Work(version: nat, outcome: Outcome)

  /** `urls` is what the API server stores and `cache` what the controller reads;
      `versions` and `cachedVersions` are the resource versions of both.  They
      differ at most for Agents with an undelivered event. */
  datatype State = State(
    urls: map<Key, string>,
    versions: map<Key, nat>,
    cache: map<Key, string>,
    cachedVersions: map<Key, nat>,
    undelivered: set<Key>,
    queue: set<Key>,
    inflight: map<Key, Work>)

  function NoUrls(cluster: Cluster): map<Key, string> {
    map k | k in cluster.specs :: ""
  }

  ghost predicate Init(cluster: Cluster, s: State) {
    && s.urls == s.cache == NoUrls(cluster)
    && s.versions == s.cachedVersions && s.versions.Keys == cluster.specs.Keys
    && cluster.specs.Keys <= s.queue
    && s.undelivered == {} && s.inflight == map[]
  }

  /** A worker takes `k` from the queue and resolves its references.  A failed
      resolution, or a deleted Agent, is dropped.  Any step may enqueue more. */
  ghost predicate Begin(cluster: Cluster, s: State, s': State, k: Key) {
    && k in s.queue && k !in s.inflight
    && s.queue - {k} <= s'.queue
    && s' == s.(queue := s'.queue,
                inflight := if k in cluster.specs && k in s.cachedVersions && !Reconcile(cluster, s.cache, k).Failed?
                            then s.inflight[k := Work(s.cachedVersions[k], Reconcile(cluster, s.cache, k))] else s.inflight)
  }

  /** The write of `k` starts from the newest version. */
  ghost predicate CanCommit(s: State, k: Key) {
    k in s.inflight && k in s.versions && s.inflight[k].version == s.versions[k]
  }

  /** The status is written, which the API server accepts only from the newest
      version.  A ready write changes the checkpoint count, so it always stores a
      new version and raises an event; another write may change nothing. */
  ghost predicate Commit(s: State, s': State, k: Key) {
    && CanCommit(s, k) && s.queue <= s'.queue
    && var s1 := s.(urls := WriteStatus(s.urls, k, s.inflight[k].outcome), inflight := s.inflight - {k}, queue := s'.queue);
       || s' == s1.(versions := s.versions[k := s.versions[k] + 1], undelivered := s.undelivered + {k})
       || (s' == s1 && s1.urls == s.urls && !s.inflight[k].outcome.Ready?)
  }

  /** Somebody else updates `k`, say its token count, and keeps spec and URL. */
  ghost predicate Touch(s: State, s': State, k: Key) {
    && k in s.versions && s.queue <= s'.queue
    && s' == s.(versions := s.versions[k := s.versions[k] + 1], undelivered := s.undelivered + {k}, queue := s'.queue)
  }

  /** The newest version of `k` reaches the cache; the watches enqueue `k` itself
      and the Agents that the mapper returns. */
  ghost predicate Deliver(cluster: Cluster, s: State, s': State, k: Key) {
    && k in s.undelivered && k in s.urls && k in s.versions
    && s.queue + {k} + Parents(cluster.specs, k) <= s'.queue
    && s' == s.(cache := s.cache[k := s.urls[k]], cachedVersions := s.cachedVersions[k := s.versions[k]],
                undelivered := s.undelivered - {k}, queue := s'.queue)
  }

  /** Writing the Deployment, the Service or the status failed, for instance
      because the version was not the newest: the work queue retries. */
  ghost predicate Abort(s: State, s': State, k: Key) {
    && k in s.inflight && s.queue + {k} <= s'.queue
    && s' == s.(inflight := s.inflight - {k}, queue := s'.queue)
  }

  ghost predicate Next(cluster: Cluster, s: State, s': State) {
    exists k :: Begin(cluster, s, s', k) || Commit(s, s', k) || Touch(s, s', k) || Deliver(cluster, s, s', k) || Abort(s, s', k)
  }

  ghost predicate IsStep(cluster: Cluster, run: seq<State>, i: nat) {
    i + 1 < |run| && Next(cluster, run[i], run[i + 1])
  }

  ghost predicate IsRun(cluster: Cluster, run: seq<State>) {
    && |run| > 0 && Init(cluster, run[0])
    && forall i :: 0 <= i < |run| - 1 ==> IsStep(cluster, run, i)
  }

  /** `k` is queued or in flight, or the event of its own ready write, which will
      enqueue it again, is on its way. */
  ghost predicate Pending(cluster: Cluster, s: State, k: Key)
    requires k in cluster.specs
  {
    || k in s.queue || k in s.inflight
    || (k in s.undelivered && k in s.urls && s.urls[k] == CardUrl(k, cluster.specs[k]))
  }

  /** Every Agent that a reconcile would make ready is pending. */
  ghost predicate NoLostWakeup(cluster: Cluster, s: State) {
    forall k :: k in cluster.specs && Reconcile(cluster, s.cache, k).Ready? ==> Pending(cluster, s, k)
  }

  ghost predicate CacheOk(cluster: Cluster, urls: map<Key, string>, cache: map<Key, string>, undelivered: set<Key>) {
    && UrlsSound(cluster, urls) && UrlsSound(cluster, cache)
    && ReadySet(cache) <= ReadySet(urls)
    && forall k :: k in urls && cache[k] != urls[k] ==> k in undelivered
  }

  ghost predicate InflightOk(cluster: Cluster, cache: map<Key, string>, inflight: map<Key, Work>) {
    forall k :: k in inflight ==>
      k in cluster.specs && !inflight[k].outcome.Failed? && inflight[k].outcome == Reconcile(cluster, cache, k)
  }

  /** Without an event on its way, the controller reads the newest version. */
  ghost predicate VersionsOk(cluster: Cluster, s: State) {
    && s.versions.Keys == s.cachedVersions.Keys == cluster.specs.Keys
    && s.undelivered <= cluster.specs.Keys
    && forall k :: k in s.versions && k !in s.undelivered ==> s.cachedVersions[k] == s.versions[k]
  }

  ghost predicate Inv(cluster: Cluster, s: State) {
    && CacheOk(cluster, s.urls, s.cache, s.undelivered)
    && InflightOk(cluster, s.cache, s.inflight)
    && NoLostWakeup(cluster, s)
  }

  /** Once its sub-agents resolve, what an Agent's reconcile writes is settled. */
  lemma OutcomeStable(cluster: Cluster, urls: map<Key, string>, urls': map<Key, string>, k: Key)
    requires k in cluster.specs && ReadySet(urls) <= ReadySet(urls')
    requires !Reconcile(cluster, urls, k).Failed?
    ensures Reconcile(cluster, urls', k) == Reconcile(cluster, urls, k)
  {
    ResolvedIffReady(urls, cluster.specs[k].subAgents, k.ns);
    ResolvedIffReady(urls', cluster.specs[k].subAgents, k.ns);
  }

  /** The watch is enough: an Agent that the change of `k` makes reconcilable is
      one of those the mapper returns. */
  lemma ChangeWakes(cluster: Cluster, urls: map<Key, string>, k: Key, url: string, parent: Key)
    requires parent in cluster.specs
    requires Reconcile(cluster, urls, parent).Failed? && !Reconcile(cluster, urls[k := url], parent).Failed?
    ensures parent in Parents(cluster.specs, k)
  {
    var urls', subs := urls[k := url], cluster.specs[parent].subAgents;
    assert SameExcept(urls, urls', k) by {
      assert urls - {k} == urls' - {k};
    }
    NoIssuesIffResolved(urls, subs, parent.ns);
    NoIssuesIffResolved(urls', subs, parent.ns);
    SubAgentWatchComplete(urls, urls', k, subs, parent.ns);
  }

  lemma InitInv(cluster: Cluster, s: State)
    requires Init(cluster, s)
    ensures Inv(cluster, s)
  {
  }

  /** Steps that leave the cache alone lose no wake-up if what was pending is. */
  lemma StillPending(cluster: Cluster, s: State, s': State)
    requires NoLostWakeup(cluster, s) && s'.cache == s.cache
    requires forall k :: k in cluster.specs && Reconcile(cluster, s.cache, k).Ready? && Pending(cluster, s, k) ==>
               Pending(cluster, s', k)
    ensures NoLostWakeup(cluster, s')
  {
  }

  /** No URL disappears, neither at the API server nor in the cache. */
  ghost predicate Grows(s: State, s': State) {
    ReadySet(s.urls) <= ReadySet(s'.urls) && ReadySet(s.cache) <= ReadySet(s'.cache)
  }

  lemma BeginKeepsInflight(cluster: Cluster, s: State, s': State, k: Key)
    requires InflightOk(cluster, s.cache, s.inflight) && Begin(cluster, s, s', k)
    ensures InflightOk(cluster, s'.cache, s'.inflight)
  {
  }

  lemma BeginKeepsPending(cluster: Cluster, s: State, s': State, k: Key)
    requires NoLostWakeup(cluster, s) && VersionsOk(cluster, s) && Begin(cluster, s, s', k)
    ensures NoLostWakeup(cluster, s')
  {
    StillPending(cluster, s, s');
  }

  lemma BeginKeepsInv(cluster: Cluster, s: State, s': State, k: Key)
    requires Inv(cluster, s) && VersionsOk(cluster, s) && Begin(cluster, s, s', k)
    ensures Inv(cluster, s') && Grows(s, s')
  {
    BeginKeepsInflight(cluster, s, s', k);
    BeginKeepsPending(cluster, s, s', k);
  }

  lemma AbortKeepsInv(cluster: Cluster, s: State, s': State, k: Key)
    requires Inv(cluster, s) && Abort(s, s', k)
    ensures Inv(cluster, s') && Grows(s, s')
  {
    StillPending(cluster, s, s');
  }

  lemma TouchKeepsInv(cluster: Cluster, s: State, s': State, k: Key)
    requires Inv(cluster, s) && Touch(s, s', k)
    ensures Inv(cluster, s') && Grows(s, s')
  {
    StillPending(cluster, s, s');
  }

  lemma CommitKeepsCache(cluster: Cluster, urls: map<Key, string>, cache: map<Key, string>,
                         undelivered: set<Key>, undelivered': set<Key>, k: Key)
    requires CacheOk(cluster, urls, cache, undelivered) && k in cluster.specs
    requires undelivered <= undelivered' && (Reconcile(cluster, cache, k).Ready? ==> k in undelivered')
    ensures var urls' := WriteStatus(urls, k, Reconcile(cluster, cache, k));
            CacheOk(cluster, urls', cache, undelivered') && ReadySet(urls) <= ReadySet(urls')
  {
    WriteKeepsSound(cluster, cache, urls, k);
    if Reconcile(cluster, cache, k).NotReady? {
      NotReadyHasNoUrl(cluster, urls, k);
    }
  }

  lemma CommitKeepsInv(cluster: Cluster, s: State, s': State, k: Key)
    requires Inv(cluster, s) && Commit(s, s', k)
    ensures Inv(cluster, s') && Grows(s, s')
  {
    CommitKeepsCache(cluster, s.urls, s.cache, s.undelivered, s'.undelivered, k);
    CommitKeepsPending(cluster, s, s', k);
    StillPending(cluster, s, s');
  }

  lemma CommitKeepsPending(cluster: Cluster, s: State, s': State, k: Key)
    requires Inv(cluster, s) && Commit(s, s', k)
    ensures forall j :: j in cluster.specs && Reconcile(cluster, s.cache, j).Ready? && Pending(cluster, s, j) ==>
              Pending(cluster, s', j)
  {
    forall j | j in cluster.specs && Reconcile(cluster, s.cache, j).Ready? && Pending(cluster, s, j)
      ensures Pending(cluster, s', j)
    {
    }
  }

  lemma NotReadyHasNoUrl(cluster: Cluster, urls: map<Key, string>, k: Key)
    requires UrlsSound(cluster, urls) && k in cluster.specs && !GatewayResolves(cluster, k)
    ensures urls[k] == ""
  {
    FixIsFixpoint(cluster);
  }

  lemma DeliverKeepsCache(cluster: Cluster, urls: map<Key, string>, cache: map<Key, string>, undelivered: set<Key>, k: Key)
    requires CacheOk(cluster, urls, cache, undelivered) && k in urls
    ensures var cache' := cache[k := urls[k]];
            CacheOk(cluster, urls, cache', undelivered - {k}) && ReadySet(cache) <= ReadySet(cache')
  {
  }

  lemma DeliverKeepsInflight(cluster: Cluster, cache: map<Key, string>, cache': map<Key, string>, inflight: map<Key, Work>)
    requires InflightOk(cluster, cache, inflight) && ReadySet(cache) <= ReadySet(cache')
    ensures InflightOk(cluster, cache', inflight)
  {
    forall j | j in inflight
      ensures inflight[j].outcome == Reconcile(cluster, cache', j)
    {
      OutcomeStable(cluster, cache, cache', j);
    }
  }

  lemma DeliverLosesNoWakeup(cluster: Cluster, s: State, s': State, k: Key)
    requires NoLostWakeup(cluster, s) && Deliver(cluster, s, s', k) && ReadySet(s.cache) <= ReadySet(s'.cache)
    ensures NoLostWakeup(cluster, s')
  {
    forall j | j in cluster.specs && Reconcile(cluster, s'.cache, j).Ready?
      ensures Pending(cluster, s', j)
    {
      if Reconcile(cluster, s.cache, j).Failed? {
        ChangeWakes(cluster, s.cache, k, s.urls[k], j);
      } else {
        OutcomeStable(cluster, s.cache, s'.cache, j);
        assert Pending(cluster, s, j);
      }
    }
  }

  lemma DeliverKeepsInv(cluster: Cluster, s: State, s': State, k: Key)
    requires Inv(cluster, s) && Deliver(cluster, s, s', k)
    ensures Inv(cluster, s') && Grows(s, s')
  {
    DeliverKeepsCache(cluster, s.urls, s.cache, s.undelivered, k);
    DeliverKeepsInflight(cluster, s.cache, s'.cache, s.inflight);
    DeliverLosesNoWakeup(cluster, s, s', k);
  }

  lemma NextKeepsVersions(cluster: Cluster, s: State, s': State)
    requires VersionsOk(cluster, s) && Next(cluster, s, s')
    ensures VersionsOk(cluster, s')
  {
  }

  lemma NextKeepsInv(cluster: Cluster, s: State, s': State)
    requires Inv(cluster, s) && VersionsOk(cluster, s) && Next(cluster, s, s')
    ensures Inv(cluster, s') && Grows(s, s')
  {
    var k :| Begin(cluster, s, s', k) || Commit(s, s', k) || Touch(s, s', k) || Deliver(cluster, s, s', k) || Abort(s, s', k);
    if Begin(cluster, s, s', k) {
      BeginKeepsInv(cluster, s, s', k);
    } else if Commit(s, s', k) {
      CommitKeepsInv(cluster, s, s', k);
    } else if Touch(s, s', k) {
      TouchKeepsInv(cluster, s, s', k);
    } else if Deliver(cluster, s, s', k) {
      DeliverKeepsInv(cluster, s, s', k);
    } else {
      AbortKeepsInv(cluster, s, s', k);
    }
  }

  /** What may happen in a state, besides what continues a run to the end of a round:
      updates by others, failures, and more in the queue. */
  lemma OthersMayAct(cluster: Cluster, s: State, k: Key, more: set<Key>)
    ensures k in s.versions ==>
              Next(cluster, s, s.(versions := s.versions[k := s.versions[k] + 1], undelivered := s.undelivered + {k},
                                  queue := s.queue + more))
    ensures k in s.inflight ==> Next(cluster, s, s.(inflight := s.inflight - {k}, queue := s.queue + {k} + more))
    ensures CanCommit(s, k) && s.inflight[k].outcome.NotReady? && k in s.urls && s.urls[k] == "" ==>
              Next(cluster, s, s.(inflight := s.inflight - {k}, queue := s.queue + more))
    ensures k in s.queue && k !in s.inflight && k !in cluster.specs ==>
              Next(cluster, s, s.(queue := s.queue - {k}))
  {
    if k in s.versions {
      assert Touch(s, s.(versions := s.versions[k := s.versions[k] + 1], undelivered := s.undelivered + {k},
                         queue := s.queue + more), k);
    }
    if k in s.inflight {
      assert Abort(s, s.(inflight := s.inflight - {k}, queue := s.queue + {k} + more), k);
      if CanCommit(s, k) && s.inflight[k].outcome.NotReady? && k in s.urls && s.urls[k] == "" {
        assert WriteStatus(s.urls, k, s.inflight[k].outcome) == s.urls;
        assert Commit(s, s.(inflight := s.inflight - {k}, queue := s.queue + more), k);
      }
    }
    if k in s.queue && k !in s.inflight && k !in cluster.specs {
      assert Begin(cluster, s, s.(queue := s.queue - {k}), k);
    }
  }

  /** A reconcile is for a queued Agent, and there is at most one for each. */
  lemma OneReconcileAtATime(cluster: Cluster, s: State, s': State, k: Key)
    requires Next(cluster, s, s') && k in s'.inflight
    ensures if k in s.inflight then s'.inflight[k] == s.inflight[k] else k in s.queue
  {
  }

  /** Any Agent may be taken from the queue at any time, also with an old cache, and
      any write from the newest version succeeds. */
  lemma WorkersMayAct(cluster: Cluster, s: State, k: Key)
    ensures k in s.queue && k !in s.inflight && k in cluster.specs && k in s.cachedVersions ==>
              var o := Reconcile(cluster, s.cache, k);
              Next(cluster, s, s.(queue := s.queue - {k},
                                  inflight := if o.Failed? then s.inflight
                                              else s.inflight[k := Work(s.cachedVersions[k], o)]))
    ensures k in s.inflight && k in s.versions && s.inflight[k].version == s.versions[k] ==>
              Next(cluster, s, s.(urls := WriteStatus(s.urls, k, s.inflight[k].outcome), inflight := s.inflight - {k},
                                  versions := s.versions[k := s.versions[k] + 1], undelivered := s.undelivered + {k}))
  {
    if k in s.queue && k !in s.inflight && k in cluster.specs && k in s.cachedVersions {
      var o := Reconcile(cluster, s.cache, k);
      assert Begin(cluster, s, s.(queue := s.queue - {k},
                                  inflight := if o.Failed? then s.inflight
                                              else s.inflight[k := Work(s.cachedVersions[k], o)]), k);
    }
    if CanCommit(s, k) {
      assert Commit(s, s.(urls := WriteStatus(s.urls, k, s.inflight[k].outcome), inflight := s.inflight - {k},
                          versions := s.versions[k := s.versions[k] + 1], undelivered := s.undelivered + {k}), k);
    }
  }

  /** One step of a run. */
  lemma RunStep(cluster: Cluster, run: seq<State>, i: nat)
    requires IsRun(cluster, run) && 0 < i < |run|
    ensures Next(cluster, run[i - 1], run[i])
  {
    assert IsStep(cluster, run, i - 1);
  }

  lemma RunStarts(cluster: Cluster, run: seq<State>)
    requires IsRun(cluster, run)
    ensures Inv(cluster, run[0]) && VersionsOk(cluster, run[0])
  {
    InitInv(cluster, run[0]);
  }

  lemma {:induction false} RunKeepsInv(cluster: Cluster, run: seq<State>, i: nat)
    requires IsRun(cluster, run) && i < |run|
    ensures Inv(cluster, run[i]) && VersionsOk(cluster, run[i])
  {
    if i == 0 {
      RunStarts(cluster, run);
    } else {
      RunKeepsInv(cluster, run, i - 1);
      RunStep(cluster, run, i);
      NextKeepsVersions(cluster, run[i - 1], run[i]);
      NextKeepsInv(cluster, run[i - 1], run[i]);
    }
  }

  lemma RunStepKeeps(cluster: Cluster, run: seq<State>, i: nat)
    requires IsRun(cluster, run) && 0 < i < |run|
    ensures Grows(run[i - 1], run[i])
  {
    RunKeepsInv(cluster, run, i - 1);
    RunStep(cluster, run, i);
    NextKeepsInv(cluster, run[i - 1], run[i]);
  }

  /** In every interleaving, at every moment: only Agents of the least fixpoint
      hold a URL, it is the URL of their agent card, and no wake-up is lost. */
  lemma RunsAreSafe(cluster: Cluster, run: seq<State>, i: nat)
    requires IsRun(cluster, run) && i < |run|
    ensures UrlsSound(cluster, run[i].urls) && NoLostWakeup(cluster, run[i])
  {
    RunKeepsInv(cluster, run, i);
  }

  /** Every Agent with a URL has only sub-agents with URLs. */
  ghost predicate SubAgentsReady(cluster: Cluster, urls: map<Key, string>) {
    forall k :: k in ReadySet(urls) && k in cluster.specs ==> SubAgentsIn(cluster.specs[k].subAgents, k.ns, ReadySet(urls))
  }

  lemma CommitKeepsSubAgentsReady(cluster: Cluster, s: State, s': State, k: Key)
    requires Inv(cluster, s) && SubAgentsReady(cluster, s.urls) && Commit(s, s', k)
    ensures SubAgentsReady(cluster, s'.urls)
  {
    CommitKeepsInv(cluster, s, s', k);
    ResolvedIffReady(s.cache, cluster.specs[k].subAgents, k.ns);
    forall j | j in ReadySet(s'.urls) && j in cluster.specs
      ensures SubAgentsIn(cluster.specs[j].subAgents, j.ns, ReadySet(s'.urls))
    {
      assert j != k ==> j in ReadySet(s.urls);
    }
  }

  lemma NextKeepsSubAgentsReady(cluster: Cluster, s: State, s': State)
    requires Inv(cluster, s) && SubAgentsReady(cluster, s.urls) && Next(cluster, s, s')
    ensures SubAgentsReady(cluster, s'.urls)
  {
    if k :| Commit(s, s', k) {
      CommitKeepsSubAgentsReady(cluster, s, s', k);
    } else {
      assert s'.urls == s.urls;
    }
  }

  lemma {:induction false} RunKeepsSubAgentsReady(cluster: Cluster, run: seq<State>, i: nat)
    requires IsRun(cluster, run) && i < |run|
    ensures SubAgentsReady(cluster, run[i].urls)
  {
    if i > 0 {
      RunKeepsSubAgentsReady(cluster, run, i - 1);
      RunKeepsInv(cluster, run, i - 1);
      RunStep(cluster, run, i);
      NextKeepsSubAgentsReady(cluster, run[i - 1], run[i]);
    }
  }

  /** At every moment of every run an Agent with a URL has an A2A protocol and the
      gateway it asks for, and all its tools and sub-agents have URLs. */
  lemma ReadyMeansResolved(cluster: Cluster, run: seq<State>, i: nat, k: Key)
    requires IsRun(cluster, run) && i < |run| && k in run[i].urls && run[i].urls[k] != ""
    ensures k in cluster.specs && run[i].urls[k] == CardUrl(k, cluster.specs[k])
    ensures SubAgentsHaveUrls(run[i].urls, cluster.specs[k], k.ns)
    ensures ToolsHaveUrls(cluster.servers, cluster.specs[k], k.ns)
    ensures GatewayExists(cluster.gateways, cluster.specs[k].aiGatewayRef, k.ns)
  {
    RunsAreSafe(cluster, run, i);
    RunKeepsSubAgentsReady(cluster, run, i);
    FixIsFixpoint(cluster);
    assert k in Step(cluster, Fix(cluster));
    ResolvedIffReady(run[i].urls, cluster.specs[k].subAgents, k.ns);
    SubAgentsResolveIff(run[i].urls, cluster.specs[k], k.ns);
    ToolsResolveIff(cluster.servers, cluster.specs[k], k.ns);
    GatewayResolvesIff(cluster, k);
  }

  /** URLs are never taken away. */
  lemma {:induction false} ReadyStaysReady(cluster: Cluster, run: seq<State>, i: nat, j: nat)
    requires IsRun(cluster, run) && i <= j < |run|
    ensures Grows(run[i], run[j])
    decreases j
  {
    if i < j {
      ReadyStaysReady(cluster, run, i, j - 1);
      RunStepKeeps(cluster, run, j);
    }
  }

  /** A run is never stuck: as long as some Agent of the fixpoint has no URL, one
      whose sub-agents all have theirs is queued or in flight, or waits for an
      event of a sub-agent that is on its way. */
  lemma RunsAreNeverStuck(cluster: Cluster, run: seq<State>, i: nat)
    requires IsRun(cluster, run) && i < |run|
    requires ReadySet(run[i].urls) != Fix(cluster)
    ensures exists k :: k in Step(cluster, ReadySet(run[i].urls)) && k !in ReadySet(run[i].urls) &&
                        (k in run[i].queue || k in run[i].inflight ||
                         exists dep :: dep in run[i].undelivered && k in Parents(cluster.specs, dep))
  {
    RunKeepsInv(cluster, run, i);
    SomeoneIsWoken(cluster, run[i]);
  }

  lemma SomeoneIsWoken(cluster: Cluster, s: State)
    requires Inv(cluster, s) && ReadySet(s.urls) != Fix(cluster)
    ensures exists k :: k in Step(cluster, ReadySet(s.urls)) && k !in ReadySet(s.urls) &&
                        (k in s.queue || k in s.inflight || exists dep :: dep in s.undelivered && k in Parents(cluster.specs, dep))
  {
    var k := FirstMissing(cluster, ReadySet(s.urls), |cluster.specs|);
    var subs := cluster.specs[k].subAgents;
    ResolvedIffReady(s.cache, subs, k.ns);
    if !SubAgentsIn(subs, k.ns, ReadySet(s.cache)) {
      var m :| 0 <= m < |subs| && !(subs[m].url != "" ||
                 (subs[m].agentRef.Some? && Target(subs[m].agentRef.value, k.ns) in ReadySet(s.cache)));
      var dep := Target(subs[m].agentRef.value, k.ns);
      assert dep in s.undelivered && k in Parents(cluster.specs, dep);
    } else {
      EnabledIsReady(cluster, s.cache, k);
      assert Pending(cluster, s, k);
    }
  }

  /** A reconcile that does not fail makes an Agent ready that could become so. */
  lemma EnabledIsReady(cluster: Cluster, urls: map<Key, string>, k: Key)
    requires k in cluster.specs && Enabled(cluster, k) && !Reconcile(cluster, urls, k).Failed?
    ensures Reconcile(cluster, urls, k).Ready? && Reconcile(cluster, urls, k).url == CardUrl(k, cluster.specs[k]) != ""
  {
    CardUrlIffA2A(k, cluster.specs[k]);
  }

  lemma {:induction false} FirstMissing(cluster: Cluster, S: set<Key>, n: nat) returns (k: Key)
    requires !(Iterate(cluster, n) <= S) && n <= |cluster.specs|
    ensures k in Step(cluster, S) && k in Fix(cluster) && k !in S
  {
    if Iterate(cluster, n - 1) <= S {
      k :| k in Iterate(cluster, n) && k !in S;
      StepMonotone(cluster, Iterate(cluster, n - 1), S);
      IterateIncreases(cluster, n, |cluster.specs|);
    } else {
      k := FirstMissing(cluster, S, n - 1);
    }
  }

  /******* Rounds of concurrent reconciles *******/

  ghost predicate DeliversAt(cluster: Cluster, run: seq<State>, m: nat, k: Key) {
    m + 1 < |run| && Deliver(cluster, run[m], run[m + 1], k)
  }

  /** An event of `k` is delivered between the moments `i` and `j`. */
  ghost predicate Delivered(cluster: Cluster, run: seq<State>, i: nat, j: nat, k: Key) {
    exists m :: i <= m < j && DeliversAt(cluster, run, m, k)
  }

  /** The status of `k` is written, or its reconcile is dropped. */
  ghost predicate Handles(cluster: Cluster, s: State, s': State, k: Key) {
    Commit(s, s', k) || (Begin(cluster, s, s', k) && k !in s'.inflight)
  }

  ghost predicate HandlesAt(cluster: Cluster, run: seq<State>, m: nat, k: Key) {
    m + 1 < |run| && Handles(cluster, run[m], run[m + 1], k)
  }

  ghost predicate Handled(cluster: Cluster, run: seq<State>, i: nat, j: nat, k: Key) {
    exists m :: i <= m < j && HandlesAt(cluster, run, m, k)
  }

  ghost predicate AllDelivered(cluster: Cluster, run: seq<State>, i: nat, j: nat, keys: set<Key>) {
    forall k :: k in keys ==> Delivered(cluster, run, i, j, k)
  }

  ghost predicate AllHandled(cluster: Cluster, run: seq<State>, i: nat, j: nat, keys: set<Key>) {
    forall k :: k in keys ==> Handled(cluster, run, i, j, k)
  }

  ghost function ToHandle(s: State): set<Key> {
    s.queue + s.inflight.Keys
  }

  /** A round: the events on their way at `i` are delivered by `mid`, and what is
      queued or in flight at `mid` is handled by `j`, in any order, after any
      number of failed attempts, and among any other steps. */
  ghost predicate IsRound(cluster: Cluster, run: seq<State>, i: nat, mid: nat, j: nat) {
    && i <= mid <= j < |run|
    && AllDelivered(cluster, run, i, mid, run[i].undelivered)
    && AllHandled(cluster, run, mid, j, ToHandle(run[mid]))
  }

  lemma CommitWritesUrl(cluster: Cluster, s: State, s': State, k: Key)
    requires Inv(cluster, s) && Commit(s, s', k) && Enabled(cluster, k)
    ensures k in ReadySet(s'.urls)
  {
    EnabledIsReady(cluster, s.cache, k);
  }

  lemma DeliveryShowsUrl(cluster: Cluster, s: State, s': State, k: Key)
    requires Deliver(cluster, s, s', k) && k in ReadySet(s.urls)
    ensures k in ReadySet(s'.cache)
  {
  }

  lemma DeliveredIsSeen(cluster: Cluster, run: seq<State>, i: nat, mid: nat, k: Key)
    requires IsRun(cluster, run) && mid < |run| && Delivered(cluster, run, i, mid, k) && k in ReadySet(run[i].urls)
    ensures k in ReadySet(run[mid].cache)
  {
    var m :| i <= m < mid && DeliversAt(cluster, run, m, k);
    DeliveredAtIsSeen(cluster, run, i, m, mid, k);
  }

  lemma DeliveredAtIsSeen(cluster: Cluster, run: seq<State>, i: nat, m: nat, mid: nat, k: Key)
    requires IsRun(cluster, run) && i <= m < mid < |run| && k in ReadySet(run[i].urls)
    requires DeliversAt(cluster, run, m, k)
    ensures k in ReadySet(run[mid].cache)
  {
    ReadyStaysReady(cluster, run, i, m);
    DeliveryShowsUrl(cluster, run[m], run[m + 1], k);
    ReadyStaysReady(cluster, run, m + 1, mid);
  }

  /** By the middle of a round the controller sees all URLs written before it. */
  lemma RoundDelivers(cluster: Cluster, run: seq<State>, i: nat, mid: nat, j: nat)
    requires IsRun(cluster, run) && IsRound(cluster, run, i, mid, j)
    ensures ReadySet(run[i].urls) <= ReadySet(run[mid].cache)
  {
    forall k | k in ReadySet(run[i].urls)
      ensures k in ReadySet(run[mid].cache)
    {
      if k in ReadySet(run[i].cache) {
        ReadyStaysReady(cluster, run, i, mid);
      } else {
        RunKeepsInv(cluster, run, i);
        DeliveredIsSeen(cluster, run, i, mid, k);
      }
    }
  }

  /** A step that handles an Agent whose references resolve makes it ready. */
  lemma HandlingWritesUrl(cluster: Cluster, s: State, s': State, k: Key)
    requires Inv(cluster, s) && VersionsOk(cluster, s) && Handles(cluster, s, s', k)
    requires k in cluster.specs && Enabled(cluster, k) && !Reconcile(cluster, s.cache, k).Failed?
    ensures k in ReadySet(s'.urls)
  {
    if Commit(s, s', k) {
      CommitWritesUrl(cluster, s, s', k);
    }
  }

  lemma HandledIsReady(cluster: Cluster, run: seq<State>, mid: nat, j: nat, k: Key)
    requires IsRun(cluster, run) && j < |run| && Handled(cluster, run, mid, j, k)
    requires k in cluster.specs && Enabled(cluster, k) && !Reconcile(cluster, run[mid].cache, k).Failed?
    ensures k in ReadySet(run[j].urls)
  {
    var m :| mid <= m < j && HandlesAt(cluster, run, m, k);
    ReadyStaysReady(cluster, run, mid, m);
    OutcomeStable(cluster, run[mid].cache, run[m].cache, k);
    HandledAtIsReady(cluster, run, m, j, k);
  }

  lemma HandledAtIsReady(cluster: Cluster, run: seq<State>, m: nat, j: nat, k: Key)
    requires IsRun(cluster, run) && m < j < |run| && HandlesAt(cluster, run, m, k)
    requires k in cluster.specs && Enabled(cluster, k) && !Reconcile(cluster, run[m].cache, k).Failed?
    ensures k in ReadySet(run[j].urls)
  {
    RunKeepsInv(cluster, run, m);
    HandlingWritesUrl(cluster, run[m], run[m + 1], k);
    ReadyStaysReady(cluster, run, m + 1, j);
  }

  /** An Agent that a reconcile would make ready in the middle of a round is ready
      at its end. */
  lemma RoundHandles(cluster: Cluster, run: seq<State>, i: nat, mid: nat, j: nat, k: Key)
    requires IsRun(cluster, run) && IsRound(cluster, run, i, mid, j)
    requires k in cluster.specs && Enabled(cluster, k) && !Reconcile(cluster, run[mid].cache, k).Failed?
    ensures k in ReadySet(run[j].urls)
  {
    EnabledIsReady(cluster, run[mid].cache, k);
    assert Pending(cluster, run[mid], k) by {
      RunKeepsInv(cluster, run, mid);
    }
    if k in run[mid].queue || k in run[mid].inflight {
      HandledIsReady(cluster, run, mid, j, k);
    } else {
      ReadyStaysReady(cluster, run, mid, j);
    }
  }

  /** Every round makes the next rank of the fixpoint ready. */
  lemma RoundAdvances(cluster: Cluster, run: seq<State>, i: nat, mid: nat, j: nat, n: nat)
    requires IsRun(cluster, run) && IsRound(cluster, run, i, mid, j)
    requires Iterate(cluster, n) <= ReadySet(run[i].urls)
    ensures Iterate(cluster, n + 1) <= ReadySet(run[j].urls)
  {
    RoundDelivers(cluster, run, i, mid, j);
    StepMonotone(cluster, Iterate(cluster, n), ReadySet(run[mid].cache));
    forall k | k in Step(cluster, ReadySet(run[mid].cache))
      ensures k in ReadySet(run[j].urls)
    {
      ResolvedIffReady(run[mid].cache, cluster.specs[k].subAgents, k.ns);
      RoundHandles(cluster, run, i, mid, j, k);
    }
  }

  /** `at` and `mids` cut a run into consecutive rounds. */
  ghost predicate AreRounds(cluster: Cluster, run: seq<State>, at: seq<nat>, mids: seq<nat>) {
    && |at| == |mids| + 1
    && forall n :: 0 <= n < |mids| ==> IsRound(cluster, run, at[n], mids[n], at[n + 1])
  }

  lemma {:induction false} RoundsAdvance(cluster: Cluster, run: seq<State>, at: seq<nat>, mids: seq<nat>, n: nat)
    requires IsRun(cluster, run) && AreRounds(cluster, run, at, mids) && n <= |mids| && at[0] < |run|
    ensures at[n] < |run| && Iterate(cluster, n) <= ReadySet(run[at[n]].urls)
  {
    if n > 0 {
      RoundsAdvance(cluster, run, at, mids, n - 1);
      assert IsRound(cluster, run, at[n - 1], mids[n - 1], at[n - 1 + 1]);
      RoundAdvances(cluster, run, at[n - 1], mids[n - 1], at[n], n - 1);
    }
  }

  /** Concurrent reconciles converge: after as many rounds as there are Agents, and
      ever after, exactly the Agents of the least fixpoint are ready. */
  lemma RoundsReachFixpoint(cluster: Cluster, run: seq<State>, at: seq<nat>, mids: seq<nat>, j: nat)
    requires IsRun(cluster, run) && AreRounds(cluster, run, at, mids) && |mids| >= |cluster.specs|
    requires at[|mids|] <= j < |run| && at[0] < |run|
    ensures ReadySet(run[j].urls) == Fix(cluster)
  {
    RoundsAdvance(cluster, run, at, mids, |mids|);
    IterateIncreases(cluster, |cluster.specs|, |mids|);
    ReadyStaysReady(cluster, run, at[|mids|], j);
    RunsAreSafe(cluster, run, j);
  }

  /******* Rounds exist *******/

  lemma RunExists(cluster: Cluster) returns (run: seq<State>)
    ensures IsRun(cluster, run)
  {
    var versions := map k | k in cluster.specs :: 0;
    run := [State(NoUrls(cluster), versions, NoUrls(cluster), versions, {}, cluster.specs.Keys, map[])];
  }

  ghost function Last(run: seq<State>): State
    requires run != []
  {
    run[|run| - 1]
  }

  lemma ContinueRun(cluster: Cluster, run: seq<State>, s: State) returns (run': seq<State>)
    requires IsRun(cluster, run) && Next(cluster, Last(run), s)
    ensures IsRun(cluster, run') && run' == run + [s]
  {
    run' := run + [s];
    forall i | 0 <= i < |run'| - 1
      ensures IsStep(cluster, run', i)
    {
      if i < |run| - 1 {
        assert IsStep(cluster, run, i);
      }
    }
  }

  lemma DeliverOne(cluster: Cluster, s: State, k: Key) returns (s': State)
    requires UrlsSound(cluster, s.urls) && VersionsOk(cluster, s) && k in s.undelivered
    ensures Next(cluster, s, s') && Deliver(cluster, s, s', k)
  {
    s' := s.(cache := s.cache[k := s.urls[k]], cachedVersions := s.cachedVersions[k := s.versions[k]],
             undelivered := s.undelivered - {k}, queue := s.queue + {k} + Parents(cluster.specs, k));
    assert Deliver(cluster, s, s', k);
  }

  lemma DeliveredExtends(cluster: Cluster, run: seq<State>, run': seq<State>, i: nat, i': nat, j: nat, j': nat, keys: set<Key>)
    requires run <= run' && i' <= i && j <= j' && AllDelivered(cluster, run, i, j, keys)
    ensures AllDelivered(cluster, run', i', j', keys)
  {
    forall k | k in keys
      ensures Delivered(cluster, run', i', j', k)
    {
      var m :| i <= m < j && DeliversAt(cluster, run, m, k);
      assert DeliversAt(cluster, run', m, k);
    }
  }

  lemma DeliveredTogether(cluster: Cluster, run: seq<State>, run': seq<State>, i: nat, k: Key, keys: set<Key>)
    requires i < |run| && run <= run'
    requires AllDelivered(cluster, run, i, |run| - 1, {k})
    requires AllDelivered(cluster, run', |run| - 1, |run'| - 1, keys - {k})
    ensures AllDelivered(cluster, run', i, |run'| - 1, keys)
  {
    DeliveredExtends(cluster, run, run', i, i, |run| - 1, |run'| - 1, {k});
    DeliveredExtends(cluster, run', run', |run| - 1, i, |run'| - 1, |run'| - 1, keys - {k});
  }

  lemma {:induction false} DeliverAll(cluster: Cluster, run: seq<State>) returns (run': seq<State>)
    requires IsRun(cluster, run)
    ensures IsRun(cluster, run') && run <= run' && Last(run').undelivered == {}
    ensures AllDelivered(cluster, run', |run| - 1, |run'| - 1, Last(run).undelivered)
    decreases Last(run).undelivered
  {
    run' := run;
    if Last(run).undelivered != {} {
      var k :| k in Last(run).undelivered;
      var run1 := DeliverNext(cluster, run, k);
      run' := DeliverAll(cluster, run1);
      DeliveredTogether(cluster, run1, run', |run| - 1, k, Last(run).undelivered);
    }
  }

  lemma DeliverNext(cluster: Cluster, run: seq<State>, k: Key) returns (run': seq<State>)
    requires IsRun(cluster, run) && k in Last(run).undelivered
    ensures IsRun(cluster, run') && run <= run' && |run'| == |run| + 1
    ensures AllDelivered(cluster, run', |run| - 1, |run|, {k})
    ensures Last(run').undelivered == Last(run).undelivered - {k}
  {
    RunKeepsInv(cluster, run, |run| - 1);
    var s' := DeliverOne(cluster, Last(run), k);
    run' := ContinueRun(cluster, run, s');
    assert DeliversAt(cluster, run', |run| - 1, k);
  }

  /** What is left after a step that takes `k` from the queue or off its worker. */
  ghost predicate Keeps(s: State, s': State, k: Key) {
    && ToHandle(s) - {k} <= ToHandle(s') && s'.undelivered <= s.undelivered + {k}
  }

  lemma AbortOne(cluster: Cluster, s: State, k: Key) returns (s': State)
    requires k in s.inflight
    ensures Next(cluster, s, s') && Keeps(s, s', k)
    ensures k in s'.queue && k !in s'.inflight && s'.undelivered == s.undelivered
  {
    s' := s.(inflight := s.inflight - {k}, queue := s.queue + {k});
    assert Abort(s, s', k);
  }

  lemma BeginOne(cluster: Cluster, s: State, k: Key) returns (s': State)
    requires VersionsOk(cluster, s) && k in s.queue && k !in s.inflight && k !in s.undelivered
    ensures Next(cluster, s, s') && Begin(cluster, s, s', k) && Keeps(s, s', k) && s'.undelivered == s.undelivered
    ensures k in s'.inflight ==> CanCommit(s', k)
  {
    var outcome := if k in cluster.specs then Reconcile(cluster, s.cache, k) else Failed;
    s' := s.(queue := s.queue - {k},
             inflight := if outcome.Failed? then s.inflight else s.inflight[k := Work(s.cachedVersions[k], outcome)]);
    assert Begin(cluster, s, s', k);
  }

  lemma CommitOne(cluster: Cluster, s: State, k: Key) returns (s': State)
    requires CanCommit(s, k)
    ensures Next(cluster, s, s') && Commit(s, s', k) && Keeps(s, s', k)
  {
    s' := s.(urls := WriteStatus(s.urls, k, s.inflight[k].outcome), inflight := s.inflight - {k},
             versions := s.versions[k := s.versions[k] + 1], undelivered := s.undelivered + {k});
    assert Commit(s, s', k);
  }

  lemma HandledExtends(cluster: Cluster, run: seq<State>, run': seq<State>, i: nat, i': nat, j: nat, j': nat, keys: set<Key>)
    requires run <= run' && i' <= i && j <= j' && AllHandled(cluster, run, i, j, keys)
    ensures AllHandled(cluster, run', i', j', keys)
  {
    forall k | k in keys
      ensures Handled(cluster, run', i', j', k)
    {
      var m :| i <= m < j && HandlesAt(cluster, run, m, k);
      assert HandlesAt(cluster, run', m, k);
    }
  }

  lemma HandledTogether(cluster: Cluster, run: seq<State>, run': seq<State>, i: nat, k: Key, keys: set<Key>)
    requires i < |run| && run <= run'
    requires AllHandled(cluster, run, i, |run| - 1, {k})
    requires AllHandled(cluster, run', |run| - 1, |run'| - 1, keys - {k})
    ensures AllHandled(cluster, run', i, |run'| - 1, keys)
  {
    HandledExtends(cluster, run, run', i, i, |run| - 1, |run'| - 1, {k});
    HandledExtends(cluster, run', run', |run| - 1, i, |run'| - 1, |run'| - 1, keys - {k});
  }

  lemma HandleByStep(cluster: Cluster, run: seq<State>, s': State, k: Key) returns (run': seq<State>)
    requires IsRun(cluster, run) && Next(cluster, Last(run), s')
    ensures IsRun(cluster, run') && run' == run + [s']
    ensures Handles(cluster, Last(run), s', k) ==> AllHandled(cluster, run', |run| - 1, |run|, {k})
  {
    run' := ContinueRun(cluster, run, s');
    if Handles(cluster, Last(run), s', k) {
      assert HandlesAt(cluster, run', |run| - 1, k);
    }
  }

  lemma BeginNext(cluster: Cluster, run: seq<State>, k: Key) returns (run': seq<State>)
    requires IsRun(cluster, run) && k in Last(run).queue && k !in Last(run).inflight && k !in Last(run).undelivered
    ensures IsRun(cluster, run') && run <= run' && |run'| == |run| + 1 && Keeps(Last(run), Last(run'), k)
    ensures CanCommit(Last(run'), k) || AllHandled(cluster, run', |run| - 1, |run|, {k})
  {
    RunKeepsInv(cluster, run, |run| - 1);
    var s := BeginOne(cluster, Last(run), k);
    run' := HandleByStep(cluster, run, s, k);
  }

  lemma CommitNext(cluster: Cluster, run: seq<State>, k: Key) returns (run': seq<State>)
    requires IsRun(cluster, run) && CanCommit(Last(run), k)
    ensures IsRun(cluster, run') && run <= run' && |run'| == |run| + 1 && Keeps(Last(run), Last(run'), k)
    ensures AllHandled(cluster, run', |run| - 1, |run|, {k})
  {
    var s := CommitOne(cluster, Last(run), k);
    run' := HandleByStep(cluster, run, s, k);
  }

  lemma KeepsTransitive(s: State, s': State, s'': State, k: Key)
    requires Keeps(s, s', k) && Keeps(s', s'', k)
    ensures Keeps(s, s'', k)
  {
  }

  /** An Agent of which the controller knows the newest version is taken from the
      queue and, unless its reconcile is dropped, written. */
  lemma HandleQueued(cluster: Cluster, run: seq<State>, k: Key) returns (run': seq<State>)
    requires IsRun(cluster, run) && k in Last(run).queue && k !in Last(run).inflight && k !in Last(run).undelivered
    ensures IsRun(cluster, run') && run <= run' && AllHandled(cluster, run', |run| - 1, |run'| - 1, {k})
    ensures Keeps(Last(run), Last(run'), k)
  {
    var run1 := BeginNext(cluster, run, k);
    run' := run1;
    if CanCommit(Last(run1), k) {
      run' := CommitNext(cluster, run1, k);
      KeepsTransitive(Last(run), Last(run1), Last(run'), k);
      HandledExtends(cluster, run', run', |run1| - 1, |run| - 1, |run'| - 1, |run'| - 1, {k});
    }
  }

  /** A reconcile in flight may have started from an old version: it is given up
      first. */
  lemma HandleOne(cluster: Cluster, run: seq<State>, k: Key) returns (run': seq<State>)
    requires IsRun(cluster, run) && k in ToHandle(Last(run)) && k !in Last(run).undelivered
    ensures IsRun(cluster, run') && run <= run' && AllHandled(cluster, run', |run| - 1, |run'| - 1, {k})
    ensures Keeps(Last(run), Last(run'), k)
  {
    var run1 := run;
    if k in Last(run).inflight {
      var s := AbortOne(cluster, Last(run), k);
      run1 := ContinueRun(cluster, run, s);
    }
    run' := HandleQueued(cluster, run1, k);
    HandledExtends(cluster, run', run', |run1| - 1, |run| - 1, |run'| - 1, |run'| - 1, {k});
  }

  lemma {:induction false} HandleAll(cluster: Cluster, run: seq<State>, todo: set<Key>) returns (run': seq<State>)
    requires IsRun(cluster, run) && todo <= ToHandle(Last(run)) && todo !! Last(run).undelivered
    ensures IsRun(cluster, run') && run <= run' && AllHandled(cluster, run', |run| - 1, |run'| - 1, todo)
    decreases todo
  {
    run' := run;
    if todo != {} {
      var k :| k in todo;
      var run1 := HandleOne(cluster, run, k);
      run' := HandleAll(cluster, run1, todo - {k});
      HandledTogether(cluster, run1, run', |run| - 1, k, todo);
    }
  }

  /** Every run can be continued by a round. */
  lemma RoundExists(cluster: Cluster, run: seq<State>) returns (run': seq<State>, mid: nat)
    requires IsRun(cluster, run)
    ensures IsRun(cluster, run') && run <= run' && IsRound(cluster, run', |run| - 1, mid, |run'| - 1)
  {
    var run1 := DeliverAll(cluster, run);
    mid := |run1| - 1;
    run' := HandleAll(cluster, run1, ToHandle(Last(run1)));
    assert run'[|run| - 1] == Last(run) && run'[mid] == Last(run1);
    DeliveredExtends(cluster, run1, run', |run| - 1, |run| - 1, mid, mid, Last(run).undelivered);
  }

  lemma ReachNextRank(cluster: Cluster, run: seq<State>, n: nat) returns (run': seq<State>)
    requires IsRun(cluster, run) && Iterate(cluster, n) <= ReadySet(Last(run).urls)
    ensures IsRun(cluster, run') && run <= run' && Iterate(cluster, n + 1) <= ReadySet(Last(run').urls)
  {
    var mid;
    run', mid := RoundExists(cluster, run);
    LastRoundAdvances(cluster, run, run', mid, n);
  }

  lemma LastRoundAdvances(cluster: Cluster, run: seq<State>, run': seq<State>, mid: nat, n: nat)
    requires run != [] && run <= run' && Iterate(cluster, n) <= ReadySet(Last(run).urls)
    requires IsRun(cluster, run') && IsRound(cluster, run', |run| - 1, mid, |run'| - 1)
    ensures Iterate(cluster, n + 1) <= ReadySet(Last(run').urls)
  {
    assert run'[|run| - 1] == Last(run);
    RoundAdvances(cluster, run', |run| - 1, mid, |run'| - 1, n);
  }

  lemma {:induction false} ReachRank(cluster: Cluster, run: seq<State>, n: nat) returns (run': seq<State>)
    requires IsRun(cluster, run)
    ensures IsRun(cluster, run') && run <= run' && Iterate(cluster, n) <= ReadySet(Last(run').urls)
  {
    run' := run;
    if n > 0 {
      var run1 := ReachRank(cluster, run, n - 1);
      run' := ReachNextRank(cluster, run1, n - 1);
    }
  }

  /** No run is in a dead end: each can be continued until exactly the Agents of
      the least fixpoint are ready. */
  lemma RunsCanFinish(cluster: Cluster, run: seq<State>) returns (run': seq<State>)
    requires IsRun(cluster, run)
    ensures IsRun(cluster, run') && run <= run' && ReadySet(Last(run').urls) == Fix(cluster)
  {
    run' := ReachRank(cluster, run, |cluster.specs|);
    RunsAreSafe(cluster, run', |run'| - 1);
  }

  /******* Sweeps *******/

  /** The reconciles of `order`, one after the other. */
  ghost function Sweep(cluster: Cluster, urls: map<Key, string>, order: seq<Key>): map<Key, string>
    decreases |order|
  {
    if order == [] then urls
    else
      var k := order[0];
      Sweep(cluster, if k in cluster.specs then WriteStatus(urls, k, Reconcile(cluster, urls, k)) else urls, order[1..])
  }

  ghost function Sweeps(cluster: Cluster, urls: map<Key, string>, sweeps: seq<seq<Key>>): map<Key, string> {
    if sweeps == [] then urls
    else Sweep(cluster, Sweeps(cluster, urls, sweeps[..|sweeps| - 1]), sweeps[|sweeps| - 1])
  }

  lemma {:induction false} SweepAdvances(cluster: Cluster, urls: map<Key, string>, order: seq<Key>, S: set<Key>)
    requires UrlsSound(cluster, urls) && S <= ReadySet(urls)
    decreases |order|
    ensures UrlsSound(cluster, Sweep(cluster, urls, order))
    ensures ReadySet(urls) <= ReadySet(Sweep(cluster, urls, order))
    ensures forall k :: k in order && k in Step(cluster, S) ==> k in ReadySet(Sweep(cluster, urls, order))
  {
    if order != [] {
      var k := order[0];
      var urls' := if k in cluster.specs then WriteStatus(urls, k, Reconcile(cluster, urls, k)) else urls;
      if k in cluster.specs {
        WriteKeepsSound(cluster, urls, urls, k);
        ResolvedIffReady(urls, cluster.specs[k].subAgents, k.ns);
        CardUrlIffA2A(k, cluster.specs[k]);
        StepMonotone(cluster, S, ReadySet(urls));
      }
      SweepAdvances(cluster, urls', order[1..], S);
      assert order == [k] + order[1..];
    }
  }

  ghost predicate IsFullSweep(cluster: Cluster, order: seq<Key>) {
    forall k :: k in cluster.specs ==> k in order
  }

  /** The first `n` ranks of the fixpoint have their URL. */
  ghost predicate Reached(cluster: Cluster, urls: map<Key, string>, n: nat) {
    UrlsSound(cluster, urls) && Iterate(cluster, n) <= ReadySet(urls)
  }

  lemma FullSweepAdvances(cluster: Cluster, urls: map<Key, string>, order: seq<Key>, n: nat)
    requires Reached(cluster, urls, n) && IsFullSweep(cluster, order)
    ensures Reached(cluster, Sweep(cluster, urls, order), n + 1)
  {
    SweepAdvances(cluster, urls, order, Iterate(cluster, n));
    assert Iterate(cluster, n + 1) == Step(cluster, Iterate(cluster, n));
  }

  lemma {:induction false} SweepsAdvance(cluster: Cluster, urls: map<Key, string>, sweeps: seq<seq<Key>>)
    requires Reached(cluster, urls, 0)
    requires forall order :: order in sweeps ==> IsFullSweep(cluster, order)
    ensures Reached(cluster, Sweeps(cluster, urls, sweeps), |sweeps|)
  {
    if sweeps != [] {
      var init, last := sweeps[..|sweeps| - 1], sweeps[|sweeps| - 1];
      assert last in sweeps;
      SweepsAdvance(cluster, urls, init);
      FullSweepAdvances(cluster, Sweeps(cluster, urls, init), last, |init|);
    }
  }

  /** As many full sweeps as there are Agents, each in any order, make exactly
      the Agents of the least fixpoint ready. */
  lemma SweepsReachFixpoint(cluster: Cluster, sweeps: seq<seq<Key>>)
    requires |sweeps| >= |cluster.specs|
    requires forall order :: order in sweeps ==> IsFullSweep(cluster, order)
    ensures ReadySet(Sweeps(cluster, NoUrls(cluster), sweeps)) == Fix(cluster)
  {
    assert ReadySet(NoUrls(cluster)) == {};
    SweepsAdvance(cluster, NoUrls(cluster), sweeps);
    IterateIncreases(cluster, |cluster.specs|, |sweeps|);
  }

  /******* Which Agents can become ready *******/

  /** `p` follows references from an Agent to the sub-agents it resolves. */
  ghost predicate DependsOn(cluster: Cluster, k: Key, dep: Key) {
    k in cluster.specs &&
    exists i :: 0 <= i < |cluster.specs[k].subAgents| &&
      var sub := cluster.specs[k].subAgents[i];
      sub.url == "" && sub.agentRef.Some? && Target(sub.agentRef.value, k.ns) == dep
  }

  ghost predicate IsPath(cluster: Cluster, p: seq<Key>) {
    |p| > 0 && forall i :: 0 <= i < |p| - 1 ==> DependsOn(cluster, p[i], p[i + 1])
  }

  /** An Agent that is missing or could not become ready on its own. */
  ghost predicate Broken(cluster: Cluster, k: Key) {
    k !in cluster.specs || !Enabled(cluster, k) ||
    exists i :: 0 <= i < |cluster.specs[k].subAgents| &&
      cluster.specs[k].subAgents[i].url == "" && cluster.specs[k].subAgents[i].agentRef.None?
  }

  /** An Agent is broken exactly if it is missing, has no A2A protocol, has a tool
      without URL or a sub-agent that names nothing, or lacks its gateway. */
  lemma BrokenIff(cluster: Cluster, k: Key)
    ensures Broken(cluster, k) <==>
            (k !in cluster.specs ||
             var spec := cluster.specs[k];
             || (forall i :: 0 <= i < |spec.protocols| ==> spec.protocols[i].kind != "A2A")
             || !ToolsHaveUrls(cluster.servers, spec, k.ns)
             || !GatewayExists(cluster.gateways, spec.aiGatewayRef, k.ns)
             || (exists i :: 0 <= i < |spec.subAgents| && spec.subAgents[i].url == "" && spec.subAgents[i].agentRef.None?))
  {
    if k in cluster.specs {
      ToolsResolveIff(cluster.servers, cluster.specs[k], k.ns);
      GatewayResolvesIff(cluster, k);
    }
  }

  /** One Agent depends on another if a sub-agent of it without URL names it. */
  lemma DependsOnIff(cluster: Cluster, k: Key, dep: Key)
    ensures DependsOn(cluster, k, dep) <==>
            k in cluster.specs && exists sub :: (sub in cluster.specs[k].subAgents && sub.url == "" && sub.agentRef.Some? &&
              sub.agentRef.value.name == dep.name && dep.ns == if sub.agentRef.value.ns == "" then k.ns else sub.agentRef.value.ns)
  {
    if k in cluster.specs {
      assert forall sub :: sub in cluster.specs[k].subAgents <==>
          exists i :: 0 <= i < |cluster.specs[k].subAgents| && cluster.specs[k].subAgents[i] == sub;
    }
  }

  ghost predicate HasRepeat(p: seq<Key>) {
    exists i, j :: 0 <= i < j < |p| && p[i] == p[j]
  }

  /** `p` leads from `k` to a broken Agent or around a reference cycle. */
  ghost predicate Obstacle(cluster: Cluster, k: Key, p: seq<Key>) {
    IsPath(cluster, p) && p[0] == k && (Broken(cluster, p[|p| - 1]) || HasRepeat(p))
  }

  lemma {:induction false} BlockedSetStaysOut(cluster: Cluster, C: set<Key>, n: nat)
    requires forall c :: c in C ==> Broken(cluster, c) || exists dep :: dep in C && DependsOn(cluster, c, dep)
    ensures C !! Iterate(cluster, n)
  {
    if n > 0 {
      BlockedSetStaysOut(cluster, C, n - 1);
    }
  }

  lemma ObstacleBlocks(cluster: Cluster, k: Key, p: seq<Key>)
    requires Obstacle(cluster, k, p)
    ensures k !in Fix(cluster)
  {
    var C := set x | x in p;
    if !Broken(cluster, p[|p| - 1]) {
      var i, j :| 0 <= i < j < |p| && p[i] == p[j];
      var q := p[..j + 1];
      C := set x | x in q;
      forall c | c in C
        ensures exists dep :: dep in C && DependsOn(cluster, c, dep)
      {
        var m :| 0 <= m <= j && p[m] == c;
        var at := if m == j then i else m;
        assert DependsOn(cluster, p[at], p[at + 1]) && p[at + 1] in q;
      }
      assert p[0] in q;
    } else {
      forall c | c in C && !Broken(cluster, c)
        ensures exists dep :: dep in C && DependsOn(cluster, c, dep)
      {
        var m :| 0 <= m < |p| && p[m] == c;
        assert DependsOn(cluster, p[m], p[m + 1]) && p[m + 1] in p;
      }
    }
    BlockedSetStaysOut(cluster, C, |cluster.specs|);
  }

  /** Outside the fixpoint one can walk on until something broken is met. */
  lemma {:induction false} WalkOutside(cluster: Cluster, k: Key, n: nat) returns (p: seq<Key>)
    requires k !in Fix(cluster)
    ensures IsPath(cluster, p) && p[0] == k
    ensures Broken(cluster, p[|p| - 1]) || |p| == n + 1
    ensures forall i :: 0 <= i < |p| && !Broken(cluster, p[|p| - 1]) ==> p[i] in cluster.specs
    decreases n
  {
    p := [k];
    if n > 0 && !Broken(cluster, k) {
      FixIsFixpoint(cluster);
      var i :| 0 <= i < |cluster.specs[k].subAgents| && cluster.specs[k].subAgents[i].url == "" &&
               Target(cluster.specs[k].subAgents[i].agentRef.value, k.ns) !in Fix(cluster);
      var dep := Target(cluster.specs[k].subAgents[i].agentRef.value, k.ns);
      assert DependsOn(cluster, k, dep);
      var rest := WalkOutside(cluster, dep, n - 1);
      p := [k] + rest;
    }
  }

  lemma {:induction false} Pigeonhole(p: seq<Key>, S: set<Key>)
    requires |p| > |S| && forall i :: 0 <= i < |p| ==> p[i] in S
    ensures HasRepeat(p)
  {
    var last, init := p[|p| - 1], p[..|p| - 1];
    if last in init {
      var i :| 0 <= i < |init| && init[i] == last;
      assert p[i] == p[|p| - 1];
    } else {
      forall i | 0 <= i < |init|
        ensures init[i] in S - {last}
      {
        assert init[i] == p[i];
      }
      Pigeonhole(init, S - {last});
      var i, j :| 0 <= i < j < |init| && init[i] == init[j];
      assert p[i] == p[j];
    }
  }

  /** An Agent can become ready exactly when its references, followed as far as
      one likes, meet neither a missing or broken Agent nor a cycle. */
  lemma ReadyIffNoObstacle(cluster: Cluster, k: Key)
    ensures k in Fix(cluster) <==> !exists p :: Obstacle(cluster, k, p)
  {
    if k !in Fix(cluster) {
      var p := WalkOutside(cluster, k, |cluster.specs|);
      if !Broken(cluster, p[|p| - 1]) {
        Pigeonhole(p, cluster.specs.Keys);
      }
      assert Obstacle(cluster, k, p);
    } else {
      forall p
        ensures !Obstacle(cluster, k, p)
      {
        if Obstacle(cluster, k, p) {
          ObstacleBlocks(cluster, k, p);
        }
      }
    }
  }

  /** No Agent on, or leading to, a reference cycle or a broken Agent ever gets a
      URL, in any run. */
  lemma ObstructedNeverGetsUrl(cluster: Cluster, run: seq<State>, i: nat, k: Key, p: seq<Key>)
    requires IsRun(cluster, run) && i < |run| && k in cluster.specs && Obstacle(cluster, k, p)
    ensures k in run[i].urls && run[i].urls[k] == ""
  {
    RunsAreSafe(cluster, run, i);
    ObstacleBlocks(cluster, k, p);
  }
}
