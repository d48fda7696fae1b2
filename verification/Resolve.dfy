/** Resolution of the references an Agent (or ToolServer, or Swarm) holds, and
    the watch mappers that decide which dependents to reconcile when one of
    the referenced objects changes. */
module Resolve {
  import opened Kube

  datatype Issue = NoTarget | NotFound(key: Key) | NoUrl(key: Key)

  datatype ResolvedSubAgent = ResolvedSubAgent(url: string, interactionType: string)

  /******* Sub-agents *******/

  /** `urls` gives the Status.Url of every Agent that exists.  Swarm members
      resolve by the same rule. */
  function ResolveSubAgentUrl(urls: map<Key, string>, sub: SubAgent, parentNs: string): Result<string, Issue> {
    if sub.url != "" then Ok(sub.url)
    else if sub.agentRef.None? then Err(NoTarget)
    else
      var target := Target(sub.agentRef.value, parentNs);
      if target !in urls then Err(NotFound(target))
      else if urls[target] == "" then Err(NoUrl(target))
      else Ok(urls[target])
  }

  /** A remote sub-agent resolves to its own URL; a cluster one to the URL of the
      Agent it names, in the parent's namespace by default, if there is one. */
  lemma SubAgentUrl(urls: map<Key, string>, sub: SubAgent, parentNs: string)
    ensures var r := ResolveSubAgentUrl(urls, sub, parentNs);
            if sub.url != "" then r == Ok(sub.url)
            else if sub.agentRef.None? then r == Err(NoTarget)
            else
              var ref := sub.agentRef.value;
              var key := Key(if ref.ns == "" then parentNs else ref.ns, ref.name);
              && (r.Ok? <==> key in urls && urls[key] != "")
              && (r.Ok? ==> r.value == urls[key])
              && (r == Err(NotFound(key)) <==> key !in urls)
              && (r == Err(NoUrl(key)) <==> key in urls && urls[key] == "")
  {
  }

  /** What is resolved after the sub-agents of a list have been handled in order. */
  function ResolvedSubAgents(urls: map<Key, string>, subs: seq<SubAgent>, ns: string): map<string, ResolvedSubAgent> {
    if subs == [] then map[]
    else
      var before := ResolvedSubAgents(urls, subs[..|subs| - 1], ns);
      var last := subs[|subs| - 1];
      var url := ResolveSubAgentUrl(urls, last, ns);
      if url.Ok? then before[last.name := ResolvedSubAgent(url.value, last.interactionType)] else before
  }

  function SubAgentIssues(urls: map<Key, string>, subs: seq<SubAgent>, ns: string): seq<(string, Issue)> {
    if subs == [] then []
    else
      var before := SubAgentIssues(urls, subs[..|subs| - 1], ns);
      var last := subs[|subs| - 1];
      var url := ResolveSubAgentUrl(urls, last, ns);
      if url.Ok? then before else before + [(last.name, url.error)]
  }

  predicate SubAgentsResolve(urls: map<Key, string>, subs: seq<SubAgent>, ns: string) {
    forall i :: 0 <= i < |subs| ==> ResolveSubAgentUrl(urls, subs[i], ns).Ok?
  }

  method ResolveAllSubAgents(urls: map<Key, string>, subs: seq<SubAgent>, ns: string)
      returns (resolved: map<string, ResolvedSubAgent>, issues: seq<(string, Issue)>)
    ensures resolved == ResolvedSubAgents(urls, subs, ns)
    ensures issues == SubAgentIssues(urls, subs, ns)
    ensures issues == [] <==> SubAgentsResolve(urls, subs, ns)
  {
    resolved, issues := map[], [];
    for n := 0 to |subs|
      invariant resolved == ResolvedSubAgents(urls, subs[..n], ns)
      invariant issues == SubAgentIssues(urls, subs[..n], ns)
    {
      assert subs[..n + 1][..n] == subs[..n];
      var url := ResolveSubAgentUrl(urls, subs[n], ns);
      if url.Err? {
        issues := issues + [(subs[n].name, url.error)];
      } else {
        resolved := resolved[subs[n].name := ResolvedSubAgent(url.value, subs[n].interactionType)];
      }
    }
    assert subs[..|subs|] == subs;
    NoIssuesIffResolved(urls, subs, ns);
  }

  lemma {:induction false} NoIssuesIffResolved(urls: map<Key, string>, subs: seq<SubAgent>, ns: string)
    ensures SubAgentIssues(urls, subs, ns) == [] <==> SubAgentsResolve(urls, subs, ns)
  {
    if subs != [] {
      var init := subs[..|subs| - 1];
      NoIssuesIffResolved(urls, init, ns);
      assert forall i :: 0 <= i < |init| ==> init[i] == subs[i];
    }
  }

  /** The issues are those of the failing sub-agents, in the order of the list. */
  lemma {:induction false} IssuesInOrder(urls: map<Key, string>, subs: seq<SubAgent>, ns: string, n: nat)
    requires n < |subs|
    ensures var before, all := SubAgentIssues(urls, subs[..n], ns), SubAgentIssues(urls, subs, ns);
            var r := ResolveSubAgentUrl(urls, subs[n], ns);
            && before <= all
            && (r.Err? ==> |before| < |all| && all[|before|] == (subs[n].name, r.error))
            && (r.Ok? ==> SubAgentIssues(urls, subs[..n + 1], ns) == before)
  {
    assert subs[..n + 1][..n] == subs[..n];
    if n == |subs| - 1 {
      assert subs[..n + 1] == subs;
    } else {
      var init := subs[..|subs| - 1];
      IssuesInOrder(urls, init, ns, n);
      assert init[..n] == subs[..n] && init[..n + 1] == subs[..n + 1];
    }
  }

  /** A name is resolved exactly when some sub-agent of that name resolves, and
      the last of them determines the entry. */
  lemma {:induction false} LastSubAgentWins(urls: map<Key, string>, subs: seq<SubAgent>, ns: string, name: string)
    ensures name in ResolvedSubAgents(urls, subs, ns) <==>
            exists i :: 0 <= i < |subs| && subs[i].name == name && ResolveSubAgentUrl(urls, subs[i], ns).Ok?
    ensures forall i | 0 <= i < |subs| && subs[i].name == name && ResolveSubAgentUrl(urls, subs[i], ns).Ok? &&
                       (forall j :: i < j < |subs| && subs[j].name == name ==> ResolveSubAgentUrl(urls, subs[j], ns).Err?) ::
              name in ResolvedSubAgents(urls, subs, ns) &&
              ResolvedSubAgents(urls, subs, ns)[name] ==
              ResolvedSubAgent(ResolveSubAgentUrl(urls, subs[i], ns).value, subs[i].interactionType)
  {
    if subs != [] {
      var init := subs[..|subs| - 1];
      LastSubAgentWins(urls, init, ns, name);
      assert forall i :: 0 <= i < |init| ==> init[i] == subs[i];
    }
  }

  /** The Agents that name `target` in one of their sub-agents. */
  ghost predicate ReferencesAgent(subs: seq<SubAgent>, ns: string, target: Key) {
    exists i :: 0 <= i < |subs| && subs[i].agentRef.Some? && Target(subs[i].agentRef.value, ns) == target
  }

  ghost function Parents(specs: map<Key, AgentSpec>, target: Key): set<Key> {
    set k | k in specs && ReferencesAgent(specs[k].subAgents, k.ns, target)
  }

  /** A reference names an object by its name and by its namespace, for which that
      of the parent is the default. */
  lemma ReferencesAgentIff(subs: seq<SubAgent>, ns: string, target: Key)
    ensures ReferencesAgent(subs, ns, target) <==>
            exists i :: (0 <= i < |subs| && subs[i].agentRef.Some? && subs[i].agentRef.value.name == target.name &&
                         (if subs[i].agentRef.value.ns == "" then ns else subs[i].agentRef.value.ns) == target.ns)
  {
  }

  /** Adds `parent` to the requests when one of its sub-agents names `updated`. */
  method EnqueueIfReferencing(parent: Key, subs: seq<SubAgent>, updated: Key, before: seq<Key>)
      returns (requests: seq<Key>)
    ensures requests == if ReferencesAgent(subs, parent.ns, updated) then before + [parent] else before
  {
    requests := before;
    for m := 0 to |subs|
      invariant requests == before
      invariant !ReferencesAgent(subs[..m], parent.ns, updated)
    {
      if subs[m].agentRef.Some? && subs[m].agentRef.value.name == updated.name {
        var subAgentNs := Target(subs[m].agentRef.value, parent.ns).ns;
        if subAgentNs == updated.ns {
          return before + [parent];
        }
      }
    }
    assert subs[..|subs|] == subs;
  }

  method FindAgentsReferencingSubAgent(specs: map<Key, AgentSpec>, items: seq<Key>, updated: Key)
      returns (requests: seq<Key>)
    requires Lists(items, specs.Keys)
    ensures Lists(requests, Parents(specs, updated))
  {
    requests := [];
    for n := 0 to |items|
      invariant NoDuplicates(requests)
      invariant forall k :: k in requests <==> k in items[..n] && k in Parents(specs, updated)
    {
      assert items[n] !in items[..n];
      requests := EnqueueIfReferencing(items[n], specs[items[n]].subAgents, updated, requests);
    }
  }

  /** Swarms list their members like agents list their sub-agents. */
  method FindSwarmsReferencingAgent(swarms: map<Key, seq<SubAgent>>, items: seq<Key>, updated: Key)
      returns (requests: seq<Key>)
    requires Lists(items, swarms.Keys)
    ensures Lists(requests, set k | k in swarms && ReferencesAgent(swarms[k], k.ns, updated))
  {
    requests := [];
    for n := 0 to |items|
      invariant NoDuplicates(requests)
      invariant forall k :: k in requests <==> k in items[..n] && ReferencesAgent(swarms[k], k.ns, updated)
    {
      requests := EnqueueIfReferencing(items[n], swarms[items[n]], updated, requests);
    }
  }

  /** resolveSwarmAgents: the member URLs and how many members are ready. */
  method ResolveSwarmAgents(urls: map<Key, string>, members: seq<SubAgent>, ns: string)
      returns (agentUrls: map<string, string>, readyCount: nat, totalCount: nat)
    ensures agentUrls == map name | name in ResolvedSubAgents(urls, members, ns) :: ResolvedSubAgents(urls, members, ns)[name].url
    ensures readyCount + |SubAgentIssues(urls, members, ns)| == totalCount == |members|
  {
    agentUrls, readyCount, totalCount := map[], 0, |members|;
    for n := 0 to |members|
      invariant agentUrls == map name | name in ResolvedSubAgents(urls, members[..n], ns) ::
                               ResolvedSubAgents(urls, members[..n], ns)[name].url
      invariant readyCount + |SubAgentIssues(urls, members[..n], ns)| == n
    {
      assert members[..n + 1][..n] == members[..n];
      var url := ResolveSubAgentUrl(urls, members[n], ns);
      if url.Ok? {
        agentUrls := agentUrls[members[n].name := url.value];
        readyCount := readyCount + 1;
      }
    }
    assert members[..|members|] == members;
  }

  /** Completeness of the sub-agent and swarm watches: a dependent that does not
      reference the changed Agent resolves exactly as before. */
  lemma {:induction false} SubAgentWatchComplete(urls: map<Key, string>, urls': map<Key, string>, changed: Key,
                                                 subs: seq<SubAgent>, ns: string)
    requires SameExcept(urls, urls', changed)
    requires ResolvedSubAgents(urls, subs, ns) != ResolvedSubAgents(urls', subs, ns) ||
             SubAgentIssues(urls, subs, ns) != SubAgentIssues(urls', subs, ns)
    ensures ReferencesAgent(subs, ns, changed)
  {
    var init, last := subs[..|subs| - 1], subs[|subs| - 1];
    if ResolveSubAgentUrl(urls, last, ns) != ResolveSubAgentUrl(urls', last, ns) {
      var target := Target(last.agentRef.value, ns);
      if target != changed {
        SameExceptAt(urls, urls', changed, target);
      }
    } else {
      SubAgentWatchComplete(urls, urls', changed, init, ns);
      var i :| 0 <= i < |init| && init[i].agentRef.Some? && Target(init[i].agentRef.value, ns) == changed;
      assert subs[i] == init[i];
    }
  }

  /******* Tools *******/

  function ResolveToolServerUrl(servers: map<Key, ToolServerStatus>, tool: Tool, parentNs: string): Result<string, Issue> {
    if tool.url != "" then Ok(tool.url)
    else if tool.toolServerRef.None? then Err(NoTarget)
    else
      var target := Target(tool.toolServerRef.value, parentNs);
      if target !in servers then Err(NotFound(target))
      else if servers[target].gatewayUrl != "" then Ok(servers[target].gatewayUrl)
      else if servers[target].url == "" then Err(NoUrl(target))
      else Ok(servers[target].url)
  }

  /** A remote tool resolves to its own URL; a cluster one to the gateway URL of the
      ToolServer it names, if that has one, and else to its direct URL. */
  lemma ToolServerUrl(servers: map<Key, ToolServerStatus>, tool: Tool, parentNs: string)
    ensures var r := ResolveToolServerUrl(servers, tool, parentNs);
            if tool.url != "" then r == Ok(tool.url)
            else if tool.toolServerRef.None? then r == Err(NoTarget)
            else
              var ref := tool.toolServerRef.value;
              var key := Key(if ref.ns == "" then parentNs else ref.ns, ref.name);
              if key !in servers then r == Err(NotFound(key))
              else
                && (r.Ok? <==> servers[key].gatewayUrl != "" || servers[key].url != "")
                && (servers[key].gatewayUrl != "" ==> r == Ok(servers[key].gatewayUrl))
                && (servers[key].gatewayUrl == "" != servers[key].url ==> r == Ok(servers[key].url))
                && (r.Err? ==> r.error == NoUrl(key))
  {
  }

  predicate ToolsResolve(servers: map<Key, ToolServerStatus>, tools: seq<Tool>, ns: string) {
    forall i :: 0 <= i < |tools| ==> ResolveToolServerUrl(servers, tools[i], ns).Ok?
  }

  ghost predicate ReferencesToolServer(tools: seq<Tool>, ns: string, target: Key) {
    exists i :: 0 <= i < |tools| && tools[i].toolServerRef.Some? && Target(tools[i].toolServerRef.value, ns) == target
  }

  lemma ReferencesToolServerIff(tools: seq<Tool>, ns: string, target: Key)
    ensures ReferencesToolServer(tools, ns, target) <==>
            exists i :: (0 <= i < |tools| && tools[i].toolServerRef.Some? && tools[i].toolServerRef.value.name == target.name &&
                         (if tools[i].toolServerRef.value.ns == "" then ns else tools[i].toolServerRef.value.ns) == target.ns)
  {
  }

  method FindAgentsReferencingToolServer(specs: map<Key, AgentSpec>, items: seq<Key>, updated: Key)
      returns (requests: seq<Key>)
    requires Lists(items, specs.Keys)
    ensures Lists(requests, set k | k in specs && ReferencesToolServer(specs[k].tools, k.ns, updated))
  {
    requests := [];
    for n := 0 to |items|
      invariant NoDuplicates(requests)
      invariant forall k :: k in requests <==> k in items[..n] && ReferencesToolServer(specs[k].tools, k.ns, updated)
    {
      var agent, tools, before := items[n], specs[items[n]].tools, requests;
      for m := 0 to |tools|
        invariant requests == before
        invariant !ReferencesToolServer(tools[..m], agent.ns, updated)
      {
        if tools[m].toolServerRef.None? {
          continue;
        }
        if tools[m].toolServerRef.value.name == updated.name {
          if Target(tools[m].toolServerRef.value, agent.ns).ns == updated.ns {
            requests := requests + [agent];
            assert ReferencesToolServer(tools, agent.ns, updated);
            break;
          }
        }
      }
      assert tools[..|tools|] == tools;
    }
  }

  lemma ToolServerWatchComplete(servers: map<Key, ToolServerStatus>, servers': map<Key, ToolServerStatus>, changed: Key,
                                tools: seq<Tool>, ns: string, i: nat)
    requires SameExcept(servers, servers', changed)
    requires i < |tools| && ResolveToolServerUrl(servers, tools[i], ns) != ResolveToolServerUrl(servers', tools[i], ns)
    ensures ReferencesToolServer(tools, ns, changed)
  {
    var target := Target(tools[i].toolServerRef.value, ns);
    if target != changed {
      SameExceptAt(servers, servers', changed, target);
    }
  }

  /******* Gateways *******/

  const DEFAULT_AI_GATEWAY_NAMESPACE := "ai-gateway"

  function FindGateway(gateways: seq<Gateway>, key: Key): Option<Gateway> {
    if gateways == [] then None
    else if gateways[0].key == key then Some(gateways[0])
    else FindGateway(gateways[1..], key)
  }

  /** The first gateway listed in a namespace. */
  function FirstGatewayIn(gateways: seq<Gateway>, ns: string): Option<Gateway> {
    if gateways == [] then None
    else if gateways[0].key.ns == ns then Some(gateways[0])
    else FirstGatewayIn(gateways[1..], ns)
  }

  /** An explicit reference must name an existing gateway; without one the first
      gateway of the default namespace is used, and there need not be any. */
  function ResolveGateway(gateways: seq<Gateway>, ref: Option<ObjectRef>, ns: string, defaultNs: string)
    : Result<Option<Gateway>, Key>
  {
    if ref.Some? then
      var key := Target(ref.value, ns);
      var found := FindGateway(gateways, key);
      if found.Some? then Ok(found) else Err(key)
    else
      Ok(FirstGatewayIn(gateways, defaultNs))
  }

  /** The condition tested by both gateway mappers. */
  predicate WouldUseGateway(ref: Option<ObjectRef>, ns: string, defaultNs: string, updated: Key) {
    if ref.Some? then Target(ref.value, ns) == updated else updated.ns == defaultNs
  }

  lemma WouldUseGatewayIff(ref: Option<ObjectRef>, ns: string, defaultNs: string, updated: Key)
    ensures WouldUseGateway(ref, ns, defaultNs, updated) <==>
            if ref.None? then updated.ns == defaultNs
            else ref.value.name == updated.name && updated.ns == if ref.value.ns == "" then ns else ref.value.ns
  {
  }

  /** findAgentsReferencingAiGateway (with the references of Agents) and
      findToolServersReferencingToolGateway (with those of ToolServers). */
  method FindReferencingGateway(refs: map<Key, Option<ObjectRef>>, items: seq<Key>, defaultNs: string, updated: Key)
      returns (requests: seq<Key>)
    requires Lists(items, refs.Keys)
    ensures Lists(requests, set k | k in refs && WouldUseGateway(refs[k], k.ns, defaultNs, updated))
  {
    requests := [];
    for n := 0 to |items|
      invariant NoDuplicates(requests)
      invariant forall k :: k in requests <==> k in items[..n] && WouldUseGateway(refs[k], k.ns, defaultNs, updated)
    {
      var shouldReconcile := false;
      var ref := refs[items[n]];
      if ref.Some? {
        var gatewayNs := ref.value.ns;
        if gatewayNs == "" {
          gatewayNs := items[n].ns;
        }
        if ref.value.name == updated.name && gatewayNs == updated.ns {
          shouldReconcile := true;
        }
      } else if updated.ns == defaultNs {
        shouldReconcile := true;
      }
      if shouldReconcile {
        requests := requests + [items[n]];
      }
    }
  }

  function WithoutGateway(gateways: seq<Gateway>, key: Key): seq<Gateway> {
    if gateways == [] then []
    else if gateways[0].key == key then WithoutGateway(gateways[1..], key)
    else [gateways[0]] + WithoutGateway(gateways[1..], key)
  }

  lemma {:induction false} LookupIgnoresOthers(gateways: seq<Gateway>, gone: Key, key: Key, ns: string)
    ensures key != gone ==> FindGateway(WithoutGateway(gateways, gone), key) == FindGateway(gateways, key)
    ensures gone.ns != ns ==> FirstGatewayIn(WithoutGateway(gateways, gone), ns) == FirstGatewayIn(gateways, ns)
  {
    if gateways != [] {
      LookupIgnoresOthers(gateways[1..], gone, key, ns);
      var rest := WithoutGateway(gateways[1..], gone);
      assert ([gateways[0]] + rest)[1..] == rest;
    }
  }

  /** Completeness of both gateway watches, default selection included: two
      lists that agree but for the gateway `changed` resolve differently only
      for dependents the mapper returns. */
  lemma GatewayWatchComplete(gateways: seq<Gateway>, gateways': seq<Gateway>, changed: Key,
                             ref: Option<ObjectRef>, ns: string, defaultNs: string)
    requires WithoutGateway(gateways, changed) == WithoutGateway(gateways', changed)
    requires ResolveGateway(gateways, ref, ns, defaultNs) != ResolveGateway(gateways', ref, ns, defaultNs)
    ensures WouldUseGateway(ref, ns, defaultNs, changed)
  {
    var key := if ref.Some? then Target(ref.value, ns) else changed;
    LookupIgnoresOthers(gateways, changed, key, defaultNs);
    LookupIgnoresOthers(gateways', changed, key, defaultNs);
  }

  /******* Lists in any order *******/

  /** List promises no order: `list` holds the gateways of a cluster, given with
      their ports. */
  ghost predicate ListsGateways(list: seq<Gateway>, gateways: map<Key, int>) {
    NoDuplicates(list) && forall g :: g in list <==> g.key in gateways && gateways[g.key] == g.port
  }

  ghost predicate AtMostOneIn(gateways: map<Key, int>, ns: string) {
    forall a, b :: a in gateways && b in gateways && a.ns == b.ns == ns ==> a == b
  }

  lemma {:induction false} LookupFinds(list: seq<Gateway>, key: Key, ns: string)
    ensures match FindGateway(list, key)
            case Some(g) => g in list && g.key == key
            case None => forall g :: g in list ==> g.key != key
    ensures match FirstGatewayIn(list, ns)
            case Some(g) => g in list && g.key.ns == ns
            case None => forall g :: g in list ==> g.key.ns != ns
  {
    if list != [] {
      LookupFinds(list[1..], key, ns);
      assert forall g :: g in list <==> g == list[0] || g in list[1..];
    }
  }

  /** What a dependent may resolve to, whatever the order of the list: without a
      reference, any gateway of the default namespace. */
  ghost predicate MayResolve(gateways: map<Key, int>, ref: Option<ObjectRef>, ns: string, defaultNs: string,
                             r: Result<Option<Gateway>, Key>)
  {
    if ref.Some? then
      var key := Target(ref.value, ns);
      r == if key in gateways then Ok(Some(Gateway(key, gateways[key]))) else Err(key)
    else
      r.Ok? && match r.value
               case Some(g) => g.key in gateways && g.key.ns == defaultNs && g.port == gateways[g.key]
               case None => forall k :: k in gateways ==> k.ns != defaultNs
  }

  lemma ResolutionOfList(list: seq<Gateway>, gateways: map<Key, int>, ref: Option<ObjectRef>, ns: string, defaultNs: string)
    requires ListsGateways(list, gateways)
    ensures MayResolve(gateways, ref, ns, defaultNs, ResolveGateway(list, ref, ns, defaultNs))
  {
    var key := if ref.Some? then Target(ref.value, ns) else Key("", "");
    LookupFinds(list, key, defaultNs);
    forall k | k in gateways
      ensures Gateway(k, gateways[k]) in list
    {
    }
  }

  /** In terms of the references: an explicit one must name an existing gateway. */
  lemma MayResolveIs(gateways: map<Key, int>, ref: Option<ObjectRef>, ns: string, r: Result<Option<Gateway>, Key>)
    requires MayResolve(gateways, ref, ns, DEFAULT_AI_GATEWAY_NAMESPACE, r)
    ensures ref.Some? ==>
              var key := Key(if ref.value.ns == "" then ns else ref.value.ns, ref.value.name);
              if key in gateways then r == Ok(Some(Gateway(key, gateways[key]))) else r == Err(key)
    ensures ref.None? ==> r.Ok? && (r.value.None? <==> forall k :: k in gateways ==> k.ns != "ai-gateway")
    ensures ref.None? && r.value.Some? ==> r.value.value.key.ns == "ai-gateway" && r.value.value.key in gateways
  {
  }

  /** It is what some list resolves to. */
  lemma MayResolveIffListed(gateways: map<Key, int>, ref: Option<ObjectRef>, ns: string, defaultNs: string,
                            r: Result<Option<Gateway>, Key>)
    ensures MayResolve(gateways, ref, ns, defaultNs, r) <==>
            exists list :: ListsGateways(list, gateways) && ResolveGateway(list, ref, ns, defaultNs) == r
  {
    if list :| ListsGateways(list, gateways) && ResolveGateway(list, ref, ns, defaultNs) == r {
      ResolutionOfList(list, gateways, ref, ns, defaultNs);
    }
    if MayResolve(gateways, ref, ns, defaultNs, r) {
      var list;
      if ref.None? && r.value.Some? {
        list := ListStartingWith(gateways, r.value.value.key);
      } else {
        list := SomeList(gateways);
      }
      ResolutionOfList(list, gateways, ref, ns, defaultNs);
    }
  }

  /** With lists in arbitrary orders, an unchanged dependent can still resolve
      differently, but only by default selection among several gateways. */
  lemma GatewayWatchCompleteInAnyOrder(gateways: map<Key, int>, gateways': map<Key, int>, changed: Key,
                                       list: seq<Gateway>, list': seq<Gateway>,
                                       ref: Option<ObjectRef>, ns: string, defaultNs: string)
    requires SameExcept(gateways, gateways', changed) && ListsGateways(list, gateways) && ListsGateways(list', gateways')
    requires ResolveGateway(list, ref, ns, defaultNs) != ResolveGateway(list', ref, ns, defaultNs)
    requires !WouldUseGateway(ref, ns, defaultNs, changed)
    ensures ref.None? && !AtMostOneIn(gateways, defaultNs) && !AtMostOneIn(gateways', defaultNs)
  {
    ResolutionOfList(list, gateways, ref, ns, defaultNs);
    ResolutionOfList(list', gateways', ref, ns, defaultNs);
    forall k | k != changed
      ensures k in gateways <==> k in gateways'
      ensures k in gateways ==> gateways[k] == gateways'[k]
    {
      SameExceptAt(gateways, gateways', changed, k);
    }
  }

  lemma {:induction false} SomeList(gateways: map<Key, int>) returns (list: seq<Gateway>)
    ensures ListsGateways(list, gateways)
    decreases |gateways|
  {
    list := [];
    if gateways != map[] {
      var k :| k in gateways;
      var rest := SomeList(gateways - {k});
      assert forall g :: g in rest ==> g.key != k;
      list := [Gateway(k, gateways[k])] + rest;
    }
  }

  lemma ListStartingWith(gateways: map<Key, int>, first: Key) returns (list: seq<Gateway>)
    requires first in gateways
    ensures ListsGateways(list, gateways) && list != [] && list[0].key == first
  {
    var rest := SomeList(gateways - {first});
    assert forall g :: g in rest ==> g.key != first;
    list := [Gateway(first, gateways[first])] + rest;
  }

  /** A cluster determines what a dependent resolves to exactly when it has a
      reference or the default namespace holds at most one gateway. */
  lemma ResolutionDeterminedIff(gateways: map<Key, int>, ref: Option<ObjectRef>, ns: string, defaultNs: string)
    ensures (forall list, list' :: ListsGateways(list, gateways) && ListsGateways(list', gateways) ==>
               ResolveGateway(list, ref, ns, defaultNs) == ResolveGateway(list', ref, ns, defaultNs)) <==>
            ref.Some? || AtMostOneIn(gateways, defaultNs)
  {
    if ref.Some? || AtMostOneIn(gateways, defaultNs) {
      forall list, list' | ListsGateways(list, gateways) && ListsGateways(list', gateways)
        ensures ResolveGateway(list, ref, ns, defaultNs) == ResolveGateway(list', ref, ns, defaultNs)
      {
        ResolutionOfList(list, gateways, ref, ns, defaultNs);
        ResolutionOfList(list', gateways, ref, ns, defaultNs);
      }
    } else {
      var a, b :| a in gateways && b in gateways && a.ns == b.ns == defaultNs && a != b;
      var list := ListStartingWith(gateways, a);
      var list' := ListStartingWith(gateways, b);
      assert ResolveGateway(list, ref, ns, defaultNs) != ResolveGateway(list', ref, ns, defaultNs);
    }
  }

  /******* Changes of several objects *******/

  /** What a dependent resolves depends only on the objects that the mappers look
      for; these lemmas cover changes of any number of others. */
  lemma {:induction false} SubAgentFrame(urls: map<Key, string>, urls': map<Key, string>, subs: seq<SubAgent>, ns: string)
    requires forall x :: ReferencesAgent(subs, ns, x) ==> SameAt(urls, urls', x)
    ensures ResolvedSubAgents(urls, subs, ns) == ResolvedSubAgents(urls', subs, ns)
    ensures SubAgentIssues(urls, subs, ns) == SubAgentIssues(urls', subs, ns)
  {
    if subs != [] {
      var init, last := subs[..|subs| - 1], subs[|subs| - 1];
      forall x | ReferencesAgent(init, ns, x)
        ensures SameAt(urls, urls', x)
      {
        var i :| 0 <= i < |init| && init[i].agentRef.Some? && Target(init[i].agentRef.value, ns) == x;
        assert subs[i] == init[i] && ReferencesAgent(subs, ns, x);
      }
      SubAgentFrame(urls, urls', init, ns);
      if last.agentRef.Some? {
        assert ReferencesAgent(subs, ns, Target(last.agentRef.value, ns));
      }
    }
  }

  lemma ToolFrame(servers: map<Key, ToolServerStatus>, servers': map<Key, ToolServerStatus>, tools: seq<Tool>, ns: string, i: nat)
    requires forall x :: ReferencesToolServer(tools, ns, x) ==> SameAt(servers, servers', x)
    requires i < |tools|
    ensures ResolveToolServerUrl(servers, tools[i], ns) == ResolveToolServerUrl(servers', tools[i], ns)
  {
    if tools[i].toolServerRef.Some? {
      assert ReferencesToolServer(tools, ns, Target(tools[i].toolServerRef.value, ns));
    }
  }

  lemma GatewayFrame(gateways: map<Key, int>, gateways': map<Key, int>, ref: Option<ObjectRef>, ns: string, defaultNs: string,
                     r: Result<Option<Gateway>, Key>)
    requires forall x :: WouldUseGateway(ref, ns, defaultNs, x) ==> SameAt(gateways, gateways', x)
    requires MayResolve(gateways, ref, ns, defaultNs, r)
    ensures MayResolve(gateways', ref, ns, defaultNs, r)
  {
    if ref.Some? {
      assert WouldUseGateway(ref, ns, defaultNs, Target(ref.value, ns));
    } else {
      forall x: Key | x.ns == defaultNs
        ensures SameAt(gateways, gateways', x)
      {
        assert WouldUseGateway(ref, ns, defaultNs, x);
      }
    }
  }
}
