/** Workforce discovery: the depth-first traversal that collects the agents and
    tools reachable from a workforce's entry points.

    Visited agents are recorded under a string, "namespace/name" for cluster
    agents and the URL for remote ones. */
module Workforce {
  import opened Kube
  import Resolve

  datatype TransitiveAgent = TransitiveAgent(name: string, ns: string, url: string)

  function KeyString(k: Key): string {
    k.ns + "/" + k.name
  }

  /** The key of a recorded agent. */
  function StoredKey(a: TransitiveAgent): string {
    if a.url != "" then a.url else KeyString(Key(a.ns, a.name))
  }

  /******* Names the API server and the webhook admit *******/

  predicate IsDnsName(s: string) {
    s != "" && forall i :: 0 <= i < |s| ==> 'a' <= s[i] <= 'z' || '0' <= s[i] <= '9' || s[i] == '-' || s[i] == '.'
  }

  predicate IsValidKey(k: Key) {
    IsDnsName(k.ns) && IsDnsName(k.name)
  }

  /** Existing Agents have DNS names, and their remote sub-agents have URLs with
      a scheme.  What their references name is arbitrary. */
  ghost predicate ValidAgents(agents: map<Key, AgentSpec>) {
    forall k :: k in agents ==>
      IsValidKey(k) &&
      forall i :: 0 <= i < |agents[k].subAgents| && agents[k].subAgents[i].url != "" ==> ':' in agents[k].subAgents[i].url
  }

  lemma IsDnsNameIff(s: string)
    ensures IsDnsName(s) <==> s != "" && forall c :: c in s ==> c in "abcdefghijklmnopqrstuvwxyz" || c in "0123456789" || c in "-."
  {
    assert forall c: char :: 'a' <= c <= 'z' <==> c in "abcdefghijklmnopqrstuvwxyz";
    assert forall c: char :: '0' <= c <= '9' <==> c in "0123456789";
    assert forall i :: 0 <= i < |s| ==> s[i] in s;
  }

  lemma ValidAgentsIff(agents: map<Key, AgentSpec>)
    ensures ValidAgents(agents) <==>
            && (forall k :: k in agents ==> IsDnsName(k.ns) && IsDnsName(k.name))
            && (forall k, sub :: k in agents && sub in agents[k].subAgents ==> sub.url == "" || ':' in sub.url)
  {
    assert forall k, i :: k in agents && 0 <= i < |agents[k].subAgents| ==> agents[k].subAgents[i] in agents[k].subAgents;
  }

  lemma ValidKeyString(a: Key, b: Key)
    requires IsValidKey(a)
    ensures ':' !in KeyString(a)
    ensures KeyString(a) == KeyString(b) ==> a == b
  {
    var s := KeyString(a);
    assert forall i :: 0 <= i < |a.ns| ==> s[i] == a.ns[i];
    assert forall i :: |a.ns| < i < |s| ==> s[i] == a.name[i - |a.ns| - 1];
    if s == KeyString(b) {
      assert s[|b.ns|] == '/';
      assert a.ns == s[..|a.ns|] == b.ns;
      assert a.name == s[|a.ns| + 1..] == b.name;
    }
  }

  /******* What should be collected *******/

  ghost function SubRefs(spec: AgentSpec, ns: string): set<Key> {
    set i | 0 <= i < |spec.subAgents| && spec.subAgents[i].agentRef.Some? :: Target(spec.subAgents[i].agentRef.value, ns)
  }

  ghost function RemoteUrls(spec: AgentSpec): set<string> {
    set i | 0 <= i < |spec.subAgents| && spec.subAgents[i].agentRef.None? && spec.subAgents[i].url != "" ::
      spec.subAgents[i].url
  }

  /** The key under which a tool is recorded, if it is. */
  function ToolKey(tool: Tool, ns: string): Option<string> {
    if tool.toolServerRef.Some? then Some(KeyString(Target(tool.toolServerRef.value, ns)))
    else if tool.url != "" then Some(tool.url)
    else None
  }

  ghost function ToolKeys(spec: AgentSpec, ns: string): set<string> {
    set i | 0 <= i < |spec.tools| && ToolKey(spec.tools[i], ns).Some? :: ToolKey(spec.tools[i], ns).value
  }

  /** Which references these sets come from, with namespaces defaulted like
      everywhere else. */
  lemma SubRefsIff(spec: AgentSpec, ns: string, x: Key)
    ensures x in SubRefs(spec, ns) <==> Resolve.ReferencesAgent(spec.subAgents, ns, x)
  {
  }

  lemma RemoteUrlsIff(spec: AgentSpec, url: string)
    ensures url in RemoteUrls(spec) <==>
            url != "" && exists sub :: sub in spec.subAgents && sub.agentRef.None? && sub.url == url
  {
    assert forall sub :: sub in spec.subAgents <==> exists i :: 0 <= i < |spec.subAgents| && spec.subAgents[i] == sub;
  }

  /** A ToolServer is among the tools exactly if a tool references it. */
  lemma ServerToolIff(spec: AgentSpec, ns: string, x: Key)
    requires IsValidKey(x) && forall tool :: tool in spec.tools ==> tool.url == "" || ':' in tool.url
    ensures x.ns + "/" + x.name in ToolKeys(spec, ns) <==> Resolve.ReferencesToolServer(spec.tools, ns, x)
  {
    ValidKeyString(x, x);
    Resolve.ReferencesToolServerIff(spec.tools, ns, x);
    if KeyString(x) in ToolKeys(spec, ns) {
      var i :| 0 <= i < |spec.tools| && ToolKey(spec.tools[i], ns) == Some(KeyString(x));
      assert spec.tools[i].toolServerRef.Some?;
      ValidKeyString(x, Target(spec.tools[i].toolServerRef.value, ns));
    }
    if Resolve.ReferencesToolServer(spec.tools, ns, x) {
      var i :| 0 <= i < |spec.tools| && spec.tools[i].toolServerRef.Some? && Target(spec.tools[i].toolServerRef.value, ns) == x;
      assert ToolKey(spec.tools[i], ns) == Some(KeyString(x));
    }
  }

  /** A URL is among the tools exactly if a tool without reference has it. */
  lemma UrlToolIff(spec: AgentSpec, ns: string, url: string)
    requires ':' in url || '/' !in url
    requires forall i :: 0 <= i < |spec.tools| && spec.tools[i].toolServerRef.Some? ==>
               IsValidKey(Target(spec.tools[i].toolServerRef.value, ns))
    ensures url in ToolKeys(spec, ns) <==>
            url != "" && exists i :: 0 <= i < |spec.tools| && spec.tools[i].toolServerRef.None? && spec.tools[i].url == url
  {
    forall i | 0 <= i < |spec.tools| && spec.tools[i].toolServerRef.Some?
      ensures ToolKey(spec.tools[i], ns) != Some(url)
    {
      var key := Target(spec.tools[i].toolServerRef.value, ns);
      ValidKeyString(key, key);
      assert KeyString(key)[|key.ns|] == '/';
    }
    if i :| url != "" && 0 <= i < |spec.tools| && spec.tools[i].toolServerRef.None? && spec.tools[i].url == url {
      assert ToolKey(spec.tools[i], ns) == Some(url);
    }
  }

  ghost predicate Edge(agents: map<Key, AgentSpec>, a: Key, b: Key) {
    a in agents && b in SubRefs(agents[a], a.ns)
  }

  ghost predicate IsPath(agents: map<Key, AgentSpec>, roots: set<Key>, p: seq<Key>) {
    |p| > 0 && p[0] in roots && forall i :: 0 <= i < |p| - 1 ==> Edge(agents, p[i], p[i + 1])
  }

  /** `k` is reachable from the roots through agents that exist. */
  ghost predicate Reaches(agents: map<Key, AgentSpec>, roots: set<Key>, k: Key) {
    exists p :: IsPath(agents, roots, p) && p[|p| - 1] == k
  }

  ghost predicate ExpectedAgentKey(agents: map<Key, AgentSpec>, roots: set<Key>, s: string) {
    exists k :: Reaches(agents, roots, k) && (KeyString(k) == s || (k in agents && s in RemoteUrls(agents[k])))
  }

  ghost predicate ExpectedToolKey(agents: map<Key, AgentSpec>, roots: set<Key>, t: string) {
    exists k :: Reaches(agents, roots, k) && k in agents && t in ToolKeys(agents[k], k.ns)
  }

  lemma RootReaches(agents: map<Key, AgentSpec>, roots: set<Key>, k: Key)
    requires k in roots
    ensures Reaches(agents, roots, k)
  {
    assert IsPath(agents, roots, [k]);
  }

  lemma EdgeReaches(agents: map<Key, AgentSpec>, roots: set<Key>, a: Key, b: Key)
    requires Reaches(agents, roots, a) && Edge(agents, a, b)
    ensures Reaches(agents, roots, b)
  {
    var p :| IsPath(agents, roots, p) && p[|p| - 1] == a;
    var q := p + [b];
    assert IsPath(agents, roots, q) && q[|q| - 1] == b;
  }

  /******* The traversal *******/

  /** Nothing unreachable has been collected, and every entry is recorded under
      its own key. */
  ghost predicate Sound(agents: map<Key, AgentSpec>, roots: set<Key>, visited: map<string, TransitiveAgent>, tools: set<string>) {
    && (forall s :: s in visited ==> ExpectedAgentKey(agents, roots, s))
    && (forall t :: t in tools ==> ExpectedToolKey(agents, roots, t))
    && (forall s :: s in visited ==> IsRecordFor(visited[s], s) && IsRecord(agents, roots, visited[s]))
  }

  ghost predicate HasRemote(spec: AgentSpec, name: string, url: string) {
    exists i :: 0 <= i < |spec.subAgents| && spec.subAgents[i].agentRef.None? &&
      spec.subAgents[i].url == url && spec.subAgents[i].name == name
  }

  /** A record without URL names a reachable agent, found or missing; one with a
      URL is a remote sub-agent of a reachable agent that was found. */
  ghost predicate IsRecord(agents: map<Key, AgentSpec>, roots: set<Key>, a: TransitiveAgent) {
    if a.url == "" then Reaches(agents, roots, Key(a.ns, a.name))
    else a.ns == "" && exists k :: Reaches(agents, roots, k) && k in agents && HasRemote(agents[k], a.name, a.url)
  }

  ghost predicate IsRecordFor(a: TransitiveAgent, key: string) {
    StoredKey(a) == key && (a.url != "" ==> ':' in a.url)
  }

  /** What a sub-agent contributes itself is among the visited keys. */
  ghost predicate SubRecorded(sub: SubAgent, ns: string, visited: set<string>) {
    if sub.agentRef.Some? then KeyString(Target(sub.agentRef.value, ns)) in visited
    else sub.url != "" ==> sub.url in visited
  }

  ghost predicate SubsRecorded(subs: seq<SubAgent>, n: nat, ns: string, visited: set<string>) {
    forall i :: 0 <= i < n <= |subs| ==> SubRecorded(subs[i], ns, visited)
  }

  /** Everything agent `k` contributes itself is among the visited keys and tools. */
  ghost predicate ClosedAt(agents: map<Key, AgentSpec>, k: Key, visited: set<string>, tools: set<string>)
    requires k in agents
  {
    && SubsRecorded(agents[k].subAgents, |agents[k].subAgents|, k.ns, visited)
    && ToolKeys(agents[k], k.ns) <= tools
  }

  /** The agents recorded since `before` are closed. */
  ghost predicate ClosedSince(agents: map<Key, AgentSpec>, before: set<string>, visited: set<string>, tools: set<string>) {
    forall a :: a in agents && KeyString(a) in visited && KeyString(a) !in before ==> ClosedAt(agents, a, visited, tools)
  }

  lemma ClosedSinceExtends(agents: map<Key, AgentSpec>, before: set<string>,
                           visited: set<string>, tools: set<string>, visited': set<string>, tools': set<string>)
    requires ClosedSince(agents, before, visited, tools) && ClosedSince(agents, visited, visited', tools')
    requires visited <= visited' && tools <= tools'
    ensures ClosedSince(agents, before, visited', tools')
  {
    forall a | a in agents && KeyString(a) in visited' && KeyString(a) !in before
      ensures ClosedAt(agents, a, visited', tools')
    {
      if KeyString(a) in visited {
        assert ClosedAt(agents, a, visited, tools);
      }
    }
  }

  lemma SubsRecordedExtends(subs: seq<SubAgent>, n: nat, ns: string, visited: set<string>, visited': set<string>)
    requires n < |subs| && SubsRecorded(subs, n, ns, visited) && SubRecorded(subs[n], ns, visited') && visited <= visited'
    ensures SubsRecorded(subs, n + 1, ns, visited')
  {
    forall i | 0 <= i < n + 1
      ensures SubRecorded(subs[i], ns, visited')
    {
      assert i < n ==> SubRecorded(subs[i], ns, visited);
    }
  }

  lemma MarkKeepsSound(agents: map<Key, AgentSpec>, roots: set<Key>, visited: map<string, TransitiveAgent>,
                       tools: set<string>, k: Key)
    requires Sound(agents, roots, visited, tools) && Reaches(agents, roots, k)
    ensures Sound(agents, roots, visited[KeyString(k) := TransitiveAgent(k.name, k.ns, "")], tools)
  {
  }

  lemma ToolsKeepSound(agents: map<Key, AgentSpec>, roots: set<Key>, visited: map<string, TransitiveAgent>,
                       tools: set<string>, k: Key)
    requires Sound(agents, roots, visited, tools) && Reaches(agents, roots, k) && k in agents
    ensures Sound(agents, roots, visited, tools + ToolKeys(agents[k], k.ns))
  {
  }

  lemma RemoteKeepsSound(agents: map<Key, AgentSpec>, roots: set<Key>, visited: map<string, TransitiveAgent>,
                         tools: set<string>, k: Key, i: nat)
    requires ValidAgents(agents) && Sound(agents, roots, visited, tools)
    requires Reaches(agents, roots, k) && k in agents && i < |agents[k].subAgents|
    requires agents[k].subAgents[i].agentRef.None? && agents[k].subAgents[i].url != ""
    ensures var sub := agents[k].subAgents[i];
            Sound(agents, roots, visited[sub.url := TransitiveAgent(sub.name, "", sub.url)], tools)
    ensures forall a :: a in agents ==> KeyString(a) != agents[k].subAgents[i].url
  {
    var url := agents[k].subAgents[i].url;
    assert url in RemoteUrls(agents[k]) && HasRemote(agents[k], agents[k].subAgents[i].name, url);
    forall a | a in agents
      ensures KeyString(a) != url
    {
      ValidKeyString(a, a);
    }
  }

  lemma SubRefReaches(agents: map<Key, AgentSpec>, roots: set<Key>, k: Key, i: nat)
    requires Reaches(agents, roots, k) && k in agents && i < |agents[k].subAgents| && agents[k].subAgents[i].agentRef.Some?
    ensures Reaches(agents, roots, Target(agents[k].subAgents[i].agentRef.value, k.ns))
  {
    EdgeReaches(agents, roots, k, Target(agents[k].subAgents[i].agentRef.value, k.ns));
  }

  class Traversal {
    var visited: map<string, TransitiveAgent>
    var tools: set<string>

    constructor ()
      ensures visited == map[] && tools == {}
    {
      visited, tools := map[], {};
    }

    /** The agents whose key is not yet recorded. */
    ghost function Unvisited(agents: map<Key, AgentSpec>): set<Key>
      reads this
    {
      set k | k in agents && KeyString(k) !in visited
    }

    method CollectTools(spec: AgentSpec, ns: string)
      modifies this`tools
      ensures tools == old(tools) + ToolKeys(spec, ns)
    {
      for i := 0 to |spec.tools|
        invariant tools == old(tools) + set j | 0 <= j < i && ToolKey(spec.tools[j], ns).Some? :: ToolKey(spec.tools[j], ns).value
      {
        var key := ToolKey(spec.tools[i], ns);
        if key.Some? {
          tools := tools + {key.value};
        }
      }
    }

    /** Records `k` and, unless it was recorded before, everything below it.
        Agents that are still being traversed further up need not be closed
        yet; every agent recorded by this call is. */
    method TraverseAgent(agents: map<Key, AgentSpec>, k: Key, ghost roots: set<Key>)
      requires ValidAgents(agents) && Sound(agents, roots, visited, tools) && Reaches(agents, roots, k)
      modifies this
      ensures Sound(agents, roots, visited, tools)
      ensures old(visited.Keys) + {KeyString(k)} <= visited.Keys && old(tools) <= tools
      ensures ClosedSince(agents, old(visited.Keys), visited.Keys, tools)
      decreases Unvisited(agents), 0
    {
      var agentKey := KeyString(k);
      if agentKey in visited {
        return;
      }
      MarkKeepsSound(agents, roots, visited, tools, k);
      visited := visited[agentKey := TransitiveAgent(k.name, k.ns, "")];
      NoOtherAgentAt(agents, k);
      if k !in agents {
        return;
      }
      ToolsKeepSound(agents, roots, visited, tools, k);
      CollectTools(agents[k], k.ns);
      assert k in old(Unvisited(agents)) && k !in Unvisited(agents);
      TraverseSubAgents(agents, k, roots);
    }

    method RecordRemote(agents: map<Key, AgentSpec>, k: Key, i: nat, ghost roots: set<Key>)
      requires ValidAgents(agents) && Sound(agents, roots, visited, tools) && Reaches(agents, roots, k)
      requires k in agents && i < |agents[k].subAgents|
      requires agents[k].subAgents[i].agentRef.None? && agents[k].subAgents[i].url != ""
      modifies this`visited
      ensures Sound(agents, roots, visited, tools)
      ensures visited.Keys == old(visited.Keys) + {agents[k].subAgents[i].url}
      ensures ClosedSince(agents, old(visited.Keys), visited.Keys, tools)
    {
      var sub := agents[k].subAgents[i];
      RemoteKeepsSound(agents, roots, visited, tools, k, i);
      visited := visited[sub.url := TransitiveAgent(sub.name, "", sub.url)];
    }

    /** The loop of TraverseAgent over the sub-agents of `k`. */
    method TraverseSubAgents(agents: map<Key, AgentSpec>, k: Key, ghost roots: set<Key>)
      requires ValidAgents(agents) && Sound(agents, roots, visited, tools) && Reaches(agents, roots, k)
      requires k in agents
      modifies this
      ensures Sound(agents, roots, visited, tools)
      ensures old(visited.Keys) <= visited.Keys && old(tools) <= tools
      ensures SubsRecorded(agents[k].subAgents, |agents[k].subAgents|, k.ns, visited.Keys)
      ensures ClosedSince(agents, old(visited.Keys), visited.Keys, tools)
      decreases Unvisited(agents), 1
    {
      var subs := agents[k].subAgents;
      for i := 0 to |subs|
        invariant Sound(agents, roots, visited, tools)
        invariant old(visited.Keys) <= visited.Keys && old(tools) <= tools
        invariant SubsRecorded(subs, i, k.ns, visited.Keys)
        invariant ClosedSince(agents, old(visited.Keys), visited.Keys, tools)
      {
        ghost var visited0, tools0 := visited.Keys, tools;
        if subs[i].agentRef.Some? {
          SubRefReaches(agents, roots, k, i);
          TraverseAgent(agents, Target(subs[i].agentRef.value, k.ns), roots);
        } else if subs[i].url != "" {
          RecordRemote(agents, k, i, roots);
        }
        SubsRecordedExtends(subs, i, k.ns, visited0, visited.Keys);
        ClosedSinceExtends(agents, old(visited.Keys), visited0, tools0, visited.Keys, tools);
      }
    }
  }

  lemma NoOtherAgentAt(agents: map<Key, AgentSpec>, k: Key)
    requires ValidAgents(agents)
    ensures forall a :: a in agents && KeyString(a) == KeyString(k) ==> a == k
  {
    forall a | a in agents && KeyString(a) == KeyString(k)
      ensures a == k
    {
      ValidKeyString(a, k);
    }
  }

  /******* The result *******/

  ghost function EntryKeys(entries: seq<Option<ObjectRef>>, ns: string): set<Key> {
    set i | 0 <= i < |entries| && entries[i].Some? :: Target(entries[i].value, ns)
  }

  lemma EntryKeysIff(entries: seq<Option<ObjectRef>>, ns: string, x: Key)
    ensures x in EntryKeys(entries, ns) <==>
            exists ref :: (Some(ref) in entries && ref.name == x.name && x.ns == if ref.ns == "" then ns else ref.ns)
  {
    assert forall e :: e in entries <==> exists i :: 0 <= i < |entries| && entries[i] == e;
    if x in EntryKeys(entries, ns) {
      var i :| 0 <= i < |entries| && entries[i].Some? && Target(entries[i].value, ns) == x;
      assert Some(entries[i].value) in entries;
    }
  }

  ghost function StoredKeys(found: seq<TransitiveAgent>): set<string> {
    set i | 0 <= i < |found| :: StoredKey(found[i])
  }

  /** The result lists exactly what is reachable from the roots. */
  ghost predicate IsTraversalOf(agents: map<Key, AgentSpec>, roots: set<Key>, found: seq<TransitiveAgent>, tools: seq<string>) {
    && (forall s :: s in StoredKeys(found) <==> ExpectedAgentKey(agents, roots, s))
    && (forall t :: t in tools <==> ExpectedToolKey(agents, roots, t))
    && (forall i :: 0 <= i < |found| && found[i].url != "" ==> ':' in found[i].url)
    && (forall i :: 0 <= i < |found| ==> IsRecord(agents, roots, found[i]))
  }

  ghost predicate DistinctKeys(found: seq<TransitiveAgent>) {
    forall i, j :: 0 <= i < j < |found| ==> StoredKey(found[i]) != StoredKey(found[j])
  }

  lemma {:induction false} ReachedIsRecorded(agents: map<Key, AgentSpec>, roots: set<Key>,
                                             visited: set<string>, tools: set<string>, p: seq<Key>)
    requires IsPath(agents, roots, p) && ClosedSince(agents, {}, visited, tools)
    requires forall k :: k in roots ==> KeyString(k) in visited
    ensures KeyString(p[|p| - 1]) in visited
  {
    if |p| > 1 {
      var init := p[..|p| - 1];
      assert Edge(agents, p[|p| - 2], p[|p| - 2 + 1]);
      assert IsPath(agents, roots, init) by {
        forall i | 0 <= i < |init| - 1
          ensures Edge(agents, init[i], init[i + 1])
        {
          assert Edge(agents, p[i], p[i + 1]);
        }
      }
      ReachedIsRecorded(agents, roots, visited, tools, init);
      var k := p[|p| - 2];
      assert ClosedAt(agents, k, visited, tools);
      var i :| 0 <= i < |agents[k].subAgents| && agents[k].subAgents[i].agentRef.Some? &&
               Target(agents[k].subAgents[i].agentRef.value, k.ns) == p[|p| - 1];
      assert SubRecorded(agents[k].subAgents[i], k.ns, visited);
    }
  }

  /** A sound and closed collection that holds the roots is complete. */
  lemma ClosedIsComplete(agents: map<Key, AgentSpec>, roots: set<Key>, visited: map<string, TransitiveAgent>, tools: set<string>)
    requires Sound(agents, roots, visited, tools) && ClosedSince(agents, {}, visited.Keys, tools)
    requires forall k :: k in roots ==> KeyString(k) in visited
    ensures forall s :: s in visited <==> ExpectedAgentKey(agents, roots, s)
    ensures forall t :: t in tools <==> ExpectedToolKey(agents, roots, t)
  {
    forall k | Reaches(agents, roots, k)
      ensures KeyString(k) in visited
      ensures k in agents ==> RemoteUrls(agents[k]) <= visited.Keys && ToolKeys(agents[k], k.ns) <= tools
    {
      var p :| IsPath(agents, roots, p) && p[|p| - 1] == k;
      ReachedIsRecorded(agents, roots, visited.Keys, tools, p);
      if k in agents {
        assert ClosedAt(agents, k, visited.Keys, tools);
        forall url | url in RemoteUrls(agents[k])
          ensures url in visited
        {
          var i :| 0 <= i < |agents[k].subAgents| && agents[k].subAgents[i].agentRef.None? &&
                   agents[k].subAgents[i].url != "" && agents[k].subAgents[i].url == url;
          assert SubRecorded(agents[k].subAgents[i], k.ns, visited.Keys);
        }
      }
    }
  }

  /** Go iterates over a map in any order. */
  method RecordsOf(visited: map<string, TransitiveAgent>) returns (found: seq<TransitiveAgent>)
    requires forall s :: s in visited ==> IsRecordFor(visited[s], s)
    ensures StoredKeys(found) == visited.Keys && DistinctKeys(found)
    ensures forall i :: 0 <= i < |found| ==> StoredKey(found[i]) in visited && visited[StoredKey(found[i])] == found[i]
  {
    found := [];
    var rest := visited.Keys;
    while rest != {}
      invariant rest <= visited.Keys
      invariant StoredKeys(found) == visited.Keys - rest && DistinctKeys(found)
      invariant forall i :: 0 <= i < |found| ==> StoredKey(found[i]) in visited && visited[StoredKey(found[i])] == found[i]
      decreases rest
    {
      var s :| s in rest;
      StoredKeysAppend(found, visited[s]);
      assert forall i :: 0 <= i < |found| ==> StoredKey(found[i]) in StoredKeys(found);
      found := found + [visited[s]];
      rest := rest - {s};
    }
  }

  lemma StoredKeysAppend(found: seq<TransitiveAgent>, a: TransitiveAgent)
    ensures StoredKeys(found + [a]) == StoredKeys(found) + {StoredKey(a)}
  {
    var all := found + [a];
    assert all[|found|] == a;
    assert forall i :: 0 <= i < |found| ==> all[i] == found[i];
  }

  method ToolsOf(tools: set<string>) returns (list: seq<string>)
    ensures NoDuplicates(list) && forall t :: t in list <==> t in tools
  {
    list := [];
    var rest := tools;
    while rest != {}
      invariant rest <= tools && NoDuplicates(list)
      invariant forall t :: t in list <==> t in tools - rest
      decreases rest
    {
      var t :| t in rest;
      assert t !in list;
      list := list + [t];
      rest := rest - {t};
    }
  }

  /** The traversal terminates on every finite graph and collects exactly what
      is reachable: each cluster agent, found or missing, once; the URLs of the
      remote sub-agents of those found; and the union of their tools. */
  method CollectTransitiveAgentsAndTools(agents: map<Key, AgentSpec>, entries: seq<Option<ObjectRef>>, ns: string)
      returns (found: seq<TransitiveAgent>, tools: seq<string>)
    requires ValidAgents(agents)
    ensures IsTraversalOf(agents, EntryKeys(entries, ns), found, tools)
    ensures DistinctKeys(found) && NoDuplicates(tools)
  {
    var t := new Traversal();
    ghost var roots := EntryKeys(entries, ns);
    for i := 0 to |entries|
      invariant Sound(agents, roots, t.visited, t.tools) && ClosedSince(agents, {}, t.visited.Keys, t.tools)
      invariant forall k :: k in EntryKeys(entries[..i], ns) ==> KeyString(k) in t.visited
    {
      if entries[i].None? {
        continue;
      }
      var k := Target(entries[i].value, ns);
      RootReaches(agents, roots, k);
      ghost var visited0, tools0 := t.visited.Keys, t.tools;
      t.TraverseAgent(agents, k, roots);
      ClosedSinceExtends(agents, {}, visited0, tools0, t.visited.Keys, t.tools);
    }
    assert entries[..|entries|] == entries;
    ClosedIsComplete(agents, roots, t.visited, t.tools);
    found := RecordsOf(t.visited);
    tools := ToolsOf(t.tools);
  }

  /** Which records occur when all references name admissible keys: one for every
      reachable agent, and for every URL of a remote sub-agent one that has it. */
  lemma RecordsAreComplete(agents: map<Key, AgentSpec>, roots: set<Key>, found: seq<TransitiveAgent>, tools: seq<string>,
                           k: Key, url: string)
    requires ValidAgents(agents) && IsTraversalOf(agents, roots, found, tools) && Reaches(agents, roots, k)
    requires forall r :: Reaches(agents, roots, r) ==> IsValidKey(r)
    ensures TransitiveAgent(k.name, k.ns, "") in found
    ensures k in agents && url in RemoteUrls(agents[k]) ==>
              exists name :: TransitiveAgent(name, "", url) in found
  {
    assert ExpectedAgentKey(agents, roots, KeyString(k));
    ValidKeyString(k, k);
    var i :| 0 <= i < |found| && StoredKey(found[i]) == KeyString(k);
    ValidKeyString(k, Key(found[i].ns, found[i].name));
    assert found[i] == TransitiveAgent(k.name, k.ns, "");
    if k in agents && url in RemoteUrls(agents[k]) {
      RemoteIsRecorded(agents, roots, found, tools, k, url);
    }
  }

  lemma RemoteIsRecorded(agents: map<Key, AgentSpec>, roots: set<Key>, found: seq<TransitiveAgent>, tools: seq<string>,
                         k: Key, url: string)
    requires ValidAgents(agents) && IsTraversalOf(agents, roots, found, tools) && Reaches(agents, roots, k)
    requires k in agents && url in RemoteUrls(agents[k])
    requires forall r :: Reaches(agents, roots, r) ==> IsValidKey(r)
    ensures exists name :: TransitiveAgent(name, "", url) in found
  {
    assert ExpectedAgentKey(agents, roots, url);
    var i :| 0 <= i < |found| && StoredKey(found[i]) == url;
    assert found[i].url != "" by {
      if found[i].url == "" {
        ValidKeyString(Key(found[i].ns, found[i].name), Key(found[i].ns, found[i].name));
        assert false;
      }
    }
    assert found[i] == TransitiveAgent(found[i].name, "", url);
  }

  /** A ToolServer is listed exactly if a tool of some reachable agent references it. */
  lemma ListedToolsIff(agents: map<Key, AgentSpec>, roots: set<Key>, found: seq<TransitiveAgent>, tools: seq<string>, x: Key)
    requires IsTraversalOf(agents, roots, found, tools) && IsValidKey(x)
    requires forall k, tool :: k in agents && tool in agents[k].tools ==> tool.url == "" || ':' in tool.url
    ensures x.ns + "/" + x.name in tools <==>
            exists k :: Reaches(agents, roots, k) && k in agents && Resolve.ReferencesToolServer(agents[k].tools, k.ns, x)
  {
    forall k | k in agents
      ensures KeyString(x) in ToolKeys(agents[k], k.ns) <==> Resolve.ReferencesToolServer(agents[k].tools, k.ns, x)
    {
      ServerToolIff(agents[k], k.ns, x);
    }
    assert KeyString(x) in tools <==> ExpectedToolKey(agents, roots, KeyString(x));
  }

  /** An agent without URL is listed exactly if it is an entry point, or a sub-agent
      of an agent that exists and is itself reachable. */
  lemma ReachesIff(agents: map<Key, AgentSpec>, roots: set<Key>, x: Key)
    ensures Reaches(agents, roots, x) <==>
            (x in roots || exists k :: Reaches(agents, roots, k) && k in agents && Resolve.ReferencesAgent(agents[k].subAgents, k.ns, x))
  {
    if Reaches(agents, roots, x) && x !in roots {
      var p :| IsPath(agents, roots, p) && p[|p| - 1] == x;
      var init := p[..|p| - 1];
      assert Edge(agents, p[|p| - 2], p[|p| - 2 + 1]);
      assert forall i :: 0 <= i < |init| - 1 ==> Edge(agents, p[i], p[i + 1]);
      assert IsPath(agents, roots, init) && init[|init| - 1] == p[|p| - 2];
    }
    if x in roots {
      RootReaches(agents, roots, x);
    }
    if k :| Reaches(agents, roots, k) && k in agents && Resolve.ReferencesAgent(agents[k].subAgents, k.ns, x) {
      EdgeReaches(agents, roots, k, x);
    }
  }

  /******* The order of the result *******/

  /** A possible result of the traversal: Go's map order is any order. */
  ghost predicate IsResult(agents: map<Key, AgentSpec>, roots: set<Key>, found: seq<TransitiveAgent>, tools: seq<string>) {
    IsTraversalOf(agents, roots, found, tools) && DistinctKeys(found) && NoDuplicates(tools)
  }

  /** The same lists, up to the name recorded for a URL that sub-agents share. */
  ghost predicate SameLists(found: seq<TransitiveAgent>, tools: seq<string>, found': seq<TransitiveAgent>, tools': seq<string>) {
    KeysInOrder(found) == KeysInOrder(found') && tools == tools'
  }

  ghost function KeysInOrder(found: seq<TransitiveAgent>): seq<string> {
    seq(|found|, i requires 0 <= i < |found| => StoredKey(found[i]))
  }

  function SwapFirst<T>(s: seq<T>): (r: seq<T>)
    requires |s| >= 2
    ensures |r| == |s| && r[0] == s[1] && r[1] == s[0]
    ensures forall i :: 2 <= i < |s| ==> r[i] == s[i]
  {
    [s[1], s[0]] + s[2..]
  }

  lemma SwapFirstMembers<T>(s: seq<T>)
    requires |s| >= 2
    ensures forall x :: x in SwapFirst(s) <==> x in s
  {
    var r := SwapFirst(s);
    forall x | x in s
      ensures x in r
    {
      var i :| 0 <= i < |s| && s[i] == x;
      assert r[if i == 0 then 1 else if i == 1 then 0 else i] == x;
    }
  }

  lemma SwappedIsResult(agents: map<Key, AgentSpec>, roots: set<Key>, found: seq<TransitiveAgent>, tools: seq<string>)
    requires IsResult(agents, roots, found, tools)
    ensures |found| >= 2 ==> IsResult(agents, roots, SwapFirst(found), tools)
    ensures |tools| >= 2 ==> IsResult(agents, roots, found, SwapFirst(tools))
  {
    if |found| >= 2 {
      SwapFirstMembers(found);
      StoredKeysOfMembers(found, SwapFirst(found));
      StoredKeysOfMembers(SwapFirst(found), found);
    }
    if |tools| >= 2 {
      SwapFirstMembers(tools);
    }
  }

  lemma StoredKeysOfMembers(found: seq<TransitiveAgent>, found': seq<TransitiveAgent>)
    requires forall a :: a in found ==> a in found'
    ensures StoredKeys(found) <= StoredKeys(found')
  {
    forall s | s in StoredKeys(found)
      ensures s in StoredKeys(found')
    {
      var i :| 0 <= i < |found| && StoredKey(found[i]) == s;
      assert found[i] in found';
    }
  }

  lemma OneAgent(found: seq<TransitiveAgent>, found': seq<TransitiveAgent>)
    requires |found| <= 1 && DistinctKeys(found') && StoredKeys(found) == StoredKeys(found')
    ensures |found| == |found'| && forall i :: 0 <= i < |found| ==> StoredKey(found[i]) == StoredKey(found'[i])
  {
    if found != [] {
      assert StoredKey(found[0]) in StoredKeys(found');
    }
    if found' != [] {
      var last := |found'| - 1;
      assert StoredKey(found'[0]) in StoredKeys(found) && StoredKey(found'[last]) in StoredKeys(found);
    }
  }

  lemma OneTool(tools: seq<string>, tools': seq<string>)
    requires |tools| <= 1 && NoDuplicates(tools') && forall t :: t in tools <==> t in tools'
    ensures tools == tools'
  {
    if tools != [] {
      assert tools[0] in tools';
    }
    if tools' != [] {
      var last := |tools'| - 1;
      assert tools'[0] in tools && tools'[last] in tools;
    }
  }

  /** The agents determine the lists, and not only their elements, exactly when
      there is at most one agent and at most one tool to list. */
  lemma ListsDeterminedIff(agents: map<Key, AgentSpec>, roots: set<Key>, found: seq<TransitiveAgent>, tools: seq<string>)
    requires IsResult(agents, roots, found, tools)
    ensures (forall found', tools' :: IsResult(agents, roots, found', tools') ==> SameLists(found, tools, found', tools')) <==>
            |found| <= 1 && |tools| <= 1
  {
    if |found| <= 1 && |tools| <= 1 {
      forall found', tools' | IsResult(agents, roots, found', tools')
        ensures SameLists(found, tools, found', tools')
      {
        OneAgent(found, found');
        OneTool(tools, tools');
      }
    } else {
      SwappedIsResult(agents, roots, found, tools);
      if |found| >= 2 {
        assert KeysInOrder(found)[0] != KeysInOrder(SwapFirst(found))[0];
      } else {
        assert !SameLists(found, tools, found, SwapFirst(tools));
      }
    }
  }

  /** Neither the order nor the repetition of entry points matters, nor does
      the order in which Go iterates over its maps. */
  lemma TraversalDetermined(agents: map<Key, AgentSpec>, entries: seq<Option<ObjectRef>>, entries': seq<Option<ObjectRef>>, ns: string,
                            found: seq<TransitiveAgent>, tools: seq<string>, found': seq<TransitiveAgent>, tools': seq<string>)
    requires forall e :: e in entries <==> e in entries'
    requires IsTraversalOf(agents, EntryKeys(entries, ns), found, tools)
    requires IsTraversalOf(agents, EntryKeys(entries', ns), found', tools')
    ensures StoredKeys(found) == StoredKeys(found')
    ensures forall t :: t in tools <==> t in tools'
  {
    SameEntryKeys(entries, entries', ns);
    SameEntryKeys(entries', entries, ns);
  }

  lemma SameEntryKeys(entries: seq<Option<ObjectRef>>, entries': seq<Option<ObjectRef>>, ns: string)
    requires forall e :: e in entries ==> e in entries'
    ensures EntryKeys(entries, ns) <= EntryKeys(entries', ns)
  {
    forall k | k in EntryKeys(entries, ns)
      ensures k in EntryKeys(entries', ns)
    {
      var i :| 0 <= i < |entries| && entries[i].Some? && Target(entries[i].value, ns) == k;
      assert entries[i] in entries';
    }
  }

  /******* What changes of agents can affect *******/

  lemma {:induction false} PathSurvives(agents: map<Key, AgentSpec>, agents': map<Key, AgentSpec>, roots: set<Key>, p: seq<Key>)
    requires forall k :: Reaches(agents, roots, k) ==> SameAt(agents, agents', k)
    requires IsPath(agents', roots, p)
    ensures IsPath(agents, roots, p)
  {
    if |p| > 1 {
      var init, a := p[..|p| - 1], p[|p| - 2];
      assert IsPath(agents', roots, init) by {
        forall i | 0 <= i < |init| - 1
          ensures Edge(agents', init[i], init[i + 1])
        {
          assert Edge(agents', p[i], p[i + 1]);
        }
      }
      PathSurvives(agents, agents', roots, init);
      assert init[|init| - 1] == a && SameAt(agents, agents', a);
      assert Edge(agents', a, p[|p| - 2 + 1]);
      forall i | 0 <= i < |p| - 1
        ensures Edge(agents, p[i], p[i + 1])
      {
        if i < |init| - 1 {
          assert Edge(agents, init[i], init[i + 1]);
        }
      }
    }
  }

  lemma UnreachedStaysUnreached(agents: map<Key, AgentSpec>, agents': map<Key, AgentSpec>, roots: set<Key>)
    requires forall k :: Reaches(agents, roots, k) ==> SameAt(agents, agents', k)
    ensures forall k :: Reaches(agents', roots, k) ==> Reaches(agents, roots, k)
  {
    forall k | Reaches(agents', roots, k)
      ensures Reaches(agents, roots, k)
    {
      var p :| IsPath(agents', roots, p) && p[|p| - 1] == k;
      PathSurvives(agents, agents', roots, p);
    }
  }

  /** Creating, updating or deleting agents that the traversal did not meet, not
      even as missing ones, leaves the traversal unchanged. */
  lemma TraversalFrame(agents: map<Key, AgentSpec>, agents': map<Key, AgentSpec>, roots: set<Key>,
                       found: seq<TransitiveAgent>, tools: seq<string>)
    requires forall k :: KeyString(k) in StoredKeys(found) ==> SameAt(agents, agents', k)
    requires IsTraversalOf(agents, roots, found, tools)
    ensures IsTraversalOf(agents', roots, found, tools)
  {
    forall k | Reaches(agents, roots, k)
      ensures SameAt(agents, agents', k)
    {
      assert ExpectedAgentKey(agents, roots, KeyString(k));
    }
    UnreachedStaysUnreached(agents, agents', roots);
    UnreachedStaysUnreached(agents', agents, roots);
    forall i | 0 <= i < |found|
      ensures IsRecord(agents', roots, found[i])
    {
      assert IsRecord(agents, roots, found[i]);
    }
  }
}
