/** The reverse index from agents to workforces, and runs of agent changes and
    workforce reconciles.

    A reconcile reads the agents one after the other and writes the workforce's
    status later; agents and workforces may change at any time.  The controller
    reads workforces from a cache that lags behind the API server, and the mapper
    runs some time after the agent changed. */
module WorkforceWatch {
  import opened Kube
  import opened Workforce

  /** `version` is the resource version. */
  datatype WorkforceObject = WorkforceObject(
    entries: seq<Option<ObjectRef>>,
    found: seq<TransitiveAgent>,
    tools: seq<string>,
    version: nat)

  /******* The mapper *******/

  ghost predicate IsEntry(w: WorkforceObject, ns: string, agent: Key) {
    exists i :: 0 <= i < |w.entries| && w.entries[i].Some? &&
      KeyString(Target(w.entries[i].value, ns)) == KeyString(agent)
  }

  ghost predicate IsStored(w: WorkforceObject, agent: Key) {
    exists i :: 0 <= i < |w.found| && w.found[i].name == agent.name && w.found[i].ns == agent.ns
  }

  ghost predicate MentionsAgent(w: WorkforceObject, ns: string, agent: Key) {
    IsEntry(w, ns, agent) || IsStored(w, agent)
  }

  ghost function Affected(workforces: map<Key, WorkforceObject>, agent: Key): set<Key> {
    set k | k in workforces && MentionsAgent(workforces[k], k.ns, agent)
  }

  /** For an agent that exists: a workforce is affected if the agent is one of its
      entry points or was recorded. */
  lemma AffectedIff(workforces: map<Key, WorkforceObject>, agent: Key, k: Key)
    requires IsValidKey(agent)
    ensures k in Affected(workforces, agent) <==>
            k in workforces &&
            (agent in EntryKeys(workforces[k].entries, k.ns) ||
             exists a :: a in workforces[k].found && a.name == agent.name && a.ns == agent.ns)
  {
    if k in workforces {
      var w := workforces[k];
      assert forall a :: a in w.found <==> exists i :: 0 <= i < |w.found| && w.found[i] == a;
      if IsEntry(w, k.ns, agent) {
        var i :| 0 <= i < |w.entries| && w.entries[i].Some? &&
                 KeyString(Target(w.entries[i].value, k.ns)) == KeyString(agent);
        ValidKeyString(agent, Target(w.entries[i].value, k.ns));
      }
    }
  }

  method FindWorkforcesReferencingAgent(workforces: map<Key, WorkforceObject>, items: seq<Key>, agent: Key)
      returns (requests: seq<Key>)
    requires forall k :: k in items <==> k in workforces
    ensures Lists(requests, Affected(workforces, agent))
  {
    requests := [];
    var enqueued: set<Key> := {};
    var agentKey := KeyString(agent);
    for n := 0 to |items|
      invariant NoDuplicates(requests)
      invariant forall k :: k in requests <==> k in enqueued
      invariant forall k :: k in enqueued <==> k in items[..n] && k in Affected(workforces, agent)
    {
      var k, w := items[n], workforces[items[n]];
      if k in enqueued {
        continue;
      }
      assert k !in requests;
      var before, enqueuedBefore := requests, enqueued;
      for i := 0 to |w.entries|
        invariant requests == before && enqueued == enqueuedBefore
        invariant forall j :: 0 <= j < i && w.entries[j].Some? ==> KeyString(Target(w.entries[j].value, k.ns)) != agentKey
      {
        if w.entries[i].None? {
          continue;
        }
        if KeyString(Target(w.entries[i].value, k.ns)) == agentKey {
          requests := requests + [k];
          enqueued := enqueued + {k};
          break;
        }
      }
      if k in enqueued {
        continue;
      }
      for i := 0 to |w.found|
        invariant requests == before && enqueued == enqueuedBefore
        invariant forall j :: 0 <= j < i ==> !(w.found[j].name == agent.name && w.found[j].ns == agent.ns)
      {
        if w.found[i].name == agent.name && w.found[i].ns == agent.ns {
          requests := requests + [k];
          enqueued := enqueued + {k};
          break;
        }
      }
    }
  }

  /** Changes of agents none of which the index maps to a workforce cannot change
      a traversal that has the stored result. */
  lemma UnmentionedIsHarmless(agents: map<Key, AgentSpec>, agents': map<Key, AgentSpec>, ns: string,
                              w: WorkforceObject, tools: seq<string>)
    requires ValidAgents(agents) && ValidAgents(agents')
    requires forall x :: MentionsAgent(w, ns, x) ==> SameAt(agents, agents', x)
    requires IsTraversalOf(agents, EntryKeys(w.entries, ns), w.found, tools)
    ensures IsTraversalOf(agents', EntryKeys(w.entries, ns), w.found, tools)
  {
    forall x | KeyString(x) in StoredKeys(w.found)
      ensures SameAt(agents, agents', x)
    {
      if IsValidKey(x) {
        var i :| 0 <= i < |w.found| && StoredKey(w.found[i]) == KeyString(x);
        ValidKeyString(x, Key(w.found[i].ns, w.found[i].name));
        assert IsStored(w, x);
        assert MentionsAgent(w, ns, x);
      }
    }
    TraversalFrame(agents, agents', EntryKeys(w.entries, ns), w.found, tools);
  }

  /******* Runs *******/

  /** A reconcile under way.  While it traverses, `base` holds for every agent what
      was or will be read of it: each read happens at its own moment.  Later there
      is a result to write.  `version` is that of the workforce it started from. */
  datatype Work =
    | Traversing(version: nat, entries: seq<Option<ObjectRef>>, base: map<Key, AgentSpec>)
    | Computed(version: nat, found: seq<TransitiveAgent>, tools: seq<string>)

  /** `agents` is the controller's cache of agents, and `changed` are those for
      which the mapper has yet to run.  `workforces` is what the API server stores
      and `cached` what the controller reads; `undelivered` are the workforces with
      an event on its way.  `clock` is the newest resource version handed out. */
  datatype State = State(
    agents: map<Key, AgentSpec>,
    changed: set<Key>,
    workforces: map<Key, WorkforceObject>,
    cached: map<Key, WorkforceObject>,
    undelivered: set<Key>,
    queue: set<Key>,
    inflight: map<Key, Work>,
    clock: nat)

  /** The work of a reconcile after a change of `agent`, which it reads before or
      after that change. */
  ghost predicate ReadsEither(work: Work, work': Work, agents': map<Key, AgentSpec>, agent: Key) {
    work' == work || (work.Traversing? && work' == work.(base := Updated(work.base, agents', agent)))
  }

  /** Some agent is created, updated or deleted. */
  ghost predicate ChangeAgent(s: State, s': State, agent: Key) {
    && IsValidKey(agent) && SameExcept(s.agents, s'.agents, agent) && ValidAgents(s'.agents)
    && s'.changed == s.changed + {agent}
    && s'.inflight.Keys == s.inflight.Keys
    && (forall k :: k in s.inflight ==> ReadsEither(s.inflight[k], s'.inflight[k], s'.agents, agent))
    && s.queue <= s'.queue
    && s'.workforces == s.workforces && s'.cached == s.cached && s'.undelivered == s.undelivered && s'.clock == s.clock
  }

  /** The mapper runs for a changed agent, on the cached workforces.  As in every
      step, more may be enqueued. */
  ghost predicate MapAgent(s: State, s': State, agent: Key) {
    && agent in s.changed && s'.changed == s.changed - {agent}
    && s.queue + Affected(s.cached, agent) <= s'.queue
    && s' == s.(changed := s'.changed, queue := s'.queue)
  }

  /** A workforce is created, or its entry points are edited. */
  ghost predicate ChangeWorkforce(s: State, s': State, k: Key, entries: seq<Option<ObjectRef>>) {
    && s'.clock == s.clock + 1
    && s'.workforces == s.workforces[k := if k in s.workforces
                                          then s.workforces[k].(entries := entries, version := s'.clock)
                                          else WorkforceObject(entries, [], [], s'.clock)]
    && s.queue <= s'.queue
    && s' == s.(workforces := s'.workforces, undelivered := s.undelivered + {k}, queue := s'.queue, clock := s'.clock)
  }

  ghost predicate DeleteWorkforce(s: State, s': State, k: Key) {
    && s.queue <= s'.queue
    && s' == s.(workforces := s.workforces - {k}, undelivered := s.undelivered + {k}, queue := s'.queue)
  }

  /** The newest state of a workforce reaches the cache and is enqueued. */
  ghost predicate DeliverWorkforce(s: State, s': State, k: Key) {
    && k in s.undelivered && s.queue + {k} <= s'.queue
    && s' == s.(cached := Updated(s.cached, s.workforces, k), undelivered := s.undelivered - {k}, queue := s'.queue)
  }

  /** A worker takes a workforce from the queue and begins to traverse. */
  ghost predicate Begin(s: State, s': State, k: Key) {
    && k in s.queue && k !in s.inflight && s.queue - {k} <= s'.queue
    && s' == s.(queue := s'.queue,
                inflight := if k in s.cached
                            then s.inflight[k := Traversing(s.cached[k].version, s.cached[k].entries, s.agents)]
                            else s.inflight)
  }

  ghost predicate Finish(s: State, s': State, k: Key, found: seq<TransitiveAgent>, tools: seq<string>) {
    && k in s.inflight && s.inflight[k].Traversing? && s.queue <= s'.queue
    && IsTraversalOf(s.inflight[k].base, EntryKeys(s.inflight[k].entries, k.ns), found, tools)
    && s' == s.(queue := s'.queue, inflight := s.inflight[k := Computed(s.inflight[k].version, found, tools)])
  }

  /** The status update succeeds only on an unchanged resource version.  A
      successful update that changes the status raises an event for the workforce
      itself; a refused one is retried. */
  ghost predicate Commit(s: State, s': State, k: Key) {
    && k in s.inflight && s.inflight[k].Computed?
    && var p := s.inflight[k];
       var s1 := s.(inflight := s.inflight - {k}, queue := s'.queue);
       if k !in s.workforces || s.workforces[k].version != p.version then
         s.queue + {k} <= s'.queue && s' == s1
       else if (s.workforces[k].found, s.workforces[k].tools) == (p.found, p.tools) then
         s.queue <= s'.queue && s' == s1
       else
         && s.queue <= s'.queue
         && s' == s1.(workforces := s.workforces[k := s.workforces[k].(found := p.found, tools := p.tools, version := s.clock + 1)],
                      undelivered := s.undelivered + {k}, clock := s.clock + 1)
  }

  /** A reconcile fails for some other reason, and is retried. */
  ghost predicate Abort(s: State, s': State, k: Key) {
    && k in s.inflight && s.queue + {k} <= s'.queue
    && s' == s.(inflight := s.inflight - {k}, queue := s'.queue)
  }

  ghost predicate Next(s: State, s': State) {
    || (exists agent :: ChangeAgent(s, s', agent) || MapAgent(s, s', agent))
    || (exists k, entries :: ChangeWorkforce(s, s', k, entries))
    || (exists k :: DeleteWorkforce(s, s', k) || DeliverWorkforce(s, s', k))
    || (exists k :: Begin(s, s', k) || Commit(s, s', k) || Abort(s, s', k))
    || (exists k, found, tools :: Finish(s, s', k, found, tools))
  }

  /** The controller starts: every workforce is enqueued, whatever its status. */
  ghost predicate Init(s: State) {
    && ValidAgents(s.agents) && s.changed == {}
    && s.cached == s.workforces && s.undelivered == {}
    && s.workforces.Keys <= s.queue && s.inflight == map[]
    && forall k :: k in s.workforces ==> s.workforces[k].version <= s.clock
  }

  ghost predicate IsStep(run: seq<State>, i: nat) {
    i + 1 < |run| && Next(run[i], run[i + 1])
  }

  ghost predicate IsRun(run: seq<State>) {
    && |run| > 0 && Init(run[0])
    && forall i :: 0 <= i < |run| - 1 ==> IsStep(run, i)
  }

  /** Agents as they were before some of the changes of `changed`. */
  ghost predicate IsBase(base: map<Key, AgentSpec>, agents: map<Key, AgentSpec>, changed: set<Key>) {
    ValidAgents(base) && forall x :: x !in changed ==> SameAt(base, agents, x)
  }

  /** A result is that of a fresh traversal, but for changes not yet mapped. */
  ghost predicate FreshUpTo(agents: map<Key, AgentSpec>, changed: set<Key>, roots: set<Key>,
                            found: seq<TransitiveAgent>, tools: seq<string>) {
    exists base :: IsBase(base, agents, changed) && IsTraversalOf(base, roots, found, tools)
  }

  ghost predicate UpToDate(s: State, k: Key)
    requires k in s.workforces
  {
    var w := s.workforces[k];
    FreshUpTo(s.agents, s.changed, EntryKeys(w.entries, k.ns), w.found, w.tools)
  }

  /** A reconcile of `k` will start, or start again. */
  ghost predicate Awaited(s: State, k: Key) {
    k in s.queue || k in s.undelivered
  }

  /** What is known about a reconcile that starts from the stored `w` and will not
      be repeated. */
  ghost predicate WorkOk(agents: map<Key, AgentSpec>, changed: set<Key>, ns: string, w: WorkforceObject, work: Work) {
    match work
    case Traversing(_, entries, base) =>
      && entries == w.entries && ValidAgents(base)
      && forall x :: x !in changed && MentionsAgent(w, ns, x) ==> SameAt(base, agents, x)
    case Computed(_, found, tools) =>
      (found, tools) != (w.found, w.tools) || FreshUpTo(agents, changed, EntryKeys(w.entries, ns), found, tools)
  }

  ghost predicate InflightOk(s: State) {
    forall k :: k in s.workforces && k in s.inflight && s.inflight[k].version == s.workforces[k].version ==>
      Awaited(s, k) || WorkOk(s.agents, s.changed, k.ns, s.workforces[k], s.inflight[k])
  }

  ghost predicate NoneForgotten(s: State) {
    forall k :: k in s.workforces ==> Awaited(s, k) || k in s.inflight || UpToDate(s, k)
  }

  ghost predicate VersionsOk(s: State) {
    && (forall k :: k in s.workforces ==> s.workforces[k].version <= s.clock)
    && (forall k :: k in s.cached ==> s.cached[k].version <= s.clock)
    && (forall k :: k in s.inflight ==> s.inflight[k].version <= s.clock)
    && (forall k :: k !in s.undelivered ==> SameAt(s.cached, s.workforces, k))
    && (forall k :: k in s.cached && k in s.workforces && s.cached[k].version == s.workforces[k].version ==>
          s.cached[k] == s.workforces[k])
  }

  ghost predicate Inv(s: State) {
    ValidAgents(s.agents) && VersionsOk(s) && NoneForgotten(s) && InflightOk(s)
  }

  /******* Changes of agents *******/

  lemma ChangeKeepsFresh(agents: map<Key, AgentSpec>, agents': map<Key, AgentSpec>, changed: set<Key>, agent: Key,
                         roots: set<Key>, found: seq<TransitiveAgent>, tools: seq<string>)
    requires SameExcept(agents, agents', agent) && FreshUpTo(agents, changed, roots, found, tools)
    ensures FreshUpTo(agents', changed + {agent}, roots, found, tools)
  {
    var base :| IsBase(base, agents, changed) && IsTraversalOf(base, roots, found, tools);
    forall x | x !in changed + {agent}
      ensures SameAt(base, agents', x)
    {
      SameExceptAt(agents, agents', agent, x);
    }
    assert IsBase(base, agents', changed + {agent});
  }

  lemma ChangeKeepsWorkOk(agents: map<Key, AgentSpec>, agents': map<Key, AgentSpec>, changed: set<Key>, agent: Key,
                          ns: string, w: WorkforceObject, work: Work, work': Work)
    requires SameExcept(agents, agents', agent) && ValidAgents(agents') && ReadsEither(work, work', agents', agent)
    requires WorkOk(agents, changed, ns, w, work)
    ensures WorkOk(agents', changed + {agent}, ns, w, work')
  {
    match work
    case Traversing(_, _, base) =>
      forall x | x !in changed + {agent} && MentionsAgent(w, ns, x)
        ensures SameAt(work'.base, agents', x)
      {
        SameExceptAt(agents, agents', agent, x);
      }
    case Computed(_, found, tools) =>
      if (found, tools) == (w.found, w.tools) {
        ChangeKeepsFresh(agents, agents', changed, agent, EntryKeys(w.entries, ns), found, tools);
      }
  }

  lemma ChangeAgentKeepsInv(s: State, s': State, agent: Key)
    requires Inv(s) && ChangeAgent(s, s', agent)
    ensures Inv(s')
  {
    forall k | k in s'.workforces
      ensures Awaited(s', k) || k in s'.inflight || UpToDate(s', k)
    {
      if !Awaited(s', k) && k !in s'.inflight {
        var w := s.workforces[k];
        ChangeKeepsFresh(s.agents, s'.agents, s.changed, agent, EntryKeys(w.entries, k.ns), w.found, w.tools);
      }
    }
    forall k | k in s'.workforces && k in s'.inflight && s'.inflight[k].version == s'.workforces[k].version
      ensures Awaited(s', k) || WorkOk(s'.agents, s'.changed, k.ns, s'.workforces[k], s'.inflight[k])
    {
      if !Awaited(s', k) {
        ChangeKeepsWorkOk(s.agents, s'.agents, s.changed, agent, k.ns, s.workforces[k], s.inflight[k], s'.inflight[k]);
      }
    }
  }

  lemma UpdatedIsBase(base: map<Key, AgentSpec>, agents: map<Key, AgentSpec>, changed: set<Key>, agent: Key)
    requires ValidAgents(agents) && IsBase(base, agents, changed)
    ensures IsBase(Updated(base, agents, agent), agents, changed - {agent})
    ensures forall x :: x != agent ==> SameAt(base, Updated(base, agents, agent), x)
  {
    forall x | x !in changed - {agent}
      ensures SameAt(Updated(base, agents, agent), agents, x)
    {
      assert x != agent ==> SameAt(base, agents, x);
    }
  }

  /** When the mapper skips a workforce, the change may be applied to what the
      stored result is a traversal of. */
  lemma SkippedStaysFresh(agents: map<Key, AgentSpec>, changed: set<Key>, agent: Key, ns: string, w: WorkforceObject)
    requires ValidAgents(agents) && !MentionsAgent(w, ns, agent)
    requires FreshUpTo(agents, changed, EntryKeys(w.entries, ns), w.found, w.tools)
    ensures FreshUpTo(agents, changed - {agent}, EntryKeys(w.entries, ns), w.found, w.tools)
  {
    var roots := EntryKeys(w.entries, ns);
    var base :| IsBase(base, agents, changed) && IsTraversalOf(base, roots, w.found, w.tools);
    var base' := Updated(base, agents, agent);
    UpdatedIsBase(base, agents, changed, agent);
    UnmentionedIsHarmless(base, base', ns, w, w.tools);
  }

  lemma SkippedStaysOk(agents: map<Key, AgentSpec>, changed: set<Key>, agent: Key, ns: string, w: WorkforceObject, work: Work)
    requires ValidAgents(agents) && !MentionsAgent(w, ns, agent) && WorkOk(agents, changed, ns, w, work)
    ensures WorkOk(agents, changed - {agent}, ns, w, work)
  {
    if work.Computed? && (work.found, work.tools) == (w.found, w.tools) {
      SkippedStaysFresh(agents, changed, agent, ns, w);
    }
  }

  lemma MapAgentKeepsInv(s: State, s': State, agent: Key)
    requires Inv(s) && MapAgent(s, s', agent)
    ensures Inv(s')
  {
    forall k | k in s.workforces && !Awaited(s', k)
      ensures !MentionsAgent(s.workforces[k], k.ns, agent)
    {
      assert SameAt(s.cached, s.workforces, k);
      assert k !in Affected(s.cached, agent);
    }
    forall k | k in s'.workforces
      ensures Awaited(s', k) || k in s'.inflight || UpToDate(s', k)
    {
      if !Awaited(s', k) && k !in s'.inflight {
        SkippedStaysFresh(s.agents, s.changed, agent, k.ns, s.workforces[k]);
      }
    }
    forall k | k in s'.workforces && k in s'.inflight && s'.inflight[k].version == s'.workforces[k].version
      ensures Awaited(s', k) || WorkOk(s'.agents, s'.changed, k.ns, s'.workforces[k], s'.inflight[k])
    {
      if !Awaited(s', k) {
        SkippedStaysOk(s.agents, s.changed, agent, k.ns, s.workforces[k], s.inflight[k]);
      }
    }
  }

  /******* Changes of workforces *******/

  lemma ChangeWorkforceKeepsInv(s: State, s': State, k: Key, entries: seq<Option<ObjectRef>>)
    requires Inv(s) && ChangeWorkforce(s, s', k, entries)
    ensures Inv(s')
  {
    forall j | j in s'.workforces
      ensures Awaited(s', j) || j in s'.inflight || UpToDate(s', j)
    {
      assert Awaited(s, j) ==> Awaited(s', j);
    }
    forall j | j in s'.workforces && j in s'.inflight && s'.inflight[j].version == s'.workforces[j].version
      ensures Awaited(s', j) || WorkOk(s'.agents, s'.changed, j.ns, s'.workforces[j], s'.inflight[j])
    {
      assert Awaited(s, j) ==> Awaited(s', j);
    }
  }

  lemma DeleteWorkforceKeepsInv(s: State, s': State, k: Key)
    requires Inv(s) && DeleteWorkforce(s, s', k)
    ensures Inv(s')
  {
    forall j | j in s'.workforces
      ensures Awaited(s', j) || j in s'.inflight || UpToDate(s', j)
    {
      assert Awaited(s, j) ==> Awaited(s', j);
    }
  }

  lemma DeliverWorkforceKeepsInv(s: State, s': State, k: Key)
    requires Inv(s) && DeliverWorkforce(s, s', k)
    ensures Inv(s')
  {
    forall j | j in s'.workforces
      ensures Awaited(s', j) || j in s'.inflight || UpToDate(s', j)
    {
      assert Awaited(s, j) ==> Awaited(s', j);
    }
  }

  /******* Reconciles *******/

  lemma BeginKeepsInv(s: State, s': State, k: Key)
    requires Inv(s) && Begin(s, s', k)
    ensures Inv(s')
  {
    forall j | j in s'.workforces
      ensures Awaited(s', j) || j in s'.inflight || UpToDate(s', j)
    {
      assert j != k && Awaited(s, j) ==> Awaited(s', j);
    }
    forall j | j in s'.workforces && j in s'.inflight && s'.inflight[j].version == s'.workforces[j].version
      ensures Awaited(s', j) || WorkOk(s'.agents, s'.changed, j.ns, s'.workforces[j], s'.inflight[j])
    {
      assert j != k && Awaited(s, j) ==> Awaited(s', j);
    }
  }

  lemma MixedIsBase(base: map<Key, AgentSpec>, agents: map<Key, AgentSpec>, changed: set<Key>)
    requires ValidAgents(base) && ValidAgents(agents)
    ensures IsBase(Mixed(base, agents, changed), agents, changed)
  {
    forall x
      ensures x !in changed ==> SameAt(Mixed(base, agents, changed), agents, x)
    {
      MixedAt(base, agents, changed, x);
    }
  }

  /** A traversal that comes to the stored result has met only agents that the
      mapper looks for, so that no change of them was skipped. */
  lemma FinishedIsOk(agents: map<Key, AgentSpec>, changed: set<Key>, ns: string, w: WorkforceObject, work: Work,
                     found: seq<TransitiveAgent>, tools: seq<string>)
    requires ValidAgents(agents) && work.Traversing? && WorkOk(agents, changed, ns, w, work)
    requires IsTraversalOf(work.base, EntryKeys(work.entries, ns), found, tools)
    ensures WorkOk(agents, changed, ns, w, Computed(work.version, found, tools))
  {
    if (found, tools) == (w.found, w.tools) {
      var base' := Mixed(work.base, agents, changed);
      MixedIsBase(work.base, agents, changed);
      forall x | MentionsAgent(w, ns, x)
        ensures SameAt(work.base, base', x)
      {
        MixedAt(work.base, agents, changed, x);
      }
      UnmentionedIsHarmless(work.base, base', ns, w, tools);
    }
  }

  lemma FinishKeepsInv(s: State, s': State, k: Key, found: seq<TransitiveAgent>, tools: seq<string>)
    requires Inv(s) && Finish(s, s', k, found, tools)
    ensures Inv(s')
  {
    forall j | j in s'.workforces
      ensures Awaited(s', j) || j in s'.inflight || UpToDate(s', j)
    {
      assert Awaited(s, j) ==> Awaited(s', j);
    }
    forall j | j in s'.workforces && j in s'.inflight && s'.inflight[j].version == s'.workforces[j].version
      ensures Awaited(s', j) || WorkOk(s'.agents, s'.changed, j.ns, s'.workforces[j], s'.inflight[j])
    {
      if !Awaited(s', j) && j == k {
        FinishedIsOk(s.agents, s.changed, k.ns, s.workforces[k], s.inflight[k], found, tools);
      }
    }
  }

  lemma CommitForgetsNone(s: State, s': State, k: Key)
    requires Inv(s) && Commit(s, s', k)
    ensures NoneForgotten(s')
  {
    forall j | j in s'.workforces
      ensures Awaited(s', j) || j in s'.inflight || UpToDate(s', j)
    {
      assert Awaited(s, j) ==> Awaited(s', j);
    }
  }

  lemma CommitKeepsVersions(s: State, s': State, k: Key)
    requires VersionsOk(s) && Commit(s, s', k)
    ensures VersionsOk(s')
  {
    assert k in s.workforces && s'.clock > s.clock ==> s'.workforces[k].version == s'.clock;
  }

  lemma CommitKeepsInv(s: State, s': State, k: Key)
    requires Inv(s) && Commit(s, s', k)
    ensures Inv(s')
  {
    CommitForgetsNone(s, s', k);
    CommitKeepsVersions(s, s', k);
    forall j | j in s'.workforces && j in s'.inflight && s'.inflight[j].version == s'.workforces[j].version
      ensures Awaited(s', j) || WorkOk(s'.agents, s'.changed, j.ns, s'.workforces[j], s'.inflight[j])
    {
      assert Awaited(s, j) ==> Awaited(s', j);
    }
  }

  lemma AbortKeepsInv(s: State, s': State, k: Key)
    requires Inv(s) && Abort(s, s', k)
    ensures Inv(s')
  {
    forall j | j in s'.workforces
      ensures Awaited(s', j) || j in s'.inflight || UpToDate(s', j)
    {
      assert Awaited(s, j) ==> Awaited(s', j);
    }
  }

  lemma NextKeepsInv(s: State, s': State)
    requires Inv(s) && Next(s, s')
    ensures Inv(s')
  {
    if agent :| ChangeAgent(s, s', agent) || MapAgent(s, s', agent) {
      if ChangeAgent(s, s', agent) {
        ChangeAgentKeepsInv(s, s', agent);
      } else {
        MapAgentKeepsInv(s, s', agent);
      }
    } else if k, entries :| ChangeWorkforce(s, s', k, entries) {
      ChangeWorkforceKeepsInv(s, s', k, entries);
    } else if k :| DeleteWorkforce(s, s', k) || DeliverWorkforce(s, s', k) {
      if DeleteWorkforce(s, s', k) {
        DeleteWorkforceKeepsInv(s, s', k);
      } else {
        DeliverWorkforceKeepsInv(s, s', k);
      }
    } else if k, found, tools :| Finish(s, s', k, found, tools) {
      FinishKeepsInv(s, s', k, found, tools);
    } else {
      var k :| Begin(s, s', k) || Commit(s, s', k) || Abort(s, s', k);
      ReconcileKeepsInv(s, s', k);
    }
  }

  lemma ReconcileKeepsInv(s: State, s': State, k: Key)
    requires Inv(s) && (Begin(s, s', k) || Commit(s, s', k) || Abort(s, s', k))
    ensures Inv(s')
  {
    if Begin(s, s', k) {
      BeginKeepsInv(s, s', k);
    } else if Commit(s, s', k) {
      CommitKeepsInv(s, s', k);
    } else {
      AbortKeepsInv(s, s', k);
    }
  }

  /** At every moment of every run each workforce is enqueued, about to be enqueued
      by an event on its way, being reconciled, or its stored agents and tools are
      those of a fresh traversal, but for changes the mapper has yet to see. */
  lemma {:induction false} WorkforcesStayFresh(run: seq<State>, i: nat)
    requires IsRun(run) && i < |run|
    ensures Inv(run[i])
    ensures forall k :: k in run[i].workforces ==> Awaited(run[i], k) || k in run[i].inflight || UpToDate(run[i], k)
  {
    if i > 0 {
      WorkforcesStayFresh(run, i - 1);
      assert IsStep(run, i - 1);
      NextKeepsInv(run[i - 1], run[i]);
    }
  }

  /** Whenever a workforce has nothing left to do and every agent change is mapped,
      its status is exactly a fresh traversal. */
  lemma QuietWorkforcesAreFresh(run: seq<State>, i: nat, k: Key)
    requires IsRun(run) && i < |run| && k in run[i].workforces
    requires run[i].changed == {} && !Awaited(run[i], k) && k !in run[i].inflight
    ensures var w := run[i].workforces[k];
            IsTraversalOf(run[i].agents, EntryKeys(w.entries, k.ns), w.found, w.tools)
  {
    WorkforcesStayFresh(run, i);
    var agents, w := run[i].agents, run[i].workforces[k];
    var base :| IsBase(base, agents, {}) && IsTraversalOf(base, EntryKeys(w.entries, k.ns), w.found, w.tools);
    TraversalFrame(base, agents, EntryKeys(w.entries, k.ns), w.found, w.tools);
  }

  /******* What may happen *******/

  lemma AgentsMayChange(s: State, agent: Key, from: map<Key, AgentSpec>, k: Key)
    requires IsValidKey(agent) && ValidAgents(s.agents) && ValidAgents(from)
    ensures var agents := Updated(s.agents, from, agent);
            && Next(s, s.(agents := agents, changed := s.changed + {agent}))
            && (k in s.inflight && s.inflight[k].Traversing? ==>
                  Next(s, s.(agents := agents, changed := s.changed + {agent},
                             inflight := s.inflight[k := s.inflight[k].(base := Updated(s.inflight[k].base, agents, agent))])))
            && (agent in s.changed ==>
                  Next(s, s.(changed := s.changed - {agent}, queue := s.queue + Affected(s.cached, agent))))
  {
    var agents := Updated(s.agents, from, agent);
    assert SameExcept(s.agents, agents, agent) && ValidAgents(agents);
    assert ChangeAgent(s, s.(agents := agents, changed := s.changed + {agent}), agent);
    if k in s.inflight && s.inflight[k].Traversing? {
      assert ChangeAgent(s, s.(agents := agents, changed := s.changed + {agent},
                               inflight := s.inflight[k := s.inflight[k].(base := Updated(s.inflight[k].base, agents, agent))]), agent);
    }
    if agent in s.changed {
      assert MapAgent(s, s.(changed := s.changed - {agent}, queue := s.queue + Affected(s.cached, agent)), agent);
    }
  }

  lemma WorkforcesMayChange(s: State, k: Key, entries: seq<Option<ObjectRef>>, more: set<Key>)
    ensures var w := if k in s.workforces then s.workforces[k].(entries := entries, version := s.clock + 1)
                     else WorkforceObject(entries, [], [], s.clock + 1);
            Next(s, s.(workforces := s.workforces[k := w], undelivered := s.undelivered + {k}, clock := s.clock + 1,
                       queue := s.queue + more))
    ensures Next(s, s.(workforces := s.workforces - {k}, undelivered := s.undelivered + {k}, queue := s.queue + more))
    ensures k in s.undelivered ==>
              Next(s, s.(cached := Updated(s.cached, s.workforces, k), undelivered := s.undelivered - {k}, queue := s.queue + {k}))
  {
    var w := if k in s.workforces then s.workforces[k].(entries := entries, version := s.clock + 1)
             else WorkforceObject(entries, [], [], s.clock + 1);
    assert ChangeWorkforce(s, s.(workforces := s.workforces[k := w], undelivered := s.undelivered + {k}, clock := s.clock + 1,
                                 queue := s.queue + more), k, entries);
    assert DeleteWorkforce(s, s.(workforces := s.workforces - {k}, undelivered := s.undelivered + {k}, queue := s.queue + more), k);
    if k in s.undelivered {
      assert DeliverWorkforce(s, s.(cached := Updated(s.cached, s.workforces, k), undelivered := s.undelivered - {k},
                                    queue := s.queue + {k}), k);
    }
  }

  /** A reconcile may begin with an old version, and its update is then refused; an
      update that changes nothing stores nothing; and it may fail otherwise. */
  lemma ReconcilesMayAct(s: State, k: Key, found: seq<TransitiveAgent>, tools: seq<string>, more: set<Key>)
    ensures k in s.queue && k !in s.inflight && k in s.cached ==>
              Next(s, s.(queue := s.queue - {k},
                         inflight := s.inflight[k := Traversing(s.cached[k].version, s.cached[k].entries, s.agents)]))
    ensures k in s.queue && k !in s.inflight && k !in s.cached ==> Next(s, s.(queue := s.queue - {k}))
    ensures k in s.inflight ==> Next(s, s.(inflight := s.inflight - {k}, queue := s.queue + {k}))
    ensures k in s.inflight && s.inflight[k].Traversing? &&
            IsTraversalOf(s.inflight[k].base, EntryKeys(s.inflight[k].entries, k.ns), found, tools) ==>
              Next(s, s.(inflight := s.inflight[k := Computed(s.inflight[k].version, found, tools)], queue := s.queue + more))
    ensures k in s.inflight && s.inflight[k].Computed? && k in s.workforces ==>
              var w, p := s.workforces[k], s.inflight[k];
              && (w.version != p.version ==> Next(s, s.(inflight := s.inflight - {k}, queue := s.queue + {k})))
              && (w.version == p.version && (w.found, w.tools) == (p.found, p.tools) ==>
                    Next(s, s.(inflight := s.inflight - {k}, queue := s.queue + more)))
              && (w.version == p.version && (w.found, w.tools) != (p.found, p.tools) ==>
                    Next(s, s.(workforces := s.workforces[k := w.(found := p.found, tools := p.tools, version := s.clock + 1)],
                               inflight := s.inflight - {k}, undelivered := s.undelivered + {k}, clock := s.clock + 1,
                               queue := s.queue + more)))
  {
    if k in s.queue && k !in s.inflight {
      var s' := if k in s.cached then s.(queue := s.queue - {k},
                                         inflight := s.inflight[k := Traversing(s.cached[k].version, s.cached[k].entries, s.agents)])
                else s.(queue := s.queue - {k});
      assert Begin(s, s', k);
    }
    if k in s.inflight {
      assert Abort(s, s.(inflight := s.inflight - {k}, queue := s.queue + {k}), k);
      if s.inflight[k].Traversing? && IsTraversalOf(s.inflight[k].base, EntryKeys(s.inflight[k].entries, k.ns), found, tools) {
        assert Finish(s, s.(inflight := s.inflight[k := Computed(s.inflight[k].version, found, tools)], queue := s.queue + more),
                      k, found, tools);
      }
      if s.inflight[k].Computed? && k in s.workforces && s.workforces[k].version == s.inflight[k].version {
        var w, p := s.workforces[k], s.inflight[k];
        if (w.found, w.tools) == (p.found, p.tools) {
          assert Commit(s, s.(inflight := s.inflight - {k}, queue := s.queue + more), k);
        } else {
          assert Commit(s, s.(workforces := s.workforces[k := w.(found := p.found, tools := p.tools, version := s.clock + 1)],
                              inflight := s.inflight - {k}, undelivered := s.undelivered + {k}, clock := s.clock + 1,
                              queue := s.queue + more), k);
        }
      }
    }
  }

  lemma StartingRun(agents: map<Key, AgentSpec>, workforces: map<Key, WorkforceObject>, clock: nat) returns (run: seq<State>)
    requires ValidAgents(agents) && forall k :: k in workforces ==> workforces[k].version <= clock
    ensures IsRun(run) && |run| == 1 && run[0].agents == agents && run[0].workforces == workforces
  {
    run := [State(agents, {}, workforces, workforces, {}, workforces.Keys, map[], clock)];
  }

  lemma ContinueRun(run: seq<State>, s: State) returns (run': seq<State>)
    requires IsRun(run) && Next(run[|run| - 1], s)
    ensures IsRun(run') && run' == run + [s]
  {
    run' := run + [s];
    forall i | 0 <= i < |run'| - 1
      ensures IsStep(run', i)
    {
      if i < |run| - 1 {
        assert IsStep(run, i);
      }
    }
  }

  /******* Statuses that never settle *******/

  /** An enqueued workforce that is up to date, and that the controller knows. */
  ghost predicate Settled(s: State, k: Key) {
    && k in s.queue && k !in s.inflight && k !in s.undelivered && k in s.workforces
    && var w := s.workforces[k];
       IsResult(s.agents, EntryKeys(w.entries, k.ns), w.found, w.tools)
  }

  /** Four steps after which only the order of the stored agents has changed. */
  ghost predicate RewritesStatus(s: State, s1: State, s2: State, s3: State, s4: State, k: Key)
    requires k in s.workforces && k in s4.workforces && |s.workforces[k].found| >= 2
  {
    && Next(s, s1) && Next(s1, s2) && Next(s2, s3) && Next(s3, s4)
    && s4.agents == s.agents && s4.changed == s.changed
    && s4.workforces[k] == s.workforces[k].(found := SwapFirst(s.workforces[k].found), version := s.clock + 1)
  }

  lemma BeginSettled(s: State, k: Key) returns (s': State)
    requires VersionsOk(s) && Settled(s, k)
    ensures Next(s, s') && s' == s.(queue := s.queue - {k}, inflight := s'.inflight)
    ensures s'.inflight == s.inflight[k := Traversing(s.workforces[k].version, s.workforces[k].entries, s.agents)]
  {
    assert SameAt(s.cached, s.workforces, k);
    s' := s.(queue := s.queue - {k},
             inflight := s.inflight[k := Traversing(s.workforces[k].version, s.workforces[k].entries, s.agents)]);
    assert Begin(s, s', k);
  }

  lemma FinishSwapped(s: State, k: Key) returns (s': State)
    requires k in s.workforces && k in s.inflight && |s.workforces[k].found| >= 2
    requires var w := s.workforces[k];
             && s.inflight[k] == Traversing(w.version, w.entries, s.agents)
             && IsResult(s.agents, EntryKeys(w.entries, k.ns), w.found, w.tools)
    ensures Next(s, s') && s' == s.(inflight := s'.inflight)
    ensures var w := s.workforces[k];
            s'.inflight == s.inflight[k := Computed(w.version, SwapFirst(w.found), w.tools)]
  {
    var w := s.workforces[k];
    SwappedIsResult(s.agents, EntryKeys(w.entries, k.ns), w.found, w.tools);
    s' := s.(inflight := s.inflight[k := Computed(w.version, SwapFirst(w.found), w.tools)]);
    assert Finish(s, s', k, SwapFirst(w.found), w.tools);
  }

  lemma CommitSwapped(s: State, k: Key) returns (s': State)
    requires k in s.workforces && k in s.inflight && |s.workforces[k].found| >= 2 && DistinctKeys(s.workforces[k].found)
    requires var w := s.workforces[k]; s.inflight[k] == Computed(w.version, SwapFirst(w.found), w.tools)
    ensures Next(s, s')
    ensures var w := s.workforces[k].(found := SwapFirst(s.workforces[k].found), version := s.clock + 1);
            s' == s.(workforces := s.workforces[k := w], inflight := s.inflight - {k},
                     undelivered := s.undelivered + {k}, clock := s.clock + 1)
  {
    var w := s.workforces[k];
    assert StoredKey(w.found[0]) != StoredKey(w.found[1]) && SwapFirst(w.found)[0] != w.found[0];
    s' := s.(workforces := s.workforces[k := w.(found := SwapFirst(w.found), version := s.clock + 1)],
             inflight := s.inflight - {k}, undelivered := s.undelivered + {k}, clock := s.clock + 1);
    assert Commit(s, s', k);
  }

  lemma DeliverNewest(s: State, k: Key) returns (s': State)
    requires k in s.undelivered
    ensures Next(s, s')
    ensures s' == s.(cached := Updated(s.cached, s.workforces, k), undelivered := s.undelivered - {k}, queue := s.queue + {k})
  {
    s' := s.(cached := Updated(s.cached, s.workforces, k), undelivered := s.undelivered - {k}, queue := s.queue + {k});
    assert DeliverWorkforce(s, s', k);
  }

  lemma FourStepsKeepInv(s: State, s1: State, s2: State, s3: State, s4: State)
    requires Inv(s) && Next(s, s1) && Next(s1, s2) && Next(s2, s3) && Next(s3, s4)
    ensures Inv(s4)
  {
    NextKeepsInv(s, s1);
    NextKeepsInv(s1, s2);
    NextKeepsInv(s2, s3);
    NextKeepsInv(s3, s4);
  }

  /** Although nothing in the cluster changes, the status of a workforce with
      several agents may be rewritten, which enqueues it again: afterwards
      everything is as it was but the order, and the same can happen again. */
  lemma StatusMayNeverSettle(s: State, k: Key) returns (s1: State, s2: State, s3: State, s4: State)
    requires Inv(s) && Settled(s, k) && |s.workforces[k].found| >= 2
    ensures Inv(s4) && Settled(s4, k) && |s4.workforces[k].found| >= 2
    ensures RewritesStatus(s, s1, s2, s3, s4, k)
  {
    var w := s.workforces[k];
    s1 := BeginSettled(s, k);
    s2 := FinishSwapped(s1, k);
    s3 := CommitSwapped(s2, k);
    s4 := DeliverNewest(s3, k);
    SwappedIsResult(s.agents, EntryKeys(w.entries, k.ns), w.found, w.tools);
    FourStepsKeepInv(s, s1, s2, s3, s4);
  }
}
