/** The watches of the Agent controller over runs in which Agents, ToolServers,
    AiGateways and runtime configurations are created, edited and deleted.

    A reconcile reads the objects that the Agent references one after the other,
    each at its own moment; a mapper runs some time after an object changed. */
module AgentWatch {
  import opened Kube
  import opened Resolve
  import Readiness

  /** The runtime configurations in the operator's namespace; there may be one. */
  datatype Config = NoConfig | OneConfig(text: string) | SeveralConfigs

  /** What a reconcile reads besides the Agent itself: the Status.Url of every
      Agent, the ToolServers, the AiGateways with their ports, the configuration. */
  datatype View = View(
    urls: map<Key, string>,
    servers: map<Key, ToolServerStatus>,
    gateways: map<Key, int>,
    config: Config)

  datatype Event = AgentChanged(key: Key) | ServerChanged(key: Key) | GatewayChanged(key: Key) | ConfigChanged

  /** Two views hold the same object for an event. */
  ghost predicate SameFor(v: View, v': View, e: Event) {
    match e
    case AgentChanged(k) => SameAt(v.urls, v'.urls, k)
    case ServerChanged(k) => SameAt(v.servers, v'.servers, k)
    case GatewayChanged(k) => SameAt(v.gateways, v'.gateways, k)
    case ConfigChanged => v.config == v'.config
  }

  /******* What a reconcile finds *******/

  datatype Resolution = Resolution(
    subAgents: map<string, ResolvedSubAgent>,
    issues: seq<(string, Issue)>,
    tools: seq<Result<string, Issue>>,
    gateway: Result<Option<Gateway>, Key>,
    config: Config)

  ghost predicate Resolves(v: View, spec: AgentSpec, ns: string, r: Resolution) {
    && r.subAgents == ResolvedSubAgents(v.urls, spec.subAgents, ns)
    && r.issues == SubAgentIssues(v.urls, spec.subAgents, ns)
    && |r.tools| == |spec.tools|
    && (forall i :: 0 <= i < |spec.tools| ==> r.tools[i] == ResolveToolServerUrl(v.servers, spec.tools[i], ns))
    && MayResolve(v.gateways, spec.aiGatewayRef, ns, DEFAULT_AI_GATEWAY_NAMESPACE, r.gateway)
    && r.config == v.config
  }

  /** Where a reconcile ends: it stops at the first kind of reference that does
      not resolve. */
  datatype Outcome =
    | ConfigFailed
    | SubAgentsFailed(issues: seq<(string, Issue)>)
    | ToolsFailed(tools: seq<Result<string, Issue>>)
    | GatewayMissing(key: Key)
    | Deployed(config: Config, subAgents: map<string, ResolvedSubAgent>, tools: seq<Result<string, Issue>>, gateway: Option<Gateway>)

  predicate SomeToolFails(tools: seq<Result<string, Issue>>) {
    exists i :: 0 <= i < |tools| && tools[i].Err?
  }

  function OutcomeOf(r: Resolution): Outcome {
    if r.config.SeveralConfigs? then ConfigFailed
    else if r.issues != [] then SubAgentsFailed(r.issues)
    else if SomeToolFails(r.tools) then ToolsFailed(r.tools)
    else if r.gateway.Err? then GatewayMissing(r.gateway.error)
    else Deployed(r.config, r.subAgents, r.tools, r.gateway.value)
  }

  /** The configuration comes first, then sub-agents, tools and the gateway. */
  lemma OutcomeIs(r: Resolution)
    ensures var o := OutcomeOf(r);
            var toolsFail := exists t :: t in r.tools && t.Err?;
            && (o == ConfigFailed <==> r.config == SeveralConfigs)
            && (o == SubAgentsFailed(r.issues) <==> r.config != SeveralConfigs && r.issues != [])
            && (o == ToolsFailed(r.tools) <==> r.config != SeveralConfigs && r.issues == [] && toolsFail)
            && (o.GatewayMissing? <==> r.config != SeveralConfigs && r.issues == [] && !toolsFail && r.gateway.Err?)
            && (o.GatewayMissing? ==> o.key == r.gateway.error)
            && (o.Deployed? <==> r.config != SeveralConfigs && r.issues == [] && !toolsFail && r.gateway.Ok?)
            && (o.Deployed? ==> o == Deployed(r.config, r.subAgents, r.tools, r.gateway.value))
  {
    assert forall t :: t in r.tools <==> exists i :: 0 <= i < |r.tools| && r.tools[i] == t;
  }

  /** `o` is an outcome of a reconcile that sees `v` all the time. */
  ghost predicate IsOutcome(v: View, spec: AgentSpec, ns: string, o: Outcome) {
    exists r :: Resolves(v, spec, ns, r) && o == OutcomeOf(r)
  }

  /** Every part of an outcome is what the objects say. */
  lemma IsOutcomeIs(v: View, spec: AgentSpec, ns: string, o: Outcome)
    requires IsOutcome(v, spec, ns, o)
    ensures o.ConfigFailed? <==> v.config == SeveralConfigs
    ensures o.SubAgentsFailed? ==> o.issues == SubAgentIssues(v.urls, spec.subAgents, ns)
    ensures o.Deployed? ==> o.config == v.config && o.subAgents == ResolvedSubAgents(v.urls, spec.subAgents, ns)
    ensures o.Deployed? || o.ToolsFailed? ==>
              |o.tools| == |spec.tools| &&
              forall i :: 0 <= i < |spec.tools| ==> o.tools[i] == ResolveToolServerUrl(v.servers, spec.tools[i], ns)
    ensures o.Deployed? ==> MayResolve(v.gateways, spec.aiGatewayRef, ns, "ai-gateway", Ok(o.gateway))
    ensures o.GatewayMissing? ==> MayResolve(v.gateways, spec.aiGatewayRef, ns, "ai-gateway", Err(o.key))
  {
  }

  /** There always is one. */
  lemma OutcomeExists(v: View, spec: AgentSpec, ns: string) returns (o: Outcome)
    ensures IsOutcome(v, spec, ns, o)
  {
    var list := SomeList(v.gateways);
    ResolutionOfList(list, v.gateways, spec.aiGatewayRef, ns, DEFAULT_AI_GATEWAY_NAMESPACE);
    var r := Resolution(ResolvedSubAgents(v.urls, spec.subAgents, ns), SubAgentIssues(v.urls, spec.subAgents, ns),
                        seq(|spec.tools|, i requires 0 <= i < |spec.tools| => ResolveToolServerUrl(v.servers, spec.tools[i], ns)),
                        ResolveGateway(list, spec.aiGatewayRef, ns, DEFAULT_AI_GATEWAY_NAMESPACE), v.config);
    assert Resolves(v, spec, ns, r);
    o := OutcomeOf(r);
  }

  /******* The mappers *******/

  /** The objects that the mappers associate with an Agent. */
  ghost predicate Mentions(spec: AgentSpec, ns: string, e: Event) {
    match e
    case AgentChanged(k) => ReferencesAgent(spec.subAgents, ns, k)
    case ServerChanged(k) => ReferencesToolServer(spec.tools, ns, k)
    case GatewayChanged(k) => WouldUseGateway(spec.aiGatewayRef, ns, DEFAULT_AI_GATEWAY_NAMESPACE, k)
    case ConfigChanged => true
  }

  /** Who is enqueued for an event: what the mappers return, and a changed Agent
      itself. */
  ghost function Woken(specs: map<Key, AgentSpec>, e: Event): set<Key> {
    (if e.AgentChanged? then {e.key} else {}) + set k | k in specs && Mentions(specs[k], k.ns, e)
  }

  /** That is: the Agent itself and its parents, the users of a ToolServer, those
      that name a gateway or would use it by default, or everybody. */
  lemma WokenIs(specs: map<Key, AgentSpec>, k: Key)
    ensures Woken(specs, AgentChanged(k)) == {k} + Parents(specs, k)
    ensures Woken(specs, ServerChanged(k)) == set j | j in specs && ReferencesToolServer(specs[j].tools, j.ns, k)
    ensures Woken(specs, GatewayChanged(k)) ==
            set j | j in specs && WouldUseGateway(specs[j].aiGatewayRef, j.ns, "ai-gateway", k)
    ensures Woken(specs, ConfigChanged) == specs.Keys
  {
  }

  /** Together the mappers are complete: objects that none of them associates with
      an Agent may all change without changing any outcome of its reconcile. */
  lemma UnmentionedIsHarmless(v: View, v': View, spec: AgentSpec, ns: string, o: Outcome)
    requires forall e :: Mentions(spec, ns, e) ==> SameFor(v, v', e)
    requires IsOutcome(v, spec, ns, o)
    ensures IsOutcome(v', spec, ns, o)
  {
    var r :| Resolves(v, spec, ns, r) && o == OutcomeOf(r);
    assert Resolves(v', spec, ns, r) by {
      forall k
        ensures ReferencesAgent(spec.subAgents, ns, k) ==> SameAt(v.urls, v'.urls, k)
        ensures ReferencesToolServer(spec.tools, ns, k) ==> SameAt(v.servers, v'.servers, k)
        ensures WouldUseGateway(spec.aiGatewayRef, ns, DEFAULT_AI_GATEWAY_NAMESPACE, k) ==> SameAt(v.gateways, v'.gateways, k)
      {
        assert Mentions(spec, ns, AgentChanged(k)) ==> SameFor(v, v', AgentChanged(k));
        assert Mentions(spec, ns, ServerChanged(k)) ==> SameFor(v, v', ServerChanged(k));
        assert Mentions(spec, ns, GatewayChanged(k)) ==> SameFor(v, v', GatewayChanged(k));
      }
      SubAgentFrame(v.urls, v'.urls, spec.subAgents, ns);
      forall i | 0 <= i < |spec.tools|
        ensures r.tools[i] == ResolveToolServerUrl(v'.servers, spec.tools[i], ns)
      {
        ToolFrame(v.servers, v'.servers, spec.tools, ns, i);
      }
      GatewayFrame(v.gateways, v'.gateways, spec.aiGatewayRef, ns, DEFAULT_AI_GATEWAY_NAMESPACE, r.gateway);
      assert Mentions(spec, ns, ConfigChanged) && SameFor(v, v', ConfigChanged);
    }
  }

  /******* Runs *******/

  /** A reconcile under way: the spec it fetched, and for every object what was or
      will be read of it. */
  datatype Work = Work(spec: AgentSpec, base: View)

  /** `specs` and `view` are the controller's cache, `changed` the events whose
      mappers have yet to run, and `done` where the last reconcile of each Agent
      ended. */
  datatype State = State(
    specs: map<Key, AgentSpec>,
    view: View,
    changed: set<Event>,
    queue: set<Key>,
    inflight: map<Key, Work>,
    done: map<Key, Outcome>)

  /** `v` with the object of an event as it is in `from`. */
  function UpdatedView(v: View, from: View, e: Event): View {
    match e
    case AgentChanged(k) => v.(urls := Updated(v.urls, from.urls, k))
    case ServerChanged(k) => v.(servers := Updated(v.servers, from.servers, k))
    case GatewayChanged(k) => v.(gateways := Updated(v.gateways, from.gateways, k))
    case ConfigChanged => v.(config := from.config)
  }

  ghost predicate ReadsEither(work: Work, work': Work, view': View, e: Event) {
    work' == work || work' == work.(base := UpdatedView(work.base, view', e))
  }

  /** One object is created, edited or deleted; an Agent's spec may change with its
      status.  A reconcile under way reads it before or after that. */
  ghost predicate Change(s: State, s': State, e: Event) {
    && (forall e' :: e' != e ==> SameFor(s.view, s'.view, e'))
    && (forall k :: e != AgentChanged(k) ==> SameAt(s.specs, s'.specs, k))
    && s'.changed == s.changed + {e}
    && s'.inflight.Keys == s.inflight.Keys
    && (forall k :: k in s.inflight ==> ReadsEither(s.inflight[k], s'.inflight[k], s'.view, e))
    && s.queue <= s'.queue && s'.done == s.done
  }

  /** The mappers run for an event.  As in every step, more may be enqueued. */
  ghost predicate Map(s: State, s': State, e: Event) {
    && e in s.changed && s.queue + Woken(s.specs, e) <= s'.queue
    && s' == s.(changed := s.changed - {e}, queue := s'.queue)
  }

  /** A worker fetches an Agent and begins to resolve its references. */
  ghost predicate Begin(s: State, s': State, k: Key) {
    && k in s.queue && k !in s.inflight && s.queue - {k} <= s'.queue
    && s' == s.(queue := s'.queue,
                inflight := if k in s.specs then s.inflight[k := Work(s.specs[k], s.view)] else s.inflight)
  }

  /** A reconcile ends.  One that failed may be retried or not. */
  ghost predicate Finish(s: State, s': State, k: Key, o: Outcome) {
    && k in s.inflight && IsOutcome(s.inflight[k].base, s.inflight[k].spec, k.ns, o)
    && s.queue <= s'.queue
    && s' == s.(inflight := s.inflight - {k}, done := s.done[k := o], queue := s'.queue)
  }

  /** Reading or writing failed otherwise, and the work queue retries. */
  ghost predicate Abort(s: State, s': State, k: Key) {
    && k in s.inflight && s.queue + {k} <= s'.queue
    && s' == s.(inflight := s.inflight - {k}, queue := s'.queue)
  }

  ghost predicate Next(s: State, s': State) {
    || (exists e :: Change(s, s', e) || Map(s, s', e))
    || (exists k :: Begin(s, s', k) || Abort(s, s', k))
    || (exists k, o :: Finish(s, s', k, o))
  }

  /** The controller starts: every Agent is enqueued. */
  ghost predicate Init(s: State) {
    s.changed == {} && s.specs.Keys <= s.queue && s.inflight == map[]
  }

  ghost predicate IsStep(run: seq<State>, i: nat) {
    i + 1 < |run| && Next(run[i], run[i + 1])
  }

  ghost predicate IsRun(run: seq<State>) {
    && |run| > 0 && Init(run[0])
    && forall i :: 0 <= i < |run| - 1 ==> IsStep(run, i)
  }

  /** What may happen in a state: any change, of which a reconcile under way may
      or may not see the new object. */
  lemma AnyChangeMayHappen(s: State, e: Event, from: View, k: Key)
    requires k in s.inflight
    ensures var s' := s.(view := UpdatedView(s.view, from, e), changed := s.changed + {e});
            Next(s, s') &&
            Next(s, s'.(inflight := s.inflight[k := s.inflight[k].(base := UpdatedView(s.inflight[k].base, s'.view, e))]))
  {
    var s' := s.(view := UpdatedView(s.view, from, e), changed := s.changed + {e});
    var s'' := s'.(inflight := s.inflight[k := s.inflight[k].(base := UpdatedView(s.inflight[k].base, s'.view, e))]);
    forall e' | e' != e
      ensures SameFor(s.view, s'.view, e')
    {
      UpdatedViewFor(s.view, from, e, e');
    }
    assert Change(s, s', e);
    assert Change(s, s'', e);
  }

  lemma SpecsMayChange(s: State, k: Key, specs: map<Key, AgentSpec>, more: set<Key>)
    requires SameExcept(s.specs, specs, k)
    ensures Next(s, s.(specs := specs, changed := s.changed + {AgentChanged(k)}, queue := s.queue + more))
  {
    var s' := s.(specs := specs, changed := s.changed + {AgentChanged(k)}, queue := s.queue + more);
    forall x | x != k
      ensures SameAt(s.specs, specs, x)
    {
      SameExceptAt(s.specs, specs, k, x);
    }
    assert Change(s, s', AgentChanged(k));
  }

  /** The mappers of any event may run, and whoever else is enqueued. */
  lemma MappersMayRun(s: State, e: Event, more: set<Key>)
    requires e in s.changed
    ensures Next(s, s.(changed := s.changed - {e}, queue := s.queue + Woken(s.specs, e) + more))
  {
    assert Map(s, s.(changed := s.changed - {e}, queue := s.queue + Woken(s.specs, e) + more), e);
  }

  /** Any Agent in the queue may be reconciled, with success, with failure, and
      whether it still exists or not. */
  lemma ReconcilesMayRun(s: State, k: Key, o: Outcome)
    ensures k in s.queue && k !in s.inflight && k in s.specs ==>
              Next(s, s.(queue := s.queue - {k}, inflight := s.inflight[k := Work(s.specs[k], s.view)]))
    ensures k in s.queue && k !in s.inflight && k !in s.specs ==> Next(s, s.(queue := s.queue - {k}))
    ensures k in s.inflight && IsOutcome(s.inflight[k].base, s.inflight[k].spec, k.ns, o) ==>
              Next(s, s.(inflight := s.inflight - {k}, done := s.done[k := o])) &&
              Next(s, s.(inflight := s.inflight - {k}, done := s.done[k := o], queue := s.queue + {k}))
    ensures k in s.inflight ==> Next(s, s.(inflight := s.inflight - {k}, queue := s.queue + {k}))
  {
    if k in s.queue && k !in s.inflight && k in s.specs {
      assert Begin(s, s.(queue := s.queue - {k}, inflight := s.inflight[k := Work(s.specs[k], s.view)]), k);
    }
    if k in s.queue && k !in s.inflight && k !in s.specs {
      assert Begin(s, s.(queue := s.queue - {k}), k);
    }
    if k in s.inflight {
      assert Abort(s, s.(inflight := s.inflight - {k}, queue := s.queue + {k}), k);
      if IsOutcome(s.inflight[k].base, s.inflight[k].spec, k.ns, o) {
        assert Finish(s, s.(inflight := s.inflight - {k}, done := s.done[k := o]), k, o);
        assert Finish(s, s.(inflight := s.inflight - {k}, done := s.done[k := o], queue := s.queue + {k}), k, o);
      }
    }
  }

  /******* Invariant *******/

  /** The objects as they were before some of the changes of `changed`. */
  ghost predicate IsBase(base: View, view: View, changed: set<Event>) {
    forall e :: e !in changed ==> SameFor(base, view, e)
  }

  /** An outcome is that of a reconcile now, but for changes not yet mapped. */
  ghost predicate FreshUpTo(view: View, changed: set<Event>, spec: AgentSpec, ns: string, o: Outcome) {
    exists base :: IsBase(base, view, changed) && IsOutcome(base, spec, ns, o)
  }

  ghost predicate UpToDate(s: State, k: Key)
    requires k in s.specs
  {
    k in s.done && FreshUpTo(s.view, s.changed, s.specs[k], k.ns, s.done[k])
  }

  /** A reconcile of `k` will start, or start again. */
  ghost predicate Awaited(s: State, k: Key) {
    k in s.queue || AgentChanged(k) in s.changed
  }

  /** What is known about a reconcile that will not be repeated. */
  ghost predicate WorkOk(view: View, changed: set<Event>, spec: AgentSpec, ns: string, work: Work) {
    && work.spec == spec
    && forall e :: e !in changed && Mentions(spec, ns, e) ==> SameFor(work.base, view, e)
  }

  ghost predicate Inv(s: State) {
    forall k :: k in s.specs ==>
      || Awaited(s, k)
      || (if k in s.inflight then WorkOk(s.view, s.changed, s.specs[k], k.ns, s.inflight[k]) else UpToDate(s, k))
  }

  /******* Changes *******/

  lemma ChangeKeepsFresh(view: View, view': View, changed: set<Event>, e: Event, spec: AgentSpec, ns: string, o: Outcome)
    requires FreshUpTo(view, changed, spec, ns, o)
    requires forall e' :: e' != e ==> SameFor(view, view', e')
    ensures FreshUpTo(view', changed + {e}, spec, ns, o)
  {
    var base :| IsBase(base, view, changed) && IsOutcome(base, spec, ns, o);
    forall e' | e' !in changed + {e}
      ensures SameFor(base, view', e')
    {
      SameForTransitive(base, view, view', e');
    }
    assert IsBase(base, view', changed + {e});
  }

  lemma SameForTransitive(v: View, v': View, v'': View, e: Event)
    requires SameFor(v, v', e) && SameFor(v', v'', e)
    ensures SameFor(v, v'', e)
  {
  }

  lemma UpdatedViewFor(v: View, from: View, e: Event, e': Event)
    ensures SameFor(UpdatedView(v, from, e), if e' == e then from else v, e')
  {
  }

  lemma ChangeKeepsWorkOk(view: View, view': View, changed: set<Event>, e: Event, spec: AgentSpec, ns: string,
                          work: Work, work': Work)
    requires WorkOk(view, changed, spec, ns, work) && ReadsEither(work, work', view', e)
    requires forall e' :: e' != e ==> SameFor(view, view', e')
    ensures WorkOk(view', changed + {e}, spec, ns, work')
  {
    forall e' | e' !in changed + {e} && Mentions(spec, ns, e')
      ensures SameFor(work'.base, view', e')
    {
      UpdatedViewFor(work.base, view', e, e');
      SameForTransitive(work.base, view, view', e');
    }
  }

  lemma ChangeKeepsInv(s: State, s': State, e: Event)
    requires Inv(s) && Change(s, s', e)
    ensures Inv(s')
  {
    forall k | k in s'.specs && !Awaited(s', k)
      ensures if k in s'.inflight then WorkOk(s'.view, s'.changed, s'.specs[k], k.ns, s'.inflight[k]) else UpToDate(s', k)
    {
      assert SameAt(s.specs, s'.specs, k) && !Awaited(s, k);
      if k in s'.inflight {
        ChangeKeepsWorkOk(s.view, s'.view, s.changed, e, s.specs[k], k.ns, s.inflight[k], s'.inflight[k]);
      } else {
        ChangeKeepsFresh(s.view, s'.view, s.changed, e, s.specs[k], k.ns, s.done[k]);
      }
    }
  }

  /** When the mappers skip an Agent, the change may be applied to what its last
      reconcile saw. */
  lemma SkippedStaysFresh(view: View, changed: set<Event>, e: Event, spec: AgentSpec, ns: string, o: Outcome)
    requires FreshUpTo(view, changed, spec, ns, o) && !Mentions(spec, ns, e)
    ensures FreshUpTo(view, changed - {e}, spec, ns, o)
  {
    var base :| IsBase(base, view, changed) && IsOutcome(base, spec, ns, o);
    var base' := UpdatedView(base, view, e);
    forall e'
      ensures e' !in changed - {e} ==> SameFor(base', view, e')
      ensures e' != e ==> SameFor(base, base', e')
    {
      UpdatedViewFor(base, view, e, e');
    }
    assert IsBase(base', view, changed - {e});
    UnmentionedIsHarmless(base, base', spec, ns, o);
  }

  lemma MapKeepsInv(s: State, s': State, e: Event)
    requires Inv(s) && Map(s, s', e)
    ensures Inv(s')
  {
    forall k | k in s'.specs && !Awaited(s', k)
      ensures if k in s'.inflight then WorkOk(s'.view, s'.changed, s'.specs[k], k.ns, s'.inflight[k]) else UpToDate(s', k)
    {
      assert k !in Woken(s.specs, e) && !Awaited(s, k);
      if k !in s'.inflight {
        SkippedStaysFresh(s.view, s.changed, e, s.specs[k], k.ns, s.done[k]);
      }
    }
  }

  /******* Reconciles *******/

  lemma BeginKeepsInv(s: State, s': State, k: Key)
    requires Inv(s) && Begin(s, s', k)
    ensures Inv(s')
  {
    forall j | j in s'.specs && !Awaited(s', j)
      ensures if j in s'.inflight then WorkOk(s'.view, s'.changed, s'.specs[j], j.ns, s'.inflight[j]) else UpToDate(s', j)
    {
      assert j != k ==> !Awaited(s, j);
    }
  }

  ghost function Agents(events: set<Event>): set<Key> {
    set e | e in events && e.AgentChanged? :: e.key
  }

  ghost function Servers(events: set<Event>): set<Key> {
    set e | e in events && e.ServerChanged? :: e.key
  }

  ghost function Gateways(events: set<Event>): set<Key> {
    set e | e in events && e.GatewayChanged? :: e.key
  }

  /** The objects of `changed` as in `base`, and all others as in `view`. */
  ghost function MixedView(base: View, view: View, changed: set<Event>): View {
    View(Mixed(base.urls, view.urls, Agents(changed)),
         Mixed(base.servers, view.servers, Servers(changed)),
         Mixed(base.gateways, view.gateways, Gateways(changed)),
         if ConfigChanged in changed then base.config else view.config)
  }

  lemma MixedViewFor(base: View, view: View, changed: set<Event>, e: Event)
    ensures SameFor(MixedView(base, view, changed), if e in changed then base else view, e)
  {
    match e
    case AgentChanged(k) => MixedAt(base.urls, view.urls, Agents(changed), k);
    case ServerChanged(k) => MixedAt(base.servers, view.servers, Servers(changed), k);
    case GatewayChanged(k) => MixedAt(base.gateways, view.gateways, Gateways(changed), k);
    case ConfigChanged =>
  }

  /** A reconcile whose reads are spread over time ends as one that sees the present
      objects, but for changes not yet mapped. */
  lemma FinishedIsFresh(view: View, changed: set<Event>, spec: AgentSpec, ns: string, work: Work, o: Outcome)
    requires WorkOk(view, changed, spec, ns, work) && IsOutcome(work.base, spec, ns, o)
    ensures FreshUpTo(view, changed, spec, ns, o)
  {
    var base := MixedView(work.base, view, changed);
    forall e
      ensures e !in changed ==> SameFor(base, view, e)
      ensures Mentions(spec, ns, e) ==> SameFor(work.base, base, e)
    {
      MixedViewFor(work.base, view, changed, e);
    }
    assert IsBase(base, view, changed);
    UnmentionedIsHarmless(work.base, base, spec, ns, o);
  }

  lemma FinishKeepsInv(s: State, s': State, k: Key, o: Outcome)
    requires Inv(s) && Finish(s, s', k, o)
    ensures Inv(s')
  {
    forall j | j in s'.specs && !Awaited(s', j)
      ensures if j in s'.inflight then WorkOk(s'.view, s'.changed, s'.specs[j], j.ns, s'.inflight[j]) else UpToDate(s', j)
    {
      assert !Awaited(s, j);
      if j == k {
        FinishedIsFresh(s.view, s.changed, s.specs[k], k.ns, s.inflight[k], o);
      }
    }
  }

  lemma AbortKeepsInv(s: State, s': State, k: Key)
    requires Inv(s) && Abort(s, s', k)
    ensures Inv(s')
  {
    forall j | j in s'.specs && !Awaited(s', j)
      ensures if j in s'.inflight then WorkOk(s'.view, s'.changed, s'.specs[j], j.ns, s'.inflight[j]) else UpToDate(s', j)
    {
      assert !Awaited(s, j);
    }
  }

  lemma NextKeepsInv(s: State, s': State)
    requires Inv(s) && Next(s, s')
    ensures Inv(s')
  {
    if e :| Change(s, s', e) {
      ChangeKeepsInv(s, s', e);
    } else if e :| Map(s, s', e) {
      MapKeepsInv(s, s', e);
    } else if k, o :| Finish(s, s', k, o) {
      FinishKeepsInv(s, s', k, o);
    } else if k :| Begin(s, s', k) {
      BeginKeepsInv(s, s', k);
    } else {
      var k :| Abort(s, s', k);
      AbortKeepsInv(s, s', k);
    }
  }

  lemma {:induction false} RunKeepsInv(run: seq<State>, i: nat)
    requires IsRun(run) && i < |run|
    ensures Inv(run[i])
  {
    if i > 0 {
      RunKeepsInv(run, i - 1);
      assert IsStep(run, i - 1);
      NextKeepsInv(run[i - 1], run[i]);
    }
  }

  /** At every moment of every run each Agent is enqueued, about to be by an event on
      its way, being reconciled, or its last reconcile ended as one would now, but
      for changes the mappers have yet to see. */
  lemma ReferencesStayFresh(run: seq<State>, i: nat, k: Key)
    requires IsRun(run) && i < |run| && k in run[i].specs
    ensures Awaited(run[i], k) || k in run[i].inflight || UpToDate(run[i], k)
  {
    RunKeepsInv(run, i);
  }

  /** Once every event is mapped, an Agent that is neither queued nor in flight was
      last reconciled with what its references resolve to now. */
  lemma QuietAgentsAreFresh(run: seq<State>, i: nat, k: Key)
    requires IsRun(run) && i < |run| && k in run[i].specs
    requires run[i].changed == {} && k !in run[i].queue && k !in run[i].inflight
    ensures k in run[i].done && IsOutcome(run[i].view, run[i].specs[k], k.ns, run[i].done[k])
  {
    ReferencesStayFresh(run, i, k);
    var view, o := run[i].view, run[i].done[k];
    var base :| IsBase(base, view, {}) && IsOutcome(base, run[i].specs[k], k.ns, o);
    UnmentionedIsHarmless(base, view, run[i].specs[k], k.ns, o);
  }

  /******* Every run can come to rest *******/

  lemma StartingRun(specs: map<Key, AgentSpec>, view: View) returns (run: seq<State>)
    ensures IsRun(run) && |run| == 1 && run[0].specs == specs && run[0].view == view
  {
    run := [State(specs, view, {}, specs.Keys, map[], map[])];
  }

  ghost function End(run: seq<State>): State
    requires run != []
  {
    run[|run| - 1]
  }

  lemma ContinueRun(run: seq<State>, s: State) returns (run': seq<State>)
    requires IsRun(run) && Next(End(run), s)
    ensures IsRun(run') && run' == run + [s] && End(run') == s
  {
    run' := run + [s];
    forall i | 0 <= i < |run'| - 1
      ensures IsStep(run', i)
    {
      if i < |run| - 1 {
        assert IsStep(run, i);
      }
    }
  }

  /** What stays while work is done and nothing changes. */
  ghost predicate SameObjects(s: State, s': State) {
    s'.specs == s.specs && s'.view == s.view
  }

  lemma {:induction false} MapAll(run: seq<State>) returns (run': seq<State>)
    requires IsRun(run)
    ensures IsRun(run') && run <= run' && End(run').changed == {} && SameObjects(End(run), End(run'))
    decreases End(run).changed
  {
    run' := run;
    var s := End(run);
    if s.changed != {} {
      var e :| e in s.changed;
      MappersMayRun(s, e, {});
      var run1 := ContinueRun(run, s.(changed := s.changed - {e}, queue := s.queue + Woken(s.specs, e) + {}));
      run' := MapAll(run1);
    }
  }

  lemma FinishOne(s: State, k: Key) returns (s': State)
    requires k in s.inflight
    ensures Next(s, s') && SameObjects(s, s') && s'.changed == s.changed
    ensures s'.queue == s.queue && s'.inflight == s.inflight - {k}
  {
    var o := OutcomeExists(s.inflight[k].base, s.inflight[k].spec, k.ns);
    ReconcilesMayRun(s, k, o);
    s' := s.(inflight := s.inflight - {k}, done := s.done[k := o]);
  }

  lemma {:induction false} FinishAll(run: seq<State>) returns (run': seq<State>)
    requires IsRun(run)
    ensures IsRun(run') && run <= run' && SameObjects(End(run), End(run')) && End(run').changed == End(run).changed
    ensures End(run').queue == End(run).queue && End(run').inflight == map[]
    decreases End(run).inflight.Keys
  {
    run' := run;
    var s := End(run);
    if s.inflight != map[] {
      var k :| k in s.inflight;
      var s' := FinishOne(s, k);
      var run1 := ContinueRun(run, s');
      run' := FinishAll(run1);
    }
  }

  lemma BeginOne(s: State, k: Key) returns (s': State)
    requires k in s.queue && s.inflight == map[]
    ensures Next(s, s') && SameObjects(s, s') && s'.changed == s.changed && s'.queue == s.queue - {k}
  {
    ReconcilesMayRun(s, k, ConfigFailed);
    s' := s.(queue := s.queue - {k}, inflight := if k in s.specs then s.inflight[k := Work(s.specs[k], s.view)] else s.inflight);
  }

  lemma {:induction false} WorkAll(run: seq<State>) returns (run': seq<State>)
    requires IsRun(run)
    ensures IsRun(run') && run <= run' && SameObjects(End(run), End(run')) && End(run').changed == End(run).changed
    ensures End(run').queue == {} && End(run').inflight == map[]
    decreases End(run).queue
  {
    run' := FinishAll(run);
    var s := End(run');
    if s.queue != {} {
      var k :| k in s.queue;
      var s' := BeginOne(s, k);
      var run1 := ContinueRun(run', s');
      run' := WorkAll(run1);
    }
  }

  /** If nothing changes any more, a run can go on until every Agent was reconciled
      with what its references resolve to, and nothing is left to do. */
  lemma RunsCanSettle(run: seq<State>) returns (run': seq<State>)
    requires IsRun(run)
    ensures IsRun(run') && run <= run' && SameObjects(End(run), End(run'))
    ensures End(run').changed == {} && End(run').queue == {} && End(run').inflight == map[]
    ensures forall k :: k in End(run').specs ==>
              k in End(run').done && IsOutcome(End(run').view, End(run').specs[k], k.ns, End(run').done[k])
  {
    var run1 := MapAll(run);
    run' := WorkAll(run1);
    forall k | k in End(run').specs
      ensures k in End(run').done && IsOutcome(End(run').view, End(run').specs[k], k.ns, End(run').done[k])
    {
      QuietAgentsAreFresh(run', |run'| - 1, k);
    }
  }

  /******* URLs that outlive what they depend on *******/

  /** The Status.Url after a reconcile: a failed resolution of the configuration, a
      sub-agent or a tool returns before any status is written. */
  function UrlAfter(url: string, k: Key, spec: AgentSpec, o: Outcome): string {
    match o
    case GatewayMissing(_) => ""
    case Deployed(_, _, _, _) => Readiness.CardUrl(k, spec)
    case _ => url
  }

  lemma UrlAfterIs(url: string, k: Key, spec: AgentSpec, o: Outcome)
    ensures UrlAfter(url, k, spec, o) ==
            if o.Deployed? then Readiness.CardUrl(k, spec) else if o.GatewayMissing? then "" else url
  {
  }

  predicate AllResolve(r: Resolution) {
    !r.config.SeveralConfigs? && r.issues == [] && !SomeToolFails(r.tools) && r.gateway.Ok?
  }

  /** An Agent with a URL keeps it although not all its references resolve exactly
      when something before the gateway fails. */
  lemma UrlKeptIff(url: string, k: Key, spec: AgentSpec, r: Resolution)
    requires url != ""
    ensures UrlAfter(url, k, spec, OutcomeOf(r)) == url && !AllResolve(r) <==>
            r.config.SeveralConfigs? || r.issues != [] || SomeToolFails(r.tools)
  {
  }

  /** A parent whose only sub-agent was deleted, and an Agent above it: whatever the
      reconcile of the parent finds, its URL stays, and the Agent above still
      resolves to it. */
  lemma UrlOutlivesSubAgent(v: View, k: Key, spec: AgentSpec, gone: ObjectRef, r: Resolution, above: SubAgent)
    requires spec.subAgents == [SubAgent("child", Some(gone), "", "tool_call")]
    requires k in v.urls && v.urls[k] != "" && Target(gone, k.ns) !in v.urls && Resolves(v, spec, k.ns, r)
    requires above.url == "" && above.agentRef == Some(ObjectRef(k.ns, k.name)) && k.ns != ""
    ensures UrlAfter(v.urls[k], k, spec, OutcomeOf(r)) == v.urls[k]
    ensures ResolveSubAgentUrl(v.urls, above, k.ns) == Ok(v.urls[k])
  {
    NoIssuesIffResolved(v.urls, spec.subAgents, k.ns);
    assert ResolveSubAgentUrl(v.urls, spec.subAgents[0], k.ns).Err?;
  }
}
