# Verification model of the agent runtime operator

A Dafny model of the parts of the operator that carry its guarantees: readiness
propagation between Agents, workforce discovery, the checkpoint chains, the
Deployment mutation, and the smaller algorithms around them. `dafny verify
dfyconfig.toml` checks everything.

| file | models |
|---|---|
| `Kube.dfy`, `Text.dfy` | keys, references, the Agent spec; decimal printing and parsing |
| `Resolve.dfy` | resolution of sub-agents, swarm members, tools and gateways, and the watch mappers |
| `Readiness.dfy` | interleaved reconciles of Agents over a reference graph that may have cycles |
| `AgentWatch.dfy` | the watches of the Agent controller while all objects it reads are created, edited and deleted |
| `Workforce.dfy`, `WorkforceWatch.dfy` | the depth-first traversal, its reverse index, and runs of both |
| `Merkle.dfy`, `StatusChain.dfy` | hash chains; status writers, optimistic locking, concurrent reconcilers |
| `Deployment.dfy`, `Preview.dfy` | the mutation through slices and pointers; the simulation preview |
| `Env.dfy` | environment merge, sanitized names, the SUB_AGENTS object |
| `Mounts.dfy` | path cleaning and the mount nesting check |
| `Cost.dfy`, `CostMonitor.dfy` | cost projection, decisions, and the decision cache |
| `Signature.dfy` | the r\|\|s encoding of signatures and 32-byte field elements |

## How to read it

Objects that the operator updates in place are classes (`Traversal`, `PodSpec`,
`Object`, `AgentObject`, `ApiServer`, `Monitor`), loops are loops, and each method
is proved against a specification function or predicate. Protocols are state
machines: `Init`, one predicate per kind of step, `Next`, and lemmas about every
state of every run. Steps may enqueue more than the operator asks for, so resyncs
and unrelated events are covered.

* **Meaning.** What a specification function means is stated apart from it: lemmas
  whose names end in `Is`, `Are`, `Iff` or `AfterPass` describe it by the fields of the
  objects it reads, and lemmas whose names contain `May` give the steps that are
  possible in a state.
* **Readiness.** The controller reads a cache that lags behind the API server, a
  reconcile reads before it writes, and a write from an old version is refused. A
  reconcile that fails to resolve something is dropped, so that the watch alone has
  to be sufficient.
  Liveness is stated in rounds: in each, the events on their way are delivered, and
  then what is queued or in flight is handled, in any order.
* **Watches.** `AgentWatch` has runs in which anything may change at any time, each
  read of a reconcile has a moment of its own, and a mapper runs some time after the
  object changed. "Fresh" means: but for changes whose mapper has yet to run.
* **Workforces.** A traversal reads each agent at a moment of its own and its result
  is written later; the workforces that the controller reads lag behind those
  stored; the mapper runs some time after an agent changed. What makes this safe is
  that a changed status raises an event for the workforce itself. The traversal
  assumes only that existing Agents have DNS names and that URLs have a scheme,
  which the API server and the webhook ensure; references may name anything.
* **Hash chains.** The hash is any function to 64 hexadecimal characters. Since such
  a function always has collisions, "or there is a collision" alone would say
  nothing: the colliding strings are among those hashed by the two histories.
* **Deployment.** A slice is an array and a length, and a container pointer an
  array and an index. The spare capacity after each append is arbitrary.
* **Costs** are exact reals.

## Findings

* `ensureDeployment` can lose the liveness probe in the pass that appends a sidecar,
  because the pointer to the agent container is then stale. The probe lands if and
  only if the containers fit into the capacity the slice had when the pointer was
  taken (`Deployment.PodSpec.Mutate`); the next pass changes something exactly if it
  did not land and one was to be written (`Deployment.SecondPassChangesIff`), and
  repairs it (`Deployment.MutationConverges`). `Deployment.LosesProbe` is an input:
  one agent container, no spare room, a tool sandbox and self-healing.
* With `suspendOnBudgetExhaust` an agent is suspended when the prediction exceeds
  the mode's share of the budget (70, 80 or 90 %), not the budget itself. The exact
  condition is `Cost.SuspendedIff`, an input `Cost.SuspendedBelowBudget`.
* A mount under `/` is not reported as nested: `Mounts.RootMountNotReported` for `/`
  and `/data`. `Mounts.PrefixTest` gives the exact relation: strict component prefix,
  unless the outer path has no components.
* Sub-agent names that are not DNS labels can be sanitized alike
  (`Env.SanitizedNotInjective`), and SUB_AGENTS then has fewer entries;
  `Env.BuildSubAgentsMap` states exactly when.
* The comment on `mergeEnvironmentVariables` promises the original order where
  possible; the code sorts by name. The original order is kept if and only if it is
  sorted already (`Env.OrderKeptIffSorted`), which that of the template variables
  never is (`Env.TemplateOrderNeverKept`). The example in the comment has another
  result than it says (`Env.DocumentedExampleFails`).
* An empty optimization mode means "auto" in the code, although the resource
  definition's default is "conservative". The two decide differently if and only if
  the reported cost lies between 80 and 90 % of a positive budget
  (`Cost.EmptyModeDiffersIff`; an input is `Cost.EmptyModeDiffers`). The default fills
  in an omitted mode and the enumeration refuses an explicit empty one, so that only
  an Agent stored before that validation, or a direct caller, passes an empty mode.
* An Agent keeps its URL, and Agents above it keep resolving to it, when a sub-agent
  or a ToolServer disappears or the runtime configuration becomes ambiguous, because
  the reconcile returns before any status is written; only a missing gateway clears
  the URL. `AgentWatch.UrlKeptIff` is the exact condition, and
  `AgentWatch.UrlOutlivesSubAgent` the case of a deleted sub-agent.
* The slices of a workforce's status follow Go's random map order, although a comment
  speaks of consistent output. The agents determine them if and only if there is at
  most one agent and at most one tool (`Workforce.ListsDeterminedIff`, up to the name
  recorded for a shared URL). As every changed status enqueues the workforce again,
  one with several agents may be rewritten for ever in a cluster where nothing
  changes (`WorkforceWatch.StatusMayNeverSettle`).
* For a price beyond the range of a float64 the monitor keeps the infinity that parsing
  yields with its error, while the reconciler's own computation uses zero. They agree
  if and only if the price is in range (`CostMonitor.MonitorAgreesIff`).
* Default gateway selection takes the first gateway listed, and lists come in no
  promised order. A dependent without a reference therefore resolves to one
  determined gateway if and only if the default namespace holds at most one
  (`Resolve.ResolutionDeterminedIff`).

## Model

| member | source | states |
|---|---|---|
| Resolve.SubAgentUrl | internal/controller/agent_subagent.go:65-99 | A remote sub-agent resolves to its own URL; a cluster one to the Status.Url of the Agent it names, with the parent's namespace as default, if there is one; otherwise the error says what is missing |
| Resolve.ToolServerUrl | internal/controller/agent_tool.go:63-102 | A remote tool resolves to its own URL; a cluster one to the gateway URL of its ToolServer if that has one, and else to its direct URL |
| Resolve.ResolveAllSubAgents | internal/controller/agent_subagent.go:42-63 | Every failing sub-agent is reported, in order, and resolution succeeds if and only if each one resolves |
| Resolve.IssuesInOrder | internal/controller/agent_subagent.go:46-60 | Every failing sub-agent has its issue, after those of the sub-agents before it |
| Resolve.LastSubAgentWins | internal/controller/agent_subagent.go:46-56 | A name is resolved iff some sub-agent of that name resolves; the last such one determines URL and interaction type |
| Resolve.FindAgentsReferencingSubAgent | internal/controller/agent_subagent.go:101-143 | Returns each Agent that names the updated one as a sub-agent exactly once, and no other |
| Resolve.ReferencesAgentIff | internal/controller/agent_subagent.go:115-125 | A reference names an Agent by name and by namespace, with that of the parent as default |
| Resolve.SubAgentWatchComplete | internal/controller/agent_subagent.go:65-99 | If clusters that differ in one Agent give different resolutions (or different issues), the dependent references that Agent, with namespace defaulting; also holds for swarm members |
| Resolve.FindSwarmsReferencingAgent | internal/controller/swarm_reconciler.go:425-459 | Returns exactly the swarms with a member that references the updated Agent |
| Resolve.ResolveSwarmAgents | internal/controller/swarm_reconciler.go:137-156 | The URL map is that of the resolvable members, and ready members plus failed ones make up the total |
| Resolve.FindAgentsReferencingToolServer | internal/controller/agent_tool.go:104-151 | Returns exactly the Agents with a tool that references the updated ToolServer |
| Resolve.ReferencesToolServerIff | internal/controller/agent_tool.go:118-134 | The same of tools and ToolServers |
| Resolve.ToolServerWatchComplete | internal/controller/agent_tool.go:63-102 | A tool URL that differs between clusters differing in one ToolServer belongs to an Agent that references it |
| Resolve.FindReferencingGateway | internal/controller/agent_aigateway.go:116-182 | Returns exactly the dependents that reference the gateway, or have no reference while the gateway is in the default namespace |
| Resolve.WouldUseGatewayIff | internal/controller/agent_aigateway.go:138-166 | A gateway concerns those that name it, and without a reference those for whom it is in the default namespace |
| Resolve.MayResolveIs | internal/controller/agent_aigateway.go:46-110 | An explicit reference resolves to the gateway of that name or fails; without one some gateway in "ai-gateway" is taken, or none if there is none |
| Resolve.GatewayWatchComplete | internal/controller/agent_aigateway.go:36-110 | If two gateway lists in the same order, but for one gateway, resolve differently for a dependent, explicitly or by default selection, the mapper returns that dependent |
| Resolve.GatewayWatchCompleteInAnyOrder | internal/controller/agent_aigateway.go:36-110 | With lists in arbitrary orders a dependent that the mapper does not return can resolve differently only by default selection among several gateways |
| Resolve.MayResolveIffListed | internal/controller/agent_aigateway.go:81-110 | What a dependent may resolve to is exactly what it resolves to for some order of the list |
| Resolve.ResolutionDeterminedIff | internal/controller/agent_aigateway.go:81-110 | The gateways determine what a dependent resolves to iff it has a reference or at most one gateway is in the default namespace |
| Readiness.CardUrlIffA2A | internal/controller/agent_config.go:262-287 | The URL written for an Agent is non-empty iff it has an A2A protocol |
| Readiness.CardUrlIs | internal/controller/agent_config.go:262-287 | The URL is built from name and namespace and from port and path of the first A2A protocol |
| Readiness.ReconcileIs | internal/controller/agent_reconciler.go:121-144 | A reconcile fails iff some sub-agent or tool has no URL; otherwise it is ready iff the gateway asked for exists, in terms of the objects' fields |
| Readiness.WriteStatusIs | internal/controller/agent_reconciler.go:121-144 | Failing leaves every URL alone, not being ready clears the Agent's own, and being ready writes it |
| Readiness.FixIsFixpoint | internal/controller/agent_subagent.go:93-98 | The set of Agents that can become ready is a fixpoint of "enabled, and every cluster sub-agent is in the set" |
| Readiness.FixIsLeast | internal/controller/agent_subagent.go:93-98 | It is contained in every set closed under that rule |
| Readiness.WriteKeepsSound | internal/controller/agent_reconciler.go:121-144 | A status write decided on older but sound URLs gives a URL only to an Agent of the fixpoint, and takes none away |
| Readiness.ChangeWakes | internal/controller/agent_subagent.go:115-140 | An Agent that becomes reconcilable through the change of one Agent is among those the mapper returns for it |
| Readiness.RunsAreSafe | internal/controller/agent_reconciler.go:91-144 | At every moment of every interleaving only Agents of the least fixpoint hold a URL, it is their card URL, and no wake-up is lost |
| Readiness.ReadyMeansResolved | internal/controller/agent_subagent.go:42-99 | At every moment of every run an Agent with a URL has an A2A protocol and the gateway it asks for, and all its tools and sub-agents have URLs |
| Readiness.WorkersMayAct | internal/controller/agent_reconciler.go:94-144 | Any queued Agent may be reconciled, from an old cache too, and a write from the newest version succeeds |
| Readiness.OthersMayAct | internal/controller/agent_reconciler.go:277-282 | Others may update an Agent, a reconcile may fail and be retried, and anything more may be enqueued |
| Readiness.OneReconcileAtATime | internal/controller/agent_reconciler.go:94-144 | A reconcile is for a queued Agent, and is the only one of that Agent until it ends |
| Readiness.ReadyStaysReady | internal/controller/agent_status.go:32-86 | With specs, tools and gateways fixed, an Agent never loses its URL |
| Readiness.RunsAreNeverStuck | internal/controller/agent_reconciler.go:637-650 | While an Agent of the fixpoint lacks its URL, one whose sub-agents are all ready is queued, in flight, or about to be woken by an event on its way |
| Readiness.RoundsReachFixpoint | internal/controller/agent_subagent.go:101-143 | Concurrent runs converge: after as many rounds as there are Agents, and ever after, exactly the Agents of the least fixpoint are ready |
| Readiness.RoundExists | internal/controller/agent_subagent.go:101-143 | Every run can be continued by a round, each write of which starts from the newest version |
| Readiness.RunsCanFinish | internal/controller/agent_reconciler.go:91-144 | No run is in a dead end: each can be continued until exactly the Agents of the least fixpoint are ready |
| Readiness.SweepsReachFixpoint | internal/controller/agent_reconciler.go:121-133 | As many full sweeps as Agents, each in any order, make exactly the Agents of the least fixpoint ready |
| Readiness.BrokenIff | internal/controller/agent_reconciler.go:121-144 | An Agent is broken iff it is missing, has no A2A protocol, a tool without URL or a sub-agent that names nothing, or lacks its gateway |
| Readiness.DependsOnIff | internal/controller/agent_subagent.go:69-85 | An Agent depends on another iff a sub-agent of it without URL names it |
| Readiness.ReadyIffNoObstacle | internal/controller/agent_subagent.go:75-98 | An Agent can become ready iff no chain of references leads from it to a missing or disabled Agent or around a cycle |
| Readiness.ObstructedNeverGetsUrl | internal/controller/agent_subagent.go:93-96 | No Agent on or leading to a cycle or a broken Agent has a URL at any moment of any run |
| AgentWatch.OutcomeIs | internal/controller/agent_reconciler.go:114-144 | The configuration is resolved first, then sub-agents, tools and the gateway; the first failure ends the reconcile |
| AgentWatch.IsOutcomeIs | internal/controller/agent_reconciler.go:114-144 | Every part of an outcome is what the objects read say |
| AgentWatch.WokenIs | internal/controller/agent_reconciler.go:637-704 | An event enqueues the Agent itself and its parents, the users of a ToolServer, those concerned by a gateway, or every Agent |
| AgentWatch.UnmentionedIsHarmless | internal/controller/agent_reconciler.go:637-704 | The mappers are complete together: sub-agents, tools, gateways and configurations that none of them associates with an Agent may all change without changing any outcome of its reconcile |
| AgentWatch.FinishedIsFresh | internal/controller/agent_reconciler.go:114-144 | A reconcile whose reads are spread over time ends as one that sees the present objects, but for changes not yet mapped |
| AgentWatch.ReferencesStayFresh | internal/controller/agent_reconciler.go:637-704 | While Agents, ToolServers, AiGateways and configurations come, change and go, each Agent is enqueued, about to be by an event on its way, being reconciled, or was last reconciled with what its references resolve to now, but for changes not yet mapped |
| AgentWatch.QuietAgentsAreFresh | internal/controller/agent_reconciler.go:637-704 | An Agent neither queued nor in flight was last reconciled with exactly what its references resolve to, once every event is mapped |
| AgentWatch.AnyChangeMayHappen | internal/controller/agent_reconciler.go:637-704 | Any object may change at any time, and a reconcile under way may see the old or the new one |
| AgentWatch.SpecsMayChange | internal/controller/agent_reconciler.go:637-704 | An Agent may be created, edited or deleted at any time |
| AgentWatch.MappersMayRun | internal/controller/agent_reconciler.go:637-704 | The mappers of any event may run |
| AgentWatch.ReconcilesMayRun | internal/controller/agent_reconciler.go:94-144 | Any queued Agent may be reconciled, with success or failure |
| AgentWatch.RunsCanSettle | internal/controller/agent_reconciler.go:94-144 | If nothing changes any more, every run can go on until every Agent was reconciled with what its references resolve to and nothing is left to do |
| AgentWatch.UrlAfterIs | internal/controller/agent_reconciler.go:114-144 | The URL is written on success, cleared when the gateway is missing, and left alone otherwise |
| AgentWatch.UrlKeptIff | internal/controller/agent_reconciler.go:114-144 | An Agent with a URL keeps it although not all its references resolve iff the configuration, a sub-agent or a tool fails |
| AgentWatch.UrlOutlivesSubAgent | internal/controller/agent_reconciler.go:121-126 | When its sub-agent was deleted, an Agent keeps its URL and an Agent above still resolves to it |
| Workforce.SubRefsIff | internal/controller/agenticworkforce_reconciler.go:233-243 | The cluster sub-agents followed are those that references name, like everywhere else |
| Workforce.RemoteUrlsIff | internal/controller/agenticworkforce_reconciler.go:243-250 | The remote ones are the URLs of sub-agents without reference |
| Workforce.ServerToolIff | internal/controller/agenticworkforce_reconciler.go:220-227 | A ToolServer is among the tools, as "namespace/name", iff a tool references it, with the agent's namespace as default |
| Workforce.UrlToolIff | internal/controller/agenticworkforce_reconciler.go:227-231 | A non-empty URL is among the tools iff a tool without reference has it |
| Workforce.EntryKeysIff | internal/controller/agenticworkforce_reconciler.go:157-165 | The traversal starts at the objects the entry points name, with the workforce's namespace as default |
| Workforce.Traversal.CollectTools | internal/controller/agenticworkforce_reconciler.go:220-231 | Adds exactly the tool keys of one agent |
| Workforce.Traversal.TraverseAgent | internal/controller/agenticworkforce_reconciler.go:188-255 | Terminates on cyclic graphs; records nothing unreachable; every agent recorded by the call is closed: its sub-agents, remote URLs and tools are recorded too |
| Workforce.ClosedIsComplete | internal/controller/agenticworkforce_reconciler.go:194-197 | A sound and closed collection that holds the entry points is exactly what is reachable, although nodes are marked before they are expanded |
| Workforce.CollectTransitiveAgentsAndTools | internal/controller/agenticworkforce_reconciler.go:150-186 | The result lists, without repetition, exactly the cluster agents reachable through existing agents (missing ones included), the URLs of their remote sub-agents, and the union of their tools; a record without URL names a reachable agent, and one with a URL is a remote sub-agent of a reachable agent |
| Workforce.ReachesIff | internal/controller/agenticworkforce_reconciler.go:188-243 | An agent is reachable iff it is an entry point or a sub-agent of a reachable agent that exists |
| Workforce.ListedToolsIff | internal/controller/agenticworkforce_reconciler.go:220-231 | A ToolServer is listed iff a tool of some reachable agent references it |
| Workforce.RecordsAreComplete | internal/controller/agenticworkforce_reconciler.go:194-248 | With admissible references there is such a record for every reachable agent and for every remote URL |
| Workforce.ListsDeterminedIff | internal/controller/agenticworkforce_reconciler.go:173-183 | The agents determine the lists, order included, iff at most one agent and at most one tool are recorded |
| Workforce.TraversalDetermined | internal/controller/agenticworkforce_reconciler.go:157-183 | Order and repetition of entry points and Go's map order do not influence the key sets |
| Workforce.TraversalFrame | internal/controller/agenticworkforce_reconciler.go:199-218 | Creating, changing or deleting any agents that the traversal did not meet, not even as missing, leaves the traversal unchanged |
| WorkforceWatch.FindWorkforcesReferencingAgent | internal/controller/agenticworkforce_reconciler.go:257-328 | Returns each workforce that names the agent as entry point or has stored it, exactly once, and no other |
| WorkforceWatch.AffectedIff | internal/controller/agenticworkforce_reconciler.go:287-324 | A workforce is affected by an agent iff the agent is one of its entry points or is recorded in its status |
| WorkforceWatch.UnmentionedIsHarmless | internal/controller/agenticworkforce_reconciler.go:287-324 | Changes of agents for which the mapper skips a workforce cannot change the traversal that this workforce has stored |
| WorkforceWatch.FinishedIsOk | internal/controller/agenticworkforce_reconciler.go:287-324 | A traversal whose reads are spread over time, and which comes to the stored result, is a fresh traversal but for changes not yet mapped |
| WorkforceWatch.WorkforcesStayFresh | internal/controller/agenticworkforce_reconciler.go:52-111 | At every moment of every run each workforce is enqueued, about to be by an event on its way, being reconciled, or its stored agents and tools are those of a fresh traversal but for changes the mapper has yet to see |
| WorkforceWatch.QuietWorkforcesAreFresh | internal/controller/agenticworkforce_reconciler.go:52-111 | A workforce with nothing left to do stores exactly a fresh traversal once every agent change is mapped |
| WorkforceWatch.AgentsMayChange | internal/controller/agenticworkforce_reconciler.go:52-111 | Any agent may change at any time, a traversal under way may see the old or the new one, and the mapper of a changed agent may run |
| WorkforceWatch.WorkforcesMayChange | internal/controller/agenticworkforce_reconciler.go:52-111 | Any workforce may be created, edited or deleted, and its newest version reaches the cache |
| WorkforceWatch.ReconcilesMayAct | internal/controller/agenticworkforce_reconciler.go:52-111 | A reconcile may begin with an old version, its update is then refused, and one that changes nothing stores nothing; a traversal may finish with any order of its result |
| WorkforceWatch.StatusMayNeverSettle | internal/controller/agenticworkforce_reconciler.go:91-103 | While nothing changes, the status of a workforce with several agents can be rewritten in another order, which enqueues it again, any number of times |
| Merkle.DigestIff | internal/merkle/merkle.go:47-51 | A digest is 64 lower-case hexadecimal digits |
| Merkle.RootIs | internal/merkle/merkle.go:29-45 | The next root is the hash of root, bar and checkpoint, or the checkpoint itself if there is no root; a checkpoint is the hash of spec, bar, timestamp, bar and count |
| Merkle.CheckpointInputInjective | internal/merkle/merkle.go:29-34 | Spec, timestamp and count can be read back from the hashed string, even if the spec contains bars |
| Merkle.FirstAndLaterDiffer | internal/merkle/merkle.go:36-45 | No first checkpoint is encoded like a later link |
| Merkle.RootInputInjective | internal/merkle/merkle.go:39-45 | The string hashed last determines the root before it and the checkpoint |
| Merkle.SameRootSameHistory | internal/merkle/merkle.go:17-45 | Histories of any length with the same root are equal, or two different strings hashed in them collide |
| Merkle.ProofRootIs | internal/verifiable/zkproofs.go:175-189 | The same of proof roots and the proofs of steps |
| Merkle.StepInputInjective | internal/verifiable/zkproofs.go:175-180 | Step data and index can be read back from a step's input |
| Merkle.ProofRootInputInjective | internal/verifiable/zkproofs.go:182-189 | The string hashed last determines the proof root before it and the step's proof |
| Merkle.SameProofSameSteps | internal/verifiable/zkproofs.go:151-189 | Merkle-only proof chains with the same root have the same steps and indices, or exhibit a collision |
| StatusChain.ReadyStatusIs | internal/controller/agent_status.go:32-86 | The ready status, field by field |
| StatusChain.NotReadyStatusIs | internal/controller/agent_status.go:88-138 | The not-ready and the blocked status, field by field |
| StatusChain.AfterUpdateIs | internal/controller/agent_status.go:79-85 | An update is stored iff it starts from the newest version and changes something |
| StatusChain.AgentObject.UpdateAgentStatusReady | internal/controller/agent_status.go:32-86 | Writes every field of the ready status, keeps tokens and, without a prediction, the cost fields; stores it only on an unchanged version |
| StatusChain.AgentObject.UpdateAgentStatusBlocked | internal/controller/agent_status.go:88-111 | Clears URL and gateway, sets governance status and condition, and keeps everything else |
| StatusChain.AgentObject.UpdateAgentStatusNotReady | internal/controller/agent_status.go:113-138 | Clears URL and gateway, sets the condition, and keeps everything else |
| StatusChain.AgentObject.WriteReadyWithRetry | internal/controller/agent_reconciler.go:277-282 | Retrying a stale object never overwrites a newer version, and a current one is written at most once |
| StatusChain.WrittenChains | internal/controller/agent_reconciler.go:158-202 | What a ready write stores in the chain fields: the spec, the time and the next count of the version it starts from are hashed and linked to its root |
| StatusChain.WrittenKeeps | internal/controller/agent_status.go:32-138 | What the writes store in the other fields |
| StatusChain.OtherEventsKeepChain | internal/controller/agent_status.go:88-138 | Stale writes, the other status writers and external updates keep root, count and proof root |
| StatusChain.ChainNeverForks | internal/controller/agent_reconciler.go:158-202 | With any number of reconcilers reading stale versions, and in any proof modes, the stored root, count and proof root are those of exactly the successful ready writes, counted from one |
| StatusChain.MerkleOnlyChain | internal/verifiable/zkproofs.go:151-155 | Without roots from provers, the proof chain of a run is the merkle-only chain |
| StatusChain.CountIsNumberOfWrites | internal/controller/agent_reconciler.go:161-163 | Below the int32 limit CheckpointCount is the number of successful ready writes |
| StatusChain.SameStoredRootSameWrites | internal/merkle/merkle.go:17-19 | Runs that store the same root went through the same writes, or exhibit a collision |
| StatusChain.HistoriesAre | internal/controller/agent_reconciler.go:158-202 | An accepted ready write adds the stored spec, its time and the next count to the histories, and no other event adds anything |
| StatusChain.RunsMayContinue | internal/controller/agent_reconciler.go:277-282 | At any moment a reconciler may fetch any version, attempt its write or give up, and others may update the Agent |
| StatusChain.AttemptIs | internal/controller/agent_status.go:79-85 | An accepted attempt is over and updates the newest version; a refused one changes nothing and may be retried |
| StatusChain.WritesAreAccepted | internal/controller/agent_reconciler.go:158-163 | The history holds spec and time of every accepted ready write of the run |
| StatusChain.SameStoredRootSameSpecs | internal/merkle/merkle.go:17-19 | Runs that store the same root accepted the same specs at the same times, write by write, or exhibit a collision |
| StatusChain.SameStoredProofSameSteps | internal/verifiable/zkproofs.go:151-189 | Runs with merkle-only proofs that store the same proof root went through the same steps, or exhibit a collision |
| Deployment.PodSpec.FindContainerByName | internal/controller/util.go:21-28 | Finds the first container of a name, or none |
| Deployment.PodSpec.EnsureContainers | internal/controller/agent_reconciler.go:418-489 | The slice after the agent container and its sidecars; the kept pointer is stale iff the containers outgrow the array it points into |
| Deployment.ConfigureSelfHealing | internal/lifecycle/manager.go:122-138 | An existing probe is kept, a missing one is set |
| Deployment.PodSpec.Mutate | internal/controller/agent_reconciler.go:418-512 | The pod after one pass; the probe lands iff all containers fit into the capacity at the time the pointer was taken, which is the decoded one if the agent container fits |
| Deployment.Object.Mutate | internal/controller/agent_reconciler.go:351-551 | One pass over the Deployment determines everything, the probe by that condition |
| Deployment.PassKeepsOthers | internal/controller/agent_reconciler.go:418-489 | Containers the agent does not ask for keep content and position, only managed names are added, and names stay unique |
| Deployment.AgentAfterPass | internal/controller/agent_reconciler.go:418-440 | After every pass the first container named "agent" has image, ports, environment, mounts, readiness probe and resources of the Agent as it is now |
| Deployment.SandboxAfterPass | internal/controller/agent_reconciler.go:445-461 | After every pass the sandbox container has image, ports, environment and resources that the sandbox asks for |
| Deployment.ProbeAfterPass | internal/controller/agent_reconciler.go:507-510 | An existing liveness probe of the agent container is kept; a missing one is set to the port self-healing asks for, if it lands |
| Deployment.PassKeepsFields | internal/controller/agent_reconciler.go:418-461 | The fields of old containers that no pass touches |
| Deployment.OPAContainer | internal/controller/agent_reconciler.go:463-476 | The first policy with OPA rules gets the OPA container, unless there is one |
| Deployment.EBPFContainer | internal/controller/agent_reconciler.go:477-489 | The first policy with eBPF rules gets the init container, unless there is one |
| Deployment.NothingAsked | internal/controller/agent_reconciler.go:463-489 | Without such rules nothing is added |
| Deployment.FreshContainers | internal/controller/agent_reconciler.go:418-489 | A fresh deployment has the agent, then the sandbox, then what the policies add |
| Deployment.LabelsAfterPass | internal/controller/agent_reconciler.go:411-416 | Every label and annotation of the Deployment: managed, else asked for by the user, else kept |
| Deployment.TemplateLabelsAfterPass | internal/controller/agent_reconciler.go:396-401 | Every label of the pod template: the selector comes first, then pod metadata, then common metadata |
| Deployment.TemplateAnnotationsAfterPass | internal/controller/agent_reconciler.go:396-547 | Every annotation of the pod template: features come first, then pod metadata, then common metadata |
| Deployment.SpecAfterPass | internal/controller/agent_reconciler.go:386-443 | Selector, replicas, volumes, strategy and grace period after a pass |
| Deployment.MutationConverges | internal/controller/agent_reconciler.go:351-551 | From any deployment the second pass changes at most the agent's liveness probe, and only if the first lost it; the third changes nothing |
| Deployment.SecondPassChangesIff | internal/controller/agent_reconciler.go:503-512 | The second pass changes something iff the first was to write a probe and it did not land |
| Deployment.ReconcileThreeTimes | internal/controller/agent_reconciler.go:326-560 | The same for three real passes over slices of any capacity: the second differs from the first iff a probe is missing and the sidecars do not fit, and the third changes nothing |
| Deployment.LosesProbe | internal/controller/agent_reconciler.go:503-512 | An agent container without spare room that gets a sandbox and self-healing has no probe after one pass, and has it after two |
| Env.LastUserVariableCounts | internal/controller/agent_config.go:188-192 | Of user variables with the same name the last one counts |
| Env.MergeIs | internal/controller/agent_config.go:187-212 | The merged variables are the last one the user sets for each name, and the template's where the user sets none |
| Env.LessIff | internal/controller/agent_config.go:214-217 | Go's order on strings: the first difference decides, and a proper prefix is less |
| Env.MergeEnvironmentVariables | internal/controller/agent_config.go:164-220 | For template variables with distinct names: strictly increasing names, exactly the union, user values first; sorted in any case |
| Env.MergeDetermined | internal/controller/agent_config.go:209-217 | Map iteration order and sort ties cannot influence the result |
| Env.OrderKeptIffSorted | internal/controller/agent_config.go:164-220 | The documented original order of the merged variables is the result iff it is sorted by name |
| Env.TemplateOrderNeverKept | internal/controller/agent_config.go:214-217 | Description and model always come before the name, although the template has them after it |
| Env.DocumentedExampleFails | internal/controller/agent_config.go:173-179 | The documented example has the documented variables, in another order |
| Env.MergeAgain | internal/controller/agent_config.go:187-220 | Merging the result again with the same user variables changes nothing |
| Env.BuildTemplateEnvironmentVars | internal/controller/agent_config.go:55-162 | The template variables with their values, in order, whose names are distinct |
| Env.TemplateVarsAre | internal/controller/agent_config.go:55-162 | Which value each template variable has |
| Env.SanitizedIs | internal/controller/agent_config.go:225-260 | Letters, digits and underscores stay, everything else becomes an underscore, a leading digit gets one in front, and the empty name becomes "agent" |
| Env.SanitizedIsIdentifier | internal/controller/agent_config.go:222-260 | A sanitized name is a valid identifier, and sanitizing is idempotent |
| Env.SanitizeAgentName | internal/controller/agent_config.go:225-260 | The loop computes that name |
| Env.SanitizedInjectiveOnLabels | internal/controller/agent_config.go:225-260 | Different DNS labels stay different |
| Env.LabelsAreInjective | internal/controller/agent_config.go:225-260 | In a set of DNS labels no two are sanitized alike |
| Env.SanitizedNotInjective | internal/controller/agent_config.go:225-260 | Beyond labels two names can be sanitized alike |
| Env.BuildSubAgentsMap | internal/controller/agent_config.go:108-123 | Fails iff some interaction type is missing; has one entry per sub-agent iff no two names are sanitized alike, as with DNS labels, and then keeps every URL and type |
| Mounts.CleanIsCanonical | internal/webhook/v1alpha1/agent_webhook.go:354-355 | Cleaned paths are in normal form, and cleaning twice is cleaning once |
| Mounts.RenderParse | internal/webhook/v1alpha1/agent_webhook.go:354-355 | The text of a path in normal form denotes that path |
| Mounts.CleanDropsEmptyAndDot | internal/webhook/v1alpha1/agent_webhook.go:354-355 | Several slashes are one, and "." is dropped |
| Mounts.CleanCancels | internal/webhook/v1alpha1/agent_webhook.go:354-355 | An inner ".." takes the element before it along |
| Mounts.CleanDropsRootedParent | internal/webhook/v1alpha1/agent_webhook.go:354-355 | At the front of a rooted path ".." is dropped |
| Mounts.CleanAtTheEnds | internal/webhook/v1alpha1/agent_webhook.go:354-355 | A trailing slash and a leading "." are dropped, a leading element is cancelled by "..", and the empty path is "." |
| Mounts.PrefixTest | internal/webhook/v1alpha1/agent_webhook.go:357-375 | The prefix test with trailing slashes decides strict component prefix for every outer path with components, and equal texts mean equal paths |
| Mounts.ValidateVolumeMounts | internal/webhook/v1alpha1/agent_webhook.go:326-380 | Exactly one error per undeclared volume and per nested pair, placed on the inner mount, and nothing else |
| Mounts.RootMountNotReported | internal/webhook/v1alpha1/agent_webhook.go:357-375 | Mounts at `/` and `/data` give no error, although one path is a strict component prefix of the other |
| Cost.ProjectionIs | internal/costpredictor/predictor.go:105-113 | The projection is the tokens of 30 days at the rate so far times the price, and nothing without tokens or uptime |
| Cost.RoundIs | internal/costpredictor/predictor.go:66-67 | Costs are rounded to the nearest cent, halves away from zero |
| Cost.PredictCostIs | internal/costpredictor/predictor.go:69-87 | An action is due iff the reported cost exceeds a positive budget; it is the downgrade iff there is a model for it |
| Cost.ParsePoint | internal/costpredictor/predictor.go:89-103 | How digits with a decimal point are read |
| Cost.ParseRejects | internal/costpredictor/predictor.go:89-103 | Other characters are refused |
| Cost.ParseNegative | internal/costpredictor/predictor.go:89-103 | A negative number is no cost, and neither is the empty text |
| Cost.FractionIs | internal/costpredictor/predictor.go:89-103 | Digits after the point count tenths, hundredths and so on |
| Cost.PrintedShape | internal/costpredictor/predictor.go:71-72 | A cost is printed with exactly two decimals |
| Cost.PrintedCostParses | internal/costpredictor/predictor.go:89-103 | The two-decimal text parses back to exactly the rounded cost |
| Cost.ReportedCostIsFaithful | internal/costpredictor/predictor.go:63-87 | The reported cost is within half a cent of the exact projection |
| Cost.NoActionMeansWithinBudget | internal/costpredictor/predictor.go:76-84 | No action under a positive budget means the projection is at most half a cent over it; an action that it is at most half a cent under |
| Cost.CostMonotone | internal/costpredictor/predictor.go:105-113 | More tokens, a higher price or a shorter uptime never lower the reported cost |
| Cost.DecisionsMonotone | internal/costintelligence/realoptimizer.go:47-94 | They never turn an action back into none, nor does a stricter mode |
| Cost.ModesAreOrdered | internal/costintelligence/realoptimizer.go:40-71 | For every input, conservative acting implies auto acting, which implies aggressive acting |
| Cost.DecisionIs | internal/costintelligence/realoptimizer.go:49-108 | Every field of a decision: the mode's share of the budget decides on the action, and the spot annotations are there iff asked for |
| Cost.SuspendedIff | internal/costintelligence/realoptimizer.go:82-86 | Suspension happens iff it is enabled, no downgrade model is set and the prediction exceeds the positive effective budget |
| Cost.SuspendedBelowBudget | internal/costintelligence/realoptimizer.go:82-86 | An agent can be suspended while its projection is below the configured budget |
| Cost.EmptyModeDiffersIff | internal/costintelligence/realoptimizer.go:59-68 | An empty mode decides like "auto", and unlike "conservative" iff the reported cost is above 80 and at most 90 % of a positive budget |
| Cost.EmptyModeDiffers | internal/costintelligence/realoptimizer.go:59-68 | A projection of 85 % of the budget pauses the agent under an empty mode and not under "conservative" |
| CostMonitor.ReadTokensFromPods | internal/costintelligence/monitor.go:149-174 | The int64 sum of the counts that pods report; zero if listing fails |
| CostMonitor.SumTokensIs | internal/costintelligence/monitor.go:149-174 | A pod counts iff it has the annotation and the annotation is a number |
| CostMonitor.Wrap64Is | internal/costintelligence/monitor.go:149-174 | Sums are taken modulo 2^64 |
| Text.ParseInt64Is | internal/costintelligence/monitor.go:163-168 | What is read as an int64: digits with an optional sign, if the number fits |
| Text.ParseInt64OfDec | internal/costintelligence/monitor.go:163-168 | A printed int64 is read back |
| CostMonitor.AmountsAre | internal/costintelligence/monitor.go:113-114 | How the monitor and the reconciler read an amount, malformed and out of range included |
| CostMonitor.DecisionIs | internal/costintelligence/monitor.go:88-140 | Status tokens come first and pods second; without cost intelligence the mode is "auto" and nothing is suspended |
| CostMonitor.InfinitePriceIs | internal/costintelligence/monitor.go:88-140 | The decision under an infinite price |
| CostMonitor.Monitor.Evaluate | internal/costintelligence/monitor.go:87-147 | Extends the recorded passes by one and keeps the cache that of all passes; a failed List changes nothing |
| CostMonitor.CacheHoldsLatest | internal/costintelligence/monitor.go:78-147 | After any passes there is an entry exactly for agents some pass listed with a budget: the decision of the latest such listing |
| CostMonitor.Monitor.DecisionFor | internal/controller/agent_reconciler.go:227-253 | A reconcile acts on the decision of the latest pass that listed the agent with a budget, and else on its own |
| CostMonitor.MonitorAgreesIff | internal/controller/agent_reconciler.go:227-253 | For admissible amounts, equal tokens and uptime the cached decision is the reconciler's own iff the price is in the range of a float64, an empty mode and any budget included |
| Signature.EncodeSignature | cmd/attestation-service/main.go:154-162 | For r and s below 2^256 the verifier decodes exactly r and s |
| Signature.DecodeEncodeHex | internal/tee/attestation_verifier.go:192-199 | Hexadecimal decoding inverts encoding |
| Signature.DecodeSignatureIs | internal/tee/attestation_verifier.go:192-200 | Exactly 128 hexadecimal digits are accepted, and the first 64 are r |
| Signature.DecodeHexIff | internal/tee/attestation_verifier.go:192-195 | Only pairs of hexadecimal digits are decoded, each to one byte |
| Signature.HexDigitsAre | internal/tee/attestation_verifier.go:192-195 | The sixteen digits, printed in lower case and read in either |
| Signature.SetBytesConcat | internal/tee/attestation_verifier.go:198-199 | Bytes are read big-endian |
| Signature.BytesAre | cmd/attestation-service/main.go:157-158 | Numbers are written without leading zero bytes |
| Signature.PadLeft | cmd/attestation-service/main.go:155-160 | Left padding gives 32 bytes of the same value |
| Signature.DropBytesIs | internal/verifiable/snark.go:289-291 | Dropping the last bytes is division by a power of 256 |
| Signature.ToFieldBytes | internal/verifiable/snark.go:285-295 | Always 32 bytes; they denote the value iff it is below 2^256, as hashes and 64-digit roots are, and otherwise its top 32 bytes |
| Preview.PreviewBaseIs | internal/controller/simulationpreview_reconciler.go:137-188 | The agent container of the preview field by field, and the sandbox container iff there is a reference |
| Preview.BuildPreviewDeployment | internal/controller/simulationpreview_reconciler.go:132-206 | The containers, init containers and warnings of the preview: one OPA and one eBPF container per policy reference, whatever it resolves to |
| Preview.RealCountIs | internal/controller/agent_reconciler.go:445-489 | A fresh deployment gets at most one OPA and one eBPF container, however many policies ask for them |
| Preview.PreviewCountsContainers | internal/controller/simulationpreview_reconciler.go:108-110 | The preview count is never too low, and right iff a sandbox reference resolves and there is no policy reference or a single one with both kinds of rules |

## Left out

- Readiness.RunsAreSafe: covers Agents whose specs, tools, gateways and configuration stay fixed; changes of these during a run are the subject of AgentWatch.ReferencesStayFresh. Governance never blocks at controller level, because policies are assumed compliant there, so the blocked write does not occur in these runs.
- AgentWatch.ReferencesStayFresh: says with what a reconcile resolved, not what it then wrote into Deployment and Service; the operator's own namespace is assumed to be set.
- WorkforceWatch.WorkforcesStayFresh: the reads of a traversal either succeed or report not found; other API errors, which the code logs and skips, are not modelled.
- Workforce.CollectTransitiveAgentsAndTools: does not say which name is recorded for a remote URL that several sub-agents share, because that depends on the order of visits.
- Resolve.GatewayWatchComplete: takes both lists in the same order; arbitrary orders are the subject of Resolve.GatewayWatchCompleteInAnyOrder.
- StatusChain.ChainNeverForks: what a Groth16 or PlonK prover returns is any string.
- Merkle.SameProofSameSteps: the Groth16 and PlonK modes and the MiMC circuit are library code and are not part of this model.
- Cost.ReportedCostIsFaithful: over exact reals; overflow of a product, IEEE rounding and negative zero are not modelled. ParseFloat is modelled on decimal digits with an optional point and minus sign, not on exponents, infinities or hexadecimal.
- Env.BuildTemplateEnvironmentVars: takes the JSON texts of sub-agents and tools as parameters; JSON encoding is not modelled.
- Deployment.Object.Mutate: the contents built for sidecars, environment, ports and probes are opaque, and the error returns of the closure (missing interaction type, owner reference) are left out.
- Signature.EncodeSignature: ECDSA and SHA-256 themselves are library code.
- resolveAllTools: repeats resolveAllSubAgents for tools; only the resolution of each tool is modelled.
- validateEntryPointAgents, the remaining webhook checks, lifecycle phases, probes, images: a few branches each.
- Kubernetes client, informers, HTTP, flags, metrics, logging, generated code, the web dashboard and scripts: input and output.
