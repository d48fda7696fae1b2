/** The writers of an Agent's status, updates that succeed only on an unchanged
    resource version, and the checkpoint chain that concurrent reconcilers of
    one Agent build through them. */
module StatusChain {
  import opened Kube
  import opened Merkle
  import Cost
  import Text

  datatype Condition = Condition(ready: bool, reason: string, message: string, observedGeneration: int)

  datatype AgentStatus = AgentStatus(
    condition: Option<Condition>,
    url: string,
    aiGatewayRef: Option<Key>,
    merkleRoot: string,
    checkpointCount: int32,
    lastCheckpointTime: Option<string>,
    predictedMonthlyCostUSD: string,
    costAction: string,
    tokensUsed: int,
    zkProofRoot: string,
    attestationDigest: string,
    governanceStatus: string,
    lifecyclePhase: string)

  /** The arguments of updateAgentStatusReady, with the URL it computes. */
  datatype ReadyArgs = ReadyArgs(
    url: string,
    aiGateway: Option<Key>,
    merkleRoot: string,
    checkpointCount: int32,
    lastCheckpointTime: string,
    prediction: Option<Cost.CostPrediction>,
    zkProofRoot: string,
    attestationDigest: string,
    governanceStatus: string,
    lifecyclePhase: string)

  /** One stored version of an Agent; `spec` is its spec as JSON. */
  datatype Stored = Stored(spec: string, generation: int, status: AgentStatus)

  /******* What the writers write *******/

  function ReadyStatus(s: AgentStatus, generation: int, a: ReadyArgs): AgentStatus {
    AgentStatus(
      Some(Condition(true, "Reconciled", "Agent is ready", generation)),
      a.url, a.aiGateway, a.merkleRoot, a.checkpointCount, Some(a.lastCheckpointTime),
      if a.prediction.Some? then a.prediction.value.cost else s.predictedMonthlyCostUSD,
      if a.prediction.Some? then a.prediction.value.action else s.costAction,
      s.tokensUsed, a.zkProofRoot, a.attestationDigest, a.governanceStatus, a.lifecyclePhase)
  }

  function NotReadyStatus(s: AgentStatus, generation: int, reason: string, message: string): AgentStatus {
    s.(condition := Some(Condition(false, reason, message, generation)), url := "", aiGatewayRef := None)
  }

  function BlockedStatus(s: AgentStatus, generation: int, reason: string, message: string, governance: string): AgentStatus {
    NotReadyStatus(s, generation, reason, message).(governanceStatus := governance)
  }

  /** The three writers, field by field. */
  lemma ReadyStatusIs(s: AgentStatus, generation: int, a: ReadyArgs)
    ensures var r := ReadyStatus(s, generation, a);
            && r.condition == Some(Condition(true, "Reconciled", "Agent is ready", generation))
            && r.url == a.url && r.aiGatewayRef == a.aiGateway
            && r.merkleRoot == a.merkleRoot && r.checkpointCount == a.checkpointCount
            && r.lastCheckpointTime == Some(a.lastCheckpointTime)
            && (a.prediction.Some? ==> r.predictedMonthlyCostUSD == a.prediction.value.cost &&
                                       r.costAction == a.prediction.value.action)
            && (a.prediction.None? ==> r.predictedMonthlyCostUSD == s.predictedMonthlyCostUSD && r.costAction == s.costAction)
            && r.tokensUsed == s.tokensUsed
            && r.zkProofRoot == a.zkProofRoot && r.attestationDigest == a.attestationDigest
            && r.governanceStatus == a.governanceStatus && r.lifecyclePhase == a.lifecyclePhase
  {
  }

  lemma NotReadyStatusIs(s: AgentStatus, generation: int, reason: string, message: string, governance: string)
    ensures var r := NotReadyStatus(s, generation, reason, message);
            && r.condition == Some(Condition(false, reason, message, generation)) && r.url == "" && r.aiGatewayRef == None
            && r.governanceStatus == s.governanceStatus && KeepsTheRest(s, r)
    ensures var r := BlockedStatus(s, generation, reason, message, governance);
            && r.condition == Some(Condition(false, reason, message, generation)) && r.url == "" && r.aiGatewayRef == None
            && r.governanceStatus == governance && KeepsTheRest(s, r)
  {
  }

  ghost predicate KeepsTheRest(s: AgentStatus, r: AgentStatus) {
    && r.merkleRoot == s.merkleRoot && r.checkpointCount == s.checkpointCount && r.lastCheckpointTime == s.lastCheckpointTime
    && r.predictedMonthlyCostUSD == s.predictedMonthlyCostUSD && r.costAction == s.costAction && r.tokensUsed == s.tokensUsed
    && r.zkProofRoot == s.zkProofRoot && r.attestationDigest == s.attestationDigest && r.lifecyclePhase == s.lifecyclePhase
  }

  /** A status update is refused unless it starts from the newest version; one
      that changes nothing stores no new version. */
  function AfterUpdate(versions: seq<Stored>, version: nat, status: AgentStatus): seq<Stored>
    requires versions != []
  {
    var last := versions[|versions| - 1];
    if version == |versions| - 1 && status != last.status then versions + [last.(status := status)] else versions
  }

  lemma AfterUpdateIs(versions: seq<Stored>, version: nat, status: AgentStatus)
    requires versions != []
    ensures var last := versions[|versions| - 1];
            AfterUpdate(versions, version, status) ==
            if version + 1 == |versions| && status != last.status
            then versions + [Stored(last.spec, last.generation, status)] else versions
  {
  }

  /******* The API server and the local copy of an Agent *******/

  /** All versions of one Agent; the resource version is the index. */
  class ApiServer {
    var versions: seq<Stored>

    constructor (initial: Stored)
      ensures versions == [initial]
    {
      versions := [initial];
    }
  }

  class AgentObject {
    var version: nat
    var stored: Stored

    constructor (server: ApiServer, version: nat)
      requires version < |server.versions|
      ensures this.version == version && stored == server.versions[version]
    {
      this.version := version;
      stored := server.versions[version];
    }

    /** Status().Update */
    method UpdateStatus(server: ApiServer) returns (ok: bool)
      requires server.versions != []
      modifies this`version, server
      ensures ok <==> old(version) == |old(server.versions)| - 1
      ensures server.versions == AfterUpdate(old(server.versions), old(version), stored.status)
      ensures version == if ok then |server.versions| - 1 else old(version)
    {
      var last := server.versions[|server.versions| - 1];
      ok := version == |server.versions| - 1;
      if ok && stored.status != last.status {
        server.versions := server.versions + [last.(status := stored.status)];
      }
      if ok {
        version := |server.versions| - 1;
      }
    }

    method UpdateAgentStatusReady(server: ApiServer, a: ReadyArgs) returns (ok: bool)
      requires server.versions != []
      modifies this, server
      ensures ok <==> old(version) == |old(server.versions)| - 1
      ensures stored == old(stored).(status := ReadyStatus(old(stored.status), old(stored.generation), a))
      ensures server.versions == AfterUpdate(old(server.versions), old(version), stored.status)
      ensures version == if ok then |server.versions| - 1 else old(version)
    {
      stored := stored.(status := stored.status.(url := a.url));
      if a.aiGateway.Some? {
        stored := stored.(status := stored.status.(aiGatewayRef := a.aiGateway));
      } else {
        stored := stored.(status := stored.status.(aiGatewayRef := None));
      }
      stored := stored.(status := stored.status.(merkleRoot := a.merkleRoot));
      stored := stored.(status := stored.status.(checkpointCount := a.checkpointCount));
      stored := stored.(status := stored.status.(lastCheckpointTime := Some(a.lastCheckpointTime)));
      if a.prediction.Some? {
        stored := stored.(status := stored.status.(predictedMonthlyCostUSD := a.prediction.value.cost));
        stored := stored.(status := stored.status.(costAction := a.prediction.value.action));
      }
      stored := stored.(status := stored.status.(zkProofRoot := a.zkProofRoot));
      stored := stored.(status := stored.status.(attestationDigest := a.attestationDigest));
      stored := stored.(status := stored.status.(governanceStatus := a.governanceStatus));
      stored := stored.(status := stored.status.(lifecyclePhase := a.lifecyclePhase));
      stored := stored.(status := stored.status.(condition :=
        Some(Condition(true, "Reconciled", "Agent is ready", stored.generation))));
      ok := UpdateStatus(server);
    }

    method UpdateAgentStatusBlocked(server: ApiServer, reason: string, message: string, governance: string) returns (ok: bool)
      requires server.versions != []
      modifies this, server
      ensures ok <==> old(version) == |old(server.versions)| - 1
      ensures stored ==
              old(stored).(status := BlockedStatus(old(stored.status), old(stored.generation), reason, message, governance))
      ensures server.versions == AfterUpdate(old(server.versions), old(version), stored.status)
    {
      stored := stored.(status := stored.status.(url := ""));
      stored := stored.(status := stored.status.(aiGatewayRef := None));
      stored := stored.(status := stored.status.(governanceStatus := governance));
      stored := stored.(status := stored.status.(condition := Some(Condition(false, reason, message, stored.generation))));
      ok := UpdateStatus(server);
    }

    method UpdateAgentStatusNotReady(server: ApiServer, reason: string, message: string) returns (ok: bool)
      requires server.versions != []
      modifies this, server
      ensures ok <==> old(version) == |old(server.versions)| - 1
      ensures stored == old(stored).(status := NotReadyStatus(old(stored.status), old(stored.generation), reason, message))
      ensures server.versions == AfterUpdate(old(server.versions), old(version), stored.status)
    {
      stored := stored.(status := stored.status.(url := ""));
      stored := stored.(status := stored.status.(aiGatewayRef := None));
      stored := stored.(status := stored.status.(condition := Some(Condition(false, reason, message, stored.generation))));
      ok := UpdateStatus(server);
    }

    /** retry.RetryOnConflict around the ready write, with its five steps.  The
        closure keeps the object fetched at the start, so retrying a stale object
        changes nothing, and a current one is written once. */
    method WriteReadyWithRetry(server: ApiServer, a: ReadyArgs) returns (ok: bool)
      requires server.versions != []
      modifies this, server
      ensures ok <==> old(version) == |old(server.versions)| - 1
      ensures server.versions ==
              AfterUpdate(old(server.versions), old(version), ReadyStatus(old(stored.status), old(stored.generation), a))
    {
      ok := false;
      var attempts := 0;
      while !ok && attempts < 5
        invariant attempts <= 5
        invariant !ok ==> version == old(version) && server.versions == old(server.versions)
        invariant !ok && attempts > 0 ==> old(version) != |old(server.versions)| - 1
        invariant stored.generation == old(stored.generation)
        invariant ReadyStatus(stored.status, stored.generation, a) == ReadyStatus(old(stored.status), old(stored.generation), a)
        invariant ok ==> old(version) == |old(server.versions)| - 1
        invariant ok ==> server.versions ==
                         AfterUpdate(old(server.versions), old(version),
                                     ReadyStatus(old(stored.status), old(stored.generation), a))
      {
        ok := UpdateAgentStatusReady(server, a);
        attempts := attempts + 1;
      }
    }
  }

  /******* Concurrent reconcilers *******/

  /** How a reconcile extends the proof chain: not at all when the Agent is not
      verifiable, by a merkle-only step, or by whatever root a Groth16 or PlonK
      prover returns.  A prover that fails falls back to the merkle-only step. */
  datatype ProofMode = Disabled | MerkleOnly | Prover(root: string)

  /** What a reconcile intends to write.  `a` supplies the fields that do not
      concern the chains. */
  datatype Intent =
    | Ready(timestamp: string, mode: ProofMode, a: ReadyArgs)
    | NotReady(reason: string, message: string)
    | Blocked(reason: string, message: string, governance: string)

  /** A reconcile that has fetched version `version` and computed its write. */
  datatype Pending = Pending(version: nat, intent: Intent)

  datatype State = State(versions: seq<Stored>, pending: map<nat, Pending>)

  /** Reconcilers may fetch old versions from a stale cache.  External events are
      spec edits and token reports; they leave the chain fields alone. */
  datatype Event =
    | Fetch(reconciler: nat, version: nat, intent: Intent)
    | Attempt(reconciler: nat)
    | GiveUp(reconciler: nat)
    | External(stored: Stored)

  function Latest(s: State): Stored
    requires s.versions != []
  {
    s.versions[|s.versions| - 1]
  }

  function CheckpointOf(base: Stored, timestamp: string): Checkpoint {
    Checkpoint(base.spec, timestamp, Increment(base.status.checkpointCount))
  }

  function StepOf(base: Stored): Step {
    Step(base.spec, Increment(base.status.checkpointCount))
  }

  /** The elements of a proof chain. */
  datatype ProofEntry = MerkleStep(step: Step) | ProverRoot(root: string)

  function ExtendProof(h: string -> string, previous: string, entry: ProofEntry): string {
    match entry
    case MerkleStep(step) => ComputeProofChainRoot(h, previous, ComputeStepProof(h, previous, step))
    case ProverRoot(root) => root
  }

  /** The proof root after a chain in which merkle-only steps and prover roots may
      alternate. */
  function MixedProofRoot(h: string -> string, entries: seq<ProofEntry>): string {
    if entries == [] then ""
    else ExtendProof(h, MixedProofRoot(h, entries[..|entries| - 1]), entries[|entries| - 1])
  }

  /** Without prover roots it is the merkle-only chain. */
  lemma {:induction false} MerkleOnlyChain(h: HashFunction, entries: seq<ProofEntry>, steps: seq<Step>)
    requires |entries| == |steps| && forall i :: 0 <= i < |steps| ==> entries[i] == MerkleStep(steps[i])
    ensures MixedProofRoot(h, entries) == ProofRoot(h, steps)
  {
    if steps != [] {
      MerkleOnlyChain(h, entries[..|steps| - 1], steps[..|steps| - 1]);
    }
  }

  /** The status that a reconcile starting from `base` writes. */
  function Written(h: string -> string, base: Stored, intent: Intent): AgentStatus {
    match intent
    case Ready(timestamp, mode, a) =>
      var root := ComputeMerkleRoot(h, base.status.merkleRoot, ComputeCheckpoint(h, CheckpointOf(base, timestamp)));
      var proof := match mode
                   case Disabled => ""
                   case MerkleOnly => ExtendProof(h, base.status.zkProofRoot, MerkleStep(StepOf(base)))
                   case Prover(proofRoot) => ExtendProof(h, base.status.zkProofRoot, ProverRoot(proofRoot));
      ReadyStatus(base.status, base.generation,
                  a.(merkleRoot := root, checkpointCount := Increment(base.status.checkpointCount),
                     lastCheckpointTime := timestamp, zkProofRoot := proof))
    case NotReady(reason, message) => NotReadyStatus(base.status, base.generation, reason, message)
    case Blocked(reason, message, governance) => BlockedStatus(base.status, base.generation, reason, message, governance)
  }

  /** What a ready write stores in the chain fields, in terms of the version it
      starts from: spec, time and next count are hashed and linked to the root. */
  lemma WrittenChains(h: string -> string, base: Stored, timestamp: string, mode: ProofMode, a: ReadyArgs)
    ensures var r := Written(h, base, Ready(timestamp, mode, a));
            var next: int := if base.status.checkpointCount == 0x7FFF_FFFF then -0x8000_0000 else base.status.checkpointCount + 1;
            var checkpoint := h(base.spec + "|" + timestamp + "|" + Text.Dec(next));
            var root, proofRoot := base.status.merkleRoot, base.status.zkProofRoot;
            var proof := h(proofRoot + "|" + base.spec + "|" + Text.Dec(next));
            && r.checkpointCount == next
            && r.lastCheckpointTime == Some(timestamp)
            && r.merkleRoot == (if root == "" then checkpoint else h(root + "|" + checkpoint))
            && (mode.Disabled? ==> r.zkProofRoot == "")
            && (mode.MerkleOnly? ==> r.zkProofRoot == if proofRoot == "" then proof else h(proofRoot + "|" + proof))
            && (mode.Prover? ==> r.zkProofRoot == mode.root)
  {
  }

  lemma WrittenKeeps(h: string -> string, base: Stored, intent: Intent)
    ensures var r, s := Written(h, base, intent), base.status;
            && r.tokensUsed == s.tokensUsed
            && (intent.Ready? ==> r.url == intent.a.url && r.aiGatewayRef == intent.a.aiGateway &&
                                  r.attestationDigest == intent.a.attestationDigest)
            && (intent.Ready? ==> r.governanceStatus == intent.a.governanceStatus && r.lifecyclePhase == intent.a.lifecyclePhase)
            && (intent.Ready? && intent.a.prediction.Some? ==> r.costAction == intent.a.prediction.value.action &&
                                                               r.predictedMonthlyCostUSD == intent.a.prediction.value.cost)
            && (!intent.Ready? ==> r.url == "" && KeepsTheRest(s, r))
            && (intent.Blocked? ==> r.governanceStatus == intent.governance)
            && (intent.NotReady? ==> r.governanceStatus == s.governanceStatus)
            && r.condition.Some? && r.condition.value.ready == intent.Ready? && r.condition.value.observedGeneration == base.generation
            && (!intent.Ready? ==> r.condition.value.reason == intent.reason && r.condition.value.message == intent.message)
  {
  }

  /** Fetches name existing versions; external events keep the chain fields. */
  predicate Possible(s: State, e: Event) {
    && s.versions != []
    && match e
       case Fetch(_, version, intent) => version < |s.versions| && (intent.Ready? ==> '|' !in intent.timestamp)
       case Attempt(p) => p in s.pending && s.pending[p].version < |s.versions|
       case GiveUp(_) => true
       case External(stored) =>
         && stored.status.merkleRoot == Latest(s).status.merkleRoot
         && stored.status.checkpointCount == Latest(s).status.checkpointCount
         && stored.status.zkProofRoot == Latest(s).status.zkProofRoot
  }

  predicate Succeeds(s: State, e: Event)
    requires Possible(s, e)
  {
    e.Attempt? && s.pending[e.reconciler].version == |s.versions| - 1
  }

  /** A refused attempt leaves everything as it is and may be retried. */
  function Apply(h: string -> string, s: State, e: Event): State
    requires Possible(s, e)
  {
    match e
    case Fetch(p, version, intent) => s.(pending := s.pending[p := Pending(version, intent)])
    case Attempt(p) =>
      var pending := s.pending[p];
      State(AfterUpdate(s.versions, pending.version, Written(h, s.versions[pending.version], pending.intent)),
            if Succeeds(s, e) then s.pending - {p} else s.pending)
    case GiveUp(p) => s.(pending := s.pending - {p})
    case External(stored) => s.(versions := s.versions + [stored])
  }

  ghost predicate IsRun(h: string -> string, initial: Stored, events: seq<Event>)
    decreases |events|, 0
  {
    events == [] ||
    (IsRun(h, initial, events[..|events| - 1]) &&
     Possible(After(h, initial, events[..|events| - 1]), events[|events| - 1]))
  }

  ghost function After(h: string -> string, initial: Stored, events: seq<Event>): (s: State)
    requires IsRun(h, initial, events)
    ensures s.versions != []
    decreases |events|, 1
  {
    if events == [] then State([initial], map[])
    else Apply(h, After(h, initial, events[..|events| - 1]), events[|events| - 1])
  }

  /** The successful ready writes of a run, as the checkpoints that an observer
      of the latest version would expect each of them to add. */
  ghost function ReadyWrites(h: string -> string, initial: Stored, events: seq<Event>): seq<Checkpoint>
    requires IsRun(h, initial, events)
  {
    if events == [] then []
    else
      var s, e := After(h, initial, events[..|events| - 1]), events[|events| - 1];
      var before := ReadyWrites(h, initial, events[..|events| - 1]);
      if Succeeds(s, e) && s.pending[e.reconciler].intent.Ready?
      then before + [CheckpointOf(Latest(s), s.pending[e.reconciler].intent.timestamp)] else before
  }

  /** The proof chain after a successful ready write: one of an Agent that is not
      verifiable clears it. */
  function AfterWrite(entries: seq<ProofEntry>, base: Stored, mode: ProofMode): seq<ProofEntry> {
    match mode
    case Disabled => []
    case MerkleOnly => entries + [MerkleStep(StepOf(base))]
    case Prover(root) => entries + [ProverRoot(root)]
  }

  ghost function ProofEntries(h: string -> string, initial: Stored, events: seq<Event>): seq<ProofEntry>
    requires IsRun(h, initial, events)
  {
    if events == [] then []
    else
      var s, e := After(h, initial, events[..|events| - 1]), events[|events| - 1];
      var before := ProofEntries(h, initial, events[..|events| - 1]);
      if Succeeds(s, e) && s.pending[e.reconciler].intent.Ready?
      then AfterWrite(before, Latest(s), s.pending[e.reconciler].intent.mode) else before
  }

  ghost predicate IsFresh(initial: Stored) {
    initial.status.merkleRoot == "" && initial.status.checkpointCount == 0 && initial.status.zkProofRoot == ""
  }

  /** The int32 count after a number of checkpoints. */
  function CountAfter(n: nat): int32 {
    (n + 0x8000_0000) % 0x1_0000_0000 - 0x8000_0000
  }

  lemma CountBelowLimit(n: nat)
    requires n < 0x8000_0000
    ensures CountAfter(n) == n
  {
  }

  lemma CountIncrements(n: nat)
    ensures CountAfter(n + 1) == Increment(CountAfter(n))
  {
  }

  lemma RootExtends(h: HashFunction, history: seq<Checkpoint>, c: Checkpoint)
    ensures MerkleRoot(h, history + [c]) == ComputeMerkleRoot(h, MerkleRoot(h, history), ComputeCheckpoint(h, c))
  {
    assert (history + [c])[..|history|] == history;
  }

  lemma ProofExtends(h: HashFunction, entries: seq<ProofEntry>, entry: ProofEntry)
    ensures MixedProofRoot(h, entries + [entry]) == ExtendProof(h, MixedProofRoot(h, entries), entry)
  {
    assert (entries + [entry])[..|entries|] == entries;
  }

  ghost predicate CountsFromOne(history: seq<Checkpoint>) {
    forall i :: 0 <= i < |history| ==> history[i].count == CountAfter(i + 1)
  }

  ghost predicate PendingOk(s: State) {
    forall p :: p in s.pending ==>
      s.pending[p].version < |s.versions| &&
      (s.pending[p].intent.Ready? ==> '|' !in s.pending[p].intent.timestamp)
  }

  /** The stored chain fields are the folds of the writes so far. */
  ghost predicate ChainOk(h: HashFunction, s: State, history: seq<Checkpoint>, entries: seq<ProofEntry>) {
    && s.versions != [] && PendingOk(s)
    && Latest(s).status.merkleRoot == MerkleRoot(h, history)
    && Latest(s).status.checkpointCount == CountAfter(|history|)
    && Latest(s).status.zkProofRoot == MixedProofRoot(h, entries)
    && TimestampsOk(history) && CountsFromOne(history)
  }

  lemma HistoryExtends(history: seq<Checkpoint>, c: Checkpoint)
    requires TimestampsOk(history) && CountsFromOne(history)
    requires '|' !in c.timestamp && c.count == CountAfter(|history| + 1)
    ensures TimestampsOk(history + [c]) && CountsFromOne(history + [c])
  {
  }

  lemma EventsKeepPendingOk(h: HashFunction, s: State, e: Event)
    requires PendingOk(s) && Possible(s, e)
    ensures PendingOk(Apply(h, s, e)) && Apply(h, s, e).versions != []
  {
  }

  /** A ready write changes the count, so it always stores a new version. */
  lemma ReadyWriteStores(h: HashFunction, s: State, e: Event)
    requires Possible(s, e) && Succeeds(s, e) && s.pending[e.reconciler].intent.Ready?
    ensures var intent := s.pending[e.reconciler].intent;
            && Latest(Apply(h, s, e)).status == Written(h, Latest(s), intent)
            && Latest(Apply(h, s, e)).status.checkpointCount == Increment(Latest(s).status.checkpointCount)
  {
    var status := Written(h, Latest(s), s.pending[e.reconciler].intent);
    assert status.checkpointCount == Increment(Latest(s).status.checkpointCount) != Latest(s).status.checkpointCount;
  }

  lemma ReadyWriteExtends(h: HashFunction, s: State, e: Event, history: seq<Checkpoint>, entries: seq<ProofEntry>)
    requires ChainOk(h, s, history, entries) && Possible(s, e) && Succeeds(s, e)
    requires s.pending[e.reconciler].intent.Ready?
    ensures var intent := s.pending[e.reconciler].intent;
            ChainOk(h, Apply(h, s, e), history + [CheckpointOf(Latest(s), intent.timestamp)],
                    AfterWrite(entries, Latest(s), intent.mode))
  {
    var intent := s.pending[e.reconciler].intent;
    EventsKeepPendingOk(h, s, e);
    ReadyWriteStores(h, s, e);
    RootExtends(h, history, CheckpointOf(Latest(s), intent.timestamp));
    ProofExtends(h, entries, MerkleStep(StepOf(Latest(s))));
    if intent.mode.Prover? {
      ProofExtends(h, entries, ProverRoot(intent.mode.root));
    }
    CountIncrements(|history|);
    HistoryExtends(history, CheckpointOf(Latest(s), intent.timestamp));
  }

  /** Every other event leaves the chain fields of the latest version alone: the
      other status writers keep them, and stale writes are refused. */
  lemma OtherEventsKeepChain(h: HashFunction, s: State, e: Event)
    requires Possible(s, e) && !(Succeeds(s, e) && s.pending[e.reconciler].intent.Ready?)
    ensures var status, status' := Latest(s).status, Latest(Apply(h, s, e)).status;
            && status'.merkleRoot == status.merkleRoot
            && status'.checkpointCount == status.checkpointCount
            && status'.zkProofRoot == status.zkProofRoot
  {
  }

  /** In every interleaving of any number of reconcilers with stale reads,
      conflicts, retries, other status writers and external updates, and whatever
      proof modes they use, the chains neither fork nor count a write twice. */
  lemma {:induction false} ChainNeverForks(h: HashFunction, initial: Stored, events: seq<Event>)
    requires IsFresh(initial) && IsRun(h, initial, events)
    ensures ChainOk(h, After(h, initial, events), ReadyWrites(h, initial, events), ProofEntries(h, initial, events))
  {
    if events != [] {
      var init, e := events[..|events| - 1], events[|events| - 1];
      ChainNeverForks(h, initial, init);
      var s := After(h, initial, init);
      if Succeeds(s, e) && s.pending[e.reconciler].intent.Ready? {
        ReadyWriteExtends(h, s, e, ReadyWrites(h, initial, init), ProofEntries(h, initial, init));
      } else {
        EventsKeepPendingOk(h, s, e);
        OtherEventsKeepChain(h, s, e);
      }
    }
  }

  /** Below the int32 limit, CheckpointCount is the number of successful ready
      writes. */
  lemma CountIsNumberOfWrites(h: HashFunction, initial: Stored, events: seq<Event>)
    requires IsFresh(initial) && IsRun(h, initial, events)
    requires |ReadyWrites(h, initial, events)| < 0x8000_0000
    ensures Latest(After(h, initial, events)).status.checkpointCount == |ReadyWrites(h, initial, events)|
  {
    ChainNeverForks(h, initial, events);
    CountBelowLimit(|ReadyWrites(h, initial, events)|);
  }

  /** What a run adds to its histories: an accepted ready write adds the stored
      spec, its time and the next count, and every other event nothing. */
  lemma HistoriesAre(h: string -> string, initial: Stored, events: seq<Event>)
    requires IsRun(h, initial, events) && events != []
    ensures var init, e := events[..|events| - 1], events[|events| - 1];
            var s := After(h, initial, init);
            var before, entries := ReadyWrites(h, initial, init), ProofEntries(h, initial, init);
            var after, entries' := ReadyWrites(h, initial, events), ProofEntries(h, initial, events);
            if Succeeds(s, e) && s.pending[e.reconciler].intent.Ready? then
              var spec, intent, count := Latest(s).spec, s.pending[e.reconciler].intent, Latest(s).status.checkpointCount;
              var next: int := if count == 0x7FFF_FFFF then -0x8000_0000 else count + 1;
              && |after| == |before| + 1 && before == after[..|before|]
              && after[|before|].spec == spec && after[|before|].timestamp == intent.timestamp && after[|before|].count == next
              && (intent.mode.Disabled? ==> entries' == [])
              && (intent.mode.MerkleOnly? ==> entries' == entries + [MerkleStep(Step(spec, next))])
              && (intent.mode.Prover? ==> entries' == entries + [ProverRoot(intent.mode.root)])
            else
              after == before && entries' == entries
  {
  }

  lemma {:induction false} PendingExists(h: string -> string, initial: Stored, events: seq<Event>, p: nat)
    requires IsRun(h, initial, events)
    ensures var s := After(h, initial, events);
            p in s.pending ==> s.pending[p].version < |s.versions|
  {
    if events != [] {
      PendingExists(h, initial, events[..|events| - 1], p);
    }
  }

  lemma OneMoreEvent(h: string -> string, initial: Stored, events: seq<Event>, e: Event)
    requires IsRun(h, initial, events) && Possible(After(h, initial, events), e)
    ensures IsRun(h, initial, events + [e]) && After(h, initial, events + [e]) == Apply(h, After(h, initial, events), e)
  {
    assert (events + [e])[..|events|] == events;
  }

  /** Anything may happen next: a reconciler fetches any version and decides what to
      write, one that has something to write attempts it or gives up, and the Agent
      changes in other ways. */
  lemma RunsMayContinue(h: string -> string, initial: Stored, events: seq<Event>, e: Event)
    requires IsRun(h, initial, events)
    requires var s := After(h, initial, events);
             match e
             case Fetch(_, version, intent) => version < |s.versions| && !(intent.Ready? && '|' in intent.timestamp)
             case Attempt(p) => p in s.pending
             case GiveUp(_) => true
             case External(stored) =>
               var r, r' := Latest(s).status, stored.status;
               (r'.merkleRoot, r'.checkpointCount, r'.zkProofRoot) == (r.merkleRoot, r.checkpointCount, r.zkProofRoot)
    ensures IsRun(h, initial, events + [e])
  {
    if e.Attempt? {
      PendingExists(h, initial, events, e.reconciler);
    }
    OneMoreEvent(h, initial, events, e);
  }

  /** An accepted attempt is over, and a refused one changes nothing. */
  lemma AttemptIs(h: string -> string, s: State, p: nat)
    requires s.versions != [] && p in s.pending && s.pending[p].version < |s.versions|
    ensures var s' := Apply(h, s, Attempt(p));
            if s.pending[p].version + 1 == |s.versions| then
              && s'.pending.Keys == s.pending.Keys - {p} && (forall q :: q in s'.pending ==> s'.pending[q] == s.pending[q])
              && s'.versions == AfterUpdate(s.versions, |s.versions| - 1, Written(h, Latest(s), s.pending[p].intent))
            else s' == s
  {
  }

  /** Spec and time of every accepted ready write of a run. */
  ghost function AcceptedSpecs(h: string -> string, initial: Stored, events: seq<Event>): seq<(string, string)>
    requires IsRun(h, initial, events)
  {
    if events == [] then []
    else
      var s, e := After(h, initial, events[..|events| - 1]), events[|events| - 1];
      var before := AcceptedSpecs(h, initial, events[..|events| - 1]);
      if e.Attempt? && s.pending[e.reconciler].version == |s.versions| - 1 && s.pending[e.reconciler].intent.Ready?
      then before + [(s.versions[|s.versions| - 1].spec, s.pending[e.reconciler].intent.timestamp)] else before
  }

  lemma {:induction false} WritesAreAccepted(h: string -> string, initial: Stored, events: seq<Event>)
    requires IsRun(h, initial, events)
    ensures var writes, specs := ReadyWrites(h, initial, events), AcceptedSpecs(h, initial, events);
            && |writes| == |specs|
            && forall i :: 0 <= i < |writes| ==> (writes[i].spec, writes[i].timestamp) == specs[i]
  {
    if events != [] {
      WritesAreAccepted(h, initial, events[..|events| - 1]);
      HistoriesAre(h, initial, events);
    }
  }

  /** Whoever stores the same root went through the same writes, or exhibits a
      collision among the strings hashed by the two runs. */
  lemma SameStoredRootSameWrites(h: HashFunction, initial: Stored, events: seq<Event>, initial': Stored, events': seq<Event>)
    requires IsFresh(initial) && IsRun(h, initial, events) && IsFresh(initial') && IsRun(h, initial', events')
    requires Latest(After(h, initial, events)).status.merkleRoot == Latest(After(h, initial', events')).status.merkleRoot
    ensures var history, history' := ReadyWrites(h, initial, events), ReadyWrites(h, initial', events');
            history == history' || Collide(h, MerkleInputs(h, history), MerkleInputs(h, history'))
  {
    ChainNeverForks(h, initial, events);
    ChainNeverForks(h, initial', events');
    SameRootSameHistory(h, ReadyWrites(h, initial, events), ReadyWrites(h, initial', events'));
  }

  /** In particular they stored the same specs at the same times, write by write. */
  lemma SameStoredRootSameSpecs(h: HashFunction, initial: Stored, events: seq<Event>, initial': Stored, events': seq<Event>)
    requires IsFresh(initial) && IsRun(h, initial, events) && IsFresh(initial') && IsRun(h, initial', events')
    requires Latest(After(h, initial, events)).status.merkleRoot == Latest(After(h, initial', events')).status.merkleRoot
    ensures AcceptedSpecs(h, initial, events) == AcceptedSpecs(h, initial', events') ||
            Collide(h, MerkleInputs(h, ReadyWrites(h, initial, events)), MerkleInputs(h, ReadyWrites(h, initial', events')))
  {
    SameStoredRootSameWrites(h, initial, events, initial', events');
    WritesAreAccepted(h, initial, events);
    WritesAreAccepted(h, initial', events');
    if ReadyWrites(h, initial, events) == ReadyWrites(h, initial', events') {
      assert AcceptedSpecs(h, initial, events) == AcceptedSpecs(h, initial', events');
    }
  }

  /** The same of merkle-only proof chains and their steps. */
  lemma SameStoredProofSameSteps(h: HashFunction, initial: Stored, events: seq<Event>, steps: seq<Step>,
                                 initial': Stored, events': seq<Event>, steps': seq<Step>)
    requires IsFresh(initial) && IsRun(h, initial, events) && IsFresh(initial') && IsRun(h, initial', events')
    requires ProofEntries(h, initial, events) == seq(|steps|, i requires 0 <= i < |steps| => MerkleStep(steps[i]))
    requires ProofEntries(h, initial', events') == seq(|steps'|, i requires 0 <= i < |steps'| => MerkleStep(steps'[i]))
    requires Latest(After(h, initial, events)).status.zkProofRoot == Latest(After(h, initial', events')).status.zkProofRoot
    ensures steps == steps' || Collide(h, ProofInputs(h, steps), ProofInputs(h, steps'))
  {
    ChainNeverForks(h, initial, events);
    ChainNeverForks(h, initial', events');
    MerkleOnlyChain(h, ProofEntries(h, initial, events), steps);
    MerkleOnlyChain(h, ProofEntries(h, initial', events'), steps');
    SameProofSameSteps(h, steps, steps');
  }
}
