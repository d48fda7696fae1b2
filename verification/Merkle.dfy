/** Rolling hash chains: Merkle checkpoints and the merkle-only proof chain.

    The hash is any function to 64 lowercase hexadecimal characters.  It is not
    assumed to be injective: where two histories agree on their root, either the
    histories are equal or two different strings *that were hashed on the way*
    have the same hash. */
module Merkle {
  import opened Text

  type int32 = n: int | -0x8000_0000 <= n < 0x8000_0000

  /** Go's wrap-around int32 addition of one. */
  function Increment(n: int32): int32 {
    if n == 0x7FFF_FFFF then -0x8000_0000 else n + 1
  }

  predicate IsDigest(s: string) {
    |s| == 64 && forall i :: 0 <= i < |s| ==> '0' <= s[i] <= '9' || 'a' <= s[i] <= 'f'
  }

  /** 64 lower-case hexadecimal digits. */
  lemma DigestIff(s: string)
    ensures IsDigest(s) <==> |s| == 64 && forall c :: c in s ==> '0' <= c <= '9' || 'a' <= c <= 'f'
  {
    assert forall i :: 0 <= i < |s| ==> s[i] in s;
  }

  const ZERO_DIGEST := seq(64, _ => '0')

  ghost predicate IsHash(h: string -> string) {
    forall s :: IsDigest(h(s))
  }

  type HashFunction = h: string -> string | IsHash(h) ghost witness s => ZERO_DIGEST

  lemma DigestNoBar(s: string)
    requires IsDigest(s)
    ensures '|' !in s
  {
  }

  /** Two different strings with the same hash, one hashed in each history. */
  ghost predicate Collide(h: HashFunction, xs: set<string>, ys: set<string>) {
    exists x, y :: x in xs && y in ys && x != y && h(x) == h(y)
  }

  lemma SameHash(h: HashFunction, x: string, y: string, xs: set<string>, ys: set<string>)
    requires h(x) == h(y) && x in xs && y in ys
    ensures x == y || Collide(h, xs, ys)
  {
  }

  lemma CollideExtends(h: HashFunction, xs: set<string>, ys: set<string>, xs': set<string>, ys': set<string>)
    requires Collide(h, xs, ys) && xs <= xs' && ys <= ys'
    ensures Collide(h, xs', ys')
  {
  }

  lemma InitAndLast<T>(s: seq<T>)
    requires s != []
    ensures s == s[..|s| - 1] + [s[|s| - 1]]
  {
  }

  /** Linking is shared by both chains: an empty root is replaced, any other root
      is hashed together with the new element. */
  function LinkInput(root: string, element: string): string {
    root + "|" + element
  }

  function Link(h: string -> string, root: string, element: string): string {
    if root == "" then element else h(LinkInput(root, element))
  }

  lemma LinkInputInjective(r: string, e: string, r': string, e': string)
    requires IsDigest(r) && IsDigest(r') && LinkInput(r, e) == LinkInput(r', e')
    ensures r == r' && e == e'
  {
    DigestNoBar(r);
    DigestNoBar(r');
    SplitAtFirst(r, e, r', e', '|');
  }

  /******* Merkle checkpoints *******/

  /** One checkpoint: the spec as JSON, an RFC 3339 timestamp and the count. */
  datatype Checkpoint = Checkpoint(spec: string, timestamp: string, count: int32)

  function CheckpointInput(c: Checkpoint): string {
    c.spec + "|" + c.timestamp + "|" + Dec(c.count)
  }

  function ComputeCheckpoint(h: string -> string, c: Checkpoint): string {
    h(CheckpointInput(c))
  }

  function ComputeMerkleRoot(h: string -> string, previousRoot: string, newCheckpoint: string): string {
    Link(h, previousRoot, newCheckpoint)
  }

  /** The root after a history of checkpoints. */
  function MerkleRoot(h: string -> string, history: seq<Checkpoint>): string {
    if history == [] then ""
    else
      ComputeMerkleRoot(h, MerkleRoot(h, history[..|history| - 1]), ComputeCheckpoint(h, history[|history| - 1]))
  }

  /** The text that is hashed for a checkpoint, and how roots are linked. */
  lemma RootIs(h: string -> string, history: seq<Checkpoint>, spec: string, timestamp: string, count: int32)
    ensures var checkpoint := h(spec + "|" + timestamp + "|" + Dec(count));
            var root := MerkleRoot(h, history);
            MerkleRoot(h, history + [Checkpoint(spec, timestamp, count)]) ==
            if root == "" then checkpoint else h(root + "|" + checkpoint)
  {
    assert (history + [Checkpoint(spec, timestamp, count)])[..|history|] == history;
  }

  /** The strings hashed while a history was recorded. */
  ghost function MerkleInputs(h: string -> string, history: seq<Checkpoint>): set<string> {
    if history == [] then {}
    else
      var init, last := history[..|history| - 1], history[|history| - 1];
      MerkleInputs(h, init) + {CheckpointInput(last)} +
      if init == [] then {} else {LinkInput(MerkleRoot(h, init), ComputeCheckpoint(h, last))}
  }

  ghost predicate TimestampsOk(history: seq<Checkpoint>) {
    forall i :: 0 <= i < |history| ==> '|' !in history[i].timestamp
  }

  /** The fields can be read back, even from a spec that contains bars. */
  lemma CheckpointInputInjective(c: Checkpoint, c': Checkpoint)
    requires '|' !in c.timestamp && '|' !in c'.timestamp
    requires CheckpointInput(c) == CheckpointInput(c')
    ensures c == c'
  {
    DecNoBar(c.count);
    DecNoBar(c'.count);
    SplitAtLast(c.spec + "|" + c.timestamp, Dec(c.count), c'.spec + "|" + c'.timestamp, Dec(c'.count), '|');
    SplitAtLast(c.spec, c.timestamp, c'.spec, c'.timestamp, '|');
    DecInjective(c.count, c'.count);
  }

  lemma RootIsDigest(h: HashFunction, history: seq<Checkpoint>)
    ensures if history == [] then MerkleRoot(h, history) == "" else IsDigest(MerkleRoot(h, history))
  {
  }

  /** A first root is never the hash of a later link's input. */
  lemma FirstAndLaterDiffer(c: Checkpoint, root: string, checkpoint: string)
    requires IsDigest(checkpoint)
    ensures CheckpointInput(c) != LinkInput(root, checkpoint)
  {
    if CheckpointInput(c) == LinkInput(root, checkpoint) {
      DecNoBar(c.count);
      DigestNoBar(checkpoint);
      SplitAtLast(c.spec + "|" + c.timestamp, Dec(c.count), root, checkpoint, '|');
      DecInt32Length(c.count);
    }
  }

  /** The string hashed to obtain the root after `init` and then `c`. */
  ghost function RootInput(h: string -> string, init: seq<Checkpoint>, c: Checkpoint): string {
    if init == [] then CheckpointInput(c) else LinkInput(MerkleRoot(h, init), ComputeCheckpoint(h, c))
  }

  lemma RootOfAppend(h: HashFunction, init: seq<Checkpoint>, c: Checkpoint)
    ensures MerkleRoot(h, init + [c]) == h(RootInput(h, init, c))
    ensures MerkleInputs(h, init + [c]) == MerkleInputs(h, init) + {CheckpointInput(c), RootInput(h, init, c)}
  {
    assert (init + [c])[..|init|] == init;
    RootIsDigest(h, init);
  }

  /** It determines the root before and the checkpoint. */
  lemma RootInputInjective(h: HashFunction, init: seq<Checkpoint>, c: Checkpoint, init': seq<Checkpoint>, c': Checkpoint)
    requires RootInput(h, init, c) == RootInput(h, init', c')
    ensures MerkleRoot(h, init) == MerkleRoot(h, init') && ComputeCheckpoint(h, c) == ComputeCheckpoint(h, c')
  {
    var cp, cp' := ComputeCheckpoint(h, c), ComputeCheckpoint(h, c');
    if init == [] && init' != [] {
      FirstAndLaterDiffer(c, MerkleRoot(h, init'), cp');
    } else if init != [] && init' == [] {
      FirstAndLaterDiffer(c', MerkleRoot(h, init), cp);
    } else if init != [] {
      RootIsDigest(h, init);
      RootIsDigest(h, init');
      LinkInputInjective(MerkleRoot(h, init), cp, MerkleRoot(h, init'), cp');
    }
  }

  lemma SameRootSameLast(h: HashFunction, init: seq<Checkpoint>, c: Checkpoint, init': seq<Checkpoint>, c': Checkpoint,
                         xs: set<string>, ys: set<string>)
    requires h(RootInput(h, init, c)) == h(RootInput(h, init', c'))
    requires {RootInput(h, init, c), CheckpointInput(c)} <= xs && {RootInput(h, init', c'), CheckpointInput(c')} <= ys
    requires '|' !in c.timestamp && '|' !in c'.timestamp
    ensures Collide(h, xs, ys) || (MerkleRoot(h, init) == MerkleRoot(h, init') && c == c')
  {
    SameHash(h, RootInput(h, init, c), RootInput(h, init', c'), xs, ys);
    if !Collide(h, xs, ys) {
      RootInputInjective(h, init, c, init', c');
      SameHash(h, CheckpointInput(c), CheckpointInput(c'), xs, ys);
      CheckpointInputInjective(c, c');
    }
  }

  /** Any edit of a history changes its root, or exhibits a collision. */
  lemma {:induction false} SameRootSameHistory(h: HashFunction, history: seq<Checkpoint>, history': seq<Checkpoint>)
    requires TimestampsOk(history) && TimestampsOk(history')
    requires MerkleRoot(h, history) == MerkleRoot(h, history')
    ensures history == history' || Collide(h, MerkleInputs(h, history), MerkleInputs(h, history'))
  {
    RootIsDigest(h, history);
    RootIsDigest(h, history');
    if history != [] && history' != [] {
      var init, c := history[..|history| - 1], history[|history| - 1];
      var init', c' := history'[..|history'| - 1], history'[|history'| - 1];
      InitAndLast(history);
      InitAndLast(history');
      RootOfAppend(h, init, c);
      RootOfAppend(h, init', c');
      var xs, ys := MerkleInputs(h, history), MerkleInputs(h, history');
      SameRootSameLast(h, init, c, init', c', xs, ys);
      if !Collide(h, xs, ys) {
        SameRootSameHistory(h, init, init');
        if init != init' {
          CollideExtends(h, MerkleInputs(h, init), MerkleInputs(h, init'), xs, ys);
        }
      }
    }
  }

  /******* The merkle-only proof chain *******/

  datatype Step = Step(data: string, index: int)

  function StepInput(previousProof: string, step: Step): string {
    previousProof + "|" + step.data + "|" + Dec(step.index)
  }

  function ComputeStepProof(h: string -> string, previousProof: string, step: Step): string {
    h(StepInput(previousProof, step))
  }

  function ComputeProofChainRoot(h: string -> string, previousRoot: string, newStepProof: string): string {
    Link(h, previousRoot, newStepProof)
  }

  function ProofRoot(h: string -> string, steps: seq<Step>): string {
    if steps == [] then ""
    else
      var previous := ProofRoot(h, steps[..|steps| - 1]);
      ComputeProofChainRoot(h, previous, ComputeStepProof(h, previous, steps[|steps| - 1]))
  }

  lemma ProofRootIs(h: string -> string, steps: seq<Step>, data: string, index: int)
    ensures var root := ProofRoot(h, steps);
            var proof := h(root + "|" + data + "|" + Dec(index));
            ProofRoot(h, steps + [Step(data, index)]) == if root == "" then proof else h(root + "|" + proof)
  {
    assert (steps + [Step(data, index)])[..|steps|] == steps;
  }

  ghost function ProofInputs(h: string -> string, steps: seq<Step>): set<string> {
    if steps == [] then {}
    else
      var init, last := steps[..|steps| - 1], steps[|steps| - 1];
      var previous := ProofRoot(h, init);
      ProofInputs(h, init) + {StepInput(previous, last)} +
      if init == [] then {} else {LinkInput(previous, ComputeStepProof(h, previous, last))}
  }

  lemma ProofRootIsDigest(h: HashFunction, steps: seq<Step>)
    ensures if steps == [] then ProofRoot(h, steps) == "" else IsDigest(ProofRoot(h, steps))
  {
  }

  lemma StepInputInjective(previous: string, step: Step, step': Step)
    requires StepInput(previous, step) == StepInput(previous, step')
    ensures step == step'
  {
    DecNoBar(step.index);
    DecNoBar(step'.index);
    SplitAtLast(previous + "|" + step.data, Dec(step.index), previous + "|" + step'.data, Dec(step'.index), '|');
    DecInjective(step.index, step'.index);
    assert step.data == (previous + "|" + step.data)[|previous| + 1..];
    assert step'.data == (previous + "|" + step'.data)[|previous| + 1..];
  }

  /** A first step's input starts with a bar, a later link's with a digest. */
  lemma FirstStepAndLaterDiffer(step: Step, root: string, proof: string)
    requires IsDigest(root)
    ensures StepInput("", step) != LinkInput(root, proof)
  {
    assert StepInput("", step)[0] == '|';
    assert LinkInput(root, proof)[0] == root[0];
  }

  /** The string hashed to obtain the proof root after `init` and then `step`. */
  ghost function ProofRootInput(h: string -> string, init: seq<Step>, step: Step): string {
    var previous := ProofRoot(h, init);
    if init == [] then StepInput("", step) else LinkInput(previous, ComputeStepProof(h, previous, step))
  }

  lemma ProofRootOfAppend(h: HashFunction, init: seq<Step>, step: Step)
    ensures ProofRoot(h, init + [step]) == h(ProofRootInput(h, init, step))
    ensures ProofInputs(h, init + [step]) ==
            ProofInputs(h, init) + {StepInput(ProofRoot(h, init), step), ProofRootInput(h, init, step)}
  {
    assert (init + [step])[..|init|] == init;
    ProofRootIsDigest(h, init);
  }

  /** It determines the root before and the proof of the step. */
  lemma ProofRootInputInjective(h: HashFunction, init: seq<Step>, s: Step, init': seq<Step>, s': Step)
    requires ProofRootInput(h, init, s) == ProofRootInput(h, init', s')
    ensures ProofRoot(h, init) == ProofRoot(h, init')
    ensures h(StepInput(ProofRoot(h, init), s)) == h(StepInput(ProofRoot(h, init'), s'))
  {
    var p, p' := ProofRoot(h, init), ProofRoot(h, init');
    ProofRootIsDigest(h, init);
    ProofRootIsDigest(h, init');
    if init == [] && init' != [] {
      FirstStepAndLaterDiffer(s, p', ComputeStepProof(h, p', s'));
    } else if init != [] && init' == [] {
      FirstStepAndLaterDiffer(s', p, ComputeStepProof(h, p, s));
    } else if init != [] {
      LinkInputInjective(p, ComputeStepProof(h, p, s), p', ComputeStepProof(h, p', s'));
    }
  }

  lemma SameProofSameLast(h: HashFunction, init: seq<Step>, s: Step, init': seq<Step>, s': Step, xs: set<string>, ys: set<string>)
    requires h(ProofRootInput(h, init, s)) == h(ProofRootInput(h, init', s'))
    requires {ProofRootInput(h, init, s), StepInput(ProofRoot(h, init), s)} <= xs
    requires {ProofRootInput(h, init', s'), StepInput(ProofRoot(h, init'), s')} <= ys
    ensures Collide(h, xs, ys) || (ProofRoot(h, init) == ProofRoot(h, init') && s == s')
  {
    SameHash(h, ProofRootInput(h, init, s), ProofRootInput(h, init', s'), xs, ys);
    if !Collide(h, xs, ys) {
      ProofRootInputInjective(h, init, s, init', s');
      SameHash(h, StepInput(ProofRoot(h, init), s), StepInput(ProofRoot(h, init'), s'), xs, ys);
      StepInputInjective(ProofRoot(h, init), s, s');
    }
  }

  /** The proof chain too commits to every step, its data and its index. */
  lemma {:induction false} SameProofSameSteps(h: HashFunction, steps: seq<Step>, steps': seq<Step>)
    requires ProofRoot(h, steps) == ProofRoot(h, steps')
    ensures steps == steps' || Collide(h, ProofInputs(h, steps), ProofInputs(h, steps'))
  {
    ProofRootIsDigest(h, steps);
    ProofRootIsDigest(h, steps');
    if steps != [] && steps' != [] {
      var init, s := steps[..|steps| - 1], steps[|steps| - 1];
      var init', s' := steps'[..|steps'| - 1], steps'[|steps'| - 1];
      InitAndLast(steps);
      InitAndLast(steps');
      ProofRootOfAppend(h, init, s);
      ProofRootOfAppend(h, init', s');
      var xs, ys := ProofInputs(h, steps), ProofInputs(h, steps');
      SameProofSameLast(h, init, s, init', s', xs, ys);
      if !Collide(h, xs, ys) {
        SameProofSameSteps(h, init, init');
        if init != init' {
          CollideExtends(h, ProofInputs(h, init), ProofInputs(h, init'), xs, ys);
        }
      }
    }
  }
}
