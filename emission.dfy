/**
  What a Torch-to-TCP elementwise pattern emits: a sequence of steps in emission
  order. A step is either a TCP primitive or one of the shape/dtype utilities the
  patterns call (castTensorToDtype, broadcastToMatchShape, ...), which are kept
  uninterpreted. Values are in SSA form: an argument of the matched op, or a
  result of an earlier step.
*/
module Emission {
  import opened Wrappers
  import opened TcpOps

  /** An argument of the matched source op, or result `slot` of step `op` of the emitted sequence. */
  datatype Value = Arg(name: string) | Res(op: nat, slot: nat)

  datatype StepKind =
    | ScalarToTensor(elem: ElemType)                            // scalarToTcpTensor into a rank-0 tensor of `elem`
    | CastToDtype(from: ElemType, to: ElemType, resultElem: ElemType)  // castTensorToDtype
    | BroadcastToMatchShape                                     // broadcastToMatchShape: two results
    | ConstTensor(value: real)                                  // getConstTensor<float> of shape {}
    | Broadcast0DOr1DToND(elem: ElemType, axis: Option<nat>)    // None: the helper's default axis
    | Prim(op: TcpOp)                                           // a TCP primitive

  datatype Step = Step(kind: StepKind, uses: seq<Value>)

  /** The emitted steps and the value that replaces the matched op. */
  datatype Rewrite = Rewrite(ops: seq<Step>, result: Value)

  function Arity(k: StepKind): nat {
    if k.BroadcastToMatchShape? then 2 else 1
  }

  /** `v` names an argument or a result of one of the first `n` steps. */
  predicate DefinedBefore(ops: seq<Step>, n: nat, v: Value)
    requires n <= |ops|
  {
    v.Arg? || (v.op < n && v.slot < Arity(ops[v.op].kind))
  }

  /** `v` names an argument or an existing result of a step of `ops`. */
  predicate Defined(ops: seq<Step>, v: Value) {
    DefinedBefore(ops, |ops|, v)
  }

  /** Every step uses only arguments and results of the steps emitted before it. */
  predicate WellFormed(ops: seq<Step>) {
    forall i, j :: 0 <= i < |ops| && 0 <= j < |ops[i].uses| ==> DefinedBefore(ops, i, ops[i].uses[j])
  }

  predicate Valid(rw: Rewrite) {
    WellFormed(rw.ops) && Defined(rw.ops, rw.result)
  }

  /** The dataflow tree that defines a value. */
  datatype Term = Leaf(v: Value) | Node(kind: StepKind, slot: nat, args: seq<Term>)

  /** The tree of `v` as far as the first `n` steps define it. */
  function UnfoldAt(ops: seq<Step>, n: nat, v: Value): Term
    requires n <= |ops|
    decreases n, 0, 0
  {
    if v.Res? && v.op < n then Node(ops[v.op].kind, v.slot, UnfoldAllAt(ops, v.op, ops[v.op].uses))
    else Leaf(v)
  }

  function UnfoldAllAt(ops: seq<Step>, n: nat, vs: seq<Value>): seq<Term>
    requires n <= |ops|
    decreases n, 1, |vs|
  {
    if vs == [] then [] else [UnfoldAt(ops, n, vs[0])] + UnfoldAllAt(ops, n, vs[1..])
  }

  function Unfold(ops: seq<Step>, v: Value): Term {
    UnfoldAt(ops, |ops|, v)
  }

  /** Unfolding within the first `n` steps looks at nothing beyond them. */
  lemma {:induction false} UnfoldAtAgree(ops: seq<Step>, ops': seq<Step>, n: nat, v: Value)
    requires n <= |ops| && n <= |ops'|
    requires forall k :: 0 <= k < n ==> ops'[k] == ops[k]
    ensures UnfoldAt(ops', n, v) == UnfoldAt(ops, n, v)
    decreases n, 0, 0
  {
    if v.Res? && v.op < n {
      UnfoldAllAtAgree(ops, ops', v.op, ops[v.op].uses);
    }
  }

  lemma {:induction false} UnfoldAllAtAgree(ops: seq<Step>, ops': seq<Step>, n: nat, vs: seq<Value>)
    requires n <= |ops| && n <= |ops'|
    requires forall k :: 0 <= k < n ==> ops'[k] == ops[k]
    ensures UnfoldAllAt(ops', n, vs) == UnfoldAllAt(ops, n, vs)
    decreases n, 1, |vs|
  {
    if vs != [] {
      UnfoldAtAgree(ops, ops', n, vs[0]);
      UnfoldAllAtAgree(ops, ops', n, vs[1..]);
    }
  }

  lemma AppendWellFormed(ops: seq<Step>, s: Step)
    requires WellFormed(ops)
    requires forall u :: u in s.uses ==> Defined(ops, u)
    ensures WellFormed(ops + [s])
  {
    var ops' := ops + [s];
    forall i, j | 0 <= i < |ops'| && 0 <= j < |ops'[i].uses|
      ensures DefinedBefore(ops', i, ops'[i].uses[j])
    {
      if i == |ops| {
        assert ops'[i].uses[j] in s.uses;
      }
    }
  }

  /** Appending one step: the frame facts every emitter states. */
  lemma AppendFrame(ops: seq<Step>, s: Step)
    ensures UnfoldAllAt(ops + [s], |ops|, s.uses) == UnfoldAllAt(ops, |ops|, s.uses)
    ensures forall w :: Defined(ops, w) ==> Defined(ops + [s], w) && Unfold(ops + [s], w) == Unfold(ops, w)
  {
    var ops' := ops + [s];
    UnfoldAllAtAgree(ops, ops', |ops|, s.uses);
    forall w | Defined(ops, w) ensures Unfold(ops', w) == Unfold(ops, w) {
      if w.Res? {
        UnfoldAllAtAgree(ops, ops', w.op, ops[w.op].uses);
      }
    }
  }

  lemma UnfoldAllSmall(ops: seq<Step>, n: nat, vs: seq<Value>)
    requires n <= |ops|
    ensures |vs| == 0 ==> UnfoldAllAt(ops, n, vs) == []
    ensures |vs| == 1 ==> UnfoldAllAt(ops, n, vs) == [UnfoldAt(ops, n, vs[0])]
    ensures |vs| == 2 ==> UnfoldAllAt(ops, n, vs) == [UnfoldAt(ops, n, vs[0]), UnfoldAt(ops, n, vs[1])]
  {
    if |vs| == 2 {
      assert vs[1..][1..] == [];
    }
  }

  /** Emits a one-result step using `uses` and returns its result. */
  method Emit(ops: seq<Step>, kind: StepKind, uses: seq<Value>) returns (ops': seq<Step>, v: Value)
    requires !kind.BroadcastToMatchShape?
    requires WellFormed(ops)
    requires forall u :: u in uses ==> Defined(ops, u)
    ensures ops' == ops + [Step(kind, uses)] && v == Res(|ops|, 0)
    ensures WellFormed(ops') && Defined(ops', v)
    ensures |uses| == 0 ==> Unfold(ops', v) == Node(kind, 0, [])
    ensures |uses| == 1 ==> Unfold(ops', v) == Node(kind, 0, [Unfold(ops, uses[0])])
    ensures |uses| == 2 ==> Unfold(ops', v) == Node(kind, 0, [Unfold(ops, uses[0]), Unfold(ops, uses[1])])
    ensures forall w {:trigger Defined(ops', w)} :: Defined(ops, w) ==> Defined(ops', w)
    ensures forall w {:trigger Unfold(ops', w)} :: Defined(ops, w) ==> Unfold(ops', w) == Unfold(ops, w)
  {
    var s := Step(kind, uses);
    ops' := ops + [s];
    v := Res(|ops|, 0);
    AppendWellFormed(ops, s);
    AppendFrame(ops, s);
    UnfoldAllSmall(ops, |ops|, uses);
  }

  /** Emits broadcastToMatchShape(a, b) and returns its two results. */
  method EmitBroadcast(ops: seq<Step>, a: Value, b: Value) returns (ops': seq<Step>, a': Value, b': Value)
    requires WellFormed(ops) && Defined(ops, a) && Defined(ops, b)
    ensures ops' == ops + [Step(BroadcastToMatchShape, [a, b])]
    ensures a' == Res(|ops|, 0) && b' == Res(|ops|, 1)
    ensures WellFormed(ops') && Defined(ops', a') && Defined(ops', b')
    ensures Unfold(ops', a') == Node(BroadcastToMatchShape, 0, [Unfold(ops, a), Unfold(ops, b)])
    ensures Unfold(ops', b') == Node(BroadcastToMatchShape, 1, [Unfold(ops, a), Unfold(ops, b)])
    ensures forall w {:trigger Defined(ops', w)} :: Defined(ops, w) ==> Defined(ops', w)
    ensures forall w {:trigger Unfold(ops', w)} :: Defined(ops, w) ==> Unfold(ops', w) == Unfold(ops, w)
  {
    var s := Step(BroadcastToMatchShape, [a, b]);
    ops' := ops + [s];
    a', b' := Res(|ops|, 0), Res(|ops|, 1);
    AppendWellFormed(ops, s);
    AppendFrame(ops, s);
    UnfoldAllSmall(ops, |ops|, [a, b]);
  }
}
