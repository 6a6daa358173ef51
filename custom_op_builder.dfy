/**
  The custom-op escape hatch of the Torch-to-TCP conversion: a builder that
  accumulates named operands and named attributes for one source op and then
  commits exactly one `tcp.custom_op` carrying them (the conversion helper used
  throughout lib/Conversion/TorchToTcp/TcpCustomOp.cpp).

  An attribute request whose argument is not a constant of the requested kind
  makes the builder remember a failure; `Replace` is the only commit point and
  reports the first such failure instead of committing anything.
*/
module CustomOpBuilder {
  import opened Wrappers
  import opened TcpOps

  /** An SSA value of the converted program (an adaptor operand or a produced index). */
  datatype SsaValue = SsaValue(id: nat)

  datatype OperandBinding = OperandBinding(name: string, value: SsaValue)

  datatype AttrValue =
    | IntAttr(i: int)
    | BoolAttr(b: bool)
    | FloatAttr(f: real)
    | IntListAttr(ints: seq<int>)
    | DenseIntArrayAttr(elems: seq<int>)

  datatype AttrBinding = AttrBinding(name: string, value: AttrValue)

  /** The committed op: the source op's name, its operands and its attributes, each in the order added. */
  datatype CustomOp = CustomOp(opName: string, operands: seq<OperandBinding>, attrs: seq<AttrBinding>)

  /** One attribute request made to the builder, with the argument it was given. */
  datatype AttrRequest =
    | IntRequest(name: string, arg: ConstArg)
    | BoolRequest(name: string, arg: ConstArg)
    | FloatRequest(name: string, arg: ConstArg)
    | IntListRequest(name: string, list: Option<seq<int>>)      // None: not a list of constant ints
    | DenseIntArrayRequest(name: string, elems: seq<int>)
    | TryFloatRequest(name: string, arg: ConstArg)              // tryConvertConstToFloatAttr

  /** A constant int or float, the arguments `tryConvertConstToFloatAttr` accepts. */
  predicate IsNumericConst(c: ConstArg) {
    c.ConstInt? || c.ConstFloat?
  }

  function AsReal(c: ConstArg): real
    requires IsNumericConst(c)
  {
    if c.ConstInt? then c.i as real else c.f
  }

  /** The literal a request records, if its argument is a constant of the requested kind. */
  function Encoded(q: AttrRequest): Option<AttrValue> {
    match q
    case IntRequest(_, c) => if c.ConstInt? then Some(IntAttr(c.i)) else None
    case BoolRequest(_, c) => if c.ConstBool? then Some(BoolAttr(c.b)) else None
    case FloatRequest(_, c) => if c.ConstFloat? then Some(FloatAttr(c.f)) else None
    case IntListRequest(_, l) => if l.Some? then Some(IntListAttr(l.value)) else None
    case DenseIntArrayRequest(_, l) => Some(DenseIntArrayAttr(l))
    case TryFloatRequest(_, c) => if IsNumericConst(c) then Some(FloatAttr(AsReal(c))) else None
  }

  /** A request that fails the conversion; a `TryFloatRequest` never does, it only reports whether it recorded. */
  predicate Rejects(q: AttrRequest) {
    !q.TryFloatRequest? && Encoded(q).None?
  }

  function Recorded(q: AttrRequest): seq<AttrBinding> {
    if Encoded(q).Some? then [AttrBinding(q.name, Encoded(q).value)] else []
  }

  /** The attributes a sequence of requests records, in request order. */
  function AttrsOf(qs: seq<AttrRequest>): seq<AttrBinding>
    decreases |qs|
  {
    if qs == [] then [] else AttrsOf(qs[..|qs| - 1]) + Recorded(qs[|qs| - 1])
  }

  /** The name of the first rejected request, if any. */
  function FirstRejected(qs: seq<AttrRequest>): (r: Option<string>)
    decreases |qs|
  {
    if qs == [] then None
    else if FirstRejected(qs[..|qs| - 1]).Some? then FirstRejected(qs[..|qs| - 1])
    else if Rejects(qs[|qs| - 1]) then Some(qs[|qs| - 1].name)
    else None
  }

  /**
    What committing yields: the first rejected request's name as the failure, or
    the custom op with the given operands and the recorded attributes.
  */
  function Packaged(opName: string, operands: seq<OperandBinding>, qs: seq<AttrRequest>): (r: Result<CustomOp>)
  {
    match FirstRejected(qs)
    case Some(n) => Failure(n)
    case None => Success(CustomOp(opName, operands, AttrsOf(qs)))
  }

  /** The failure after one more request: the earlier one if any, else this request's name if it is rejected. */
  function NextFailure(failure: Option<string>, q: AttrRequest): Option<string> {
    if failure.Some? then failure else if Rejects(q) then Some(q.name) else None
  }

  lemma AppendRequest(qs: seq<AttrRequest>, q: AttrRequest)
    ensures AttrsOf(qs + [q]) == AttrsOf(qs) + Recorded(q)
    ensures FirstRejected(qs + [q]) == NextFailure(FirstRejected(qs), q)
  {
    assert (qs + [q])[..|qs|] == qs;
  }

  /** Committing fails exactly when some request was rejected. */
  lemma {:induction false} PackagedFailsIffRejected(opName: string, operands: seq<OperandBinding>, qs: seq<AttrRequest>)
    ensures Packaged(opName, operands, qs).Failure? <==> exists i :: 0 <= i < |qs| && Rejects(qs[i])
    decreases |qs|
  {
    if qs != [] {
      var p := qs[..|qs| - 1];
      PackagedFailsIffRejected(opName, operands, p);
      if exists i :: 0 <= i < |p| && Rejects(p[i]) {
        var i :| 0 <= i < |p| && Rejects(p[i]);
        assert qs[i] == p[i];
      }
      if exists i :: 0 <= i < |qs| && Rejects(qs[i]) {
        var i :| 0 <= i < |qs| && Rejects(qs[i]);
        if i < |p| {
          assert p[i] == qs[i];
        }
      }
    }
  }

  /** The reported failure names the earliest rejected request. */
  lemma {:induction false} FirstRejectedIsEarliest(qs: seq<AttrRequest>)
    ensures FirstRejected(qs).Some? ==>
      exists i :: 0 <= i < |qs| && Rejects(qs[i]) && qs[i].name == FirstRejected(qs).value &&
        forall j :: 0 <= j < i ==> !Rejects(qs[j])
    decreases |qs|
  {
    if qs != [] {
      var p := qs[..|qs| - 1];
      FirstRejectedIsEarliest(p);
      if FirstRejected(p).Some? {
        var i :| 0 <= i < |p| && Rejects(p[i]) && p[i].name == FirstRejected(p).value &&
          forall j :: 0 <= j < i ==> !Rejects(p[j]);
        assert qs[i] == p[i];
        assert forall j :: 0 <= j < i ==> qs[j] == p[j];
      } else if Rejects(qs[|qs| - 1]) {
        PackagedFailsIffRejected("", [], p);
        assert forall j :: 0 <= j < |qs| - 1 ==> qs[j] == p[j];
      }
    }
  }

  /** When every request records, the attributes are the requests' literals one for one, in request order. */
  lemma {:induction false} AttrsInRequestOrder(qs: seq<AttrRequest>)
    requires forall i :: 0 <= i < |qs| ==> Encoded(qs[i]).Some?
    ensures |AttrsOf(qs)| == |qs|
    ensures forall i :: 0 <= i < |qs| ==> AttrsOf(qs)[i] == AttrBinding(qs[i].name, Encoded(qs[i]).value)
    decreases |qs|
  {
    if qs != [] {
      var p := qs[..|qs| - 1];
      AttrsInRequestOrder(p);
    }
  }

  /** Every recorded attribute carries the name of a request. */
  lemma {:induction false} AttrNamesFromRequests(qs: seq<AttrRequest>)
    ensures forall a :: a in AttrsOf(qs) ==> exists k :: 0 <= k < |qs| && qs[k].name == a.name
    decreases |qs|
  {
    if qs != [] {
      var p := qs[..|qs| - 1];
      AttrNamesFromRequests(p);
      forall a | a in AttrsOf(qs) ensures exists k :: 0 <= k < |qs| && qs[k].name == a.name {
        if a in AttrsOf(p) {
          var k :| 0 <= k < |p| && p[k].name == a.name;
          assert qs[k] == p[k];
        } else {
          assert qs[|qs| - 1].name == a.name;
        }
      }
    }
  }

  predicate DistinctStrings(names: seq<string>) {
    forall i, j :: 0 <= i < j < |names| ==> names[i] != names[j]
  }

  function RequestNames(qs: seq<AttrRequest>): seq<string> {
    seq(|qs|, i requires 0 <= i < |qs| => qs[i].name)
  }

  function OperandNames(os: seq<OperandBinding>): seq<string> {
    seq(|os|, i requires 0 <= i < |os| => os[i].name)
  }

  function AttrNames(as_: seq<AttrBinding>): seq<string> {
    seq(|as_|, i requires 0 <= i < |as_| => as_[i].name)
  }

  /** Names are unique within the op's operands and within its attributes. */
  predicate UniqueNames(op: CustomOp) {
    DistinctStrings(OperandNames(op.operands)) && DistinctStrings(AttrNames(op.attrs))
  }

  /** Distinct request names give distinct attribute names. */
  lemma {:induction false} DistinctRequestsGiveDistinctAttrs(qs: seq<AttrRequest>)
    requires DistinctStrings(RequestNames(qs))
    ensures DistinctStrings(AttrNames(AttrsOf(qs)))
    decreases |qs|
  {
    if qs != [] {
      var p := qs[..|qs| - 1];
      var q := qs[|qs| - 1];
      assert DistinctStrings(RequestNames(p)) by {
        forall i, j | 0 <= i < j < |p| ensures p[i].name != p[j].name {
          assert RequestNames(qs)[i] == p[i].name && RequestNames(qs)[j] == p[j].name;
        }
      }
      DistinctRequestsGiveDistinctAttrs(p);
      AttrNamesFromRequests(p);
      var a := AttrsOf(p);
      var all := AttrsOf(qs);
      assert all == a + Recorded(q);
      forall i, j | 0 <= i < j < |all| ensures all[i].name != all[j].name {
        if j >= |a| {
          assert all[i] in a;
          assert all[j].name == q.name;
          var k :| 0 <= k < |p| && p[k].name == all[i].name;
          assert RequestNames(qs)[k] == p[k].name && RequestNames(qs)[|qs| - 1] == q.name;
        } else {
          assert AttrNames(a)[i] == all[i].name && AttrNames(a)[j] == all[j].name;
        }
      }
    }
  }

  /** A committed op has unique names when the operand names and the request names are each distinct. */
  lemma PackagedUniqueNames(opName: string, operands: seq<OperandBinding>, qs: seq<AttrRequest>)
    requires DistinctStrings(OperandNames(operands)) && DistinctStrings(RequestNames(qs))
    ensures Packaged(opName, operands, qs).Success? ==> UniqueNames(Packaged(opName, operands, qs).value)
  {
    DistinctRequestsGiveDistinctAttrs(qs);
  }

  // ---------------------------------------------------------------------------
  // Decimal names of repeated operands

  function DigitChar(d: nat): char
    requires d < 10
  {
    ('0' as int + d) as char
  }

  /** `std::to_string` of a non-negative index. */
  function NatToString(n: nat): (s: string)
    ensures |s| >= 1
    ensures n < 10 <==> |s| == 1
    decreases n
  {
    if n < 10 then [DigitChar(n)] else NatToString(n / 10) + [DigitChar(n % 10)]
  }

  /** Different indices are printed differently. */
  lemma {:induction false} NatToStringInjective(a: nat, b: nat)
    requires NatToString(a) == NatToString(b)
    ensures a == b
    decreases a
  {
    if a >= 10 && b >= 10 {
      var sa, sb := NatToString(a / 10), NatToString(b / 10);
      assert |sa| == |sb|;
      assert sa == NatToString(a)[..|sa|] && sb == NatToString(b)[..|sb|];
      NatToStringInjective(a / 10, b / 10);
      assert DigitChar(a % 10) == NatToString(a)[|sa|] == DigitChar(b % 10);
    }
  }

  /** `prefix + to_string(i)` names are distinct for distinct i. */
  lemma IndexedNamesDistinct(prefix: string, i: nat, j: nat)
    requires i != j
    ensures prefix + NatToString(i) != prefix + NatToString(j)
  {
    if prefix + NatToString(i) == prefix + NatToString(j) {
      assert NatToString(i) == (prefix + NatToString(i))[|prefix|..];
      assert NatToString(j) == (prefix + NatToString(j))[|prefix|..];
      NatToStringInjective(i, j);
    }
  }

  /** The operands `addAsMultipleTensorOperands` adds for the first `n` list elements. */
  function IndexedOperands(prefix: string, vs: seq<SsaValue>, n: nat): (os: seq<OperandBinding>)
    requires n <= |vs|
    ensures |os| == n
  {
    seq(n, i requires 0 <= i < n => OperandBinding(prefix + NatToString(i), vs[i]))
  }

  // ---------------------------------------------------------------------------
  // The builder

  class Builder {
    const opName: string
    var operands: seq<OperandBinding>
    var attrs: seq<AttrBinding>
    var failure: Option<string>
    /** The attribute requests made so far. */
    ghost var requests: seq<AttrRequest>

    ghost predicate Valid()
      reads this
    {
      attrs == AttrsOf(requests) && failure == FirstRejected(requests)
    }

    constructor(opName: string)
      ensures Valid()
      ensures this.opName == opName && operands == [] && requests == []
    {
      this.opName := opName;
      operands := [];
      attrs := [];
      failure := None;
      requests := [];
    }

    method AddOperand(name: string, v: SsaValue)
      requires Valid()
      modifies this
      ensures Valid()
      ensures operands == old(operands) + [OperandBinding(name, v)] && requests == old(requests)
      ensures attrs == old(attrs) && failure == old(failure)
  {
      operands := operands + [OperandBinding(name, v)];
    }

    /** Adds each list element as an operand named by the prefix and the element's position. */
    method AddAsMultipleTensorOperands(prefix: string, vs: seq<SsaValue>)
      requires Valid()
      modifies this
      ensures Valid()
      ensures operands == old(operands) + IndexedOperands(prefix, vs, |vs|) && requests == old(requests)
      ensures attrs == old(attrs) && failure == old(failure)
  {
      var i := 0;
      while i < |vs|
        invariant 0 <= i <= |vs|
        invariant Valid() && requests == old(requests) && attrs == old(attrs) && failure == old(failure)
        invariant operands == old(operands) + IndexedOperands(prefix, vs, i)
      {
        AddOperand(prefix + NatToString(i), vs[i]);
        assert IndexedOperands(prefix, vs, i + 1) == IndexedOperands(prefix, vs, i) + [OperandBinding(prefix + NatToString(i), vs[i])];
        i := i + 1;
      }
    }

    /** Records one attribute request: its literal if the argument fits, else the first failure. */
    method Request(q: AttrRequest)
      requires Valid()
      modifies this
      ensures Valid()
      ensures operands == old(operands) && requests == old(requests) + [q]
      ensures attrs == old(attrs) + Recorded(q) && failure == NextFailure(old(failure), q)
  {
      AppendRequest(requests, q);
      var e := Encoded(q);
      if e.Some? {
        attrs := attrs + [AttrBinding(q.name, e.value)];
      } else if !q.TryFloatRequest? && failure.None? {
        failure := Some(q.name);
      }
      requests := requests + [q];
    }

    method AddIntAttr(name: string, c: ConstArg)
      requires Valid()
      modifies this
      ensures Valid()
      ensures operands == old(operands) && requests == old(requests) + [IntRequest(name, c)]
      ensures attrs == old(attrs) + Recorded(IntRequest(name, c)) && failure == NextFailure(old(failure), IntRequest(name, c))
  {
      Request(IntRequest(name, c));
    }

    method AddBoolAttr(name: string, c: ConstArg)
      requires Valid()
      modifies this
      ensures Valid()
      ensures operands == old(operands) && requests == old(requests) + [BoolRequest(name, c)]
      ensures attrs == old(attrs) + Recorded(BoolRequest(name, c)) && failure == NextFailure(old(failure), BoolRequest(name, c))
  {
      Request(BoolRequest(name, c));
    }

    method AddFloatAttr(name: string, c: ConstArg)
      requires Valid()
      modifies this
      ensures Valid()
      ensures operands == old(operands) && requests == old(requests) + [FloatRequest(name, c)]
      ensures attrs == old(attrs) + Recorded(FloatRequest(name, c)) && failure == NextFailure(old(failure), FloatRequest(name, c))
  {
      Request(FloatRequest(name, c));
    }

    method AddListOfIntsAttr(name: string, list: Option<seq<int>>)
      requires Valid()
      modifies this
      ensures Valid()
      ensures operands == old(operands) && requests == old(requests) + [IntListRequest(name, list)]
      ensures attrs == old(attrs) + Recorded(IntListRequest(name, list)) && failure == NextFailure(old(failure), IntListRequest(name, list))
  {
      Request(IntListRequest(name, list));
    }

    method AddDenseIntArrayAttr(name: string, elems: seq<int>)
      requires Valid()
      modifies this
      ensures Valid()
      ensures operands == old(operands) && requests == old(requests) + [DenseIntArrayRequest(name, elems)]
      ensures attrs == old(attrs) + Recorded(DenseIntArrayRequest(name, elems)) && failure == NextFailure(old(failure), DenseIntArrayRequest(name, elems))
  {
      Request(DenseIntArrayRequest(name, elems));
    }

    /** Records a constant int or float as a float attribute and says whether it did. */
    method TryConvertConstToFloatAttr(name: string, c: ConstArg) returns (converted: bool)
      requires Valid()
      modifies this
      ensures Valid()
      ensures converted <==> IsNumericConst(c)
      ensures operands == old(operands) && requests == old(requests) + [TryFloatRequest(name, c)]
      ensures attrs == old(attrs) + Recorded(TryFloatRequest(name, c)) && failure == NextFailure(old(failure), TryFloatRequest(name, c))
  {
      Request(TryFloatRequest(name, c));
      converted := IsNumericConst(c);
    }

    /** The single commit point: the first recorded failure, or the op with everything added. */
    method Replace() returns (r: Result<CustomOp>)
      requires Valid()
      ensures r == Packaged(opName, operands, requests)
      ensures r.Success? <==> failure.None?
      ensures r.Success? ==> r.value == CustomOp(opName, operands, attrs)
  {
      if failure.Some? {
        r := Failure(failure.value);
      } else {
        r := Success(CustomOp(opName, operands, attrs));
      }
    }
  }
}
