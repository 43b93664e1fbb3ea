/**
 What passes the two layers of parameter checking, exactly: which lists make a handler run and with which arguments,
 which fault is reported, and where a value of the wrong kind or range is let through.
 */
module JsonTypeMapperProofs {
  import opened Wrappers
  import opened Json
  import Rpc = JsonRpcException
  import opened HederaKeys
  import opened JsonTypeMapper
  import CTP = CommonTransactionParams
  import KR = KeyRequest

  // The two loops.

  /** No check before the given index fails. */
  ghost predicate Passes(signature: seq<ParamType>, params: seq<Json>, from: nat, to: nat)
    requires to <= |signature| && to <= |params|
  {
    forall i | from <= i < to :: CheckParam(signature[i], i, params[i]).None?
  }

  /**
   The checks pass exactly when the list is long enough and every parameter passes its own; a failed check is that of the
   earliest failing parameter; and the list is indexed out of range exactly when it is too short and no parameter that it
   has fails.
   */
  lemma {:induction false} FirstFault(signature: seq<ParamType>, params: seq<Json>, from: nat)
    requires from <= |signature| && from <= |params|
    ensures CheckAll(signature, params, from).None? <==>
            |signature| <= |params| && Passes(signature, params, from, |signature|)
    ensures CheckAll(signature, params, from) == Some(OutOfRange) <==>
            |params| < |signature| && Passes(signature, params, from, |params|)
    ensures CheckAll(signature, params, from).Some? && CheckAll(signature, params, from) != Some(OutOfRange) ==>
              exists i | from <= i < |signature| && i < |params| && Passes(signature, params, from, i) ::
                && CheckParam(signature[i], i, params[i]).Some?
                && CheckAll(signature, params, from) == Some(FailedCheck(i, CheckParam(signature[i], i, params[i]).value))
    decreases |signature| - from
  {
    if from < |signature| && from < |params| && CheckParam(signature[from], from, params[from]).None? {
      FirstFault(signature, params, from + 1);
      var rest := CheckAll(signature, params, from + 1);
      if rest.Some? && rest != Some(OutOfRange) {
        var i :| from + 1 <= i < |signature| && i < |params| && Passes(signature, params, from + 1, i)
          && CheckParam(signature[i], i, params[i]).Some?
          && rest == Some(FailedCheck(i, CheckParam(signature[i], i, params[i]).value));
        assert Passes(signature, params, from, i);
      }
    } else if from < |signature| && from < |params| {
      assert Passes(signature, params, from, from);
    }
  }

  /** The conversion at a position in the order is the first to throw, and throws the fault. */
  ghost predicate ThrowsFirst(b: Backend, signature: seq<ParamType>, params: seq<Json>, order: seq<nat>, p: nat,
                              fault: ParamFault) {
    && p < |order|
    && order[p] < |signature| && GetParam(b, signature[order[p]], params, order[p]) == Err(fault)
    && forall q | 0 <= q < p :: order[q] < |signature| ==> GetParam(b, signature[order[q]], params, order[q]).Ok?
  }

  lemma {:induction false} FirstThrownMeaning(b: Backend, signature: seq<ParamType>, params: seq<Json>, order: seq<nat>)
    ensures var thrown := FirstThrown(b, signature, params, order);
            if thrown.None? then forall i | i in order && i < |signature| :: GetParam(b, signature[i], params, i).Ok?
            else exists p: nat :: ThrowsFirst(b, signature, params, order, p, thrown.value)
  {
    if order != [] {
      var thrown := FirstThrown(b, signature, params, order);
      if order[0] < |signature| && GetParam(b, signature[order[0]], params, order[0]).Err? {
        assert ThrowsFirst(b, signature, params, order, 0, thrown.value);
      } else {
        FirstThrownMeaning(b, signature, params, order[1..]);
        if thrown.Some? {
          var p: nat :| ThrowsFirst(b, signature, params, order[1..], p, thrown.value);
          ThrowsLater(b, signature, params, order, p, thrown.value);
        } else {
          assert forall i :: i in order <==> i == order[0] || i in order[1..];
        }
      }
    }
  }

  lemma ThrowsLater(b: Backend, signature: seq<ParamType>, params: seq<Json>, order: seq<nat>, p: nat, fault: ParamFault)
    requires order != [] && ThrowsFirst(b, signature, params, order[1..], p, fault)
    requires order[0] < |signature| ==> GetParam(b, signature[order[0]], params, order[0]).Ok?
    ensures ThrowsFirst(b, signature, params, order, p + 1, fault)
  {
    forall q | 0 <= q < p + 1 && order[q] < |signature|
      ensures GetParam(b, signature[order[q]], params, order[q]).Ok?
    {
      assert q > 0 ==> order[1..][q - 1] == order[q];
    }
  }

  lemma EveryoneEvaluated(b: Backend, n: nat)
    ensures forall i | 0 <= i < n :: i in EvaluationOrder(b, n)
  {
    forall i | 0 <= i < n
      ensures i in EvaluationOrder(b, n)
    {
      assert EvaluationOrder(b, n)[|b.order(n)| + i] == i;
    }
  }

  /**
   All conversions succeed exactly when each one does, and the arguments are theirs, in the order of the parameters;
   otherwise the first to be evaluated of those that do not is reported.
   */
  lemma AllConverted(b: Backend, signature: seq<ParamType>, params: seq<Json>)
    ensures GetAll(b, signature, params).Ok? <==>
            forall i | 0 <= i < |signature| :: GetParam(b, signature[i], params, i).Ok?
    ensures GetAll(b, signature, params).Ok? ==>
              var args := GetAll(b, signature, params).value;
              && |args| == |signature|
              && forall i | 0 <= i < |signature| :: GetParam(b, signature[i], params, i) == Ok(args[i])
    ensures GetAll(b, signature, params).Err? ==>
              exists p: nat ::
                ThrowsFirst(b, signature, params, EvaluationOrder(b, |signature|), p, GetAll(b, signature, params).error)
  {
    FirstThrownMeaning(b, signature, params, EvaluationOrder(b, |signature|));
    EveryoneEvaluated(b, |signature|);
  }

  /** What is reported is one of the conversions' faults. */
  lemma SomeConversion(b: Backend, signature: seq<ParamType>, params: seq<Json>) returns (i: nat)
    requires GetAll(b, signature, params).Err?
    ensures i < |signature| && GetParam(b, signature[i], params, i) == Err(GetAll(b, signature, params).error)
  {
    AllConverted(b, signature, params);
    var order := EvaluationOrder(b, |signature|);
    var p: nat :| ThrowsFirst(b, signature, params, order, p, GetAll(b, signature, params).error);
    i := order[p];
  }

  /** A conversion is never a failed check, nor out of range, and of no parameters at all only required ones fail. */
  lemma ConversionFaults(b: Backend, signature: seq<ParamType>, params: seq<Json>)
    ensures GetAll(b, signature, params).Err? ==>
              var fault := GetAll(b, signature, params).error;
              !fault.FailedCheck? && !fault.OutOfRange? && (params == [] ==> fault.MissingRequired?)
  {
    if GetAll(b, signature, params).Err? {
      var i := SomeConversion(b, signature, params);
    }
  }

  /** A parameter is accepted by both layers. */
  predicate Accepted(b: Backend, t: ParamType, index: nat, param: Json) {
    && CheckParam(t, index, param).None?
    && if param.Null? then t.Optional? else Convert(b, t.base, param).Ok?
  }

  function ArgOf(b: Backend, t: ParamType, index: nat, param: Json): Arg
    requires Accepted(b, t, index, param)
  {
    if param.Null? then NoArg else Convert(b, t.base, param).value
  }

  /**
   A handler is called exactly when the list is empty and every parameter is optional, or the list has at least as many
   elements as there are parameters and each is accepted by both layers. Further elements are ignored.
   */
  lemma PrepareMeaning(b: Backend, signature: seq<ParamType>, params: seq<Json>)
    ensures Prepare(b, signature, params).Ok? <==>
            if params == [] then forall t | t in signature :: t.Optional?
            else |signature| <= |params| && forall i | 0 <= i < |signature| :: Accepted(b, signature[i], i, params[i])
    ensures Prepare(b, signature, params).Ok? ==>
              var args := Prepare(b, signature, params).value;
              && |args| == |signature|
              && forall i | 0 <= i < |signature| ::
                   args[i] == if params == [] then NoArg else ArgOf(b, signature[i], i, params[i])
  {
    FirstFault(signature, params, 0);
    AllConverted(b, signature, params);
    if params == [] {
      assert forall i | 0 <= i < |signature| ::
          GetParam(b, signature[i], params, i).Ok? <==> signature[i].Optional?;
    } else if |signature| <= |params| {
      assert forall i | 0 <= i < |signature| ::
          Accepted(b, signature[i], i, params[i]) <==>
          CheckParam(signature[i], i, params[i]).None? && GetParam(b, signature[i], params, i).Ok?;
    }
    if Prepare(b, signature, params).Ok? {
      var args := Prepare(b, signature, params).value;
      forall i | 0 <= i < |signature|
        ensures args[i] == if params == [] then NoArg else ArgOf(b, signature[i], i, params[i])
      {
        assert GetParam(b, signature[i], params, i) == Ok(args[i]);
      }
    }
  }

  /**
   Index safety: a positional list is read out of range exactly when it is not empty, has fewer elements than the function
   has parameters, and no element of it fails its check before the end is passed.
   */
  lemma IndexSafety(b: Backend, signature: seq<ParamType>, params: seq<Json>)
    ensures Prepare(b, signature, params) == Err(OutOfRange) <==>
            params != [] && |params| < |signature| && Passes(signature, params, 0, |params|)
  {
    FirstFault(signature, params, 0);
    ConversionFaults(b, signature, params);
  }

  // Kinds.

  /** The kinds that a declared type calls for. */
  predicate RightKind(base: BaseType, param: Json) {
    match base
    case BoolType => param.Bool?
    case StringType => param.Str?
    case KeyRequestsType => param.Arr?
    case CommonParamsType => param.Obj?
    case _ => param.Int? || param.Unsigned?
  }

  /** An integer that passes the first layer. */
  predicate InCheckedRange(base: BaseType, param: Json)
    requires IsNumberInteger(param)
  {
    (base.Uint64Type? ==> IntegerOf(param) >= 0) && (param.Unsigned? ==> IntegerOf(param) <= MaxOf(base))
  }

  /**
   The first layer: what is checked passes exactly if it is of the right kind and, as an integer, in range; and the fault
   names the kinds, or only the expected one if the number is too large.
   */
  lemma CheckExactly(t: ParamType, index: nat, param: Json)
    ensures CheckParam(t, index, param).None? <==>
            !IsChecked(t, index, param) || (RightKind(t.base, param) && (IsInteger(t.base) ==> InCheckedRange(t.base, param)))
    ensures CheckParam(t, index, param).Some? ==>
              CheckParam(t, index, param).value
              == if param.Unsigned? && IsInteger(t.base) then ExceedsRange(ExpectedKind(t.base))
                 else WrongKind(ExpectedKind(t.base), KindOf(param))
  {
  }

  /** What such faults, and one of the second layer, say. */
  lemma MessageExamples()
    ensures WrongKind(StringKind, BoolKind).Message() == WRONG_KIND_TEXT + "string" + ", but is " + "boolean"
    ensures WrongKind(ArrayKind, ObjectKind).Message() == WRONG_KIND_TEXT + "array" + ", but is " + "object"
    ensures WrongKind(UnsignedKind, FloatKind).Message() == WRONG_KIND_TEXT + "unsigned integer" + ", but is " + "float"
    ensures WrongKind(IntKind, NullKind).Message() == WRONG_KIND_TEXT + "integer" + ", but is " + "null"
    ensures ExceedsRange(IntKind).Message() == EXCEEDS_RANGE_TEXT + "integer"
    ensures WrongJsonType(StringType, Bool(true)).ToError()
         == Rpc.JsonTypeError(WRONG_JSON_TYPE_TEXT + "string" + ", but is " + "boolean")
  {
  }

  /** Null is accepted exactly for an optional type, as an empty optional. */
  lemma NullExactly(b: Backend, t: ParamType, index: nat)
    ensures Accepted(b, t, index, Null) <==> t.Optional?
    ensures Accepted(b, t, index, Null) ==> ArgOf(b, t, index, Null) == NoArg
  {
  }

  /**
   A flag, a text, a list of key requests or an object of common parameters is accepted exactly if it is of its kind and
   can be read, at every index, and the argument is what it reads as.
   */
  lemma ReadableExactly(b: Backend, t: ParamType, index: nat, param: Json)
    requires !IsInteger(t.base) && !param.Null? && (t.base.CommonParamsType? ==> param.Obj?)
    ensures Accepted(b, t, index, param) <==>
            && RightKind(t.base, param)
            && (t.base.KeyRequestsType? ==> KR.FromJsonAll(param.items).Ok?)
            && (t.base.CommonParamsType? ==> CTP.FromJson(b, param).Ok?)
    ensures Accepted(b, t, index, param) ==>
              var arg := ArgOf(b, t, index, param);
              && (t.base.BoolType? ==> arg == BoolArg(param.flag))
              && (t.base.StringType? ==> arg == StringArg(param.text))
              && (t.base.KeyRequestsType? ==> arg == KeyRequestsArg(KR.FromJsonAll(param.items).value))
              && (t.base.CommonParamsType? ==> arg == CommonParamsArg(CTP.FromJson(b, param).value))
  {
  }

  /**
   Two-layer soundness: for strings, booleans and lists a present value of the wrong kind is never accepted, optional or
   not and at every index.
   */
  lemma KindSoundness(b: Backend, t: ParamType, index: nat, param: Json)
    requires !t.base.CommonParamsType? && !IsInteger(t.base) && !param.Null?
    ensures Accepted(b, t, index, param) ==> RightKind(t.base, param)
  {
  }

  /**
   For an object type the conversion accepts any kind, so the first layer is all there is, and the comparison of the index
   with the size of the value decides: a present value that is not an object is accepted, as no parameters at all, exactly
   when its type is optional and its size does not exceed its index.
   */
  lemma ObjectLeak(b: Backend, t: ParamType, index: nat, param: Json)
    requires t.base.CommonParamsType? && !param.Null? && !param.Obj?
    ensures Accepted(b, t, index, param) <==> t.Optional? && (if param.Arr? then |param.items| else 1) <= index
    ensures Accepted(b, t, index, param) ==> ArgOf(b, t, index, param) == CommonParamsArg(CTP.NO_PARAMS)
  {
  }

  /** Such a value: the text "x" as the last parameter of createAccount. */
  lemma ObjectLeakExample(b: Backend)
    ensures Accepted(b, Optional(CommonParamsType), 10, Str("x")) && !RightKind(CommonParamsType, Str("x"))
  {
  }

  /**
   For an integer type a present value of the wrong kind is accepted exactly when its type is optional, its index is not
   0, and it is a float, or a boolean given for a 32-bit integer.
   */
  lemma IntegerLeak(b: Backend, t: ParamType, index: nat, param: Json)
    requires IsInteger(t.base) && !param.Null? && !RightKind(t.base, param)
    ensures Accepted(b, t, index, param) <==>
            t.Optional? && index > 0 && (param.Float? || (param.Bool? && t.base.Int32Type?))
    ensures Accepted(b, t, index, param) ==>
              && ArgOf(b, t, index, param).IntArg?
              && (param.Float? ==> Wraps(t.base, ArgOf(b, t, index, param).number, Truncate(param.float)))
              && (param.Bool? ==> ArgOf(b, t, index, param).number == if param.flag then 1 else 0)
  {
    if Accepted(b, t, index, param) {
      NarrowWraps(t.base, NumberOf(param));
      NarrowKeeps(t.base, NumberOf(param));
    }
  }

  /** The number that a number becomes in the type. */
  predicate Wraps(base: BaseType, number: int, n: int) {
    Fits(base, number) && (n - number) % (if base.Int32Type? then 0x1_0000_0000 else 0x1_0000_0000_0000_0000) == 0
  }

  lemma NarrowWraps(base: BaseType, n: int)
    requires IsInteger(base)
    ensures Wraps(base, Narrow(base, n), n)
  {
    match base
    case Int32Type => assert (n - ToInt32(n)) % 0x1_0000_0000 == 0;
    case Int64Type => assert (n - ToInt64(n)) % 0x1_0000_0000_0000_0000 == 0;
    case Uint64Type => assert (n - ToUint64(n)) % 0x1_0000_0000_0000_0000 == 0;
  }

  // Ranges.

  predicate Fits(base: BaseType, n: int) {
    MinOf(base) <= n <= MaxOf(base)
  }

  lemma NarrowKeeps(base: BaseType, n: int)
    requires IsInteger(base)
    ensures Narrow(base, n) == n <==> Fits(base, n)
  {
  }

  /**
   A 64-bit integer that is checked, which is an optional one in the first position or a required one, accepts exactly the
   integers of its type, with their value.
   */
  lemma CheckedInteger64(b: Backend, t: ParamType, index: nat, param: Json)
    requires t.base.Int64Type? || t.base.Uint64Type?
    requires IsNumberInteger(param) && IsChecked(t, index, param)
    ensures Accepted(b, t, index, param) <==> Fits(t.base, IntegerOf(param))
    ensures Accepted(b, t, index, param) ==> ArgOf(b, t, index, param) == IntArg(IntegerOf(param))
  {
    NarrowKeeps(t.base, IntegerOf(param));
  }

  /**
   A 32-bit integer that is checked is checked against its upper bound only. What it accepts from the parser is at most
   its maximum, wraps around, and so keeps its value exactly when it is not below its minimum.
   */
  lemma CheckedInteger32(b: Backend, t: ParamType, index: nat, param: Json)
    requires t.base.Int32Type? && IsNumberInteger(param) && FromParser(param) && IsChecked(t, index, param)
    ensures Accepted(b, t, index, param) <==> IntegerOf(param) <= MaxOf(Int32Type)
    ensures Accepted(b, t, index, param) ==>
              && ArgOf(b, t, index, param).IntArg? && Wraps(Int32Type, ArgOf(b, t, index, param).number, IntegerOf(param))
              && (ArgOf(b, t, index, param).number == IntegerOf(param) <==> IntegerOf(param) >= MinOf(Int32Type))
  {
    NarrowKeeps(Int32Type, IntegerOf(param));
    NarrowWraps(Int32Type, IntegerOf(param));
  }

  /**
   An optional integer beyond the first position is not checked at all: it wraps around, and so keeps its value exactly
   when it fits.
   */
  lemma OptionalInteger(b: Backend, base: BaseType, index: nat, param: Json)
    requires IsInteger(base) && IsNumberInteger(param) && index > 0
    ensures Accepted(b, Optional(base), index, param)
    ensures ArgOf(b, Optional(base), index, param).IntArg?
    ensures Wraps(base, ArgOf(b, Optional(base), index, param).number, IntegerOf(param))
    ensures ArgOf(b, Optional(base), index, param).number == IntegerOf(param) <==> Fits(base, IntegerOf(param))
  {
    NarrowKeeps(base, IntegerOf(param));
    NarrowWraps(base, IntegerOf(param));
  }

  /** One more than the largest 32-bit integer, as createAccount's maxAutoTokenAssociations, is taken for the smallest. */
  lemma OptionalIntegerExample(b: Backend)
    ensures Accepted(b, Optional(Int32Type), 5, Unsigned(0x8000_0000))
    ensures ArgOf(b, Optional(Int32Type), 5, Unsigned(0x8000_0000)) == IntArg(-0x8000_0000)
  {
  }

  // Types.

  /** An argument that a parameter of the given type can hold. */
  predicate Suits(t: ParamType, arg: Arg) {
    match arg
    case NoArg => t.Optional?
    case BoolArg(_) => t.base.BoolType?
    case IntArg(n) => IsInteger(t.base) && Fits(t.base, n)
    case StringArg(_) => t.base.StringType?
    case KeyRequestsArg(_) => t.base.KeyRequestsType?
    case CommonParamsArg(_) => t.base.CommonParamsType?
  }

  predicate AllSuit(signature: seq<ParamType>, args: seq<Arg>) {
    |args| == |signature| && forall i | 0 <= i < |signature| :: Suits(signature[i], args[i])
  }

  lemma ConvertedSuits(b: Backend, base: BaseType, param: Json)
    ensures Convert(b, base, param).Ok? ==> !Convert(b, base, param).value.NoArg?
    ensures Convert(b, base, param).Ok? ==> Suits(Required(base), Convert(b, base, param).value)
  {
  }

  /** What a function is called with has the types of its signature, and integers are in their ranges. */
  lemma PreparedSuits(b: Backend, signature: seq<ParamType>, list: seq<Json>)
    requires Prepare(b, signature, list).Ok?
    ensures AllSuit(signature, Prepare(b, signature, list).value)
  {
    AllConverted(b, signature, list);
    var args := Prepare(b, signature, list).value;
    forall i | 0 <= i < |signature|
      ensures Suits(signature[i], args[i])
    {
      assert GetParam(b, signature[i], list, i) == Ok(args[i]);
      if i < |list| {
        ConvertedSuits(b, signature[i].base, list[i]);
      }
    }
  }
}
