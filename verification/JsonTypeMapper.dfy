/**
 The conversion of a positional parameter list to a handler's arguments (src/tck/include/JsonTypeMapper.h): first a check
 of every parameter against its declared type, then a conversion that can throw as well.
 */
module JsonTypeMapper {
  import opened Wrappers
  import opened Json
  import opened JsonRpcException
  import opened HederaKeys
  import KR = KeyRequest
  import CTP = CommonTransactionParams

  /** The C++ types that parameters have. */
  datatype BaseType =
    | BoolType
    | Int32Type
    | Int64Type
    | Uint64Type
    | StringType
    | KeyRequestsType  // std::vector<KeyRequest>
    | CommonParamsType

  datatype ParamType = Required(base: BaseType) | Optional(base: BaseType)

  /** A converted parameter. */
  datatype Arg =
    | NoArg  // an empty std::optional
    | BoolArg(flag: bool)
    | IntArg(number: int)
    | StringArg(text: string)
    | KeyRequestsArg(requests: seq<KR.KeyRequest>)
    | CommonParamsArg(params: CTP.CommonParams)

  /** getType. */
  function ExpectedKind(base: BaseType): Kind {
    match base
    case BoolType => BoolKind
    case Int32Type => IntKind
    case Int64Type => IntKind
    case Uint64Type => UnsignedKind
    case StringType => StringKind
    case KeyRequestsType => ArrayKind
    case CommonParamsType => ObjectKind
  }

  /** getTypeName. */
  function TypeName(kind: Kind): string {
    match kind
    case NullKind => "null"
    case BoolKind => "boolean"
    case IntKind => "integer"
    case UnsignedKind => "unsigned integer"
    case FloatKind => "float"
    case StringKind => "string"
    case ArrayKind => "array"
    case ObjectKind => "object"
  }

  predicate IsInteger(base: BaseType) {
    base.Int32Type? || base.Int64Type? || base.Uint64Type?
  }

  function MinOf(base: BaseType): int {
    match base
    case Int32Type => -0x8000_0000
    case Int64Type => -0x8000_0000_0000_0000
    case _ => 0
  }

  /** std::numeric_limits<T>::max(). */
  function MaxOf(base: BaseType): int {
    match base
    case Int32Type => 0x7FFF_FFFF
    case Int64Type => 0x7FFF_FFFF_FFFF_FFFF
    case Uint64Type => 0xFFFF_FFFF_FFFF_FFFF
    case _ => 0
  }

  const WRONG_KIND_TEXT: string := "invalid parameter: must be "
  const EXCEEDS_RANGE_TEXT: string := "invalid parameter: exceeds value range of "

  /** How a parameter fails its check. */
  datatype CheckFault = WrongKind(expected: Kind, actual: Kind) | ExceedsRange(expected: Kind) {
    function Message(): string {
      match this
      case WrongKind(expected, actual) => WRONG_KIND_TEXT + TypeName(expected) + ", but is " + TypeName(actual)
      case ExceedsRange(expected) => EXCEEDS_RANGE_TEXT + TypeName(expected)
    }
  }

  const MISSING_REQUIRED_TEXT: string := "invalid parameter: missing required parameter at index "
  const WRONG_JSON_TYPE_TEXT: string := "[json.exception.type_error.302] type must be "

  /** How a parameter list fails to become arguments. */
  datatype ParamFault =
    | FailedCheck(index: nat, fault: CheckFault)
    | OutOfRange
    | MissingRequired(index: nat)
    | WrongJsonType(base: BaseType, param: Json)
    | BadKeyRequest(readFault: KR.ReadFault)
    | BadParams(paramsFault: CTP.ParamsFault)
  {
    /** The exception of a failed check carries the parameter's index as data; nothing is defined out of range. */
    function ToError(): Error {
      match this
      case FailedCheck(index, fault) => Rpc(RpcError(INVALID_PARAMS, fault.Message(), Unsigned(ToUint64(index))))
      case OutOfRange => Undefined
      case MissingRequired(index) => Plain(INVALID_PARAMS, MISSING_REQUIRED_TEXT + Decimal(index))
      case WrongJsonType(base, param) =>
        JsonTypeError(WRONG_JSON_TYPE_TEXT + (if IsInteger(base) then "number" else TypeName(ExpectedKind(base)))
                      + ", but is " + LibraryTypeName(param))
      case BadKeyRequest(fault) => fault.ToError()
      case BadParams(fault) => fault.ToError()
    }
  }

  /** json::type_name(). */
  function LibraryTypeName(j: Json): string {
    match j
    case Null => "null"
    case Bool(_) => "boolean"
    case Str(_) => "string"
    case Arr(_) => "array"
    case Obj(_) => "object"
    case _ => "number"
  }

  /** checkParamType of a type that is not optional. */
  function CheckBase(base: BaseType, param: Json): Option<CheckFault> {
    var expected := ExpectedKind(base);
    if IsInteger(base) && expected == UnsignedKind && param.Int? then
      if param.signed < 0 then Some(WrongKind(expected, IntKind)) else None
    else if IsInteger(base) && expected == IntKind && param.Unsigned? then
      if param.unsigned > MaxOf(base) then Some(ExceedsRange(expected)) else None
    else if KindOf(param) != expected then Some(WrongKind(expected, KindOf(param)))
    else None
  }

  /** The check of an optional type compares the index with the size of the parameter itself. */
  predicate IsChecked(t: ParamType, index: nat, param: Json) {
    t.Required? || (!param.Null? && index < Size(param))
  }

  function CheckParam(t: ParamType, index: nat, param: Json): Option<CheckFault> {
    if IsChecked(t, index, param) then CheckBase(t.base, param) else None
  }

  /** The checks of createMethodHandle, in order; params[index] has no bounds check. */
  function CheckAll(signature: seq<ParamType>, params: seq<Json>, index: nat): Option<ParamFault>
    requires index <= |signature|
    decreases |signature| - index
  {
    if index == |signature| then None
    else if index >= |params| then Some(OutOfRange)
    else
      match CheckParam(signature[index], index, params[index])
      case Some(fault) => Some(FailedCheck(index, fault))
      case None => CheckAll(signature, params, index + 1)
  }

  /** A number of any kind; a 32-bit int is read from a boolean too, a 64-bit integer of the library's own type is not. */
  predicate ReadsAsInteger(base: BaseType, param: Json) {
    IsNumber(param) || (base.Int32Type? && param.Bool?)
  }

  /** The number before it is narrowed. */
  function NumberOf(param: Json): int
    requires IsNumber(param) || param.Bool?
  {
    match param
    case Bool(flag) => if flag then 1 else 0
    case Int(n) => n
    case Unsigned(n) => n
    case Float(r) => Truncate(r)
  }

  function Narrow(base: BaseType, n: int): int {
    match base
    case Int32Type => ToInt32(n)
    case Int64Type => ToInt64(n)
    case _ => ToUint64(n)
  }

  /** json::get<T>. */
  function Convert(b: Backend, base: BaseType, param: Json): Result<Arg, ParamFault> {
    match base
    case BoolType => if param.Bool? then Ok(BoolArg(param.flag)) else Err(WrongJsonType(base, param))
    case StringType => if param.Str? then Ok(StringArg(param.text)) else Err(WrongJsonType(base, param))
    case KeyRequestsType =>
      if !param.Arr? then Err(WrongJsonType(base, param))
      else (match KR.FromJsonAll(param.items)
            case Ok(requests) => Ok(KeyRequestsArg(requests))
            case Err(fault) => Err(BadKeyRequest(fault)))
    case CommonParamsType =>
      (match CTP.FromJson(b, param)
       case Ok(params) => Ok(CommonParamsArg(params))
       case Err(fault) => Err(BadParams(fault)))
    case _ =>
      if ReadsAsInteger(base, param) then Ok(IntArg(Narrow(base, NumberOf(param)))) else Err(WrongJsonType(base, param))
  }

  /** getParam. */
  function GetParam(b: Backend, t: ParamType, params: seq<Json>, index: nat): Result<Arg, ParamFault> {
    if |params| <= index || params[index].Null? then
      if t.Optional? then Ok(NoArg) else Err(MissingRequired(index))
    else Convert(b, t.base, params[index])
  }

  /** The first conversion to throw, in the given order. */
  function FirstThrown(b: Backend, signature: seq<ParamType>, params: seq<Json>, order: seq<nat>): Option<ParamFault> {
    if order == [] then None
    else if order[0] < |signature| && GetParam(b, signature[order[0]], params, order[0]).Err? then
      Some(GetParam(b, signature[order[0]], params, order[0]).error)
    else FirstThrown(b, signature, params, order[1..])
  }

  /** The order in which n arguments are evaluated. */
  function EvaluationOrder(b: Backend, n: nat): seq<nat> {
    b.order(n) + seq(n, i => i)
  }

  /** The arguments of the handler's call, evaluated in the compiler's order. */
  function GetAll(b: Backend, signature: seq<ParamType>, params: seq<Json>): Result<seq<Arg>, ParamFault> {
    match FirstThrown(b, signature, params, EvaluationOrder(b, |signature|))
    case Some(fault) => Err(fault)
    case None =>
      Ok(seq(|signature|, i requires 0 <= i < |signature| =>
               match GetParam(b, signature[i], params, i)
               case Ok(arg) => arg
               case Err(_) => NoArg))
  }

  /** What a handle does before it calls its function. */
  function Prepare(b: Backend, signature: seq<ParamType>, params: seq<Json>): Result<seq<Arg>, ParamFault> {
    var fault := if |signature| > 0 && |params| > 0 then CheckAll(signature, params, 0) else None;
    if fault.Some? then Err(fault.value) else GetAll(b, signature, params)
  }
}
