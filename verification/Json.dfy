/**
 JSON values as nlohmann::json holds them, and the predicates of src/tck/src/JsonUtils.cc.

 A number is a signed integer, an unsigned integer or a float. The text parser yields an unsigned integer for every
 non-negative integer literal and a signed one for a negative literal; a C++ int stored into a json is signed whatever
 its sign. An object is ordered by key, so a map describes it completely.
 */
module Json {

  type int16 = x: int | -0x8000 <= x < 0x8000
  type int32 = x: int | -0x8000_0000 <= x < 0x8000_0000
  type int64 = x: int | -0x8000_0000_0000_0000 <= x < 0x8000_0000_0000_0000
  type uint32 = x: int | 0 <= x < 0x1_0000_0000
  type uint64 = x: int | 0 <= x < 0x1_0000_0000_0000_0000

  datatype Json =
    | Null
    | Bool(flag: bool)
    | Int(signed: int64)
    | Unsigned(unsigned: uint64)
    | Float(float: real)
    | Str(text: string)
    | Arr(items: seq<Json>)
    | Obj(members: map<string, Json>)

  /** nlohmann::json::value_t. */
  datatype Kind =
    | NullKind
    | BoolKind
    | IntKind
    | UnsignedKind
    | FloatKind
    | StringKind
    | ArrayKind
    | ObjectKind

  function KindOf(j: Json): Kind {
    match j
    case Null => NullKind
    case Bool(_) => BoolKind
    case Int(_) => IntKind
    case Unsigned(_) => UnsignedKind
    case Float(_) => FloatKind
    case Str(_) => StringKind
    case Arr(_) => ArrayKind
    case Obj(_) => ObjectKind
  }

  /** json::size(): null holds nothing, a list or object its elements, anything else itself. */
  function Size(j: Json): nat {
    match j
    case Null => 0
    case Arr(items) => |items|
    case Obj(members) => |members|
    case _ => 1
  }

  predicate IsNumber(j: Json) {
    j.Int? || j.Unsigned? || j.Float?
  }

  predicate IsNumberInteger(j: Json) {
    j.Int? || j.Unsigned?
  }

  /** The number an integer json denotes. */
  function IntegerOf(j: Json): int
    requires IsNumberInteger(j)
  {
    if j.Int? then j.signed else j.unsigned
  }

  /** Values that the text parser can produce for an integer literal. */
  predicate FromParser(j: Json) {
    j.Int? ==> j.signed < 0
  }

  predicate HasKey(request: Json, key: string) {
    request.Obj? && key in request.members
  }

  predicate HasKeyType(request: Json, key: string, kind: Kind) {
    HasKey(request, key) && KindOf(request.members[key]) == kind
  }

  /** The member of that name, or null. */
  function Lookup(members: map<string, Json>, name: string): Json {
    if name in members then members[name] else Null
  }

  predicate IsIdValue(j: Json) {
    IsNumber(j) || j.Str? || j.Null?
  }

  predicate HasValidId(request: Json) {
    HasKey(request, "id") && IsIdValue(request.members["id"])
  }

  // C++ integer conversions.

  // The one value of the type that differs from the number by a multiple of two to the type's width.

  function ToUint32(x: int): (r: uint32)
    ensures (x - r) % 0x1_0000_0000 == 0
  {
    x % 0x1_0000_0000
  }

  function ToUint64(x: int): (r: uint64)
    ensures (x - r) % 0x1_0000_0000_0000_0000 == 0
  {
    x % 0x1_0000_0000_0000_0000
  }

  function ToInt16(x: int): (r: int16)
    ensures -0x8000 <= x < 0x8000 ==> r == x
    ensures (x - r) % 0x1_0000 == 0
  {
    var m := x % 0x1_0000;
    if m < 0x8000 then m else m - 0x1_0000
  }

  function ToInt32(x: int): (r: int32)
    ensures -0x8000_0000 <= x < 0x8000_0000 ==> r == x
    ensures (x - r) % 0x1_0000_0000 == 0
  {
    var m := x % 0x1_0000_0000;
    if m < 0x8000_0000 then m else m - 0x1_0000_0000
  }

  function ToInt64(x: int): (r: int64)
    ensures -0x8000_0000_0000_0000 <= x < 0x8000_0000_0000_0000 ==> r == x
    ensures (x - r) % 0x1_0000_0000_0000_0000 == 0
  {
    var m := x % 0x1_0000_0000_0000_0000;
    if m < 0x8000_0000_0000_0000 then m else m - 0x1_0000_0000_0000_0000
  }

  /** A float converted to an integer loses its fraction, towards zero. */
  function Truncate(r: real): (n: int)
    ensures if r >= 0.0 then n as real <= r < n as real + 1.0 else n as real - 1.0 < r <= n as real
  {
    if r >= 0.0 then r.Floor else -((-r).Floor)
  }

  /** std::to_string of a non-negative number. */
  function Decimal(n: nat): string {
    if n < 10 then [DIGITS[n]] else Decimal(n / 10) + [DIGITS[n % 10]]
  }

  const DIGITS: string := "0123456789"

  /** The number that digits denote. */
  function Denoted(text: string): nat
    requires forall i | 0 <= i < |text| :: '0' <= text[i] <= '9'
  {
    if text == "" then 0
    else 10 * Denoted(text[..|text| - 1]) + (text[|text| - 1] as nat - '0' as nat)
  }

  /** The digits of a number denote it, and do not start with a zero that could be left out. */
  lemma {:induction false} DecimalDenotes(n: nat)
    ensures forall i | 0 <= i < |Decimal(n)| :: '0' <= Decimal(n)[i] <= '9'
    ensures Denoted(Decimal(n)) == n
    ensures Decimal(n) != "" && (n > 0 ==> Decimal(n)[0] != '0')
  {
    assert forall d | 0 <= d < 10 :: DIGITS[d] as nat == '0' as nat + d;
    if n < 10 {
      assert Decimal(n)[..0] == "";
    } else {
      DecimalDenotes(n / 10);
      assert Decimal(n)[..|Decimal(n)| - 1] == Decimal(n / 10);
    }
  }
}
