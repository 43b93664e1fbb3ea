/**
 The exceptions that reach the server (src/tck/include/JsonErrorType.h, src/tck/src/JsonRpcException.cc) and the JSON
 error object the server makes of a JsonRpcException (src/tck/src/TckServer.cc).
 */
module JsonRpcException {
  import opened Json

  /** The enumerators of JsonErrorType. The enumeration is backed by an int16_t and may hold any other value of it. */
  const PARSE_ERROR: int16 := -32700
  const INVALID_REQUEST: int16 := -32600
  const METHOD_NOT_FOUND: int16 := -32601
  const INVALID_PARAMS: int16 := -32602
  const INTERNAL_ERROR: int16 := -32603
  const HEDERA_ERROR: int16 := -32001

  const MALFORMED_ERROR_RESPONSE: string :=
    "invalid error response: \"code\" (negative number) and \"message\" (string) are required"

  /** The exception's data is Null when it was built without any. */
  datatype RpcError = RpcError(code: int16, message: string, data: Json)

  datatype Error =
    | Rpc(rpc: RpcError)
    | JsonTypeError(what: string)  // nlohmann::json::type_error
    | ReceiptStatus(status: string, what: string)
    | PrecheckStatus(status: string, what: string)
    | Standard(what: string)  // every other std::exception
    | Undefined  // not an exception: the C++ program has no defined behaviour from here on

  function Plain(code: int16, message: string): Error {
    Rpc(RpcError(code, message, Null))
  }

  /** The object that handleSingleRequest makes of a caught JsonRpcException. */
  function ErrorObject(e: RpcError): Json {
    var required := map["code" := Int(e.code), "message" := Str(e.message)];
    Obj(if e.data.Null? then required else required["data" := e.data])
  }

  function FromJson(j: Json): RpcError {
    if HasKeyType(j, "code", IntKind) && HasKeyType(j, "message", StringKind) then
      RpcError(ToInt16(j.members["code"].signed), j.members["message"].text,
               if HasKey(j, "data") then j.members["data"] else Null)
    else
      RpcError(INTERNAL_ERROR, MALFORMED_ERROR_RESPONSE, Null)
  }

  /** What a client reads back is the exception that was thrown: same code, message and data. */
  lemma ErrorObjectInversion(e: RpcError)
    ensures FromJson(ErrorObject(e)) == e
  {
    var j := ErrorObject(e);
    assert "code" in j.members && "message" in j.members;
  }

  /** The members of an error object that mean something, with a null data member dropped. */
  function Essential(members: map<string, Json>): map<string, Json> {
    map key | key in members && key in {"code", "message", "data"} && !(key == "data" && members[key].Null?)
      :: members[key]
  }

  /**
   The other direction: re-emitting a parsed error object gives back its meaningful members exactly when the object has
   a signed integer code within int16_t and a string message. In every other case either the generic INTERNAL_ERROR
   replaces it or the code is truncated.
   */
  lemma ParseThenEmit(j: Json)
    requires j.Obj?
    ensures ErrorObject(FromJson(j)) == Obj(Essential(j.members)) <==>
            && HasKeyType(j, "code", IntKind)
            && -0x8000 <= j.members["code"].signed < 0x8000
            && HasKeyType(j, "message", StringKind)
  {
    var e := FromJson(j);
    var emitted := ErrorObject(e).members;
    if HasKeyType(j, "code", IntKind) && HasKeyType(j, "message", StringKind) {
      if -0x8000 <= j.members["code"].signed < 0x8000 {
        assert emitted == Essential(j.members);
      } else {
        assert emitted["code"] != Essential(j.members)["code"];
      }
    } else {
      // A generic replacement equal to the input would itself have been well formed.
      assert emitted["code"] == Int(INTERNAL_ERROR) && emitted["message"] == Str(MALFORMED_ERROR_RESPONSE);
      if emitted == Essential(j.members) {
        assert false;
      }
    }
  }
}
