/** MCPRequest.java: the message object both sides build. It has three
    constructors (a request, a success response and an error response),
    a `jsonrpc` field that starts as "2.0", and getters only; no field changes
    after construction, so the object is modelled as a value. */
module Messages {
  import opened Wrappers
  import opened Json
  import opened JsonRpc
  import Schema

  const DEFAULT_JSONRPC: string := "2.0"

  /** The field's literal default is the JSON-RPC version the schema names. */
  lemma DefaultIsSchemaVersion()
    ensures DEFAULT_JSONRPC == Schema.JSONRPC_VERSION
  {
  }

  /** The six fields; None stands for a Java null. `id` is a boxed Integer,
      `params` and `result` are Map<String, Object>, `error` is a String. */
  datatype MCPRequest = MCPRequest(
    jsonrpc: string,
    id: Option<Int32>,
    methodName: Option<string>,
    params: Option<Object>,
    result: Option<Object>,
    error: Option<string>)
  {
    function GetJsonrpc(): string { jsonrpc }
    function GetId(): Option<Int32> { id }
    function GetMethod(): Option<string> { methodName }
    function GetParams(): Option<Object> { params }
    function GetResult(): Option<Object> { result }
    function GetError(): Option<string> { error }

    /** The fields the request constructor leaves null. */
    predicate IsRequestForm() {
      result.None? && error.None?
    }

    /** The fields the result constructor leaves null. */
    predicate IsResultForm() {
      methodName.None? && params.None? && error.None?
    }

    /** The fields the error constructor leaves null. */
    predicate IsErrorForm() {
      methodName.None? && params.None? && result.None?
    }

    /** What holds of every object the three constructors can build. */
    predicate Valid() {
      jsonrpc == DEFAULT_JSONRPC && (IsRequestForm() || IsResultForm() || IsErrorForm())
    }
  }

  /** MCPRequest(Integer id, String method, Map params). */
  function NewRequest(id: Option<Int32>, methodName: Option<string>, params: Option<Object>): (m: MCPRequest)
    ensures m.Valid() && m.IsRequestForm()
    ensures m.GetJsonrpc() == "2.0"
    ensures m.GetId() == id && m.GetMethod() == methodName && m.GetParams() == params
    ensures m.GetResult().None? && m.GetError().None?
  {
    MCPRequest(DEFAULT_JSONRPC, id, methodName, params, None, None)
  }

  /** MCPRequest(Integer id, Map result). */
  function NewResult(id: Option<Int32>, result: Option<Object>): (m: MCPRequest)
    ensures m.Valid() && m.IsResultForm()
    ensures m.GetJsonrpc() == "2.0"
    ensures m.GetId() == id && m.GetResult() == result
    ensures m.GetMethod().None? && m.GetParams().None? && m.GetError().None?
  {
    MCPRequest(DEFAULT_JSONRPC, id, None, None, result, None)
  }

  /** MCPRequest(Integer id, String error). */
  function NewError(id: Option<Int32>, error: Option<string>): (m: MCPRequest)
    ensures m.Valid() && m.IsErrorForm()
    ensures m.GetJsonrpc() == "2.0"
    ensures m.GetId() == id && m.GetError() == error
    ensures m.GetMethod().None? && m.GetParams().None? && m.GetResult().None?
  {
    MCPRequest(DEFAULT_JSONRPC, id, None, None, None, error)
  }

  /** Valid() describes exactly the objects the three constructors build. */
  lemma ValidIsConstructed(m: MCPRequest)
    ensures m.Valid() <==>
              || m == NewRequest(m.id, m.methodName, m.params)
              || m == NewResult(m.id, m.result)
              || m == NewError(m.id, m.error)
  {
  }

  /** No constructor sets both `result` and `error`. */
  lemma NeverResultAndError(m: MCPRequest)
    requires m.Valid()
    ensures !(m.GetResult().Some? && m.GetError().Some?)
  {
  }

  // ---------------------------------------------------------------------------
  // Writing an MCPRequest as JSON and reading it back with the classifier
  // ---------------------------------------------------------------------------

  /** MCPRequest carries no @JsonInclude, so Jackson's default inclusion writes
      every getter's property, a null one as JSON null. */
  function SerializeAsWritten(m: MCPRequest): (obj: Object)
    ensures obj.Keys == {"jsonrpc", "id", "method", "params", "result", "error"}
    ensures obj["jsonrpc"] == JString(m.GetJsonrpc()) && obj["id"] == OptInt32(m.GetId())
    ensures obj["method"] == OptString(m.GetMethod()) && obj["params"] == OptObject(m.GetParams())
    ensures obj["result"] == OptObject(m.GetResult()) && obj["error"] == OptString(m.GetError())
  {
    map["jsonrpc" := JString(m.jsonrpc), "id" := OptInt32(m.id), "method" := OptString(m.methodName),
        "params" := OptObject(m.params), "result" := OptObject(m.result), "error" := OptString(m.error)]
  }

  /** Written that way, every message carries "method" and "id" keys, so
      deserializeJsonRpcMessage reads every one of them as a request, the
      replies included. */
  lemma EveryMessageWrittenAsWrittenReadsAsRequest(m: MCPRequest)
    ensures DeserializeJsonRpcMessage(SerializeAsWritten(m)).Ok?
    ensures DeserializeJsonRpcMessage(SerializeAsWritten(m)).value.JSONRPCRequest?
  {
  }

  /** The handler's error reply to request 1, written with its nulls, is read
      back as a request whose method is null. */
  lemma UnsupportedVersionReplyReadsAsRequest()
    ensures DeserializeJsonRpcMessage(SerializeAsWritten(NewError(Some(1), Some("Unsupported protocol version"))))
            == Ok(JSONRPCRequest(JString("2.0"), JNull, JNumber(1), JNull))
  {
  }

  /** Writing with null properties left out, as the Schema records'
      @JsonInclude(NON_ABSENT) does. */
  function SerializeWithoutNulls(m: MCPRequest): (obj: Object)
    ensures forall k :: k in obj ==> obj[k] != JNull
    ensures obj.Keys <= SerializeAsWritten(m).Keys
    ensures forall k :: Get(obj, k) == Get(SerializeAsWritten(m), k)
    ensures "jsonrpc" in obj
    ensures ("id" in obj <==> m.id.Some?) && ("method" in obj <==> m.methodName.Some?)
    ensures ("params" in obj <==> m.params.Some?) && ("result" in obj <==> m.result.Some?)
    ensures "error" in obj <==> m.error.Some?
  {
    WithoutNulls(SerializeAsWritten(m))
  }

  /** With null properties left out, the classifier sends each constructed
      message down the branch it was built for: a request with an id to the
      request branch, one without to the notification branch, a result or
      error reply to the response branch. Only the branch is modelled, not
      the binding that follows it. */
  lemma DeserializeSerializedMessage(m: MCPRequest)
    requires m.Valid()
    ensures m.methodName.Some? && m.id.Some? ==>
              DeserializeJsonRpcMessage(SerializeWithoutNulls(m))
              == Ok(JSONRPCRequest(JString("2.0"), OptString(m.methodName), OptInt32(m.id), OptObject(m.params)))
    ensures m.methodName.Some? && m.id.None? ==>
              DeserializeJsonRpcMessage(SerializeWithoutNulls(m))
              == Ok(JSONRPCNotification(JString("2.0"), OptString(m.methodName), OptObject(m.params)))
    ensures m.methodName.None? && (m.result.Some? || m.error.Some?) ==>
              DeserializeJsonRpcMessage(SerializeWithoutNulls(m))
              == Ok(JSONRPCResponse(JString("2.0"), OptInt32(m.id), OptObject(m.result), OptString(m.error)))
    ensures m.methodName.None? && m.result.None? && m.error.None? ==>
              DeserializeJsonRpcMessage(SerializeWithoutNulls(m)).Err?
  {
  }
}
