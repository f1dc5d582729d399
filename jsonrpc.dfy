/** The JSON-RPC 2.0 envelope of Schema.java: the sealed JSONRPCMessage
    hierarchy and deserializeJsonRpcMessage, which sorts a decoded JSON
    object into a request, a notification or a response by the keys present. */
module JsonRpc {
  import opened Wrappers
  import opened Json

  /** The three records that implement the sealed interface JSONRPCMessage.
      Their properties are kept as the JSON values Jackson read (JNull for a
      Java null); converting them to the records' Java field types is
      Jackson's work and is not modelled. */
  datatype JSONRPCMessage =
    | JSONRPCRequest(jsonrpc: Value, methodName: Value, id: Value, params: Value)
    | JSONRPCNotification(jsonrpc: Value, methodName: Value, params: Value)
    | JSONRPCResponse(jsonrpc: Value, id: Value, result: Value, error: Value)

  /** The IllegalArgumentException thrown for an object that is none of the three. */
  datatype DeserializeError = CannotDeserializeJsonRpcMessage(obj: Object)

  /** Section 4 of JSON-RPC 2.0: a request names a method and carries an id. */
  predicate IsRequestObject(obj: Object) {
    "method" in obj && "id" in obj
  }

  /** Section 4.1 of JSON-RPC 2.0: a notification is a request without an id. */
  predicate IsNotificationObject(obj: Object) {
    "method" in obj && "id" !in obj
  }

  /** Section 5 of JSON-RPC 2.0: a response carries a result or an error and
      names no method. */
  predicate IsResponseObject(obj: Object) {
    "method" !in obj && ("result" in obj || "error" in obj)
  }

  /** deserializeJsonRpcMessage after Jackson has read the text into a map.
      Keys are tested for presence only: a key bound to null counts as present. */
  function DeserializeJsonRpcMessage(obj: Object): (r: Result<JSONRPCMessage, DeserializeError>)
    ensures r.Ok? && r.value.JSONRPCRequest? <==> IsRequestObject(obj)
    ensures r.Ok? && r.value.JSONRPCNotification? <==> IsNotificationObject(obj)
    ensures r.Ok? && r.value.JSONRPCResponse? <==> IsResponseObject(obj)
    ensures r.Err? <==> !IsRequestObject(obj) && !IsNotificationObject(obj) && !IsResponseObject(obj)
    ensures r.Err? ==> r.error.obj == obj
    ensures r.Ok? ==> r.value.jsonrpc == Get(obj, "jsonrpc")
    ensures r.Ok? && !r.value.JSONRPCResponse? ==>
              r.value.methodName == Get(obj, "method") && r.value.params == Get(obj, "params")
    ensures r.Ok? && !r.value.JSONRPCNotification? ==> r.value.id == Get(obj, "id")
    ensures r.Ok? && r.value.JSONRPCResponse? ==>
              r.value.result == Get(obj, "result") && r.value.error == Get(obj, "error")
  {
    if "method" in obj && "id" in obj then
      Ok(JSONRPCRequest(Get(obj, "jsonrpc"), Get(obj, "method"), Get(obj, "id"), Get(obj, "params")))
    else if "method" in obj && "id" !in obj then
      Ok(JSONRPCNotification(Get(obj, "jsonrpc"), Get(obj, "method"), Get(obj, "params")))
    else if "result" in obj || "error" in obj then
      Ok(JSONRPCResponse(Get(obj, "jsonrpc"), Get(obj, "id"), Get(obj, "result"), Get(obj, "error")))
    else
      Err(CannotDeserializeJsonRpcMessage(obj))
  }

  /** The three shapes of JSON-RPC 2.0 exclude each other, so every object
      gets exactly one outcome: one kind of message or the exception. */
  lemma ClassificationIsExclusive(obj: Object)
    ensures !(IsRequestObject(obj) && IsNotificationObject(obj))
    ensures !(IsRequestObject(obj) && IsResponseObject(obj))
    ensures !(IsNotificationObject(obj) && IsResponseObject(obj))
  {
  }

  /** An object that names a method is never read as a response, whatever
      "result" or "error" it also carries. */
  lemma MethodIsNeverResponse(obj: Object)
    requires "method" in obj
    ensures DeserializeJsonRpcMessage(obj).Ok?
    ensures !DeserializeJsonRpcMessage(obj).value.JSONRPCResponse?
  {
  }

  /** Writing a message as the records' @JsonInclude(NON_ABSENT) does:
      every non-null property of the record under its JSON name, no null and
      no property of another record. */
  function Serialize(msg: JSONRPCMessage): (r: Object)
    ensures forall k :: k in r ==> r[k] != JNull
    ensures Get(r, "jsonrpc") == msg.jsonrpc
    ensures !msg.JSONRPCResponse? ==> Get(r, "method") == msg.methodName && Get(r, "params") == msg.params
    ensures !msg.JSONRPCNotification? ==> Get(r, "id") == msg.id
    ensures msg.JSONRPCResponse? ==> Get(r, "result") == msg.result && Get(r, "error") == msg.error
    ensures msg.JSONRPCRequest? ==> r.Keys <= {"jsonrpc", "method", "id", "params"}
    ensures msg.JSONRPCNotification? ==> r.Keys <= {"jsonrpc", "method", "params"}
    ensures msg.JSONRPCResponse? ==> r.Keys <= {"jsonrpc", "id", "result", "error"}
  {
    match msg
    case JSONRPCRequest(jsonrpc, methodName, id, params) =>
      WithoutNulls(map["jsonrpc" := jsonrpc, "method" := methodName, "id" := id, "params" := params])
    case JSONRPCNotification(jsonrpc, methodName, params) =>
      WithoutNulls(map["jsonrpc" := jsonrpc, "method" := methodName, "params" := params])
    case JSONRPCResponse(jsonrpc, id, result, error) =>
      WithoutNulls(map["jsonrpc" := jsonrpc, "id" := id, "result" := result, "error" := error])
  }

  /** The keys that decide a message's kind are written: a request's method
      and id, a notification's method, a response's result or error. */
  predicate Discriminable(msg: JSONRPCMessage) {
    match msg
    case JSONRPCRequest(_, methodName, id, _) => methodName != JNull && id != JNull
    case JSONRPCNotification(_, methodName, _) => methodName != JNull
    case JSONRPCResponse(_, _, result, error) => result != JNull || error != JNull
  }

  /** Reading back a written message gives the same message exactly when the
      keys that decide its kind survive the dropping of nulls. */
  lemma DeserializeSerialize(msg: JSONRPCMessage)
    ensures DeserializeJsonRpcMessage(Serialize(msg)) == Ok(msg) <==> Discriminable(msg)
  {
  }

  /** A request whose id is null is written without "id" and so reads back
      as a notification. */
  lemma NullIdRequestReadsBackAsNotification(jsonrpc: Value, methodName: Value, params: Value)
    requires methodName != JNull
    ensures DeserializeJsonRpcMessage(Serialize(JSONRPCRequest(jsonrpc, methodName, JNull, params)))
            == Ok(JSONRPCNotification(jsonrpc, methodName, params))
  {
  }
}
