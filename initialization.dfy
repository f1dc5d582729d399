/** InitializationHandler.java: the server's answer to an "initialize"
    request. It reads the requested protocol version from the params and
    replies with an empty result when it is the one supported version, and
    with an error message otherwise, echoing the request's id either way.
    The handler's MCPMessage type is not part of this model; its two
    constructors have the shapes of MCPRequest's, which stands in for it. */
module Initialization {
  import opened Wrappers
  import opened Json
  import opened JsonRpc
  import opened Messages
  import Schema

  const SUPPORTED_PROTOCOL_VERSION: string := "2024-11-05"

  const UNSUPPORTED_VERSION_MESSAGE: string := "Unsupported protocol version"

  /** The unchecked exceptions the handler's body can raise. */
  datatype JavaException = NullPointerException | ClassCastException

  /** The server supports exactly the latest protocol version of the schema. */
  lemma SupportedIsLatest()
    ensures SUPPORTED_PROTOCOL_VERSION == Schema.LATEST_PROTOCOL_VERSION
  {
  }

  /** `(String) params.get("protocolVersion")`: null when absent or null,
      the string when it is one, a ClassCastException otherwise. */
  function ProtocolVersionOf(params: Object): (r: Result<Option<string>, JavaException>)
    ensures r.Ok? <==> Get(params, "protocolVersion").JNull? || Get(params, "protocolVersion").JString?
    ensures r.Ok? ==> OptString(r.value) == Get(params, "protocolVersion")
    ensures r.Err? ==> r.error == ClassCastException
  {
    match Get(params, "protocolVersion")
    case JNull => Ok(None)
    case JString(s) => Ok(Some(s))
    case _ => Err(ClassCastException)
  }

  /** The request asks for the supported version: its params hold exactly
      that string under "protocolVersion". */
  predicate AsksSupportedVersion(message: MCPRequest) {
    message.params.Some? && Get(message.params.value, "protocolVersion") == JString(SUPPORTED_PROTOCOL_VERSION)
  }

  /** handleInitializationRequest. A null params map makes `params.get`
      throw; a non-string version makes the cast throw; a version that is
      absent, null or different gets the error reply. */
  function HandleInitializationRequest(message: MCPRequest): (r: Result<MCPRequest, JavaException>)
    ensures r == Err(NullPointerException) <==> message.GetParams().None?
    ensures r == Err(ClassCastException) <==>
              message.GetParams().Some? && ProtocolVersionOf(message.GetParams().value).Err?
    ensures r.Ok? ==> r.value.Valid() && r.value.GetId() == message.GetId()
    ensures r.Ok? ==> r.value.GetMethod().None? && r.value.GetParams().None?
    ensures r.Ok? ==> (r.value.GetResult().Some? <==> AsksSupportedVersion(message))
    ensures r.Ok? ==> (r.value.GetError().Some? <==> !AsksSupportedVersion(message))
    ensures r.Ok? && AsksSupportedVersion(message) ==> r.value.GetResult() == Some(map[])
    ensures r.Ok? && !AsksSupportedVersion(message) ==> r.value.GetError() == Some(UNSUPPORTED_VERSION_MESSAGE)
  {
    match message.GetParams()
    case None => Err(NullPointerException)
    case Some(params) =>
      var protocol :- ProtocolVersionOf(params);
      if protocol != Some(SUPPORTED_PROTOCOL_VERSION) then
        Ok(NewError(message.GetId(), Some(UNSUPPORTED_VERSION_MESSAGE)))
      else
        Ok(NewResult(message.GetId(), Some(map[])))
  }

  /** The outcome depends on nothing but the id and the requested version:
      two messages that agree on those get the same answer. */
  lemma OutcomeDependsOnlyOnVersion(m1: MCPRequest, m2: MCPRequest)
    requires m1.id == m2.id
    requires m1.params.None? <==> m2.params.None?
    requires m1.params.Some? ==>
               Get(m1.params.value, "protocolVersion") == Get(m2.params.value, "protocolVersion")
    ensures HandleInitializationRequest(m1) == HandleInitializationRequest(m2)
  {
  }

  /** Every reply the handler builds, written without its nulls, takes
      deserializeJsonRpcMessage's response branch with the same id. Binding
      that branch's object to the Java record is not modelled: an error
      reply's `error` is a string, which JSONRPCError cannot take. */
  lemma ReplyReadsAsResponse(message: MCPRequest)
    requires HandleInitializationRequest(message).Ok?
    ensures var read := DeserializeJsonRpcMessage(SerializeWithoutNulls(HandleInitializationRequest(message).value));
            read.Ok? && read.value.JSONRPCResponse? && read.value.id == OptInt32(message.id)
  {
  }

  /** The lifecycle's opening exchange: a request for "2024-11-05" gets an
      empty result, one for "1999-01-01" the error, both with id 1. */
  lemma HandshakeExamples()
    ensures HandleInitializationRequest(
              NewRequest(Some(1), Some("initialize"), Some(map["protocolVersion" := JString("2024-11-05")])))
            == Ok(NewResult(Some(1), Some(map[])))
    ensures HandleInitializationRequest(
              NewRequest(Some(1), Some("initialize"), Some(map["protocolVersion" := JString("1999-01-01")])))
            == Ok(NewError(Some(1), Some("Unsupported protocol version")))
  {
  }
}
