/** The constants of Schema.java and its sealed Request hierarchy: the five
    payload records a client may send, with the plain records they hold. */
module Schema {
  import opened Wrappers
  import opened Json
  import opened Contents

  const LATEST_PROTOCOL_VERSION: string := "2024-11-05"

  const JSONRPC_VERSION: string := "2.0"

  // ---------------------------------------------------------------------------
  // ErrorCodes: the codes reserved by section 5.1 of JSON-RPC 2.0
  // ---------------------------------------------------------------------------

  const PARSE_ERROR: int := -32700
  const INVALID_REQUEST: int := -32600
  const METHOD_NOT_FOUND: int := -32601
  const INVALID_PARAMS: int := -32602
  const INTERNAL_ERROR: int := -32603

  /** The ErrorCodes constant that holds `code`, if it is one of the five. */
  function ReservedCodeName(code: int): (r: Option<string>)
    ensures r.Some? <==> code in {PARSE_ERROR, INVALID_REQUEST, METHOD_NOT_FOUND, INVALID_PARAMS, INTERNAL_ERROR}
    ensures r.Some? ==> -32768 <= code <= -32000
    ensures code == PARSE_ERROR ==> r == Some("PARSE_ERROR")
    ensures code == INVALID_REQUEST ==> r == Some("INVALID_REQUEST")
    ensures code == METHOD_NOT_FOUND ==> r == Some("METHOD_NOT_FOUND")
    ensures code == INVALID_PARAMS ==> r == Some("INVALID_PARAMS")
    ensures code == INTERNAL_ERROR ==> r == Some("INTERNAL_ERROR")
  {
    if code == PARSE_ERROR then Some("PARSE_ERROR")
    else if code == INVALID_REQUEST then Some("INVALID_REQUEST")
    else if code == METHOD_NOT_FOUND then Some("METHOD_NOT_FOUND")
    else if code == INVALID_PARAMS then Some("INVALID_PARAMS")
    else if code == INTERNAL_ERROR then Some("INTERNAL_ERROR")
    else None
  }

  /** The five codes are distinct: no two errors share a code, so the names
      are told apart by the code alone. */
  lemma ReservedCodesDistinct()
    ensures |{PARSE_ERROR, INVALID_REQUEST, METHOD_NOT_FOUND, INVALID_PARAMS, INTERNAL_ERROR}| == 5
    ensures forall c1, c2 | ReservedCodeName(c1).Some? && ReservedCodeName(c1) == ReservedCodeName(c2) :: c1 == c2
  {
  }

  // ---------------------------------------------------------------------------
  // Plain records held by the request payloads
  // ---------------------------------------------------------------------------

  datatype Implementation = Implementation(name: Option<string>, version: Option<string>)

  datatype RootCapabilities = RootCapabilities(listChanged: Option<bool>)

  datatype Sampling = Sampling

  datatype ClientCapabilities = ClientCapabilities(
    experimental: Option<Object>,
    roots: Option<RootCapabilities>,
    sampling: Option<Sampling>)

  datatype SamplingMessage = SamplingMessage(role: Option<Role>, content: Option<Content>)

  /** ModelPreferences without its three Double priorities. */
  datatype ModelPreferences = ModelPreferences(hints: Option<seq<ModelHint>>)

  datatype ModelHint = ModelHint(name: Option<string>)

  datatype ContextInclusionStrategy = NONE | THIS_SERVER | ALL_SERVERS

  datatype PromptOrResourceReference =
    | PromptReference(typeName: Option<string>, name: Option<string>)
    | ResourceReference(typeName: Option<string>, uri: Option<string>)

  datatype CompleteArgument = CompleteArgument(name: Option<string>, value: Option<string>)

  // ---------------------------------------------------------------------------
  // Request: sealed, permits exactly five records
  // ---------------------------------------------------------------------------

  /** CreateMessageRequest leaves out its Double `temperature`; `maxTokens`
      is a primitive int and so is never null. */
  datatype Request =
    | InitializeRequest(protocolVersion: Option<string>, capabilities: Option<ClientCapabilities>,
                        clientInfo: Option<Implementation>)
    | CallToolRequest(name: Option<string>, arguments: Option<Object>)
    | CreateMessageRequest(messages: Option<seq<SamplingMessage>>, modelPreferences: Option<ModelPreferences>,
                           systemPrompt: Option<string>, includeContext: Option<ContextInclusionStrategy>,
                           maxTokens: Int32, stopSequences: Option<seq<string>>, metadata: Option<Object>)
    | CompleteRequest(ref: Option<PromptOrResourceReference>, argument: Option<CompleteArgument>)
    | GetPromptRequest(name: Option<string>, arguments: Option<Object>)

  /** The permitted subtypes, one name each. */
  datatype RequestVariant = Initialize | CallTool | CreateMessage | Complete | GetPrompt

  function VariantOf(request: Request): RequestVariant {
    match request
    case InitializeRequest(_, _, _) => Initialize
    case CallToolRequest(_, _) => CallTool
    case CreateMessageRequest(_, _, _, _, _, _, _) => CreateMessage
    case CompleteRequest(_, _) => Complete
    case GetPromptRequest(_, _) => GetPrompt
  }

  const PermittedVariants: set<RequestVariant> := {Initialize, CallTool, CreateMessage, Complete, GetPrompt}

  /** The permits clause: every request is one of exactly five variants, and
      each variant is reached. */
  lemma RequestIsClosed(request: Request)
    ensures VariantOf(request) in PermittedVariants
    ensures |PermittedVariants| == 5
    ensures forall v :: v in PermittedVariants ==> exists r :: VariantOf(r) == v
  {
    var samples := [InitializeRequest(None, None, None), CallToolRequest(None, None),
                    CreateMessageRequest(None, None, None, None, 0, None, None),
                    CompleteRequest(None, None), GetPromptRequest(None, None)];
    assert VariantOf(samples[0]) == Initialize;
    assert VariantOf(samples[1]) == CallTool;
    assert VariantOf(samples[2]) == CreateMessage;
    assert VariantOf(samples[3]) == Complete;
    assert VariantOf(samples[4]) == GetPrompt;
  }
}
