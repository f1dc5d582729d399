# MCP message layer, modelled in Dafny

A model of the message layer of a Java implementation of the Model Context
Protocol (revision 2024-11-05) on top of JSON-RPC 2.0:

- **Envelope classifier** (`JsonRpc`): `Schema.deserializeJsonRpcMessage`
  sorts a decoded JSON object into a `JSONRPCRequest`, a `JSONRPCNotification`
  or a `JSONRPCResponse` by testing which of `method`, `id`, `result` and
  `error` are present (sections 4, 4.1 and 5 of JSON-RPC 2.0), and throws
  `IllegalArgumentException` for anything else.
- **Closed sum types** (`Contents`, `Schema`): `Content` (text, image,
  embedded resource) is chosen by its `"type"` property through the
  `@JsonSubTypes` table, and each record's compact constructor forces its own
  tag; `ResourceContents` has no tag and is deduced from the presence of
  `text` or `blob`; `Request` permits exactly five payload records; the five
  reserved error codes of section 5.1 of JSON-RPC 2.0.
- **Message construction** (`Messages`): `MCPRequest`'s three constructors
  (request, result reply, error reply), its `jsonrpc` default of `"2.0"` and
  its getters.
- **Initialize version gate** (`Initialization`):
  `InitializationHandler.handleInitializationRequest` answers a request for
  the one supported protocol version with an empty result and anything else
  with the error message "Unsupported protocol version", echoing the id.

JSON is modelled as a `Json.Value` tree, a decoded object as a
`map<string, Value>`; Java `null` is `None` in an `Option` field or `JNull` in
a JSON value, and an absent key reads as `JNull` just as `Map.get` returns
null. Thrown exceptions are the `Err` side of a `Result`. Writing a Schema
record with `@JsonInclude(NON_ABSENT)` is modelled as dropping the null-valued
properties (`Json.WithoutNulls`).

The code implements less than a full MCP lifecycle, and the model follows
the code: there is no session state machine, no method-name-to-payload table and
no error code on a version mismatch in the code, so none is modelled; a
classification failure is the code's `IllegalArgumentException`, not a
ParseError response; `InitializationHandler` rejects an absent or null
`protocolVersion` with the same error reply as a wrong one.

Files: `wrappers.dfy` (Option, Result), `json.dfy` (JSON values),
`jsonrpc.dfy`, `contents.dfy`, `schema.dfy` (all three from `Schema.java`),
`messages.dfy` (`MCPRequest.java`), `initialization.dfy`
(`InitializationHandler.java`).

## Model

| member | source | states |
|---|---|---|
| JsonRpc.DeserializeJsonRpcMessage | common/src/main/java/com/brekelov/entity/Schema.java:84-99 | Request iff `method` and `id` are present; Notification iff `method` without `id`; Response iff no `method` and `result` or `error`; the exception iff none of these; presence counts even for a null value; each record takes its properties from the object |
| JsonRpc.ClassificationIsExclusive | common/src/main/java/com/brekelov/entity/Schema.java:90-98 | the three JSON-RPC shapes exclude each other, so every object has exactly one outcome |
| JsonRpc.MethodIsNeverResponse | common/src/main/java/com/brekelov/entity/Schema.java:90-95 | an object with `method` is always read, and never as a response, whatever `result` or `error` it carries |
| JsonRpc.Serialize | common/src/main/java/com/brekelov/entity/Schema.java:104-138 | with `@JsonInclude(NON_ABSENT)`, a message is written with no null property, each property under its `@JsonProperty` name with the record's value, and no key of another record |
| JsonRpc.DeserializeSerialize | common/src/main/java/com/brekelov/entity/Schema.java:104-138 | a message written with NON_ABSENT reads back as itself if and only if the keys deciding its kind are non-null |
| JsonRpc.NullIdRequestReadsBackAsNotification | common/src/main/java/com/brekelov/entity/Schema.java:110-116 | a request with a null id loses `id` when written and reads back as a notification |
| Schema.ReservedCodeName | common/src/main/java/com/brekelov/entity/Schema.java:50-62 | a code names an ErrorCodes constant exactly when it is one of the five, each code naming the constant that holds it, and all five lie in JSON-RPC's reserved range -32768..-32000 |
| Schema.ReservedCodesDistinct | common/src/main/java/com/brekelov/entity/Schema.java:50-62 | the five reserved codes are five distinct values, so a code identifies its constant |
| Schema.RequestIsClosed | common/src/main/java/com/brekelov/entity/Schema.java:64-65 | every Request is one of exactly five permitted variants, each of which occurs |
| Contents.RoleFromName | common/src/main/java/com/brekelov/entity/Schema.java:245-249 | a name resolves to the Role written under it, and only "user" and "assistant" resolve |
| Contents.DecodeRoles | common/src/main/java/com/brekelov/entity/Schema.java:667 | a bound audience list has one role per element, each element being that role's name; a refusal points at an element that is no role name |
| Contents.DecodeEncodeRoles | common/src/main/java/com/brekelov/entity/Schema.java:245-249 | a written role list reads back as itself |
| Contents.DecodeAudience | common/src/main/java/com/brekelov/entity/Schema.java:667 | a null audience reads as null, and whatever is read writes back to the same JSON |
| Contents.DecodeResourceContents | common/src/main/java/com/brekelov/entity/Schema.java:375-430 | decoding succeeds if and only if exactly one of `text` and `blob` is present and `uri`, `mimeType` and that one are each null or a string; `text` present gives TextResourceContents, `blob` present gives BlobResourceContents, both or neither is refused, a mistyped property is refused; every field is the wire's value; unknown keys are ignored |
| Contents.EncodeResourceContents | common/src/main/java/com/brekelov/entity/Schema.java:404-430 | with `@JsonInclude(NON_ABSENT)`, the record is written with no null property, `uri`, `mimeType` and its `text` or `blob` under their names, and nothing else |
| Contents.DecodeEncodeResourceContents | common/src/main/java/com/brekelov/entity/Schema.java:375-430 | written resource contents read back as themselves if and only if their text or blob is non-null |
| Contents.KindOfTypeId | common/src/main/java/com/brekelov/entity/Schema.java:655-658 | a type id resolves to the subtype registered under that name, and an unregistered id resolves to none |
| Contents.KindNameRoundTrip | common/src/main/java/com/brekelov/entity/Schema.java:655-658 | subtype to registered name to subtype round-trips |
| Contents.NewTextContent | common/src/main/java/com/brekelov/entity/Schema.java:672-674 | whatever `type` is passed, the record's tag is "text", the registered name of its own subtype |
| Contents.NewImageContent | common/src/main/java/com/brekelov/entity/Schema.java:689-691 | whatever `type` is passed, the record's tag is "image", the registered name of its own subtype |
| Contents.NewEmbeddedResource | common/src/main/java/com/brekelov/entity/Schema.java:705-707 | whatever `type` is passed, the record's tag is "resource", the registered name of its own subtype |
| Contents.ConstructorsIgnoreTypeArgument | common/src/main/java/com/brekelov/entity/Schema.java:666-707 | for each of the three records, two constructor calls differing only in the `type` argument build the same record, whatever the other arguments |
| Contents.DecodeContent | common/src/main/java/com/brekelov/entity/Schema.java:655-712 | decoding succeeds if and only if `type` is a registered name and the audience and the subtype's own properties bind; a missing tag, a non-string tag and an unregistered tag are refused; a decoded record is well tagged, its tag is the wire's `type`, and its audience, `text`, `data`, `mimeType` and `resource` are the wire's values |
| Contents.EncodeContent | common/src/main/java/com/brekelov/entity/Schema.java:664-712 | with `@JsonInclude(NON_ABSENT)`, a record is written with no null property, its `type` and audience, its own subtype's properties with their values, and no key of another subtype |
| Contents.DecodeEncodeContent | common/src/main/java/com/brekelov/entity/Schema.java:655-712 | a well-tagged record written out reads back as itself if and only if its embedded resource, if any, is deducible |
| Messages.DefaultIsSchemaVersion | common/src/main/java/com/brekelov/entity/MCPRequest.java:30 | the `jsonrpc` default is the JSON-RPC version "2.0" the schema names |
| Messages.NewRequest | common/src/main/java/com/brekelov/entity/MCPRequest.java:38-42 | jsonrpc is "2.0"; the getters return the given id, method and params; result and error are null |
| Messages.NewResult | common/src/main/java/com/brekelov/entity/MCPRequest.java:44-47 | jsonrpc is "2.0"; the getters return the given id and result; method, params and error are null |
| Messages.NewError | common/src/main/java/com/brekelov/entity/MCPRequest.java:49-52 | jsonrpc is "2.0"; the getters return the given id and error; method, params and result are null |
| Messages.ValidIsConstructed | common/src/main/java/com/brekelov/entity/MCPRequest.java:29-52 | the validity predicate holds exactly of the values the three constructors build |
| Messages.NeverResultAndError | common/src/main/java/com/brekelov/entity/MCPRequest.java:44-52 | no constructed message has both a result and an error |
| Messages.SerializeAsWritten | common/src/main/java/com/brekelov/entity/MCPRequest.java:29-77 | with no `@JsonInclude`, every message is written with all six getter properties, each holding the getter's value, a null one as JSON null |
| Messages.EveryMessageWrittenAsWrittenReadsAsRequest | common/src/main/java/com/brekelov/entity/MCPRequest.java:29-77 | written with its null properties, every message, replies included, is classified as a request |
| Messages.UnsupportedVersionReplyReadsAsRequest | server/src/main/java/com/example/InitializationHandler.java:15 | the error reply to request 1, written with its nulls, is read back as a request with a null method |
| Messages.SerializeWithoutNulls | common/src/main/java/com/brekelov/entity/MCPRequest.java:29-77 | the intended writing: no null property, `jsonrpc` always, every other property exactly when its field is non-null, and every property reads as it would from the full writing |
| Messages.DeserializeSerializedMessage | common/src/main/java/com/brekelov/entity/Schema.java:90-95 | written without nulls, a constructed message takes the branch it was built for: request, notification or response, with its fields (the binding after the branch is not modelled) |
| Initialization.SupportedIsLatest | server/src/main/java/com/example/InitializationHandler.java:8 | the supported version is the schema's latest protocol version, "2024-11-05" |
| Initialization.ProtocolVersionOf | server/src/main/java/com/example/InitializationHandler.java:13 | the cast yields null for an absent or null version, the string for a string, and a ClassCastException otherwise |
| Initialization.HandleInitializationRequest | server/src/main/java/com/example/InitializationHandler.java:10-20 | null params throw NullPointerException, a non-string version ClassCastException; otherwise the reply echoes the id, has an empty result if and only if the version is "2024-11-05", and the error "Unsupported protocol version" exactly otherwise |
| Initialization.OutcomeDependsOnlyOnVersion | server/src/main/java/com/example/InitializationHandler.java:13-19 | two requests with the same id and the same requested version get the same outcome |
| Initialization.ReplyReadsAsResponse | server/src/main/java/com/example/InitializationHandler.java:15-19 | every reply, written without nulls, takes the response branch at Schema.java:94 carrying the request's id (the binding after the branch is not modelled) |
| Initialization.HandshakeExamples | server/src/main/java/com/example/InitializationHandler.java:8-19 | a request for "2024-11-05" gets an empty result and one for "1999-01-01" the error, both with id 1 |

## Left out

- Parsing JSON text (`ObjectMapper.readValue`) and text that is not a JSON object: the model starts from the decoded object.
- Contents.EncodeContent: Jackson writes `"type"` twice for a Content record, once as the type id of `@JsonTypeInfo(include = As.PROPERTY, property = "type")` and once as the record's own `type` property. A JSON object here is a map, so the two collapse into one key; both copies hold the same value, so what is read back is unchanged.
- Jackson's `convertValue` into the JSONRPC records: the records keep their properties as the JSON values read, not as the Java values bound. A numeric `method` stays a number rather than becoming the string Jackson's scalar coercion makes of it, and an `error` that cannot bind to JSONRPCError (a string, say) is not refused. Unknown properties are dropped; whether they fail instead depends on the ObjectMapper the caller passes in.
- Jackson's scalar coercion when binding Content and ResourceContents fields: a non-string value for a String property is refused, and a null element inside an `audience` list is refused rather than kept as null.
- Contents.DecodeRoles: refuses the enum-index forms Jackson accepts for `Role` while `FAIL_ON_NUMBERS_FOR_ENUMS` is off, as it is by default (the number 0 or 1, the string "0" or "1"). Under Jackson `[0]` reads as `[USER]` and is written back as `["user"]`, so `DecodeAudience`'s "read writes back to the same JSON" holds only for the names.
- Contents.DecodeContent: ignores keys that are no property of the chosen record. TextContent, ImageContent and EmbeddedResource carry no `@JsonIgnoreProperties(ignoreUnknown = true)`, unlike the ResourceContents records. So under an ObjectMapper with `FAIL_ON_UNKNOWN_PROPERTIES` on, Jackson's default, an unknown key fails the binding. The mapper is the caller's, so the model takes the lenient reading.
- ResourceContents with both `text` and `blob`, or neither: the code defers to Jackson's DEDUCTION and defines nothing; the model refuses it as a modelling decision.
- Floating-point fields (`priority`, `temperature`, the three model-preference priorities, progress): not modelled; the [0,1] range of `priority` is only documentation and is not checked anywhere.
- Fractional JSON numbers: `Json.Value` holds integers only.
- The behaviour-free records (capabilities, results, Tool, Prompt, Root, pagination, logging and the like) are kept only where a request payload holds them, as plain datatypes.
- `MCPRequest`'s `params` and `result` maps as shared, mutable Java objects: they are values here, so aliasing is not captured.
- `MCPMessage`, the type InitializationHandler uses, is not part of this model; `MCPRequest` stands for it, its constructors having the same shapes.
- MCPController.java (HTTP routing of "initialize" to the handler), MCPResponse.java (an empty class) and MCPClient.java (an HTTP client that does not compile): transport and glue, not part of this model.
- Session lifecycle, a dispatcher and a method-name table: no such code exists.

## Findings

| source | as written | input that shows it | evidently intended | confidence | as-written member | corrected member |
|---|---|---|---|---|---|---|
| common/src/main/java/com/brekelov/entity/MCPRequest.java:29-35 | MCPRequest has no `@JsonInclude`, so Jackson's default inclusion writes all six properties, nulls included, and `deserializeJsonRpcMessage` (Schema.java:90) sees `method` and `id` keys in every message | the handler's reply `new MCPRequest(1, "Unsupported protocol version")`, written as `{"jsonrpc":"2.0","id":1,"method":null,"params":null,"result":null,"error":"Unsupported protocol version"}`, is classified as a JSONRPCRequest | replies take the response branch, as with the Schema records' `@JsonInclude(NON_ABSENT)` | not executed; assumes the ObjectMapper's default inclusion of null properties. With `FAIL_ON_UNKNOWN_PROPERTIES` on, as in a plain `new ObjectMapper()`, `convertValue` in the request branch (Schema.java:91) throws IllegalArgumentException on the `result` and `error` keys instead of returning a JSONRPCRequest; either way a reply is not read as a response. The corrected half fixes the branch only: an error reply still writes `error` as a string, while JSONRPCResponse's `error` is the record JSONRPCError (Schema.java:130-137), so binding it at Schema.java:95 would also need `error` written as an object with `code` and `message`. No shown code path passes a written MCPRequest to `deserializeJsonRpcMessage`: the client reads an `MCPResponse` (MCPClient.java:40) and the controller binds a `JSONRPCRequest` (MCPController.java:23) | Messages.EveryMessageWrittenAsWrittenReadsAsRequest | Messages.DeserializeSerializedMessage |
