/** The content types of Schema.java: the Content sum type, told apart by its
    explicit "type" property, and the ResourceContents sum type, which has no
    tag on the wire and is told apart by which of "text" and "blob" is present. */
module Contents {
  import opened Wrappers
  import opened Json

  /** Why Jackson refuses to bind an object to one of these types. */
  datatype DecodeError =
    | MissingTypeId                  // a Content object without a "type"
    | UnknownTypeId(tag: string)     // a "type" that names no registered subtype
    | CannotDeduceSubtype            // ResourceContents with both or neither of "text" and "blob"
    | Mistyped(property: string)     // a property whose JSON kind does not fit its Java field

  // ---------------------------------------------------------------------------
  // Role: the enum whose constants are written "user" and "assistant"
  // ---------------------------------------------------------------------------

  datatype Role = User | Assistant

  function RoleName(role: Role): string {
    match role
    case User => "user"
    case Assistant => "assistant"
  }

  /** The constant whose @JsonProperty name is `name`, if any. */
  function RoleFromName(name: string): (r: Option<Role>)
    ensures r.Some? ==> RoleName(r.value) == name
    ensures r.None? ==> name != RoleName(User) && name != RoleName(Assistant)
  {
    if name == "user" then Some(User)
    else if name == "assistant" then Some(Assistant)
    else None
  }

  lemma RoleNameRoundTrip(role: Role)
    ensures RoleFromName(RoleName(role)) == Some(role)
  {
  }

  function EncodeRoles(roles: seq<Role>): (vs: seq<Value>)
    ensures |vs| == |roles|
  {
    if roles == [] then [] else [JString(RoleName(roles[0]))] + EncodeRoles(roles[1..])
  }

  /** Binding a JSON array to List<Role>: every element must be a role name. */
  function DecodeRoles(vs: seq<Value>): (r: Result<seq<Role>, DecodeError>)
    ensures r.Ok? ==> |r.value| == |vs|
    ensures r.Ok? ==> forall i :: 0 <= i < |vs| ==> vs[i] == JString(RoleName(r.value[i]))
    ensures r.Err? ==> exists i :: 0 <= i < |vs| && !(vs[i].JString? && RoleFromName(vs[i].s).Some?)
  {
    if vs == [] then Ok([])
    else
      match vs[0]
      case JString(name) =>
        (match RoleFromName(name)
         case None => Err(Mistyped("audience"))
         case Some(role) =>
           var rest :- DecodeRoles(vs[1..]);
           Ok([role] + rest))
      case _ => Err(Mistyped("audience"))
  }

  lemma {:induction false} DecodeEncodeRoles(roles: seq<Role>)
    ensures DecodeRoles(EncodeRoles(roles)) == Ok(roles)
  {
    if roles != [] {
      DecodeEncodeRoles(roles[1..]);
      RoleNameRoundTrip(roles[0]);
      assert EncodeRoles(roles)[1..] == EncodeRoles(roles[1..]);
      assert [roles[0]] + roles[1..] == roles;
    }
  }

  /** The nullable `audience` property. */
  function EncodeAudience(audience: Option<seq<Role>>): (v: Value)
    ensures v == JNull <==> audience.None?
  {
    match audience
    case None => JNull
    case Some(roles) => JArray(EncodeRoles(roles))
  }

  function DecodeAudience(v: Value): (r: Result<Option<seq<Role>>, DecodeError>)
    ensures r == Ok(None) <==> v == JNull
    ensures r.Ok? ==> EncodeAudience(r.value) == v
  {
    match v
    case JNull => Ok(None)
    case JArray(items) =>
      var roles :- DecodeRoles(items);
      EncodeRolesOfDecoded(items, roles);
      Ok(Some(roles))
    case _ => Err(Mistyped("audience"))
  }

  lemma {:induction false} EncodeRolesOfDecoded(vs: seq<Value>, roles: seq<Role>)
    requires DecodeRoles(vs) == Ok(roles)
    ensures EncodeRoles(roles) == vs
  {
    assert |roles| == |vs|;
    assert forall i :: 0 <= i < |vs| ==> EncodeRoles(roles)[i] == vs[i] by {
      forall i | 0 <= i < |vs| ensures EncodeRoles(roles)[i] == vs[i] {
        EncodeRolesAt(roles, i);
      }
    }
  }

  lemma {:induction false} EncodeRolesAt(roles: seq<Role>, i: nat)
    requires i < |roles|
    ensures EncodeRoles(roles)[i] == JString(RoleName(roles[i]))
  {
    if i > 0 {
      EncodeRolesAt(roles[1..], i - 1);
    }
  }

  lemma DecodeEncodeAudience(audience: Option<seq<Role>>)
    ensures DecodeAudience(EncodeAudience(audience)) == Ok(audience)
  {
    if audience.Some? {
      DecodeEncodeRoles(audience.value);
    }
  }

  /** Binding a nullable String property: null or absent gives null, a string
      gives itself, anything else is refused. */
  function DecodeString(obj: Object, key: string): (r: Result<Option<string>, DecodeError>)
    ensures r.Ok? <==> StringOrNull(Get(obj, key))
    ensures r.Ok? ==> OptString(r.value) == Get(obj, key)
  {
    match Get(obj, key)
    case JNull => Ok(None)
    case JString(s) => Ok(Some(s))
    case _ => Err(Mistyped(key))
  }

  // ---------------------------------------------------------------------------
  // ResourceContents: TextResourceContents | BlobResourceContents, by deduction
  // ---------------------------------------------------------------------------

  /** Both variants carry `uri` and `mimeType`; only the third property differs. */
  datatype ResourceContents =
    | TextResourceContents(uri: Option<string>, mimeType: Option<string>, text: Option<string>)
    | BlobResourceContents(uri: Option<string>, mimeType: Option<string>, blob: Option<string>)

  /** Jackson's DEDUCTION of the subtype from the property names present.
      An object with both "text" and "blob", or with neither, is refused:
      the Java code leaves that case to Jackson and this model calls it an error. */
  function DecodeResourceContents(obj: Object): (r: Result<ResourceContents, DecodeError>)
    ensures r.Ok? <==> ("text" in obj) != ("blob" in obj)
                       && StringOrNull(Get(obj, "uri")) && StringOrNull(Get(obj, "mimeType"))
                       && StringOrNull(Get(obj, "text")) && StringOrNull(Get(obj, "blob"))
    ensures ("text" in obj <==> "blob" in obj) ==> r == Err(CannotDeduceSubtype)
    ensures r.Err? && ("text" in obj) != ("blob" in obj) ==> r.error.Mistyped?
    ensures r.Ok? ==> (r.value.TextResourceContents? <==> "text" in obj)
    ensures r.Ok? ==> (r.value.BlobResourceContents? <==> "blob" in obj)
    ensures r.Ok? ==> OptString(r.value.uri) == Get(obj, "uri")
    ensures r.Ok? ==> OptString(r.value.mimeType) == Get(obj, "mimeType")
    ensures r.Ok? && r.value.TextResourceContents? ==> OptString(r.value.text) == obj["text"]
    ensures r.Ok? && r.value.BlobResourceContents? ==> OptString(r.value.blob) == obj["blob"]
  {
    if "text" in obj && "blob" !in obj then
      var uri :- DecodeString(obj, "uri");
      var mimeType :- DecodeString(obj, "mimeType");
      var text :- DecodeString(obj, "text");
      Ok(TextResourceContents(uri, mimeType, text))
    else if "blob" in obj && "text" !in obj then
      var uri :- DecodeString(obj, "uri");
      var mimeType :- DecodeString(obj, "mimeType");
      var blob :- DecodeString(obj, "blob");
      Ok(BlobResourceContents(uri, mimeType, blob))
    else
      Err(CannotDeduceSubtype)
  }

  /** Writing, with @JsonInclude(NON_ABSENT): null properties are left out,
      and a record writes only its own three properties. */
  function EncodeResourceContents(rc: ResourceContents): (r: Object)
    ensures forall k :: k in r ==> r[k] != JNull
    ensures Get(r, "uri") == OptString(rc.uri) && Get(r, "mimeType") == OptString(rc.mimeType)
    ensures rc.TextResourceContents? ==> Get(r, "text") == OptString(rc.text) && r.Keys <= {"uri", "mimeType", "text"}
    ensures rc.BlobResourceContents? ==> Get(r, "blob") == OptString(rc.blob) && r.Keys <= {"uri", "mimeType", "blob"}
  {
    match rc
    case TextResourceContents(uri, mimeType, text) =>
      WithoutNulls(map["uri" := OptString(uri), "mimeType" := OptString(mimeType), "text" := OptString(text)])
    case BlobResourceContents(uri, mimeType, blob) =>
      WithoutNulls(map["uri" := OptString(uri), "mimeType" := OptString(mimeType), "blob" := OptString(blob)])
  }

  /** The property that deduction needs is written: a non-null text or blob. */
  predicate Deducible(rc: ResourceContents) {
    match rc
    case TextResourceContents(_, _, text) => text.Some?
    case BlobResourceContents(_, _, blob) => blob.Some?
  }

  /** Written resource contents read back as themselves exactly when their
      text or blob is not null; a null one is dropped and nothing is left to
      deduce the subtype from. */
  lemma DecodeEncodeResourceContents(rc: ResourceContents)
    ensures DecodeResourceContents(EncodeResourceContents(rc)) == Ok(rc) <==> Deducible(rc)
  {
  }

  // ---------------------------------------------------------------------------
  // Content: TextContent | ImageContent | EmbeddedResource, by "type"
  // ---------------------------------------------------------------------------

  /** The three records. Each keeps the `type` field it declares; the
      `priority` field (a Double) is not modelled. */
  datatype Content =
    | TextContent(audience: Option<seq<Role>>, typeName: string, text: Option<string>)
    | ImageContent(audience: Option<seq<Role>>, typeName: string, data: Option<string>, mimeType: Option<string>)
    | EmbeddedResource(audience: Option<seq<Role>>, typeName: string, resource: Option<ResourceContents>)

  /** The subtypes registered in @JsonSubTypes. */
  datatype ContentKind = Text | Image | Resource

  function KindOf(c: Content): ContentKind {
    match c
    case TextContent(_, _, _) => Text
    case ImageContent(_, _, _, _) => Image
    case EmbeddedResource(_, _, _) => Resource
  }

  /** The name each subtype is registered under. */
  function RegisteredName(kind: ContentKind): string {
    match kind
    case Text => "text"
    case Image => "image"
    case Resource => "resource"
  }

  /** Resolving a type id through the @JsonSubTypes table. */
  function KindOfTypeId(tag: string): (r: Option<ContentKind>)
    ensures r.Some? ==> RegisteredName(r.value) == tag
    ensures r.None? ==> forall kind: ContentKind :: RegisteredName(kind) != tag
  {
    if tag == "text" then Some(Text)
    else if tag == "image" then Some(Image)
    else if tag == "resource" then Some(Resource)
    else None
  }

  /** Subtype to name to subtype gives the subtype back. */
  lemma KindNameRoundTrip(kind: ContentKind)
    ensures KindOfTypeId(RegisteredName(kind)) == Some(kind)
  {
  }

  /** What every record's compact constructor guarantees: `type` names the
      record's own subtype. */
  predicate WellTagged(c: Content) {
    c.typeName == RegisteredName(KindOf(c))
  }

  /** The compact constructor of TextContent: whatever `type` is passed in,
      the record stores "text". */
  function NewTextContent(audience: Option<seq<Role>>, typeArg: Option<string>, text: Option<string>): (c: Content)
    ensures c.TextContent? && WellTagged(c) && c.typeName == "text"
    ensures c.audience == audience && c.text == text
  {
    TextContent(audience, "text", text)
  }

  /** The compact constructor of ImageContent: `type` is forced to "image". */
  function NewImageContent(audience: Option<seq<Role>>, typeArg: Option<string>, data: Option<string>,
                           mimeType: Option<string>): (c: Content)
    ensures c.ImageContent? && WellTagged(c) && c.typeName == "image"
    ensures c.audience == audience && c.data == data && c.mimeType == mimeType
  {
    ImageContent(audience, "image", data, mimeType)
  }

  /** The compact constructor of EmbeddedResource: `type` is forced to "resource". */
  function NewEmbeddedResource(audience: Option<seq<Role>>, typeArg: Option<string>,
                               resource: Option<ResourceContents>): (c: Content)
    ensures c.EmbeddedResource? && WellTagged(c) && c.typeName == "resource"
    ensures c.audience == audience && c.resource == resource
  {
    EmbeddedResource(audience, "resource", resource)
  }

  /** The argument passed for `type` never shows in the built record. */
  lemma ConstructorsIgnoreTypeArgument(audience: Option<seq<Role>>, t1: Option<string>, t2: Option<string>,
                                       text: Option<string>, data: Option<string>, mimeType: Option<string>,
                                       resource: Option<ResourceContents>)
    ensures NewTextContent(audience, t1, text) == NewTextContent(audience, t2, text)
    ensures NewImageContent(audience, t1, data, mimeType) == NewImageContent(audience, t2, data, mimeType)
    ensures NewEmbeddedResource(audience, t1, resource) == NewEmbeddedResource(audience, t2, resource)
  {
  }

  /** The nullable `resource` property of EmbeddedResource. */
  function DecodeResource(v: Value): (r: Result<Option<ResourceContents>, DecodeError>)
    ensures r == Ok(None) <==> v == JNull
    ensures r.Ok? && r.value.Some? ==> v.JObject? && DecodeResourceContents(v.fields) == Ok(r.value.value)
    ensures v.JObject? ==> (r.Ok? <==> DecodeResourceContents(v.fields).Ok?)
    ensures !v.JNull? && !v.JObject? ==> r == Err(Mistyped("resource"))
  {
    match v
    case JNull => Ok(None)
    case JObject(fields) =>
      var rc :- DecodeResourceContents(fields);
      Ok(Some(rc))
    case _ => Err(Mistyped("resource"))
  }

  /** The properties of the subtype `kind` that the object holds bind to
      their Java fields. */
  predicate PropertiesBind(kind: ContentKind, obj: Object) {
    match kind
    case Text => StringOrNull(Get(obj, "text"))
    case Image => StringOrNull(Get(obj, "data")) && StringOrNull(Get(obj, "mimeType"))
    case Resource => DecodeResource(Get(obj, "resource")).Ok?
  }

  /** Binding an object to Content: the "type" property picks the record
      through the @JsonSubTypes table, and the record's own constructor
      then sets `type` again. */
  function DecodeContent(obj: Object): (r: Result<Content, DecodeError>)
    ensures r.Ok? <==> Get(obj, "type").JString? && KindOfTypeId(Get(obj, "type").s).Some?
                       && DecodeAudience(Get(obj, "audience")).Ok?
                       && PropertiesBind(KindOfTypeId(Get(obj, "type").s).value, obj)
    ensures Get(obj, "type") == JNull ==> r == Err(MissingTypeId)
    ensures !StringOrNull(Get(obj, "type")) ==> r == Err(Mistyped("type"))
    ensures (Get(obj, "type").JString? && KindOfTypeId(Get(obj, "type").s).None?)
            ==> r == Err(UnknownTypeId(Get(obj, "type").s))
    ensures r.Ok? ==> WellTagged(r.value)
    ensures r.Ok? ==> Get(obj, "type") == JString(r.value.typeName)
    ensures r.Ok? ==> DecodeAudience(Get(obj, "audience")) == Ok(r.value.audience)
    ensures r.Ok? && r.value.TextContent? ==> OptString(r.value.text) == Get(obj, "text")
    ensures r.Ok? && r.value.ImageContent? ==>
              OptString(r.value.data) == Get(obj, "data") && OptString(r.value.mimeType) == Get(obj, "mimeType")
    ensures r.Ok? && r.value.EmbeddedResource? ==> DecodeResource(Get(obj, "resource")) == Ok(r.value.resource)
  {
    match Get(obj, "type")
    case JNull => Err(MissingTypeId)
    case JString(tag) =>
      (match KindOfTypeId(tag)
       case None => Err(UnknownTypeId(tag))
       case Some(kind) =>
         var audience :- DecodeAudience(Get(obj, "audience"));
         match kind
         case Text =>
           var text :- DecodeString(obj, "text");
           Ok(NewTextContent(audience, None, text))
         case Image =>
           var data :- DecodeString(obj, "data");
           var mimeType :- DecodeString(obj, "mimeType");
           Ok(NewImageContent(audience, None, data, mimeType))
         case Resource =>
           var resource :- DecodeResource(Get(obj, "resource"));
           Ok(NewEmbeddedResource(audience, None, resource)))
    case _ => Err(Mistyped("type"))
  }

  function EncodeResource(resource: Option<ResourceContents>): (v: Value)
    ensures v == JNull <==> resource.None?
  {
    match resource
    case None => JNull
    case Some(rc) => JObject(EncodeResourceContents(rc))
  }

  /** Writing a Content record: its `type` and its non-null properties, and
      nothing that belongs to another subtype. */
  function EncodeContent(c: Content): (r: Object)
    ensures forall k :: k in r ==> r[k] != JNull
    ensures Get(r, "type") == JString(c.typeName) && Get(r, "audience") == EncodeAudience(c.audience)
    ensures c.TextContent? ==> Get(r, "text") == OptString(c.text) && r.Keys <= {"audience", "type", "text"}
    ensures c.ImageContent? ==>
              && Get(r, "data") == OptString(c.data) && Get(r, "mimeType") == OptString(c.mimeType)
              && r.Keys <= {"audience", "type", "data", "mimeType"}
    ensures c.EmbeddedResource? ==>
              Get(r, "resource") == EncodeResource(c.resource) && r.Keys <= {"audience", "type", "resource"}
  {
    match c
    case TextContent(audience, typeName, text) =>
      WithoutNulls(map["audience" := EncodeAudience(audience), "type" := JString(typeName),
                       "text" := OptString(text)])
    case ImageContent(audience, typeName, data, mimeType) =>
      WithoutNulls(map["audience" := EncodeAudience(audience), "type" := JString(typeName),
                       "data" := OptString(data), "mimeType" := OptString(mimeType)])
    case EmbeddedResource(audience, typeName, resource) =>
      WithoutNulls(map["audience" := EncodeAudience(audience), "type" := JString(typeName),
                       "resource" := EncodeResource(resource)])
  }

  /** Everything a Content record holds can be read back from its written
      form: an embedded resource, when present, must be deducible. */
  predicate Readable(c: Content) {
    c.EmbeddedResource? && c.resource.Some? ==> Deducible(c.resource.value)
  }

  /** A record built by its constructor and written out reads back as itself
      exactly when its embedded resource (if any) is deducible. */
  lemma {:induction false} DecodeEncodeContent(c: Content)
    requires WellTagged(c)
    ensures DecodeContent(EncodeContent(c)) == Ok(c) <==> Readable(c)
  {
    DecodeEncodeAudience(c.audience);
    if c.EmbeddedResource? && c.resource.Some? {
      DecodeEncodeResourceContents(c.resource.value);
    }
  }
}
