/**
 * `HttpMcpToolboxClient`: the JSON-RPC-over-HTTP client. Every HTTP round trip is an input
 * (an `Exchange` that either delivered a response or failed); the model records the requests
 * the client sends and decides what it makes of the responses.
 */

import opened Wrappers
import opened JsonTree
import opened Values
import opened ToolDefinitions
import opened ToolResults

/** The protocol version the client offers in `initialize` and sends in the
    `MCP-Protocol-Version` header of every later request. */
const ProtocolVersion: string := "2025-11-25"

/** The client name `initialize` announces. */
const ClientName: string := "mcp-toolbox-sdk-java"

/** The JSON-RPC messages the client sends. */
datatype Request =
  | Initialize(protocolVersion: string, clientName: string)
  | InitializedNotification
  | ToolsList
  | ToolsCall(name: string, arguments: map<string, Value>)

/** A request as it goes out: its URL, its message, its `MCP-Protocol-Version` header (if
    any), its `Authorization` header (if any) and the extra headers the caller added. */
datatype Outgoing = Outgoing(
  url: string,
  request: Request,
  versionHeader: Option<string>,
  authorization: Option<string>,
  extraHeaders: map<string, string>)

/** An HTTP response. */
datatype Response = Response(status: int, body: string)

/** One HTTP round trip: a response arrived, or the transport failed. */
datatype Exchange = Delivered(response: Response) | TransportFailure

/** What the outside world contributes to one client operation: the identity token the
    application default credentials issue for the base URL (None when there are no such
    credentials or they cannot issue identity tokens), then the round trips of the handshake and of
    the operation's own request, in the order the client makes them. */
datatype Environment = Environment(
  adc: Option<string>,
  initExchange: Exchange,
  notifyExchange: Exchange,
  exchange: Exchange)

/** The Jackson operations the client relies on and that are not modelled: parsing text,
    rendering a node as JSON text, `asBoolean`, and binding a node to a `ToolResult`
    (None when binding throws or yields null). */
datatype Mapper = Mapper(
  readTree: string -> Option<Json>,
  render: Json -> string,
  asBoolean: Json -> bool,
  treeToValue: Json -> Option<ToolResult>)

// ---------------------------------------------------------------------------------------
// URLs and the authorization header
// ---------------------------------------------------------------------------------------

predicate EndsWithSlash(s: string)
{
  |s| > 0 && s[|s| - 1] == '/'
}

/** Removes one trailing slash, if there is one. */
function StripTrailingSlash(url: string): (r: string)
  ensures url == r + "/" || (url == r && !EndsWithSlash(url))
{
  if EndsWithSlash(url) then url[..|url| - 1] else url
}

/** The URL a toolset is listed from: the base URL, extended by "/" and the toolset name
    when a non-empty name is given. */
function ToolsetUrl(baseUrl: string, toolsetName: Option<string>): (r: string)
  ensures |baseUrl| <= |r| && r[..|baseUrl|] == baseUrl
  ensures r == baseUrl <==> toolsetName.None? || toolsetName.value == ""
  ensures r != baseUrl ==> r[|baseUrl|..] == "/" + toolsetName.value
{
  if toolsetName.Some? && toolsetName.value != "" then baseUrl + "/" + toolsetName.value else baseUrl
}

const Bearer: string := "Bearer "

predicate HasBearerPrefix(s: string)
{
  |Bearer| <= |s| && s[..|Bearer|] == Bearer
}

/** `getAuthorizationHeader`: a non-empty API key, prefixed with "Bearer " unless it already
    is; otherwise "Bearer " and the identity token of the default credentials, or none. */
function AuthorizationHeader(apiKey: Option<string>, adc: Option<string>): (r: Option<string>)
  ensures apiKey.Some? && apiKey.value != "" ==>
            r.Some? && HasBearerPrefix(r.value)
            && (HasBearerPrefix(apiKey.value) ==> r.value == apiKey.value)
            && (!HasBearerPrefix(apiKey.value) ==> r.value == Bearer + apiKey.value)
  ensures apiKey.None? || apiKey.value == "" ==>
            (r.Some? <==> adc.Some?) && (r.Some? ==> r.value == Bearer + adc.value)
{
  if apiKey.Some? && apiKey.value != "" then
    Some(if HasBearerPrefix(apiKey.value) then apiKey.value else Bearer + apiKey.value)
  else if adc.Some? then Some(Bearer + adc.value)
  else None
}

/** Prefixing is idempotent: a header computed from a key, used as the key, is kept as is. */
lemma BearerPrefixIdempotent(apiKey: string, adc: Option<string>, adc': Option<string>)
  requires apiKey != ""
  ensures AuthorizationHeader(AuthorizationHeader(Some(apiKey), adc), adc') == AuthorizationHeader(Some(apiKey), adc)
{
  if !HasBearerPrefix(apiKey) {
    assert (Bearer + apiKey)[..|Bearer|] == Bearer;
  }
}

/** The header `invokeTool` authorises a call with: an `Authorization` entry among the extra
    headers, else the client-level header, else none. */
function ChooseAuthorization(extraHeaders: map<string, string>, clientHeader: Option<string>): (r: Option<string>)
  ensures "Authorization" in extraHeaders ==> r == Some(extraHeaders["Authorization"])
  ensures "Authorization" !in extraHeaders ==> r == clientHeader
{
  if "Authorization" in extraHeaders then Some(extraHeaders["Authorization"]) else clientHeader
}

// ---------------------------------------------------------------------------------------
// The handshake
// ---------------------------------------------------------------------------------------

/** The server accepted `initialize`. */
predicate InitAccepted(init: Exchange)
{
  init.Delivered? && init.response.status == 200
}

/** Whether the session is ready after an operation: it already was, or `initialize` got a
    200 and the notification round trip completed (whatever its status). */
predicate Ready(wasInitialized: bool, env: Environment)
{
  wasInitialized || (InitAccepted(env.initExchange) && env.notifyExchange.Delivered?)
}

/** The handshake requests sent: none once initialized; otherwise `initialize`, followed by
    the notification if the server accepted it. */
function HandshakeSent(wasInitialized: bool, baseUrl: string, auth: Option<string>, init: Exchange): seq<Outgoing>
{
  if wasInitialized then []
  else [Outgoing(baseUrl, Initialize(ProtocolVersion, ClientName), None, auth, map[])]
       + (if InitAccepted(init) then [Outgoing(baseUrl, InitializedNotification, Some(ProtocolVersion), auth, map[])] else [])
}

/** Why a handshake failed. */
function HandshakeFailure(env: Environment): Failure
{
  match env.initExchange
  case Delivered(resp) => if resp.status != 200 then InitFailed(resp.status, resp.body) else TransportError
  case TransportFailure => TransportError
}

// ---------------------------------------------------------------------------------------
// Reading the tool catalog (`handleListToolsResponse`)
// ---------------------------------------------------------------------------------------

/** The texts of the elements of a JSON array, in order. */
function Texts(items: seq<Json>): (r: seq<string>)
  ensures |r| == |items| && forall i :: 0 <= i < |items| ==> r[i] == AsText(items[i])
{
  seq(|items|, i requires 0 <= i < |items| => AsText(items[i]))
}

/** The names in the tool's `inputSchema.required` array. */
function RequiredNames(toolNode: Json): set<string>
{
  match Get(toolNode, "inputSchema")
  case None => {}
  case Some(schema) =>
    match Get(schema, "required")
    case Some(JArr(items)) => set i | 0 <= i < |items| :: AsText(items[i])
    case _ => {}
}

/** The services listed for a parameter under the tool's `_meta["toolbox/authParam"]`. */
function AuthSourcesOf(toolNode: Json, paramName: string): seq<string>
{
  match Get(toolNode, "_meta")
  case None => []
  case Some(meta) =>
    match Get(meta, "toolbox/authParam")
    case None => []
    case Some(authParam) =>
      match Get(authParam, paramName)
      case Some(JArr(items)) => Texts(items)
      case _ => []
}

/** The fields of the tool's `inputSchema.properties` object, in document order. */
function PropertyFields(toolNode: Json): seq<(string, Json)>
{
  match Get(toolNode, "inputSchema")
  case None => []
  case Some(schema) =>
    match Get(schema, "properties")
    case Some(JObj(fields)) => fields
    case _ => []
}

/** The text of an optional string field, or a default when the field is absent. */
function TextOr(node: Json, key: string, default: string): string
{
  if Has(node, key) then AsText(Get(node, key).value) else default
}

/** The parameter built from one property. */
function ParameterOf(toolNode: Json, required: set<string>, property: (string, Json)): Parameter
{
  Parameter(
    property.0,
    Some(TextOr(property.1, "type", "string")),
    property.0 in required,
    TextOr(property.1, "description", ""),
    Some(AuthSourcesOf(toolNode, property.0)))
}

/** The parameters of a tool, one per property, in property order. */
function ParametersOf(toolNode: Json): (r: seq<Parameter>)
  ensures |r| == |PropertyFields(toolNode)|
  ensures forall i :: 0 <= i < |r| ==>
            r[i] == ParameterOf(toolNode, RequiredNames(toolNode), PropertyFields(toolNode)[i])
{
  var fields := PropertyFields(toolNode);
  seq(|fields|, i requires 0 <= i < |fields| => ParameterOf(toolNode, RequiredNames(toolNode), fields[i]))
}

/** The name and definition read from one tool node; None when it has no name (Java
    dereferences null there). */
function ToolEntry(toolNode: Json): Option<(string, ToolDefinition)>
{
  match Get(toolNode, "name")
  case None => None
  case Some(nameNode) =>
    Some((AsText(nameNode), ToolDefinition(TextOr(toolNode, "description", ""), Some(ParametersOf(toolNode)))))
}

/** A tool as read from the catalog: its name and definition, or None when unreadable. */
type Entry = Option<(string, ToolDefinition)>

/** The entries read from the tool nodes, in order. */
function Entries(tools: seq<Json>): (r: seq<Entry>)
  ensures |r| == |tools| && forall i :: 0 <= i < |tools| ==> r[i] == ToolEntry(tools[i])
{
  seq(|tools|, i requires 0 <= i < |tools| => ToolEntry(tools[i]))
}

/** The catalog built from the entries in order, a later tool replacing an earlier one of
    the same name; None as soon as one tool cannot be read. */
function Catalog(entries: seq<Entry>): Option<map<string, ToolDefinition>>
  decreases |entries|
{
  if |entries| == 0 then Some(map[])
  else match Catalog(entries[..|entries| - 1])
    case None => None
    case Some(m) =>
      match entries[|entries| - 1]
      case None => None
      case Some(entry) => Some(m[entry.0 := entry.1])
}

/** What `handleListToolsResponse` makes of a response. */
function ParseCatalog(resp: Response, mapper: Mapper): Result<map<string, ToolDefinition>, Failure>
{
  if resp.status != 200 then Err(ListFailed(resp.status, resp.body))
  else match mapper.readTree(resp.body)
    case None => Err(MalformedCatalog)
    case Some(root) =>
      if Has(root, "error") then Err(ProtocolError(mapper.render(Get(root, "error").value)))
      else match Get(root, "result")
        case None => Err(MalformedCatalog)
        case Some(result) =>
          match Get(result, "tools")
          case Some(JArr(tools)) =>
            (match Catalog(Entries(tools))
             case None => Err(MalformedCatalog)
             case Some(m) => Ok(m))
          case _ => Ok(map[])
}

/** Once a prefix of the tools cannot be read, neither can the whole list. */
lemma {:induction false} CatalogFailurePersists(entries: seq<Entry>, k: nat)
  requires k <= |entries| && Catalog(entries[..k]).None?
  ensures Catalog(entries).None?
  decreases |entries|
{
  if k == |entries| {
    assert entries[..k] == entries;
  } else {
    var prefix := entries[..|entries| - 1];
    assert prefix[..k] == entries[..k];
    CatalogFailurePersists(prefix, k);
  }
}

/** A readable catalog could read every tool. */
lemma {:induction false} CatalogReadsEveryTool(entries: seq<Entry>)
  requires Catalog(entries).Some?
  ensures forall i :: 0 <= i < |entries| ==> entries[i].Some?
  decreases |entries|
{
  if |entries| > 0 {
    var prefix := entries[..|entries| - 1];
    CatalogReadsEveryTool(prefix);
    assert forall i :: 0 <= i < |entries| - 1 ==> entries[i] == prefix[i];
  }
}

/** The entry at index i is readable and carries the name. */
predicate NamedAt(entries: seq<Entry>, i: int, name: string)
{
  0 <= i < |entries| && entries[i].Some? && entries[i].value.0 == name
}

/** Every key of the catalog is the name of one of its tools. */
lemma {:induction false} CatalogKeyHasSource(entries: seq<Entry>, name: string) returns (i: nat)
  requires Catalog(entries).Some? && name in Catalog(entries).value
  ensures NamedAt(entries, i, name)
  decreases |entries|
{
  var last := |entries| - 1;
  var prefix := entries[..last];
  if entries[last].value.0 == name {
    i := last;
  } else {
    i := CatalogKeyHasSource(prefix, name);
    assert prefix[i] == entries[i];
  }
}

/** The name of every tool is a key of the catalog. */
lemma {:induction false} CatalogHasToolName(entries: seq<Entry>, i: nat, name: string)
  requires Catalog(entries).Some? && NamedAt(entries, i, name)
  ensures name in Catalog(entries).value
  decreases |entries|
{
  var last := |entries| - 1;
  if i < last {
    var prefix := entries[..last];
    assert prefix[i] == entries[i];
    CatalogHasToolName(prefix, i, name);
  }
}

/** The catalog's keys are exactly the names of its tools. */
lemma CatalogNames(entries: seq<Entry>, name: string)
  requires Catalog(entries).Some?
  ensures name in Catalog(entries).value <==> exists i :: NamedAt(entries, i, name)
{
  if name in Catalog(entries).value {
    var i := CatalogKeyHasSource(entries, name);
  }
  if exists i :: NamedAt(entries, i, name) {
    var i :| NamedAt(entries, i, name);
    CatalogHasToolName(entries, i, name);
  }
}

/** A name maps to the definition of the LAST tool carrying it. */
lemma {:induction false} CatalogLastEntryWins(entries: seq<Entry>, i: nat)
  requires Catalog(entries).Some? && i < |entries| && entries[i].Some?
  requires forall j :: i < j < |entries| && entries[j].Some? ==> entries[j].value.0 != entries[i].value.0
  ensures entries[i].value.0 in Catalog(entries).value
  ensures Catalog(entries).value[entries[i].value.0] == entries[i].value.1
  decreases |entries|
{
  var last := |entries| - 1;
  if i < last {
    var prefix := entries[..last];
    assert forall j :: 0 <= j < last ==> prefix[j] == entries[j];
    CatalogLastEntryWins(prefix, i);
  }
}

/** A failed response, an unreadable body and a JSON-RPC error all fail the listing; a body
    without a tool array lists nothing. */
lemma CatalogErrors(resp: Response, mapper: Mapper)
  ensures resp.status != 200 ==> ParseCatalog(resp, mapper) == Err(ListFailed(resp.status, resp.body))
  ensures resp.status == 200 && mapper.readTree(resp.body).None? ==> ParseCatalog(resp, mapper).Err?
  ensures resp.status == 200 && mapper.readTree(resp.body).Some? && Has(mapper.readTree(resp.body).value, "error")
          ==> ParseCatalog(resp, mapper)
              == Err(ProtocolError(mapper.render(Get(mapper.readTree(resp.body).value, "error").value)))
  ensures ParseCatalog(resp, mapper).Ok? ==> resp.status == 200
{
}

/** There is one parsed parameter per property, in property order. Each one is named after its property, typed "string" unless the property
    says otherwise, described "" unless it says otherwise, required exactly when listed in
    `required`, with the auth sources of `_meta` (none when absent). */
lemma ParsedParameter(toolNode: Json, i: nat)
  requires i < |PropertyFields(toolNode)|
  ensures |ParametersOf(toolNode)| == |PropertyFields(toolNode)|
  ensures var p, prop := ParametersOf(toolNode)[i], PropertyFields(toolNode)[i];
          && p.name == prop.0
          && p.typ == Some(if Has(prop.1, "type") then AsText(Get(prop.1, "type").value) else "string")
          && p.description == (if Has(prop.1, "description") then AsText(Get(prop.1, "description").value) else "")
          && (p.required <==> exists j :: RequiredAt(toolNode, j) && AsText(RequiredItems(toolNode)[j]) == prop.0)
          && p.authSources == Some(AuthSourcesOf(toolNode, prop.0))
{
  var names := RequiredNames(toolNode);
  var prop := PropertyFields(toolNode)[i];
  if prop.0 in names {
    var items := RequiredItems(toolNode);
    var j :| 0 <= j < |items| && AsText(items[j]) == prop.0;
    assert RequiredAt(toolNode, j);
  }
}

/** The elements of the tool's `required` array (none when there is no such array). */
function RequiredItems(toolNode: Json): seq<Json>
{
  match Get(toolNode, "inputSchema")
  case None => []
  case Some(schema) =>
    match Get(schema, "required")
    case Some(JArr(items)) => items
    case _ => []
}

predicate RequiredAt(toolNode: Json, j: int)
{
  0 <= j < |RequiredItems(toolNode)|
}

// ---------------------------------------------------------------------------------------
// Normalising a call's response (`handleInvokeResponse`)
// ---------------------------------------------------------------------------------------

/** `handleInvokeResponse`: never fails; every outcome becomes a result with a content list. */
function HandleInvokeResponse(resp: Response, mapper: Mapper): (r: ToolResult)
  ensures r.content.Some?
  ensures resp.status != 200 ==>
            r == ToolResult(Some(TextContent("Error " + Decimal(resp.status) + ": " + resp.body)), true)
{
  if resp.status != 200 then
    ToolResult(Some(TextContent("Error " + Decimal(resp.status) + ": " + resp.body)), true)
  else match mapper.readTree(resp.body)
    case None => ToolResult(Some(TextContent(resp.body)), false)
    case Some(root) =>
      if Has(root, "error") then
        ToolResult(Some(TextContent("MCP Error: " + mapper.render(Get(root, "error").value))), true)
      else
        var isError := Has(root, "isError") && mapper.asBoolean(Get(root, "isError").value);
        match Get(root, "result")
        case None => ToolResult(Some(TextContent(resp.body)), isError)
        case Some(result) =>
          match mapper.treeToValue(result)
          case None => ToolResult(Some(TextContent(resp.body)), false)
          case Some(parsed) =>
            if parsed.content.None? then
              ToolResult(Some(TextContent(AsText(result))), isError || parsed.isError)
            else parsed
}

/** The cases of the normalisation, by what the 200 response holds: a JSON-RPC error, a
    result with content (passed through), a result without content (wrapped as text, with the
    envelope's or the result's error flag), no result (the body, with the envelope's flag),
    and anything unreadable (the body, not an error). */
lemma InvokeResponseCases(resp: Response, mapper: Mapper)
  requires resp.status == 200
  ensures mapper.readTree(resp.body).None? ==>
            HandleInvokeResponse(resp, mapper) == ToolResult(Some(TextContent(resp.body)), false)
  ensures mapper.readTree(resp.body).Some? ==>
            var root := mapper.readTree(resp.body).value;
            var envelopeError := Has(root, "isError") && mapper.asBoolean(Get(root, "isError").value);
            && (Has(root, "error") ==>
                  HandleInvokeResponse(resp, mapper).isError
                  && HandleInvokeResponse(resp, mapper).content
                     == Some(TextContent("MCP Error: " + mapper.render(Get(root, "error").value))))
            && (!Has(root, "error") && !Has(root, "result") ==>
                  HandleInvokeResponse(resp, mapper) == ToolResult(Some(TextContent(resp.body)), envelopeError))
            && (!Has(root, "error") && Has(root, "result") ==>
                  var result := Get(root, "result").value;
                  match mapper.treeToValue(result)
                  case None => HandleInvokeResponse(resp, mapper) == ToolResult(Some(TextContent(resp.body)), false)
                  case Some(parsed) =>
                    && (parsed.content.Some? ==> HandleInvokeResponse(resp, mapper) == parsed)
                    && (parsed.content.None? ==>
                          HandleInvokeResponse(resp, mapper)
                          == ToolResult(Some(TextContent(AsText(result))), envelopeError || parsed.isError)))
{
}

/** A result is flagged as an error only for a failed status, a JSON-RPC error, or an error
    flag the server set on the envelope or on the result itself. */
lemma InvokeErrorFlagSources(resp: Response, mapper: Mapper)
  requires HandleInvokeResponse(resp, mapper).isError
  ensures resp.status != 200
          || (mapper.readTree(resp.body).Some?
              && var root := mapper.readTree(resp.body).value;
              || Has(root, "error")
              || (Has(root, "isError") && mapper.asBoolean(Get(root, "isError").value))
              || (Has(root, "result") && mapper.treeToValue(Get(root, "result").value).Some?
                  && mapper.treeToValue(Get(root, "result").value).value.isError))
{
}

// ---------------------------------------------------------------------------------------
// The outcome of a whole operation
// ---------------------------------------------------------------------------------------

/** What `loadToolset(toolsetName)` sends and returns, from whether the session was ready. */
function ListOutcome(wasInitialized: bool, baseUrl: string, apiKey: Option<string>, mapper: Mapper,
                     toolsetName: Option<string>, env: Environment)
  : (seq<Outgoing>, Result<map<string, ToolDefinition>, Failure>)
{
  var auth := AuthorizationHeader(apiKey, env.adc);
  var handshake := HandshakeSent(wasInitialized, baseUrl, auth, env.initExchange);
  if !Ready(wasInitialized, env) then (handshake, Err(HandshakeFailure(env)))
  else
    (handshake + [Outgoing(ToolsetUrl(baseUrl, toolsetName), ToolsList, Some(ProtocolVersion), auth, map[])],
     match env.exchange
     case TransportFailure => Err(TransportError)
     case Delivered(resp) => ParseCatalog(resp, mapper))
}

/** What `invokeTool(toolName, arguments, extraHeaders)` sends and returns. */
function InvokeOutcome(wasInitialized: bool, baseUrl: string, apiKey: Option<string>, mapper: Mapper,
                       toolName: string, arguments: map<string, Value>, extraHeaders: map<string, string>,
                       env: Environment)
  : (seq<Outgoing>, Result<ToolResult, Failure>)
{
  var auth := ChooseAuthorization(extraHeaders, AuthorizationHeader(apiKey, env.adc));
  var handshake := HandshakeSent(wasInitialized, baseUrl, auth, env.initExchange);
  if !Ready(wasInitialized, env) then (handshake, Err(HandshakeFailure(env)))
  else
    (handshake + [Outgoing(baseUrl, ToolsCall(toolName, arguments), Some(ProtocolVersion), auth, extraHeaders)],
     match env.exchange
     case TransportFailure => Err(TransportError)
     case Delivered(resp) => Ok(HandleInvokeResponse(resp, mapper)))
}

/** Every operation on a ready session sends exactly its own request; on a fresh session it
    is preceded by `initialize` (and the notification when that is accepted), all carrying
    the header chosen for the operation. */
lemma HandshakeOnlyWhenNotReady(wasInitialized: bool, baseUrl: string, apiKey: Option<string>, mapper: Mapper,
                                toolName: string, arguments: map<string, Value>, extraHeaders: map<string, string>,
                                env: Environment)
  ensures var (sent, r) := InvokeOutcome(wasInitialized, baseUrl, apiKey, mapper, toolName, arguments, extraHeaders, env);
          var auth := ChooseAuthorization(extraHeaders, AuthorizationHeader(apiKey, env.adc));
          && (wasInitialized ==> |sent| == 1 && sent[0].request == ToolsCall(toolName, arguments))
          && (!wasInitialized ==> |sent| >= 1 && sent[0] == Outgoing(baseUrl, Initialize(ProtocolVersion, ClientName), None, auth, map[]))
          && (r.Ok? ==> Ready(wasInitialized, env) && sent[|sent| - 1].request.ToolsCall?)
          && (forall i :: 0 <= i < |sent| ==> sent[i].authorization == auth)
{
}

/** The bearer header staged for the tokens of a tool's getters authorises the call, over
    any API key or default credential; without getters the client-level header does. */
lemma StagedBearerAuthorisesCall(apiKey: Option<string>, adc: Option<string>, resolved: seq<(string, string)>)
  requires forall i, j :: 0 <= i < j < |resolved| ==> resolved[i].0 != resolved[j].0
  ensures |resolved| > 0 ==>
            ChooseAuthorization(AuthHeaders(resolved), AuthorizationHeader(apiKey, adc))
            == Some(Bearer + resolved[|resolved| - 1].1)
  ensures |resolved| == 0 ==>
            ChooseAuthorization(AuthHeaders(resolved), AuthorizationHeader(apiKey, adc)) == AuthorizationHeader(apiKey, adc)
{
  StagedHeaders(resolved);
}

// ---------------------------------------------------------------------------------------
// Bulk binding (`loadToolset` with bindings)
// ---------------------------------------------------------------------------------------

function KeysOf<V>(binds: Option<map<string, V>>): set<string>
{
  if binds.None? then {} else binds.value.Keys
}

/** The tool names that bindings are given for but that the catalog does not have. */
function UnknownBindings(defs: map<string, ToolDefinition>, paramBinds: Option<map<string, map<string, Bound>>>,
                         authBinds: Option<map<string, map<string, TokenGetter>>>): set<string>
{
  (KeysOf(paramBinds) + KeysOf(authBinds)) - defs.Keys
}

/** The bindings given for one tool (none when the map is null or has no entry). */
function BindingsFor<V>(binds: Option<map<string, map<string, V>>>, toolName: string): map<string, V>
{
  if binds.Some? && toolName in binds.value then binds.value[toolName] else map[]
}

// ---------------------------------------------------------------------------------------
// The client object
// ---------------------------------------------------------------------------------------

class ToolboxClient {
  const baseUrl: string
  const apiKey: Option<string>
  const mapper: Mapper
  var initialized: bool

  /** Strips one trailing slash from the base URL; the session starts uninitialised. */
  constructor (baseUrl: string, apiKey: Option<string>, mapper: Mapper)
    ensures this.baseUrl == StripTrailingSlash(baseUrl)
    ensures this.apiKey == apiKey && this.mapper == mapper
    ensures !initialized
  {
    this.baseUrl := if EndsWithSlash(baseUrl) then baseUrl[..|baseUrl| - 1] else baseUrl;
    this.apiKey := apiKey;
    this.mapper := mapper;
    initialized := false;
  }

  /** `ensureInitialized`: sends nothing once the session is ready; otherwise sends
      `initialize` and, when it gets a 200, the notification. The flag is set only when the
      notification round trip completes, and is never cleared. */
  method EnsureInitialized(authHeader: Option<string>, env: Environment)
    returns (sent: seq<Outgoing>, r: Result<(), Failure>)
    modifies this
    ensures sent == HandshakeSent(old(initialized), baseUrl, authHeader, env.initExchange)
    ensures initialized == Ready(old(initialized), env)
    ensures r.Ok? <==> initialized
    ensures r.Err? ==> r.error == HandshakeFailure(env)
  {
    if initialized {
      return [], Ok(());
    }
    sent := [Outgoing(baseUrl, Initialize(ProtocolVersion, ClientName), None, authHeader, map[])];
    match env.initExchange {
      case TransportFailure =>
        return sent, Err(TransportError);
      case Delivered(resp) =>
        if resp.status != 200 {
          return sent, Err(InitFailed(resp.status, resp.body));
        }
    }
    sent := sent + [Outgoing(baseUrl, InitializedNotification, Some(ProtocolVersion), authHeader, map[])];
    if env.notifyExchange.TransportFailure? {
      return sent, Err(TransportError);
    }
    initialized := true;
    r := Ok(());
  }

  /** `handleListToolsResponse`: reads the catalog out of a `tools/list` response. */
  method HandleListToolsResponse(resp: Response) returns (r: Result<map<string, ToolDefinition>, Failure>)
    ensures r == ParseCatalog(resp, mapper)
  {
    if resp.status != 200 {
      return Err(ListFailed(resp.status, resp.body));
    }
    var root := mapper.readTree(resp.body);
    if root.None? {
      return Err(MalformedCatalog);
    }
    if Has(root.value, "error") {
      return Err(ProtocolError(mapper.render(Get(root.value, "error").value)));
    }
    var result := Get(root.value, "result");
    if result.None? {
      return Err(MalformedCatalog);
    }
    var toolsNode := Get(result.value, "tools");
    var toolsMap: map<string, ToolDefinition> := map[];
    if toolsNode.Some? && toolsNode.value.JArr? {
      var tools := toolsNode.value.items;
      var i := 0;
      while i < |tools|
        invariant 0 <= i <= |tools|
        invariant Catalog(Entries(tools)[..i]) == Some(toolsMap)
      {
        assert Entries(tools)[..i + 1][..i] == Entries(tools)[..i];
        var entry := ReadTool(tools[i]);
        if entry.None? {
          CatalogFailurePersists(Entries(tools), i + 1);
          return Err(MalformedCatalog);
        }
        toolsMap := toolsMap[entry.value.0 := entry.value.1];
        i := i + 1;
      }
      assert Entries(tools)[..|tools|] == Entries(tools);
    }
    return Ok(toolsMap);
  }

  /** `loadToolset(toolsetName)`: authorises with the client-level header, makes sure the
      session is ready, lists the toolset and reads the catalog. */
  method LoadToolset(toolsetName: Option<string>, env: Environment)
    returns (sent: seq<Outgoing>, r: Result<map<string, ToolDefinition>, Failure>)
    modifies this
    ensures initialized == Ready(old(initialized), env)
    ensures (sent, r) == ListOutcome(old(initialized), baseUrl, apiKey, mapper, toolsetName, env)
  {
    var authHeader := AuthorizationHeader(apiKey, env.adc);
    var init;
    sent, init := EnsureInitialized(authHeader, env);
    if init.Err? {
      return sent, Err(init.error);
    }
    var url := if toolsetName.Some? && toolsetName.value != "" then baseUrl + "/" + toolsetName.value else baseUrl;
    sent := sent + [Outgoing(url, ToolsList, Some(ProtocolVersion), authHeader, map[])];
    match env.exchange {
      case TransportFailure =>
        r := Err(TransportError);
      case Delivered(resp) =>
        r := HandleListToolsResponse(resp);
    }
  }

  /** `listTools()`: the same as loading the toolset with the empty name. */
  method ListTools(env: Environment) returns (sent: seq<Outgoing>, r: Result<map<string, ToolDefinition>, Failure>)
    modifies this
    ensures initialized == Ready(old(initialized), env)
    ensures (sent, r) == ListOutcome(old(initialized), baseUrl, apiKey, mapper, None, env)
  {
    sent, r := LoadToolset(Some(""), env);
  }

  /** The bulk part of `loadToolset(toolsetName, paramBinds, authBinds, strict)`: in strict
      mode, bindings for unknown tools fail the whole load before any tool is built; then
      every tool of the catalog is built and given exactly its own bindings. */
  method BindToolset(defs: map<string, ToolDefinition>, paramBinds: Option<map<string, map<string, Bound>>>,
                     authBinds: Option<map<string, map<string, TokenGetter>>>, strict: bool)
    returns (r: Result<map<string, Tool>, Failure>)
    ensures r.Err? <==> strict && UnknownBindings(defs, paramBinds, authBinds) != {}
    ensures r.Err? ==> r.error == UnknownToolBindings(UnknownBindings(defs, paramBinds, authBinds))
    ensures r.Ok? ==> r.value.Keys == defs.Keys
    ensures r.Ok? ==> forall n :: n in r.value ==>
              var t := r.value[n];
              && fresh(t) && t.name == n && t.definition == defs[n] && t.client == this
              && t.boundParameters == BindingsFor(paramBinds, n)
              && t.authGetters == BindingsFor(authBinds, n)
    ensures r.Ok? ==> forall a, b :: a in r.value && b in r.value && a != b ==> r.value[a] != r.value[b]
  {
    if strict {
      var unknownTools: set<string> := {};
      if paramBinds.Some? {
        unknownTools := unknownTools + paramBinds.value.Keys;
      }
      if authBinds.Some? {
        unknownTools := unknownTools + authBinds.value.Keys;
      }
      unknownTools := unknownTools - defs.Keys;
      if unknownTools != {} {
        return Err(UnknownToolBindings(unknownTools));
      }
    }
    var tools: map<string, Tool> := map[];
    var pending := defs.Keys;
    while pending != {}
      invariant pending <= defs.Keys
      invariant tools.Keys == defs.Keys - pending
      invariant forall n :: n in tools ==>
                  var t := tools[n];
                  && fresh(t) && t.name == n && t.definition == defs[n] && t.client == this
                  && t.boundParameters == BindingsFor(paramBinds, n)
                  && t.authGetters == BindingsFor(authBinds, n)
      invariant forall a, b :: a in tools && b in tools && a != b ==> tools[a] != tools[b]
      decreases pending
    {
      var toolName :| toolName in pending;
      var tool := NewBoundTool(toolName, defs[toolName], paramBinds, authBinds);
      tools := tools[toolName := tool];
      pending := pending - {toolName};
    }
    return Ok(tools);
  }

  /** One tool of `bindToolset`: a new `Tool` on this client, with the tool's own parameter
      bindings and token getters applied. */
  method NewBoundTool(toolName: string, def: ToolDefinition, paramBinds: Option<map<string, map<string, Bound>>>,
                      authBinds: Option<map<string, map<string, TokenGetter>>>)
    returns (tool: Tool)
    ensures fresh(tool) && tool.name == toolName && tool.definition == def && tool.client == this
    ensures tool.boundParameters == BindingsFor(paramBinds, toolName)
    ensures tool.authGetters == BindingsFor(authBinds, toolName)
  {
    tool := new Tool(toolName, def, this);
    if paramBinds.Some? && toolName in paramBinds.value {
      BindEachParameter(tool, paramBinds.value[toolName]);
    }
    if authBinds.Some? && toolName in authBinds.value {
      AddEachAuthTokenGetter(tool, authBinds.value[toolName]);
    }
  }

  /** `loadToolset(toolsetName, paramBinds, authBinds, strict)`: fetches the catalog, then
      binds it; a failed fetch fails the load. */
  method LoadBoundToolset(toolsetName: Option<string>, paramBinds: Option<map<string, map<string, Bound>>>,
                          authBinds: Option<map<string, map<string, TokenGetter>>>, strict: bool, env: Environment)
    returns (sent: seq<Outgoing>, r: Result<map<string, Tool>, Failure>)
    modifies this
    ensures initialized == Ready(old(initialized), env)
    ensures sent == ListOutcome(old(initialized), baseUrl, apiKey, mapper, toolsetName, env).0
    ensures var fetched := ListOutcome(old(initialized), baseUrl, apiKey, mapper, toolsetName, env).1;
            && (fetched.Err? ==> r == Err(fetched.error))
            && (fetched.Ok? ==>
                  (r.Err? <==> strict && UnknownBindings(fetched.value, paramBinds, authBinds) != {})
                  && (r.Err? ==> r.error == UnknownToolBindings(UnknownBindings(fetched.value, paramBinds, authBinds)))
                  && (r.Ok? ==> r.value.Keys == fetched.value.Keys)
                  && (r.Ok? ==> forall n :: n in r.value ==>
                        var t := r.value[n];
                        && fresh(t) && t.name == n && t.definition == fetched.value[n] && t.client == this
                        && t.boundParameters == BindingsFor(paramBinds, n)
                        && t.authGetters == BindingsFor(authBinds, n))
                  && (r.Ok? ==> forall a, b :: a in r.value && b in r.value && a != b ==> r.value[a] != r.value[b]))
  {
    var defs;
    sent, defs := LoadToolset(toolsetName, env);
    if defs.Err? {
      return sent, Err(defs.error);
    }
    r := BindToolset(defs.value, paramBinds, authBinds, strict);
  }

  /** `loadTool(toolName, authTokenGetters)`: lists all tools and builds the named one with
      the given getters, or fails when the catalog does not have it. */
  method LoadTool(toolName: string, getters: Option<map<string, TokenGetter>>, env: Environment)
    returns (sent: seq<Outgoing>, r: Result<Tool, Failure>)
    modifies this
    ensures initialized == Ready(old(initialized), env)
    ensures sent == ListOutcome(old(initialized), baseUrl, apiKey, mapper, None, env).0
    ensures var fetched := ListOutcome(old(initialized), baseUrl, apiKey, mapper, None, env).1;
            && (fetched.Err? ==> r == Err(fetched.error))
            && (fetched.Ok? && toolName !in fetched.value ==> r == Err(ToolNotFound(toolName)))
            && (fetched.Ok? && toolName in fetched.value ==>
                  r.Ok? && fresh(r.value) && r.value.name == toolName
                  && r.value.definition == fetched.value[toolName] && r.value.client == this
                  && r.value.boundParameters == map[]
                  && r.value.authGetters == (if getters.Some? then getters.value else map[]))
  {
    var tools;
    sent, tools := ListTools(env);
    if tools.Err? {
      return sent, Err(tools.error);
    }
    if toolName !in tools.value {
      return sent, Err(ToolNotFound(toolName));
    }
    var tool := new Tool(toolName, tools.value[toolName], this);
    if getters.Some? {
      AddEachAuthTokenGetter(tool, getters.value);
    }
    r := Ok(tool);
  }

  /** `invokeTool(toolName, arguments, extraHeaders)`: picks the authorization header (an
      extra `Authorization` first), makes sure the session is ready with it, sends the call
      and normalises the response. */
  method InvokeTool(toolName: string, arguments: map<string, Value>, extraHeaders: map<string, string>,
                    env: Environment)
    returns (sent: seq<Outgoing>, r: Result<ToolResult, Failure>)
    modifies this
    ensures initialized == Ready(old(initialized), env)
    ensures (sent, r) == InvokeOutcome(old(initialized), baseUrl, apiKey, mapper, toolName, arguments, extraHeaders, env)
  {
    var adcHeader := AuthorizationHeader(apiKey, env.adc);
    var finalAuthHeader: Option<string> := None;
    if "Authorization" in extraHeaders {
      finalAuthHeader := Some(extraHeaders["Authorization"]);
    } else if adcHeader.Some? {
      finalAuthHeader := adcHeader;
    }
    var init;
    sent, init := EnsureInitialized(finalAuthHeader, env);
    if init.Err? {
      return sent, Err(init.error);
    }
    sent := sent + [Outgoing(baseUrl, ToolsCall(toolName, arguments), Some(ProtocolVersion), finalAuthHeader, extraHeaders)];
    match env.exchange {
      case TransportFailure =>
        r := Err(TransportError);
      case Delivered(resp) =>
        r := Ok(HandleInvokeResponse(resp, mapper));
    }
  }
}

/** Binds every entry of `binds` on the tool (`forEach(tool::bindParam)`). */
method BindEachParameter(tool: Tool, binds: map<string, Bound>)
  modifies tool
  ensures tool.boundParameters == old(tool.boundParameters) + binds
  ensures tool.authGetters == old(tool.authGetters)
{
  var keys := binds.Keys;
  while keys != {}
    invariant keys <= binds.Keys
    invariant tool.boundParameters == old(tool.boundParameters) + map k | k in binds.Keys - keys :: binds[k]
    invariant tool.authGetters == old(tool.authGetters)
    decreases keys
  {
    var k :| k in keys;
    var _ := tool.BindParam(k, binds[k]);
    keys := keys - {k};
  }
  assert (map k | k in binds.Keys - {} :: binds[k]) == binds;
}

/** Registers every entry of `getters` on the tool (`forEach(tool::addAuthTokenGetter)`). */
method AddEachAuthTokenGetter(tool: Tool, getters: map<string, TokenGetter>)
  modifies tool
  ensures tool.authGetters == old(tool.authGetters) + getters
  ensures tool.boundParameters == old(tool.boundParameters)
{
  var keys := getters.Keys;
  while keys != {}
    invariant keys <= getters.Keys
    invariant tool.authGetters == old(tool.authGetters) + map k | k in getters.Keys - keys :: getters[k]
    invariant tool.boundParameters == old(tool.boundParameters)
    decreases keys
  {
    var k :| k in keys;
    var _ := tool.AddAuthTokenGetter(k, getters[k]);
    keys := keys - {k};
  }
  assert (map k | k in getters.Keys - {} :: getters[k]) == getters;
}

// ---------------------------------------------------------------------------------------
// Reading one tool's schema (the inner loops of `handleListToolsResponse`)
// ---------------------------------------------------------------------------------------

/** Reads one tool node: its name, its description (default "") and its parameters; None
    when it has no name. */
method ReadTool(toolNode: Json) returns (entry: Entry)
  ensures entry == ToolEntry(toolNode)
{
  var nameNode := Get(toolNode, "name");
  if nameNode.None? {
    return None;
  }
  var name := AsText(nameNode.value);
  var description := if Has(toolNode, "description") then AsText(Get(toolNode, "description").value) else "";
  var params := ReadParameters(toolNode);
  entry := Some((name, ToolDefinition(description, Some(params))));
}

/** Collects the tool's `required` array into a set. */
method ReadRequired(toolNode: Json) returns (requiredSet: set<string>)
  ensures requiredSet == RequiredNames(toolNode)
{
  requiredSet := {};
  var inputSchema := Get(toolNode, "inputSchema");
  var requiredNode := if inputSchema.Some? then Get(inputSchema.value, "required") else None;
  if requiredNode.Some? && requiredNode.value.JArr? {
    var items := requiredNode.value.items;
    var i := 0;
    while i < |items|
      invariant 0 <= i <= |items|
      invariant requiredSet == set j | 0 <= j < i :: AsText(items[j])
    {
      requiredSet := requiredSet + {AsText(items[i])};
      i := i + 1;
    }
  }
}

/** Collects the services `_meta["toolbox/authParam"]` lists for one parameter. */
method ReadAuthSources(toolNode: Json, paramName: string) returns (authSources: seq<string>)
  ensures authSources == AuthSourcesOf(toolNode, paramName)
{
  authSources := [];
  var metaNode := Get(toolNode, "_meta");
  if metaNode.Some? && Has(metaNode.value, "toolbox/authParam") {
    var paramAuthNode := Get(Get(metaNode.value, "toolbox/authParam").value, paramName);
    if paramAuthNode.Some? && paramAuthNode.value.JArr? {
      var items := paramAuthNode.value.items;
      var i := 0;
      while i < |items|
        invariant 0 <= i <= |items|
        invariant authSources == Texts(items[..i])
      {
        authSources := authSources + [AsText(items[i])];
        i := i + 1;
      }
      assert items[..|items|] == items;
    }
  }
}

/** Builds one parameter per property of the tool's input schema, in property order. */
method ReadParameters(toolNode: Json) returns (params: seq<Parameter>)
  ensures params == ParametersOf(toolNode)
{
  params := [];
  var requiredSet := ReadRequired(toolNode);
  var inputSchema := Get(toolNode, "inputSchema");
  var propertiesNode := if inputSchema.Some? then Get(inputSchema.value, "properties") else None;
  if propertiesNode.Some? && propertiesNode.value.JObj? {
    var fields := propertiesNode.value.fields;
    assert fields == PropertyFields(toolNode);
    var i := 0;
    while i < |fields|
      invariant 0 <= i <= |fields|
      invariant |params| == i
      invariant forall j :: 0 <= j < i ==> params[j] == ParameterOf(toolNode, requiredSet, fields[j])
    {
      var (paramName, propNode) := fields[i];
      var paramType := if Has(propNode, "type") then AsText(Get(propNode, "type").value) else "string";
      var paramDesc := if Has(propNode, "description") then AsText(Get(propNode, "description").value) else "";
      var authSources := ReadAuthSources(toolNode, paramName);
      params := params + [Parameter(paramName, Some(paramType), paramName in requiredSet, paramDesc, Some(authSources))];
      i := i + 1;
    }
  }
}
