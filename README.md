# MCP Toolbox Java SDK: the tool invocation pipeline, in Dafny

This project models the client side of the MCP Toolbox Java SDK and proves properties of the
model. It covers the path from a loaded tool to the normalised result of a call. The core is
four Java classes:

- `Tool` (`tool.dfy`). A tool holds fluent, last-write-wins maps of bound parameters and
  auth-token getters. `execute` prepares a call in three steps:
  1. It applies the bound values, which always win over the caller's.
  2. It injects each resolved token into the first schema parameter whose auth sources name
     the token's service, and stages the `Authorization` and `<service>_token` headers.
  3. It drops null arguments and validates the rest against the schema, in schema order,
     stopping at the first violation. Only a valid call reaches the client.
- `HttpMcpToolboxClient` (`http_client.dfy`). This class covers:
  - the base-URL and toolset-path strings;
  - the choice of authorization header and its `Bearer ` prefix;
  - the `initialize` handshake, a flag that only a completed handshake sets;
  - reading the `tools/list` catalog into tool definitions;
  - strict and permissive bulk binding, and `loadTool`;
  - normalising every `tools/call` response into a `ToolResult` without ever failing.
- `ToolResult` (`tool_result.dfy`). `text()` keeps the text items, joins them one per line
  and trims the result.
- `McpToolboxClientBuilder` (`client_builder.dfy`). `build()` validates the base URL and
  strips a trailing slash. It writes the stripped URL back into the builder, and the client
  strips a second one.

`Tool`, `ToolboxClient` and `ClientBuilder` are classes whose methods update fields in place,
as the Java objects do. Everything the classes only read or compute is written as functions
over the data model:

- `json_tree.dfy`: parsed JSON;
- `values.dfy`: argument values as Java runtime classes;
- `tool_definition.dfy`: the tool definition records;
- `errors.dfy`: the failures and their messages.

Each method is proved against such a function. The properties the Java code promises are then
proved as lemmas about those functions. `scenarios.dfy` works through concrete calls:

- a bound parameter fills a call;
- an Integer for a string parameter fails;
- an omitted or null required argument is reported missing;
- a token fills its linked parameter and sets the bearer header;
- an injected token is type-checked.

The inputs the Java code receives from outside are parameters of the model:

- HTTP round trips are `Exchange` values, either a delivered `Response(status, body)` or a
  transport failure. An `Environment` supplies one per request, in the order the client sends
  them.
- The identity token the application default credentials issue for the base URL is an optional
  string in the `Environment`. The client sends it behind `Bearer `.
- The tokens the auth getters produce are a sequence of `(service, token)` pairs, in the order
  the getters completed.
- Jackson's parsing, rendering, `asBoolean` and `treeToValue` are functions in a `Mapper`
  record.

## Model

Source paths are relative to the repository root. The lines cited are those each member models.

| member | source | states |
|---|---|---|
| `Tool.constructor` | src/main/java/com/google/cloud/mcp/Tool.java:44-48 | a new tool keeps its name, definition and client, and has no bindings or token getters |
| `Tool.BindParam` | src/main/java/com/google/cloud/mcp/Tool.java:75-78 | puts one bound value under its key, overwriting an earlier one; the getters are untouched and the same tool is returned |
| `Tool.BindSupplier` | src/main/java/com/google/cloud/mcp/Tool.java:87-90 | puts one value supplier under its key, overwriting an earlier binding; the same tool is returned |
| `Tool.AddAuthTokenGetter` | src/main/java/com/google/cloud/mcp/Tool.java:99-102 | puts one getter under its service, overwriting an earlier one; the bound values are untouched and the same tool is returned |
| `Tool.PrepareInvocation` | src/main/java/com/google/cloud/mcp/Tool.java:111-155 | given the tokens in any completion order of the registered getters, yields exactly the invocation or the validation failure `Prepared` describes |
| `Tool.Execute` | src/main/java/com/google/cloud/mcp/Tool.java:111-160 | an invalid call sends nothing, fails with the validation error and leaves the session flag unchanged; a valid call is exactly the client's `invokeTool` with the sanitised arguments and the staged token headers |
| `ApplyBoundParameters` | src/main/java/com/google/cloud/mcp/Tool.java:112-123 | the merged arguments have the caller's keys plus the bound keys; a bound key holds its value, taken from the supplier when it is one; every other caller key keeps the caller's value |
| `ApplyAuthTokens` | src/main/java/com/google/cloud/mcp/Tool.java:126-150 | the arguments and headers after the token callbacks ran in completion order are the fold of one injection and one staging per token |
| `FindParameterForService` | src/main/java/com/google/cloud/mcp/Tool.java:163-171 | the name of the first parameter, in schema order, whose auth sources list the service; none without a parameter list; its contract is stated by `ParameterForServiceIsFirst` |
| `ParameterForServiceIsFirst` | src/main/java/com/google/cloud/mcp/Tool.java:163-171 | `findParameterForService` is none exactly when there is no parameter list or no parameter lists the service; otherwise the name of the first parameter, in schema order, that lists it |
| `FirstServingNameIsFirst` | src/main/java/com/google/cloud/mcp/Tool.java:165-169 | the scan over the parameter list finds nothing exactly when no parameter lists the service, and otherwise the first one that does |
| `UntargetedArgumentKept` | src/main/java/com/google/cloud/mcp/Tool.java:136-140 | a key that no completed service's token targets is present after injection exactly when it was before, with its old value |
| `TargetedArgumentInjected` | src/main/java/com/google/cloud/mcp/Tool.java:136-140 | a key that some completed token targets is present after injection and holds the token of the last service, in completion order, that targets it |
| `TokenHeadersAreDistinct` | src/main/java/com/google/cloud/mcp/Tool.java:144-147 | a `<service>_token` header never collides with `Authorization`, and distinct services get distinct token headers |
| `StagedHeaders` | src/main/java/com/google/cloud/mcp/Tool.java:142-147 | every resolved service's token header holds its token; `Authorization` is `Bearer ` plus the token that completed last; no getter stages nothing |
| `StagedOnlyTokenHeaders` | src/main/java/com/google/cloud/mcp/Tool.java:142-147 | no header is staged other than `Authorization` and the token headers of completed services |
| `BearerHeaderFromSomeToken` | src/main/java/com/google/cloud/mcp/Tool.java:144 | the bearer header carries one of the resolved tokens; with one getter the headers are exactly its bearer and token headers |
| `RemoveNulls` | src/main/java/com/google/cloud/mcp/Tool.java:176 | the result has no null value, keeps exactly the non-null entries and leaves their values unchanged |
| `FirstViolation` | src/main/java/com/google/cloud/mcp/Tool.java:180-199 | none exactly when every parameter conforms; otherwise the violation of a parameter all of whose predecessors conform |
| `FirstViolationAt` | src/main/java/com/google/cloud/mcp/Tool.java:180-199 | the violation reported is that of the first parameter, in schema order, that does not conform |
| `ValidateAndSanitize` | src/main/java/com/google/cloud/mcp/Tool.java:174-200 | drops nulls, then fails with the missing-parameter or type error of the first non-conforming parameter, or returns the null-free arguments; without a parameter list it only drops nulls |
| `ValidatedArgumentsConform` | src/main/java/com/google/cloud/mcp/Tool.java:174-200 | arguments that pass are exactly the non-null ones, contain every required parameter and match every declared type |
| `IsTypeMatch` | src/main/java/com/google/cloud/mcp/Tool.java:202-219 | whether a present value fits a declared type name, compared after lower-casing; its case table is stated by `TypeTable` |
| `TypeTable` | src/main/java/com/google/cloud/mcp/Tool.java:202-219 | string accepts only a String; integer only Integer or Long; number any Number; boolean only Boolean; array a List or a native array; object a Map; any other type name accepts everything |
| `TypeMatchIgnoresCase` | src/main/java/com/google/cloud/mcp/Tool.java:203 | type names that differ only in letter case accept the same values |
| `KnownTypesNest` | src/main/java/com/google/cloud/mcp/Tool.java:204-215 | whatever integer accepts, number accepts; string, array and object accept disjoint values |
| `BoundValueWins` | src/main/java/com/google/cloud/mcp/Tool.java:116-123 | the caller's value for a bound key never matters; a non-null bound value that no token targets is what is dispatched |
| `AuthArgsRespectNulls` | src/main/java/com/google/cloud/mcp/Tool.java:136-140 | injecting tokens gives the same null-free arguments from inputs with the same null-free arguments |
| `RemoveNullsPut` | src/main/java/com/google/cloud/mcp/Tool.java:139 | putting a token (never null) and dropping nulls commute |
| `NullArgumentsActAsOmitted` | src/main/java/com/google/cloud/mcp/Tool.java:176 | a call with null-valued arguments prepares exactly as the call with those keys omitted |
| `DispatchedArgumentsConform` | src/main/java/com/google/cloud/mcp/Tool.java:151-158 | what reaches the client, injected tokens included, is null-free, satisfies every required and type constraint, and carries the staged headers |
| `BoundParameterFillsCall` | src/main/java/com/google/cloud/mcp/Tool.java:116-123 | binding the required string `num_rows` to "3" lets a call with no arguments through with `num_rows = "3"` and no headers |
| `IntegerForStringParameterFails` | src/main/java/com/google/cloud/mcp/Tool.java:191-196 | an Integer passed for a string parameter fails with a type mismatch naming `Integer` |
| `Failure.Message` | src/main/java/com/google/cloud/mcp/Tool.java:184-196 | the text of each failure: the two validation messages, the handshake, listing and protocol errors, tool not found and the missing base URL |
| `ValidationMessagesNameTheirParts` | src/main/java/com/google/cloud/mcp/Tool.java:184-196 | the missing-parameter message names the parameter after its fixed opening and ends with the tool's name; the type-mismatch message names the parameter and ends with the value's simple class name |
| `MissingRequiredParameterFails` | src/main/java/com/google/cloud/mcp/Tool.java:184-187 | omitting a required parameter and passing null for it both fail as a missing parameter naming the parameter and the tool |
| `TokenFillsLinkedParameter` | src/main/java/com/google/cloud/mcp/Tool.java:136-147 | the token of "svc" fills `token_param` and yields the headers `svc_token` and `Authorization: Bearer tok` |
| `InjectedTokenIsTypeChecked` | src/main/java/com/google/cloud/mcp/Tool.java:151-158 | a token injected into an integer parameter fails validation as a String |
| `ToolboxClient.constructor` | src/main/java/com/google/cloud/mcp/HttpMcpToolboxClient.java:54-59 | the base URL loses one trailing slash; the session starts uninitialised |
| `StripTrailingSlash` | src/main/java/com/google/cloud/mcp/HttpMcpToolboxClient.java:55 | the input is the result plus one slash, or the result itself when it does not end with a slash |
| `ToolsetUrl` | src/main/java/com/google/cloud/mcp/HttpMcpToolboxClient.java:123-127 | the URL extends the base URL; it is the base URL exactly when the name is null or empty, else the base URL plus "/" and the name |
| `ToolboxClient.ListTools` | src/main/java/com/google/cloud/mcp/HttpMcpToolboxClient.java:111-113 | sends and returns what loading the toolset with no name does |
| `AuthorizationHeader` | src/main/java/com/google/cloud/mcp/HttpMcpToolboxClient.java:267-284 | a non-empty key gives a header starting with `Bearer `: the key itself when it already has the prefix, else the prefixed key; a null or empty key gives `Bearer ` followed by the default credentials' identity token, or none when there is no such token |
| `BearerPrefixIdempotent` | src/main/java/com/google/cloud/mcp/HttpMcpToolboxClient.java:268-270 | using a computed header as the key yields the same header |
| `StagedBearerAuthorisesCall` | src/main/java/com/google/cloud/mcp/HttpMcpToolboxClient.java:222-229 | a tool with resolved tokens is authorised by the bearer of the last token, whatever the API key or credentials; a tool without getters uses the client-level header |
| `ToolboxClient.EnsureInitialized` | src/main/java/com/google/cloud/mcp/HttpMcpToolboxClient.java:61-108 | sends nothing when initialised; otherwise sends `initialize`, then the notification when it gets a 200; the flag is set exactly when the notification round trip completes and is never cleared; a non-200 fails with its status and body and leaves it unset, so the next call retries |
| `HandshakeOnlyWhenNotReady` | src/main/java/com/google/cloud/mcp/HttpMcpToolboxClient.java:229-255 | an initialised session sends only the call; a fresh one starts with `initialize`; a result needs a ready session; every request carries the chosen header |
| `ToolboxClient.LoadToolset` | src/main/java/com/google/cloud/mcp/HttpMcpToolboxClient.java:116-146 | handshake with the client-level header, then a `tools/list` request to the toolset URL; the result is the catalog read from the response, or the failure of the handshake or transport |
| `ReadTool` | src/main/java/com/google/cloud/mcp/HttpMcpToolboxClient.java:301-349 | reading one tool node yields exactly the catalog entry `ToolEntry` describes: no entry for an unnamed node, otherwise its name, description and parameters |
| `ToolboxClient.HandleListToolsResponse` | src/main/java/com/google/cloud/mcp/HttpMcpToolboxClient.java:286-356 | reads exactly the catalog `ParseCatalog` describes: non-200 and JSON-RPC errors fail, a missing result or an unnamed tool is malformed, no tool array lists nothing |
| `ReadRequired` | src/main/java/com/google/cloud/mcp/HttpMcpToolboxClient.java:306-313 | collects the texts of the `required` array |
| `ReadAuthSources` | src/main/java/com/google/cloud/mcp/HttpMcpToolboxClient.java:327-337 | collects, in order, the texts of `_meta["toolbox/authParam"][param]`, or nothing |
| `ReadParameters` | src/main/java/com/google/cloud/mcp/HttpMcpToolboxClient.java:315-347 | builds one parameter per property, in property order |
| `ParsedParameter` | src/main/java/com/google/cloud/mcp/HttpMcpToolboxClient.java:319-345 | there is one parameter per property, in property order; a parameter is named after its property; its type defaults to "string" and its description to ""; it is required exactly when some `required` element names it; its auth sources come from `_meta` |
| `CatalogFailurePersists` | src/main/java/com/google/cloud/mcp/HttpMcpToolboxClient.java:300-301 | one unreadable tool makes the whole listing fail |
| `CatalogReadsEveryTool` | src/main/java/com/google/cloud/mcp/HttpMcpToolboxClient.java:300-301 | a listing that succeeds could read every tool |
| `CatalogKeyHasSource` | src/main/java/com/google/cloud/mcp/HttpMcpToolboxClient.java:349 | every key of the catalog is the name of one of the tools |
| `CatalogHasToolName` | src/main/java/com/google/cloud/mcp/HttpMcpToolboxClient.java:349 | every tool's name is a key of the catalog |
| `CatalogNames` | src/main/java/com/google/cloud/mcp/HttpMcpToolboxClient.java:298-352 | the catalog's keys are exactly the names of its tools |
| `CatalogLastEntryWins` | src/main/java/com/google/cloud/mcp/HttpMcpToolboxClient.java:349 | a repeated tool name keeps the definition of its last occurrence |
| `CatalogErrors` | src/main/java/com/google/cloud/mcp/HttpMcpToolboxClient.java:287-294 | a non-200 status fails with its status and body; an unreadable body fails; an `error` field fails with its rendering; a success needs a 200 |
| `HandleInvokeResponse` | src/main/java/com/google/cloud/mcp/HttpMcpToolboxClient.java:358-392 | every response yields a result with a content list; a non-200 is an error result with the single text "Error <status>: <body>" |
| `InvokeResponseCases` | src/main/java/com/google/cloud/mcp/HttpMcpToolboxClient.java:366-391 | on a 200: a JSON-RPC error gives "MCP Error: ..." flagged as an error; a result with content is passed through; one without content becomes its text, flagged by the envelope or itself; no result gives the body with the envelope flag; anything unreadable gives the body, unflagged |
| `InvokeErrorFlagSources` | src/main/java/com/google/cloud/mcp/HttpMcpToolboxClient.java:358-392 | a result is flagged as an error only for a non-200, a JSON-RPC error, or an error flag on the envelope or on the result |
| `ToolboxClient.BindToolset` | src/main/java/com/google/cloud/mcp/HttpMcpToolboxClient.java:157-183 | strict mode fails exactly when bindings name a tool outside the catalog, null maps counting as empty, and reports those names; otherwise every catalog tool is a new, distinct tool with exactly its own bindings and getters |
| `ToolboxClient.NewBoundTool` | src/main/java/com/google/cloud/mcp/HttpMcpToolboxClient.java:172-178 | each catalog tool is a new tool on this client with exactly the bindings and getters given for its name, none when its name is absent or the map is null |
| `BindEachParameter` | src/main/java/com/google/cloud/mcp/HttpMcpToolboxClient.java:174-176 | binding each entry adds all of them to the tool's bound values, later keys overwriting, and leaves the getters |
| `AddEachAuthTokenGetter` | src/main/java/com/google/cloud/mcp/HttpMcpToolboxClient.java:177-179 | registering each entry adds all of them to the tool's getters and leaves the bound values |
| `ToolboxClient.LoadBoundToolset` | src/main/java/com/google/cloud/mcp/HttpMcpToolboxClient.java:148-184 | a failed fetch fails the load; otherwise the result is the bound catalog, with the strict-mode failure exactly on unknown tool names and then reporting exactly those names; the loaded tools are fresh, pairwise distinct objects with exactly their own bindings and getters |
| `ToolboxClient.LoadTool` | src/main/java/com/google/cloud/mcp/HttpMcpToolboxClient.java:186-206 | lists all tools; an absent name fails as not found; otherwise a new tool with that definition, no bound values, and the given getters (none for null) |
| `ToolboxClient.InvokeTool` | src/main/java/com/google/cloud/mcp/HttpMcpToolboxClient.java:208-265 | handshake and call carry the chosen header; the call goes to the base URL with the arguments and extra headers; the result is the normalised response, or the failure of the handshake or transport |
| `ToolResults.Text` | src/main/java/com/google/cloud/mcp/ToolResult.java:46-57 | equals the trimmed join of the text items, one per line, and "" for a null or empty list |
| `ToolResults.TextIsTrimmed` | src/main/java/com/google/cloud/mcp/ToolResult.java:56 | the text never starts or ends with a character at or below U+0020 |
| `ToolResults.Trim` | src/main/java/com/google/cloud/mcp/ToolResult.java:56 | the result neither starts nor ends with a character at or below U+0020 |
| `ToolResults.TrimKeepsInfix` | src/main/java/com/google/cloud/mcp/ToolResult.java:56 | the result is the slice of the input left once every leading and trailing character at or below U+0020 is cut off |
| `ToolResults.FirstKept` | src/main/java/com/google/cloud/mcp/ToolResult.java:56 | the forward scan stops at the first character above U+0020, everything it skips being at or below it |
| `ToolResults.LastKept` | src/main/java/com/google/cloud/mcp/ToolResult.java:56 | the backward scan stops after the last character above U+0020, everything it skips being at or below it |
| `ToolResults.JoinedAppend` | src/main/java/com/google/cloud/mcp/ToolResult.java:51-55 | items contribute in list order: joining a concatenation is concatenating the joins |
| `ToolResults.JoinedOfNonContributing` | src/main/java/com/google/cloud/mcp/ToolResult.java:52 | items without type "text" and a text contribute nothing |
| `ToolResults.TextEmptyWhenNothingQualifies` | src/main/java/com/google/cloud/mcp/ToolResult.java:46-56 | a null or empty list, or one with no qualifying item, gives "" |
| `ToolResults.JoinedOfSingleItem` | src/main/java/com/google/cloud/mcp/ToolResult.java:50-55 | with one qualifying item the joined text is its text and a newline |
| `ToolResults.TextOfSingleItem` | src/main/java/com/google/cloud/mcp/ToolResult.java:50-56 | with one qualifying item whose text has no removable ends, the text is that item's text |
| `ToolResults.TrimOfLine` | src/main/java/com/google/cloud/mcp/ToolResult.java:56 | trimming a line with no removable ends leaves the bare line |
| `ClientBuilder.constructor` | src/main/java/com/google/cloud/mcp/McpToolboxClientBuilder.java:19-21 | a new builder has neither a base URL nor an API key |
| `ClientBuilder.BaseUrl` | src/main/java/com/google/cloud/mcp/McpToolboxClientBuilder.java:23-27 | overwrites the base URL, keeps the key, returns the same builder |
| `ClientBuilder.ApiKey` | src/main/java/com/google/cloud/mcp/McpToolboxClientBuilder.java:29-33 | overwrites the key, keeps the base URL, returns the same builder |
| `ClientBuilder.Build` | src/main/java/com/google/cloud/mcp/McpToolboxClientBuilder.java:35-45 | fails with "Base URL must be provided" exactly when the URL is null or empty; otherwise writes the URL minus one trailing slash back into the builder and returns a new client with the URL minus a second slash and the key unchanged |
| `BuiltUrlDropsUpToTwoSlashes` | src/main/java/com/google/cloud/mcp/McpToolboxClientBuilder.java:41-44 | the client's URL is the given one minus at most two trailing slashes, and minus exactly two when there are two |
| `BuiltUrlExamples` | src/main/java/com/google/cloud/mcp/McpToolboxClientBuilder.java:41-44 | "http://h//" builds a client for "http://h"; "/" builds one for ""; a URL without a trailing slash is kept |

## Left out

- HTTP transport is not modelled. Timeouts, URI syntax, content types and header building are
  left out. Each round trip is an input, and a failed one is `TransportError`.
- Jackson is not modelled. Parsing text, rendering a node, `asBoolean` and binding a node to a
  `ToolResult` are functions given in `Mapper`. Serialising requests is left out, so a request
  is its method and parameters. The parser is assumed to yield each object key at most once.
- Application default credentials are not modelled. The identity token they issue is an
  optional string given per call.
- Null inputs that make Java throw a `NullPointerException` are ruled out by the model's
  types: a null inner map in the parameter or auth bindings of `loadToolset` (its `forEach`
  throws and the load fails), a null item in `ToolResult.content`, a null `Parameter` in a
  schema, `execute(null)`, and a null token getter.
- Concurrency is not modelled:
  - The token getters run concurrently. The model takes their completion order as an input and
    folds the callbacks in that order. It does not pick which token ends up in
    `Authorization`.
  - `ensureInitialized` sets its flag from a callback, so two concurrent calls can both send
    `initialize`. The model is the sequential state machine.
  - A failing token getter, which fails the whole future, is not modelled. Null tokens are not
    modelled either.
- A value supplier is modelled as a pure function. Its value is taken at call time.
- Numbers are only Java class tags; no arithmetic is modelled.
- `Lower`: only ASCII letters are lower-cased. Java's locale-sensitive `toLowerCase` is not
  modelled.
- `Failure.Message`: the strict-mode message stops before the unknown names, which Java prints
  in hash order. Transport and parser errors carry Java's own messages, which are not modelled.
  The catalog errors thrown inside the parsing block are wrapped by Java in a second
  `RuntimeException`. The model reports the inner failure.
- `ToolboxClient.InvokeTool`: an `Authorization` among the extra headers is also copied by
  `extraHeaders.forEach`, so the request can carry it twice. The model records the chosen
  header and the extra headers separately and does not model how the HTTP client merges them.
- `loadTool(name)` and `invokeTool(name, args)` without headers are the two-argument forms with
  empty maps, and are not separate members.
- The `McpToolboxClient` interface and its default aliases are not part of this model. Neither
  are `SyncMcpToolboxClient` (blocking wrappers), `LangChain4jTool` (a framework adapter),
  `JsonRpc` (envelope records with random ids) or the examples and end-to-end harness.
