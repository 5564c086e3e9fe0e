/**
 * The ways an operation of the client library fails: the exceptions thrown by `Tool` and
 * `HttpMcpToolboxClient` and the builder, with the messages they carry.
 */

/** Why an operation fails. */
datatype Failure =
  | MissingParameter(param: string, tool: string)
  | TypeMismatch(param: string, expected: string, actual: string)
  | InitFailed(status: int, body: string)
  | TransportError
  | ListFailed(status: int, body: string)
  | ProtocolError(error: string)
  | MalformedCatalog
  | UnknownToolBindings(tools: set<string>)
  | ToolNotFound(name: string)
  | BaseUrlMissing
{
  /** The exception message. A transport error carries the HTTP client's own message and a
      malformed catalog the parser's, neither of which is modelled; the strict-mode message
      ends with the unknown names in hash order, which is not modelled either. */
  function Message(): string
  {
    match this
    case MissingParameter(param, tool) =>
      "Missing required parameter '" + param + "' for tool '" + tool + "'."
    case TypeMismatch(param, expected, actual) =>
      "Parameter '" + param + "' expected type '" + expected + "' but got '" + actual + "'."
    case InitFailed(status, body) => "Init failed: " + Decimal(status) + " " + body
    case TransportError => ""
    case ListFailed(status, body) =>
      "Failed to list tools. Status: " + Decimal(status) + " " + body
    case ProtocolError(error) => "MCP Error: " + error
    case MalformedCatalog => ""
    case UnknownToolBindings(_) => "Strict mode error: Bindings provided for unknown tools: "
    case ToolNotFound(name) => "Tool not found: " + name
    case BaseUrlMissing => "Base URL must be provided"
  }
}

/** The validation messages read back: the missing-parameter message names the parameter
    after its fixed opening and ends with the tool's name; the type-mismatch message names
    the parameter after its opening and ends with the simple name of the value's class. */
lemma ValidationMessagesNameTheirParts(param: string, tool: string, expected: string, actual: string)
  ensures var m, open := MissingParameter(param, tool).Message(), "Missing required parameter '";
          && |open| + |param| + |tool| + 2 <= |m|
          && m[..|open|] == open
          && m[|open|..|open| + |param|] == param
          && m[|m| - |tool| - 2..] == tool + "'."
  ensures var m, open := TypeMismatch(param, expected, actual).Message(), "Parameter '";
          && |open| + |param| + |actual| + 2 <= |m|
          && m[..|open|] == open
          && m[|open|..|open| + |param|] == param
          && m[|m| - |actual| - 2..] == actual + "'."
{
  var open := "Missing required parameter '";
  var rest := "' for tool '" + tool + "'.";
  var m := MissingParameter(param, tool).Message();
  assert m == open + param + rest;
  assert m[|m| - |tool| - 2..] == rest[|rest| - |tool| - 2..];
  var open' := "Parameter '";
  var rest' := "' expected type '" + expected + "' but got '" + actual + "'.";
  var m' := TypeMismatch(param, expected, actual).Message();
  assert m' == open' + param + rest';
  assert m'[|m'| - |actual| - 2..] == rest'[|rest'| - |actual| - 2..];
}

/** Java's decimal rendering of an int, as string concatenation produces it. */
function Decimal(n: int): string
{
  if n < 0 then "-" + Digits(-n) else Digits(n)
}

function Digits(n: nat): string
  decreases n
{
  var d := ['0', '1', '2', '3', '4', '5', '6', '7', '8', '9'][n % 10];
  if n < 10 then [d] else Digits(n / 10) + [d]
}
