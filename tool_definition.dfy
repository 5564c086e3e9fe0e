/** The immutable records describing a tool, as fetched from the server. */
module ToolDefinitions {
  import opened Wrappers

  /** One declared parameter. `typ` and `authSources` are nullable in the Java record. */
  datatype Parameter = Parameter(
    name: string,
    typ: Option<string>,
    required: bool,
    description: string,
    authSources: Option<seq<string>>)

  /** A tool's description and its parameters in schema order (nullable in the Java record). */
  datatype ToolDefinition = ToolDefinition(description: string, parameters: Option<seq<Parameter>>)

  /** Parameter `p` may be satisfied by a token of `service`. */
  predicate Serves(p: Parameter, service: string)
  {
    p.authSources.Some? && service in p.authSources.value
  }
}
