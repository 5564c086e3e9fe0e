/**
 * Worked calls of the preparation pipeline on small schemas: a bound parameter, a type
 * mismatch, a missing parameter, and an auth-linked parameter.
 */

import opened Wrappers
import opened Values
import opened ToolDefinitions

/** A schema of one required parameter of the given type, linked to the given services. */
function OneParameter(param: string, typ: string, services: seq<string>): ToolDefinition
{
  ToolDefinition("", Some([Parameter(param, Some(typ), true, "", Some(services))]))
}

/** Binding the required string parameter `num_rows` to "3" lets a call without arguments
    through, with "3" as the argument and no extra header. */
lemma BoundParameterFillsCall()
  ensures Prepared("search", OneParameter("num_rows", "string", []), map["num_rows" := Literal(Str("3"))], map[], [])
          == Ok(Invocation("search", map["num_rows" := Str("3")], map[]))
{
  var def := OneParameter("num_rows", "string", []);
  var bound := map["num_rows" := Literal(Str("3"))];
  var args := Bind(map[], bound);
  assert args == map["num_rows" := Str("3")];
  assert AuthArgs(args, def.parameters, []) == args;
  assert Lower("string") == "string";
  assert Violation(def.parameters.value[0], RemoveNulls(args), "search").None?;
  assert RemoveNulls(args) == args;
}

/** Passing the Integer 2 for a string parameter stops the call with a type mismatch naming `Integer`. */
lemma IntegerForStringParameterFails()
  ensures Prepared("search", OneParameter("num_rows", "string", []), map[], map["num_rows" := Int(2)], [])
          == Err(TypeMismatch("num_rows", "string", "Integer"))
{
  var def := OneParameter("num_rows", "string", []);
  var args := Bind(map["num_rows" := Int(2)], map[]);
  assert args == map["num_rows" := Int(2)];
  assert AuthArgs(args, def.parameters, []) == args;
  assert RemoveNulls(args) == args;
  assert Lower("string") == "string";
  assert Violation(def.parameters.value[0], args, "search") == Some(TypeMismatch("num_rows", "string", "Integer"));
}

/** Omitting a required parameter, or passing null for it, stops the call as a missing
    parameter. */
lemma MissingRequiredParameterFails()
  ensures Prepared("search", OneParameter("num_rows", "string", []), map[], map[], [])
          == Err(MissingParameter("num_rows", "search"))
  ensures Prepared("search", OneParameter("num_rows", "string", []), map[], map["num_rows" := Null], [])
          == Err(MissingParameter("num_rows", "search"))
{
  var def := OneParameter("num_rows", "string", []);
  var omitted := Bind(map[], map[]);
  assert AuthArgs(omitted, def.parameters, []) == omitted;
  assert RemoveNulls(omitted) == map[];
  var nulled := Bind(map["num_rows" := Null], map[]);
  assert AuthArgs(nulled, def.parameters, []) == nulled;
  assert RemoveNulls(nulled) == map[];
}

/** The token of service "svc" fills the parameter linked to it and authorises the call,
    next to its own `svc_token` header. */
lemma TokenFillsLinkedParameter()
  ensures Prepared("search", OneParameter("token_param", "string", ["svc"]), map[], map[], [("svc", "tok")])
          == Ok(Invocation("search", map["token_param" := Str("tok")],
                           map["svc_token" := "tok", "Authorization" := "Bearer tok"]))
{
  var def := OneParameter("token_param", "string", ["svc"]);
  var resolved := [("svc", "tok")];
  assert resolved[..0] == [];
  assert Serves(def.parameters.value[0], "svc");
  assert FindParameterForService(def.parameters, "svc") == Some("token_param");
  var args := AuthArgs(Bind(map[], map[]), def.parameters, resolved);
  assert args == map["token_param" := Str("tok")];
  assert RemoveNulls(args) == args;
  assert Lower("string") == "string";
  assert Violation(def.parameters.value[0], args, "search").None?;
  BearerHeaderFromSomeToken(resolved);
  assert TokenHeader("svc") == "svc_token";
  assert "Bearer " + "tok" == "Bearer tok";
  assert AuthHeaders(resolved) == map["svc_token" := "tok", "Authorization" := "Bearer tok"];
}

/** An injected token is validated like any argument: a parameter typed "integer" rejects
    it, and nothing is dispatched. */
lemma InjectedTokenIsTypeChecked()
  ensures Prepared("search", OneParameter("token_param", "integer", ["svc"]), map[], map[], [("svc", "tok")])
          == Err(TypeMismatch("token_param", "integer", "String"))
{
  var def := OneParameter("token_param", "integer", ["svc"]);
  var resolved := [("svc", "tok")];
  assert resolved[..0] == [];
  assert Serves(def.parameters.value[0], "svc");
  assert FindParameterForService(def.parameters, "svc") == Some("token_param");
  var args := AuthArgs(Bind(map[], map[]), def.parameters, resolved);
  assert args == map["token_param" := Str("tok")];
  assert RemoveNulls(args) == args;
  assert Lower("integer") == "integer";
  assert Violation(def.parameters.value[0], args, "search") == Some(TypeMismatch("token_param", "integer", "String"));
}
