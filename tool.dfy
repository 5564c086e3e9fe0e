/**
 * A loaded tool (`Tool`): its fluent bindings, and the pipeline `execute` runs before the
 * call goes out: apply bound parameters, inject resolved auth tokens and stage their
 * headers, then drop nulls and validate against the schema.
 */

import opened Wrappers
import opened Values
import opened ToolDefinitions
import opened ToolResults

// ---------------------------------------------------------------------------------------
// Schema type check (`isTypeMatch`)
// ---------------------------------------------------------------------------------------

function LowerChar(c: char): char
{
  if 'A' <= c <= 'Z' then (c as int + 32) as char else c
}

/** `String.toLowerCase` on ASCII letters; every other character is kept. */
function Lower(s: string): (r: string)
  ensures |r| == |s|
  ensures forall k :: 0 <= k < |s| ==> r[k] == LowerChar(s[k])
{
  seq(|s|, k requires 0 <= k < |s| => LowerChar(s[k]))
}

/** The schema type names the check knows; any other name accepts every value. */
const KnownTypeNames: set<string> := {"string", "integer", "number", "boolean", "array", "object"}

/** `isTypeMatch`: whether a present value is compatible with a declared type name,
    compared case-insensitively. */
function IsTypeMatch(v: Value, typeName: string): bool
  requires v != Null
{
  var t := Lower(typeName);
  if t == "string" then v.Str?
  else if t == "integer" then v.Int? || v.Long?
  else if t == "number" then IsNumber(v)
  else if t == "boolean" then v.Bool?
  else if t == "array" then v.ListVal? || v.ArrayVal?
  else if t == "object" then v.MapVal?
  else true
}

/** The compatibility table: what each known type name accepts, and that an unknown name
    accepts everything. */
lemma TypeTable(v: Value, typeName: string)
  requires v != Null
  ensures Lower(typeName) == "string" ==> (IsTypeMatch(v, typeName) <==> v.Str?)
  ensures Lower(typeName) == "integer" ==> (IsTypeMatch(v, typeName) <==> v.Int? || v.Long?)
  ensures Lower(typeName) == "number" ==> (IsTypeMatch(v, typeName) <==> IsNumber(v))
  ensures Lower(typeName) == "boolean" ==> (IsTypeMatch(v, typeName) <==> v.Bool?)
  ensures Lower(typeName) == "array" ==> (IsTypeMatch(v, typeName) <==> v.ListVal? || v.ArrayVal?)
  ensures Lower(typeName) == "object" ==> (IsTypeMatch(v, typeName) <==> v.MapVal?)
  ensures Lower(typeName) !in KnownTypeNames ==> IsTypeMatch(v, typeName)
{
}

/** Type names differing only in letter case accept the same values. */
lemma TypeMatchIgnoresCase(v: Value, a: string, b: string)
  requires v != Null
  requires |a| == |b| && forall k :: 0 <= k < |a| ==> LowerChar(a[k]) == LowerChar(b[k])
  ensures IsTypeMatch(v, a) == IsTypeMatch(v, b)
{
  assert Lower(a) == Lower(b);
}

/** Every value an "integer" parameter accepts is also accepted by "number", and the
    "string", "boolean", "array" and "object" parameters accept disjoint sets of values. */
lemma KnownTypesNest(v: Value)
  requires v != Null
  ensures IsTypeMatch(v, "integer") ==> IsTypeMatch(v, "number")
  ensures IsTypeMatch(v, "string") ==> !IsTypeMatch(v, "number") && !IsTypeMatch(v, "boolean")
                                       && !IsTypeMatch(v, "array") && !IsTypeMatch(v, "object")
  ensures IsTypeMatch(v, "array") ==> !IsTypeMatch(v, "object") && !IsTypeMatch(v, "number")
{
  assert Lower("integer") == "integer";
  assert Lower("number") == "number";
  assert Lower("string") == "string";
  assert Lower("boolean") == "boolean";
  assert Lower("array") == "array";
  assert Lower("object") == "object";
}

// ---------------------------------------------------------------------------------------
// Authenticated parameters (`findParameterForService`)
// ---------------------------------------------------------------------------------------

/** `ps[i]` is the first parameter, in schema order, that lists `service`. */
predicate FirstServer(ps: seq<Parameter>, i: int, service: string)
{
  0 <= i < |ps| && Serves(ps[i], service) && forall j :: 0 <= j < i ==> !Serves(ps[j], service)
}

/** The name of the first parameter, in list order, that lists `service`. */
function FirstServingName(ps: seq<Parameter>, service: string): Option<string>
  decreases |ps|
{
  if |ps| == 0 then None
  else if Serves(ps[0], service) then Some(ps[0].name)
  else FirstServingName(ps[1..], service)
}

/** `findParameterForService`: the name of the first parameter whose auth sources list the
    service, or null when there is none or the definition has no parameter list. */
function FindParameterForService(parameters: Option<seq<Parameter>>, service: string): Option<string>
{
  if parameters.None? then None else FirstServingName(parameters.value, service)
}

/** The search finds nothing exactly when no parameter lists the service, and otherwise
    the name of the first one that does. */
lemma {:induction false} FirstServingNameIsFirst(ps: seq<Parameter>, service: string)
  ensures FirstServingName(ps, service).None? <==> forall j :: 0 <= j < |ps| ==> !Serves(ps[j], service)
  ensures FirstServingName(ps, service).Some? ==>
            exists i :: FirstServer(ps, i, service) && FirstServingName(ps, service).value == ps[i].name
  decreases |ps|
{
  if |ps| > 0 && !Serves(ps[0], service) {
    var rest := ps[1..];
    FirstServingNameIsFirst(rest, service);
    assert forall j :: 1 <= j < |ps| ==> ps[j] == rest[j - 1];
    if FirstServingName(rest, service).Some? {
      var i :| FirstServer(rest, i, service) && FirstServingName(rest, service).value == rest[i].name;
      assert FirstServer(ps, i + 1, service);
    }
  } else if |ps| > 0 {
    assert FirstServer(ps, 0, service);
  }
}

/** `findParameterForService` returns null exactly when the definition has no parameter list
    or no parameter lists the service; otherwise the name of the first one, in schema order,
    that does. */
lemma ParameterForServiceIsFirst(parameters: Option<seq<Parameter>>, service: string)
  ensures FindParameterForService(parameters, service).None? <==>
            parameters.None? || forall j :: 0 <= j < |parameters.value| ==> !Serves(parameters.value[j], service)
  ensures FindParameterForService(parameters, service).Some? ==>
            exists i :: FirstServer(parameters.value, i, service)
                        && FindParameterForService(parameters, service).value == parameters.value[i].name
{
  if parameters.Some? {
    FirstServingNameIsFirst(parameters.value, service);
  }
}

// ---------------------------------------------------------------------------------------
// Step 1: bound parameters
// ---------------------------------------------------------------------------------------

/** The arguments after the bound parameters are applied to the caller's. */
function Bind(args: map<string, Value>, bound: map<string, Bound>): map<string, Value>
{
  map k | k in args.Keys + bound.Keys :: if k in bound then Resolve(bound[k]) else args[k]
}

/** The first loop of `execute`: copies the caller's arguments and puts every bound value
    over them, calling a producer at this point. */
method ApplyBoundParameters(args: map<string, Value>, bound: map<string, Bound>)
  returns (finalArgs: map<string, Value>)
  ensures finalArgs.Keys == args.Keys + bound.Keys
  ensures forall k :: k in bound ==> finalArgs[k] == Resolve(bound[k])
  ensures forall k :: k in args && k !in bound ==> finalArgs[k] == args[k]
{
  finalArgs := args;
  var pending := bound.Keys;
  while pending != {}
    invariant pending <= bound.Keys
    invariant finalArgs.Keys == args.Keys + (bound.Keys - pending)
    invariant forall k :: k in bound && k !in pending ==> finalArgs[k] == Resolve(bound[k])
    invariant forall k :: k in args && k !in bound ==> finalArgs[k] == args[k]
    invariant forall k :: k in args && k in pending ==> finalArgs[k] == args[k]
    decreases pending
  {
    var k :| k in pending;
    finalArgs := finalArgs[k := Resolve(bound[k])];
    pending := pending - {k};
  }
}

// ---------------------------------------------------------------------------------------
// Step 2: resolved auth tokens
// ---------------------------------------------------------------------------------------

/** `resolved` lists every registered service exactly once, with its token, in the order
    the token getters completed. */
predicate IsCompletionOrder(resolved: seq<(string, string)>, services: set<string>)
{
  && (forall i, j :: 0 <= i < j < |resolved| ==> resolved[i].0 != resolved[j].0)
  && (forall i :: 0 <= i < |resolved| ==> resolved[i].0 in services)
  && (forall s :: s in services ==> exists i :: 0 <= i < |resolved| && resolved[i].0 == s)
}

/** The convention header carrying a service's raw token. */
function TokenHeader(service: string): string
{
  service + "_token"
}

/** One completed token: the parameter that accepts it (if any) receives it. */
function InjectToken(args: map<string, Value>, parameters: Option<seq<Parameter>>, service: string, token: string)
  : map<string, Value>
{
  match FindParameterForService(parameters, service)
  case Some(p) => args[p := Str(token)]
  case None => args
}

/** One completed token: the bearer header and the service's token header are staged. */
function StageToken(headers: map<string, string>, service: string, token: string): map<string, string>
{
  headers["Authorization" := "Bearer " + token][TokenHeader(service) := token]
}

/** The arguments once every token in `resolved` has been injected, in completion order. */
function AuthArgs(args: map<string, Value>, parameters: Option<seq<Parameter>>, resolved: seq<(string, string)>)
  : map<string, Value>
  decreases |resolved|
{
  if |resolved| == 0 then args
  else
    var last := resolved[|resolved| - 1];
    InjectToken(AuthArgs(args, parameters, resolved[..|resolved| - 1]), parameters, last.0, last.1)
}

/** The extra headers once every token in `resolved` has been staged, in completion order. */
function AuthHeaders(resolved: seq<(string, string)>): map<string, string>
  decreases |resolved|
{
  if |resolved| == 0 then map[]
  else
    var last := resolved[|resolved| - 1];
    StageToken(AuthHeaders(resolved[..|resolved| - 1]), last.0, last.1)
}

/** The completion callbacks of `execute`, run in the order the tokens arrived: each
    token goes into the parameter that names its service and into two headers. */
method ApplyAuthTokens(args: map<string, Value>, parameters: Option<seq<Parameter>>, resolved: seq<(string, string)>)
  returns (finalArgs: map<string, Value>, extraHeaders: map<string, string>)
  ensures finalArgs == AuthArgs(args, parameters, resolved)
  ensures extraHeaders == AuthHeaders(resolved)
{
  finalArgs, extraHeaders := args, map[];
  var i := 0;
  while i < |resolved|
    invariant 0 <= i <= |resolved|
    invariant finalArgs == AuthArgs(args, parameters, resolved[..i])
    invariant extraHeaders == AuthHeaders(resolved[..i])
  {
    var (service, token) := resolved[i];
    var paramName := FindParameterForService(parameters, service);
    if paramName.Some? {
      finalArgs := finalArgs[paramName.value := Str(token)];
    }
    extraHeaders := extraHeaders["Authorization" := "Bearer " + token];
    extraHeaders := extraHeaders[service + "_token" := token];
    assert resolved[..i + 1][..i] == resolved[..i];
    i := i + 1;
  }
  assert resolved[..|resolved|] == resolved;
}

/** No service's token header can be mistaken for the bearer header, and distinct
    services get distinct token headers. */
lemma TokenHeadersAreDistinct(a: string, b: string)
  ensures TokenHeader(a) != "Authorization"
  ensures TokenHeader(a) == TokenHeader(b) ==> a == b
{
  var t := TokenHeader(a);
  assert t[|t| - 6] == '_';
  assert "Authorization"[7] == 'z';
  if TokenHeader(a) == TokenHeader(b) {
    assert |a| == |b|;
    assert a == TokenHeader(a)[..|a|];
    assert b == TokenHeader(b)[..|b|];
  }
}

/** The headers staged for completed tokens: every service's token header holds its own
    token, the bearer header holds the token that completed last, and nothing else is
    staged. With no getter nothing is staged at all. */
lemma {:induction false} StagedHeaders(resolved: seq<(string, string)>)
  requires forall i, j :: 0 <= i < j < |resolved| ==> resolved[i].0 != resolved[j].0
  ensures forall i :: 0 <= i < |resolved| ==>
            TokenHeader(resolved[i].0) in AuthHeaders(resolved)
            && AuthHeaders(resolved)[TokenHeader(resolved[i].0)] == resolved[i].1
  ensures |resolved| == 0 ==> AuthHeaders(resolved) == map[]
  ensures |resolved| > 0 ==>
            ("Authorization" in AuthHeaders(resolved)
             && AuthHeaders(resolved)["Authorization"] == "Bearer " + resolved[|resolved| - 1].1)
  decreases |resolved|
{
  if |resolved| > 0 {
    var n := |resolved| - 1;
    var prefix := resolved[..n];
    var (s, t) := resolved[n];
    StagedHeaders(prefix);
    TokenHeadersAreDistinct(s, s);
    forall i | 0 <= i < n
      ensures TokenHeader(resolved[i].0) != TokenHeader(s)
      ensures TokenHeader(resolved[i].0) != "Authorization"
    {
      TokenHeadersAreDistinct(resolved[i].0, s);
    }
  }
}

/** Besides the bearer header, only the token headers of completed services are staged. */
lemma {:induction false} StagedOnlyTokenHeaders(resolved: seq<(string, string)>)
  ensures forall h :: h in AuthHeaders(resolved) ==>
            h == "Authorization" || exists i :: 0 <= i < |resolved| && h == TokenHeader(resolved[i].0)
  decreases |resolved|
{
  if |resolved| > 0 {
    var n := |resolved| - 1;
    var prefix := resolved[..n];
    StagedOnlyTokenHeaders(prefix);
    forall h | h in AuthHeaders(resolved) && h != "Authorization"
      ensures exists i :: 0 <= i < |resolved| && h == TokenHeader(resolved[i].0)
    {
      if h != TokenHeader(resolved[n].0) {
        assert AuthHeaders(resolved) == StageToken(AuthHeaders(prefix), resolved[n].0, resolved[n].1);
        assert h in AuthHeaders(prefix);
        var i :| 0 <= i < n && h == TokenHeader(prefix[i].0);
        assert prefix[i] == resolved[i];
      }
    }
  }
}

/** The bearer header always carries one of the resolved tokens; with a single getter it
    carries exactly that getter's token. */
lemma BearerHeaderFromSomeToken(resolved: seq<(string, string)>)
  requires |resolved| > 0
  requires forall i, j :: 0 <= i < j < |resolved| ==> resolved[i].0 != resolved[j].0
  ensures exists i :: 0 <= i < |resolved| && AuthHeaders(resolved)["Authorization"] == "Bearer " + resolved[i].1
  ensures |resolved| == 1 ==>
            AuthHeaders(resolved)
            == map["Authorization" := "Bearer " + resolved[0].1, TokenHeader(resolved[0].0) := resolved[0].1]
{
  StagedHeaders(resolved);
  if |resolved| == 1 {
    assert resolved[..0] == [];
  }
}

/** Some completed service's token lands in parameter `k`. */
predicate Targeted(parameters: Option<seq<Parameter>>, resolved: seq<(string, string)>, k: string)
{
  exists i :: 0 <= i < |resolved| && FindParameterForService(parameters, resolved[i].0) == Some(k)
}

/** `resolved[i]` is the last completed service whose token lands in parameter `k`. */
predicate LastTargeting(parameters: Option<seq<Parameter>>, resolved: seq<(string, string)>, i: int, k: string)
{
  && 0 <= i < |resolved|
  && FindParameterForService(parameters, resolved[i].0) == Some(k)
  && forall j :: i < j < |resolved| ==> FindParameterForService(parameters, resolved[j].0) != Some(k)
}

/** Token injection leaves an argument no completed service targets as it was. */
lemma {:induction false} UntargetedArgumentKept(args: map<string, Value>, parameters: Option<seq<Parameter>>,
                                                resolved: seq<(string, string)>, k: string)
  requires !Targeted(parameters, resolved, k)
  ensures k in AuthArgs(args, parameters, resolved) <==> k in args
  ensures k in args ==> AuthArgs(args, parameters, resolved)[k] == args[k]
  decreases |resolved|
{
  if |resolved| > 0 {
    var n := |resolved| - 1;
    var prefix := resolved[..n];
    forall i | 0 <= i < n
      ensures FindParameterForService(parameters, prefix[i].0) != Some(k)
    {
      assert prefix[i] == resolved[i];
    }
    UntargetedArgumentKept(args, parameters, prefix, k);
  }
}

/** Token injection puts into a targeted argument the token of the last service, in
    completion order, that targets it. */
lemma {:induction false} TargetedArgumentInjected(args: map<string, Value>, parameters: Option<seq<Parameter>>,
                                                  resolved: seq<(string, string)>, k: string)
  requires Targeted(parameters, resolved, k)
  ensures k in AuthArgs(args, parameters, resolved)
  ensures exists i :: LastTargeting(parameters, resolved, i, k)
                      && AuthArgs(args, parameters, resolved)[k] == Str(resolved[i].1)
  decreases |resolved|
{
  var n := |resolved| - 1;
  var prefix := resolved[..n];
  if FindParameterForService(parameters, resolved[n].0) == Some(k) {
    assert LastTargeting(parameters, resolved, n, k);
  } else {
    var before := AuthArgs(args, parameters, prefix);
    assert AuthArgs(args, parameters, resolved) == InjectToken(before, parameters, resolved[n].0, resolved[n].1);
    var t :| 0 <= t < |resolved| && FindParameterForService(parameters, resolved[t].0) == Some(k);
    assert prefix[t] == resolved[t];
    TargetedArgumentInjected(args, parameters, prefix, k);
    var i :| LastTargeting(parameters, prefix, i, k) && before[k] == Str(prefix[i].1);
    assert prefix[i] == resolved[i];
    forall j | i < j < |resolved|
      ensures FindParameterForService(parameters, resolved[j].0) != Some(k)
    {
      if j < n {
        assert prefix[j] == resolved[j];
      }
    }
    assert LastTargeting(parameters, resolved, i, k);
  }
}

// ---------------------------------------------------------------------------------------
// Step 3: sanitise and validate (`validateAndSanitizeArgs`)
// ---------------------------------------------------------------------------------------

predicate NoNulls(m: map<string, Value>)
{
  forall k :: k in m ==> m[k] != Null
}

/** The arguments with every null-valued entry removed and every other entry kept. */
function RemoveNulls(args: map<string, Value>): (r: map<string, Value>)
  ensures NoNulls(r)
  ensures forall k :: k in r <==> k in args && args[k] != Null
  ensures forall k :: k in r ==> r[k] == args[k]
{
  map k | k in args && args[k] != Null :: args[k]
}

/** The check of one declared parameter against the null-free arguments: a required
    parameter must be present, and a present value must match the declared type. */
function Violation(p: Parameter, clean: map<string, Value>, tool: string): Option<Failure>
  requires NoNulls(clean)
{
  if p.required && p.name !in clean then Some(MissingParameter(p.name, tool))
  else if p.name in clean && p.typ.Some? && !IsTypeMatch(clean[p.name], p.typ.value) then
    Some(TypeMismatch(p.name, p.typ.value, SimpleName(clean[p.name])))
  else None
}

/** The first violation in schema order, if any. */
function FirstViolation(ps: seq<Parameter>, clean: map<string, Value>, tool: string): (r: Option<Failure>)
  requires NoNulls(clean)
  ensures r.None? <==> forall i :: 0 <= i < |ps| ==> Violation(ps[i], clean, tool).None?
  ensures r.Some? ==> exists i :: 0 <= i < |ps| && r == Violation(ps[i], clean, tool)
                                  && forall j :: 0 <= j < i ==> Violation(ps[j], clean, tool).None?
{
  if |ps| == 0 then None
  else match Violation(ps[0], clean, tool)
    case Some(e) => Some(e)
    case None =>
      var r := FirstViolation(ps[1..], clean, tool);
      assert forall i :: 1 <= i < |ps| ==> ps[i] == ps[1..][i - 1];
      r
}

/** What validation makes of the arguments: the null-free arguments, or the first
    violation. Without a parameter list only the nulls are dropped. */
function Validation(args: map<string, Value>, def: ToolDefinition, tool: string): Result<map<string, Value>, Failure>
{
  var clean := RemoveNulls(args);
  if def.parameters.None? then Ok(clean)
  else match FirstViolation(def.parameters.value, clean, tool)
    case None => Ok(clean)
    case Some(e) => Err(e)
}

/** `validateAndSanitizeArgs`: removes the nulls, then checks the declared parameters in
    schema order and stops at the first violation. */
method ValidateAndSanitize(args: map<string, Value>, def: ToolDefinition, tool: string)
  returns (r: Result<map<string, Value>, Failure>)
  ensures r == Validation(args, def, tool)
{
  var clean := RemoveNulls(args);
  if def.parameters.None? {
    return Ok(clean);
  }
  var ps := def.parameters.value;
  var i := 0;
  while i < |ps|
    invariant 0 <= i <= |ps|
    invariant forall j :: 0 <= j < i ==> Violation(ps[j], clean, tool).None?
  {
    var p := ps[i];
    var present := p.name in clean;
    if p.required && !present {
      FirstViolationAt(ps, clean, tool, i);
      return Err(MissingParameter(p.name, tool));
    }
    if present && p.typ.Some? && !IsTypeMatch(clean[p.name], p.typ.value) {
      FirstViolationAt(ps, clean, tool, i);
      return Err(TypeMismatch(p.name, p.typ.value, SimpleName(clean[p.name])));
    }
    i := i + 1;
  }
  return Ok(clean);
}

/** A violation preceded only by conforming parameters is the one reported. */
lemma FirstViolationAt(ps: seq<Parameter>, clean: map<string, Value>, tool: string, i: nat)
  requires NoNulls(clean) && i < |ps|
  requires forall j :: 0 <= j < i ==> Violation(ps[j], clean, tool).None?
  requires Violation(ps[i], clean, tool).Some?
  ensures FirstViolation(ps, clean, tool) == Violation(ps[i], clean, tool)
{
  var r := FirstViolation(ps, clean, tool);
  var i' :| 0 <= i' < |ps| && r == Violation(ps[i'], clean, tool)
            && forall j :: 0 <= j < i' ==> Violation(ps[j], clean, tool).None?;
  assert i' == i;
}

/** Arguments that pass validation are null-free, keep every non-null entry, contain every
    required parameter and hold a value of the declared type for every declared one. */
lemma ValidatedArgumentsConform(args: map<string, Value>, def: ToolDefinition, tool: string)
  requires Validation(args, def, tool).Ok?
  ensures Validation(args, def, tool).value == RemoveNulls(args)
  ensures def.parameters.Some? ==> forall i :: 0 <= i < |def.parameters.value| ==>
            var p, m := def.parameters.value[i], Validation(args, def, tool).value;
            (p.required ==> p.name in m)
            && (p.name in m && p.typ.Some? ==> IsTypeMatch(m[p.name], p.typ.value))
{
  if def.parameters.Some? {
    var m := RemoveNulls(args);
    forall i | 0 <= i < |def.parameters.value|
      ensures Violation(def.parameters.value[i], m, tool).None?
    {
    }
  }
}

// ---------------------------------------------------------------------------------------
// The whole preparation of a call
// ---------------------------------------------------------------------------------------

/** What `execute` hands to the client: the tool name, the sanitised arguments and the
    staged extra headers. */
datatype Invocation = Invocation(toolName: string, arguments: map<string, Value>, headers: map<string, string>)

/** The invocation `execute` prepares from the caller's arguments, the tool's bindings and
    the tokens in completion order, or the validation failure that stops it. */
function Prepared(name: string, def: ToolDefinition, bound: map<string, Bound>,
                  args: map<string, Value>, resolved: seq<(string, string)>): Result<Invocation, Failure>
{
  match Validation(AuthArgs(Bind(args, bound), def.parameters, resolved), def, name)
  case Ok(clean) => Ok(Invocation(name, clean, AuthHeaders(resolved)))
  case Err(e) => Err(e)
}

/** A bound value always wins: the caller's value for a bound key does not matter, and when
    no token targets the key and the bound value is not null, it is what is dispatched. */
lemma BoundValueWins(name: string, def: ToolDefinition, bound: map<string, Bound>,
                     args: map<string, Value>, resolved: seq<(string, string)>, k: string, v: Value)
  requires k in bound
  ensures Prepared(name, def, bound, args[k := v], resolved) == Prepared(name, def, bound, args, resolved)
  ensures Prepared(name, def, bound, args, resolved).Ok? && Resolve(bound[k]) != Null
          && !Targeted(def.parameters, resolved, k)
          ==> var dispatched := Prepared(name, def, bound, args, resolved).value.arguments;
              k in dispatched && dispatched[k] == Resolve(bound[k])
{
  assert Bind(args[k := v], bound) == Bind(args, bound);
  if !Targeted(def.parameters, resolved, k) {
    UntargetedArgumentKept(Bind(args, bound), def.parameters, resolved, k);
  }
}

/** Injecting tokens commutes with dropping nulls. */
lemma {:induction false} AuthArgsRespectNulls(a: map<string, Value>, b: map<string, Value>,
                                             parameters: Option<seq<Parameter>>, resolved: seq<(string, string)>)
  requires RemoveNulls(a) == RemoveNulls(b)
  ensures RemoveNulls(AuthArgs(a, parameters, resolved)) == RemoveNulls(AuthArgs(b, parameters, resolved))
  decreases |resolved|
{
  if |resolved| > 0 {
    var n := |resolved| - 1;
    AuthArgsRespectNulls(a, b, parameters, resolved[..n]);
    var a', b' := AuthArgs(a, parameters, resolved[..n]), AuthArgs(b, parameters, resolved[..n]);
    match FindParameterForService(parameters, resolved[n].0)
    case None =>
    case Some(p) =>
      RemoveNullsPut(a', p, Str(resolved[n].1));
      RemoveNullsPut(b', p, Str(resolved[n].1));
  }
}

/** Putting a non-null value and then dropping nulls is dropping nulls, then putting it. */
lemma RemoveNullsPut(a: map<string, Value>, p: string, v: Value)
  requires v != Null
  ensures RemoveNulls(a[p := v]) == RemoveNulls(a)[p := v]
{
}

/** A null-valued caller argument behaves exactly as if the key had been omitted. */
lemma NullArgumentsActAsOmitted(name: string, def: ToolDefinition, bound: map<string, Bound>,
                                args: map<string, Value>, resolved: seq<(string, string)>)
  ensures Prepared(name, def, bound, args, resolved) == Prepared(name, def, bound, RemoveNulls(args), resolved)
{
  var a, b := Bind(args, bound), Bind(RemoveNulls(args), bound);
  assert RemoveNulls(a) == RemoveNulls(b);
  AuthArgsRespectNulls(a, b, def.parameters, resolved);
}

/** Validation runs after token injection: whatever is dispatched, injected tokens included,
    satisfies the schema, and a token the schema rejects stops the call. */
lemma DispatchedArgumentsConform(name: string, def: ToolDefinition, bound: map<string, Bound>,
                                 args: map<string, Value>, resolved: seq<(string, string)>)
  requires Prepared(name, def, bound, args, resolved).Ok?
  ensures var inv := Prepared(name, def, bound, args, resolved).value;
          && inv.toolName == name
          && NoNulls(inv.arguments)
          && inv.headers == AuthHeaders(resolved)
          && (def.parameters.Some? ==> forall i :: 0 <= i < |def.parameters.value| ==>
               var p := def.parameters.value[i];
               (p.required ==> p.name in inv.arguments)
               && (p.name in inv.arguments && p.typ.Some? ==> IsTypeMatch(inv.arguments[p.name], p.typ.value)))
{
  ValidatedArgumentsConform(AuthArgs(Bind(args, bound), def.parameters, resolved), def, name);
}

// ---------------------------------------------------------------------------------------
// The tool object
// ---------------------------------------------------------------------------------------

/** An `AuthTokenGetter` object. Only its identity is kept: the token it produces on a
    given call is part of that call's input. */
datatype TokenGetter = TokenGetter(id: nat)

/** `Tool`: a tool definition with mutable bindings, tied to the client that loaded it. */
class Tool {
  const name: string
  const definition: ToolDefinition
  const client: ToolboxClient
  var boundParameters: map<string, Bound>
  var authGetters: map<string, TokenGetter>

  constructor (name: string, definition: ToolDefinition, client: ToolboxClient)
    ensures this.name == name && this.definition == definition && this.client == client
    ensures boundParameters == map[] && authGetters == map[]
  {
    this.name := name;
    this.definition := definition;
    this.client := client;
    boundParameters := map[];
    authGetters := map[];
  }

  /** `bindParam(key, Object)`: the object, a plain value or a producer, replaces any
      earlier binding of the key; the same tool is returned. */
  method BindParam(key: string, value: Bound) returns (self: Tool)
    modifies this
    ensures self == this
    ensures boundParameters == old(boundParameters)[key := value]
    ensures authGetters == old(authGetters)
  {
    boundParameters := boundParameters[key := value];
    self := this;
  }

  /** `bindParam(key, Supplier)`: the producer replaces any earlier binding of the key. */
  method BindSupplier(key: string, supplier: () -> Value) returns (self: Tool)
    modifies this
    ensures self == this
    ensures boundParameters == old(boundParameters)[key := Supplier(supplier)]
    ensures authGetters == old(authGetters)
  {
    boundParameters := boundParameters[key := Supplier(supplier)];
    self := this;
  }

  /** `addAuthTokenGetter`: the getter replaces any earlier getter of the service. */
  method AddAuthTokenGetter(service: string, getter: TokenGetter) returns (self: Tool)
    modifies this
    ensures self == this
    ensures authGetters == old(authGetters)[service := getter]
    ensures boundParameters == old(boundParameters)
  {
    authGetters := authGetters[service := getter];
    self := this;
  }

  /** The part of `execute` before the client is called: bindings, then tokens in the
      order their getters completed, then validation. */
  method PrepareInvocation(args: map<string, Value>, resolved: seq<(string, string)>)
    returns (r: Result<Invocation, Failure>)
    requires IsCompletionOrder(resolved, authGetters.Keys)
    ensures r == Prepared(name, definition, boundParameters, args, resolved)
  {
    var finalArgs := ApplyBoundParameters(args, boundParameters);
    assert finalArgs == Bind(args, boundParameters);
    var extraHeaders;
    finalArgs, extraHeaders := ApplyAuthTokens(finalArgs, definition.parameters, resolved);
    var checked := ValidateAndSanitize(finalArgs, definition, name);
    match checked
    case Err(e) =>
      r := Err(e);
    case Ok(clean) =>
      r := Ok(Invocation(name, clean, extraHeaders));
  }

  /** `execute`: prepares the call and hands it to the client. An invalid call sends
      nothing and leaves the session as it was; a valid one is exactly the client's
      `invokeTool` with the sanitised arguments and the staged token headers. */
  method Execute(args: map<string, Value>, resolved: seq<(string, string)>, env: Environment)
    returns (sent: seq<Outgoing>, r: Result<ToolResult, Failure>)
    requires IsCompletionOrder(resolved, authGetters.Keys)
    modifies client
    ensures var p := Prepared(name, definition, boundParameters, args, resolved);
            && (p.Err? ==> sent == [] && r == Err(p.error) && client.initialized == old(client.initialized))
            && (p.Ok? ==> client.initialized == Ready(old(client.initialized), env))
            && (p.Ok? ==> (sent, r) == InvokeOutcome(old(client.initialized), client.baseUrl, client.apiKey, client.mapper,
                                                name, p.value.arguments, p.value.headers, env))
  {
    var prepared := PrepareInvocation(args, resolved);
    match prepared
    case Err(e) =>
      sent, r := [], Err(e);
    case Ok(inv) =>
      sent, r := client.InvokeTool(name, inv.arguments, inv.headers, env);
  }
}
