/**
 One imported operation: merging path-level and operation-level parameters,
 building the tool's input schema, normalizing the responses, the conflict that
 all of these may leave, and the binding that review later derives from the
 normalized parameters.
 */
module OperationParser {
  import opened Common
  import opened Json
  import opened Ordering
  import opened RefResolver

  datatype ParseError = Resolving(error: Error) | NotAnObject | Unhashable

  datatype Conflict = NoConflict | NameCollision | MissingOperationId | UnsupportedOperation

  const PARAMETER_LOCATIONS := {"path", "query", "header"}

  // ------------------------------------------------------ merging parameters

  /** The dict key of a parameter: its name and location, whatever their types. */
  datatype Key = Key(name: Option<Json>, location: Option<Json>)

  type Entries = seq<(Key, Fields)>

  function KeyOf(parameter: Fields): Key {
    Key(Get(parameter, "name"), Get(parameter, "in"))
  }

  predicate Hashable(part: Option<Json>) {
    part.Some? ==> !part.value.Arr? && !part.value.Obj?
  }

  /** A raw parameter with its references unfolded. */
  function ResolveParameter(raw: Json, document: Fields): Result<Fields, ParseError> {
    match Resolve(raw, document, [], 0)
    case Err(e) => Err(Resolving(e))
    case Ok(node) =>
      if !node.Obj? then Err(NotAnObject)
      else if !Hashable(KeyOf(node.fields).name) || !Hashable(KeyOf(node.fields).location) then Err(Unhashable)
      else Ok(node.fields)
  }

  /** Assignment into the dict of merged parameters: an existing key keeps its place. */
  function Assign(entries: Entries, key: Key, parameter: Fields): Entries {
    if entries == [] then [(key, parameter)]
    else if entries[0].0 == key then [(key, parameter)] + entries[1..]
    else [entries[0]] + Assign(entries[1..], key, parameter)
  }

  function MergeFrom(entries: Entries, raws: seq<Json>, document: Fields): Result<Entries, ParseError>
    decreases |raws|
  {
    if raws == [] then Ok(entries)
    else
      var parameter :- ResolveParameter(raws[0], document);
      MergeFrom(Assign(entries, KeyOf(parameter), parameter), raws[1..], document)
  }

  /** `_merge_parameters`, before the keys are dropped. */
  method MergeParameters(pathParameters: seq<Json>, operationParameters: seq<Json>, document: Fields)
    returns (merged: Result<Entries, ParseError>)
    ensures merged == MergeFrom([], pathParameters + operationParameters, document)
  {
    var entries: Entries := [];
    var raws := pathParameters + operationParameters;
    for k := 0 to |raws|
      invariant MergeFrom([], raws, document) == MergeFrom(entries, raws[k..], document)
    {
      assert raws[k..][0] == raws[k] && raws[k..][1..] == raws[k + 1..];
      var parameter := ResolveParameter(raws[k], document);
      if parameter.Err? {
        return Err(parameter.error);
      }
      entries := Assign(entries, KeyOf(parameter.value), parameter.value);
    }
    return Ok(entries);
  }

  ghost predicate DistinctKeys(entries: Entries) {
    forall i, j :: 0 <= i < j < |entries| ==> entries[i].0 != entries[j].0
  }

  /** The last raw parameter with this key, unfolded. */
  function LastWith(key: Key, raws: seq<Json>, document: Fields): Option<Fields>
    decreases |raws|
  {
    if raws == [] then None
    else
      var n := |raws| - 1;
      var last := ResolveParameter(raws[n], document);
      if last.Ok? && KeyOf(last.value) == key then Some(last.value)
      else LastWith(key, raws[..n], document)
  }

  function Find(entries: Entries, key: Key): Option<Fields> {
    if entries == [] then None
    else if entries[0].0 == key then Some(entries[0].1)
    else Find(entries[1..], key)
  }

  lemma {:induction false} AssignFinds(entries: Entries, key: Key, parameter: Fields, other: Key)
    ensures Find(Assign(entries, key, parameter), other) ==
            if other == key then Some(parameter) else Find(entries, other)
  {
    if entries != [] && entries[0].0 != key {
      AssignFinds(entries[1..], key, parameter, other);
    }
  }

  lemma {:induction false} AssignKeys(entries: Entries, key: Key, parameter: Fields)
    requires DistinctKeys(entries)
    ensures DistinctKeys(Assign(entries, key, parameter))
    ensures forall e <- Assign(entries, key, parameter) :: e == (key, parameter) || e in entries
  {
    if entries != [] && entries[0].0 != key {
      AssignKeys(entries[1..], key, parameter);
      forall e <- Assign(entries[1..], key, parameter) ensures e.0 != entries[0].0 {
        if e != (key, parameter) {
          var j :| 0 <= j < |entries[1..]| && entries[1..][j] == e;
          assert entries[j + 1] == e;
        }
      }
    }
  }

  lemma {:induction false} MergeFromFinds(entries: Entries, raws: seq<Json>, document: Fields, key: Key)
    requires DistinctKeys(entries) && MergeFrom(entries, raws, document).Ok?
    ensures var merged := MergeFrom(entries, raws, document).value;
            DistinctKeys(merged) &&
            Find(merged, key) ==
              if LastWith(key, raws, document).Some? then LastWith(key, raws, document) else Find(entries, key)
    decreases |raws|
  {
    if raws != [] {
      var parameter := ResolveParameter(raws[0], document).value;
      var updated := Assign(entries, KeyOf(parameter), parameter);
      AssignKeys(entries, KeyOf(parameter), parameter);
      AssignFinds(entries, KeyOf(parameter), parameter, key);
      MergeFromFinds(updated, raws[1..], document, key);
      LastOfRest(raws, document, key);
    }
  }

  lemma {:induction false} LastOfRest(raws: seq<Json>, document: Fields, key: Key)
    requires raws != []
    ensures LastWith(key, raws, document) ==
            if LastWith(key, raws[1..], document).Some? then LastWith(key, raws[1..], document)
            else LastWith(key, raws[..1], document)
    decreases |raws|
  {
    if |raws| == 1 {
      assert raws[..1] == raws;
    } else {
      LastOfRest(raws[..|raws| - 1], document, key);
      assert raws[..|raws| - 1][1..] == raws[1..][..|raws[1..]| - 1];
      assert raws[..|raws| - 1][..1] == raws[..1];
    }
  }

  lemma {:induction false} LastOfConcat(first: seq<Json>, second: seq<Json>, document: Fields, key: Key)
    ensures LastWith(key, first + second, document) ==
            if LastWith(key, second, document).Some? then LastWith(key, second, document)
            else LastWith(key, first, document)
    decreases |second|
  {
    if second == [] {
      assert first + second == first;
    } else {
      var n := |second| - 1;
      assert (first + second)[..|first + second| - 1] == first + second[..n];
      LastOfConcat(first, second[..n], document, key);
    }
  }

  /**
   Section 4.8.9 of OpenAPI 3.1.0: every name and location occurs once, and an
   operation-level parameter replaces the path-level one; a path-level
   parameter survives exactly when the operation does not redefine it.
   */
  lemma OperationLevelWins(pathParameters: seq<Json>, operationParameters: seq<Json>, document: Fields, key: Key)
    requires MergeFrom([], pathParameters + operationParameters, document).Ok?
    ensures var merged := MergeFrom([], pathParameters + operationParameters, document).value;
            DistinctKeys(merged) &&
            Find(merged, key) ==
              if LastWith(key, operationParameters, document).Some? then LastWith(key, operationParameters, document)
              else LastWith(key, pathParameters, document)
  {
    MergeFromFinds([], pathParameters + operationParameters, document, key);
    LastOfConcat(pathParameters, operationParameters, document, key);
  }

  // ------------------------------------------------------- the input schema

  datatype Parameter = Parameter(argumentName: string, upstreamName: string, location: string, required: bool,
                                 schema: Json)

  datatype Body = Body(required: bool, schema: Json)

  /** What the parser accumulates: normalized parameters, schema properties, required names, conflict. */
  datatype Input = Input(parameters: seq<Parameter>, body: Option<Body>,
                         properties: Fields, required: seq<string>, conflict: Conflict)

  predicate Supported(parameter: Fields) {
    match (Get(parameter, "in"), Get(parameter, "name"))
    case (Some(Str(location)), Some(Str(name))) => location in PARAMETER_LOCATIONS && name != ""
    case _ => false
  }

  predicate IsRequired(parameter: Fields, location: string) {
    location == "path" || Get(parameter, "required") == Some(Bool(true))
  }

  /** The schema under a "schema" key, {} when absent, unfolded again. */
  function SchemaOf(holder: Fields, document: Fields): Result<Json, ParseError> {
    var raw := match Get(holder, "schema") case Some(s) => s case None => Obj([]);
    if !raw.Obj? then Err(NotAnObject)
    else match Resolve(raw, document, [], 0)
      case Ok(schema) => Ok(schema)
      case Err(e) => Err(Resolving(e))
  }

  /** An argument name that is taken gets its location as a prefix, once. */
  function ArgumentName(argName: string -> string, properties: Fields, name: string, location: string): string {
    if Get(properties, argName(name)).Some? then location + "_" + argName(name) else argName(name)
  }

  /** One parameter of the loop in `_parse_operation`; argName stands for `_argument_name`. */
  function AddParameter(argName: string -> string, input: Input, parameter: Fields,
                        document: Fields): Result<Input, ParseError> {
    if !Supported(parameter) then Ok(input.(conflict := UnsupportedOperation))
    else
      var location, name := Get(parameter, "in").value.s, Get(parameter, "name").value.s;
      var argument := ArgumentName(argName, input.properties, name, location);
      var schema :- SchemaOf(parameter, document);
      var required := IsRequired(parameter, location);
      Ok(input.(parameters := input.parameters + [Parameter(argument, name, location, required, schema)],
                properties := Put(input.properties, Field(argument, schema)),
                required := if required then input.required + [argument] else input.required))
  }

  function AddParameters(argName: string -> string, input: Input, parameters: seq<Fields>,
                         document: Fields): Result<Input, ParseError>
    decreases |parameters|
  {
    if parameters == [] then Ok(input)
    else
      var next :- AddParameter(argName, input, parameters[0], document);
      AddParameters(argName, next, parameters[1..], document)
  }

  /** `_normalize_request_body`: the body, and whether it has no JSON form. */
  function NormalizeBody(raw: Json, document: Fields): Result<(Option<Body>, bool), ParseError> {
    if raw.Null? then Ok((None, false))
    else match Resolve(raw, document, [], 0)
      case Err(e) => Err(Resolving(e))
      case Ok(body) =>
        if !body.Obj? then Err(NotAnObject)
        else match Get(body.fields, "content")
          case Some(Obj(content)) =>
            (match Get(content, "application/json")
             case None => Ok((None, true))
             case Some(Null) => Ok((None, true))
             case Some(Obj(media)) =>
               var schema :- SchemaOf(media, document);
               Ok((Some(Body(Get(body.fields, "required") == Some(Bool(true)), schema)), false))
             case _ => Err(NotAnObject))
          case _ => Err(NotAnObject)
  }

  function AddBody(input: Input, raw: Json, document: Fields): Result<Input, ParseError> {
    var (body, unsupported) :- NormalizeBody(raw, document);
    var marked := if unsupported then input.(conflict := UnsupportedOperation) else input;
    match body
    case None => Ok(marked)
    case Some(b) =>
      Ok(marked.(body := body, properties := Put(marked.properties, Field("body", b.schema)),
                 required := if b.required then marked.required + ["body"] else marked.required))
  }

  function Start(hasOperationId: bool): Input {
    Input([], None, [], [], if hasOperationId then NoConflict else MissingOperationId)
  }

  function InputOf(argName: string -> string, hasOperationId: bool, parameters: seq<Fields>, requestBody: Json,
                   document: Fields)
    : Result<Input, ParseError>
  {
    var input :- AddParameters(argName, Start(hasOperationId), parameters, document);
    AddBody(input, requestBody, document)
  }

  /** The parameter loop and the request body of `_parse_operation`. */
  method ParseInput(argName: string -> string, hasOperationId: bool, parameters: seq<Fields>, requestBody: Json,
                    document: Fields)
    returns (parsed: Result<Input, ParseError>)
    ensures parsed == InputOf(argName, hasOperationId, parameters, requestBody, document)
  {
    var normalized, properties, required := [], [], [];
    var conflict := if hasOperationId then NoConflict else MissingOperationId;
    for k := 0 to |parameters|
      invariant var input := Input(normalized, None, properties, required, conflict);
                AddParameters(argName, Start(hasOperationId), parameters, document) ==
                AddParameters(argName, input, parameters[k..], document)
    {
      var parameter := parameters[k];
      assert parameters[k..][0] == parameter && parameters[k..][1..] == parameters[k + 1..];
      if !Supported(parameter) {
        conflict := UnsupportedOperation;
        continue;
      }
      var location, name := Get(parameter, "in").value.s, Get(parameter, "name").value.s;
      var argument := argName(name);
      if Get(properties, argument).Some? {
        argument := location + "_" + argument;
      }
      var schema := SchemaOf(parameter, document);
      if schema.Err? {
        return Err(schema.error);
      }
      var isRequired := IsRequired(parameter, location);
      normalized := normalized + [Parameter(argument, name, location, isRequired, schema.value)];
      properties := Put(properties, Field(argument, schema.value));
      if isRequired {
        required := required + [argument];
      }
    }
    parsed := AddBody(Input(normalized, None, properties, required, conflict), requestBody, document);
  }

  // ----------------------------------------------------------- the responses

  datatype Response = Response(statusCode: string, contentTypes: seq<string>, schema: Option<Json>)

  /** What the loop over the responses accumulates. */
  datatype Responses = Responses(items: seq<Response>, output: Option<Json>, unsupported: bool)

  function KeysOf(fields: Fields): seq<string> {
    seq(|fields|, i requires 0 <= i < |fields| => fields[i].key)
  }

  /** The content of a response with its references unfolded; {} when absent. */
  function ContentOf(raw: Json, document: Fields): Result<Fields, ParseError> {
    match Resolve(raw, document, [], 0)
    case Err(e) => Err(Resolving(e))
    case Ok(response) =>
      if !response.Obj? then Err(NotAnObject)
      else match Get(response.fields, "content")
        case None => Ok([])
        case Some(Obj(content)) => Ok(content)
        case _ => Err(NotAnObject)
  }

  predicate HasJson(content: Fields) {
    var media := Get(content, "application/json");
    media.Some? && !media.value.Null?
  }

  /** The schema of the JSON form of a response, if it has one. */
  function JsonSchema(content: Fields, document: Fields): Result<Option<Json>, ParseError> {
    if !HasJson(content) then Ok(None)
    else
      var media := Get(content, "application/json").value;
      if !media.Obj? then Err(NotAnObject)
      else
        var schema :- SchemaOf(media.fields, document);
        Ok(Some(schema))
  }

  predicate IsSuccess(code: string) {
    code != "" && code[0] == '2'
  }

  /** One response of the loop. */
  function AddResponse(done: Responses, code: string, raw: Json, document: Fields): Result<Responses, ParseError> {
    var content :- ContentOf(raw, document);
    var schema :- JsonSchema(content, document);
    Ok(Responses(done.items + [Response(code, Normalized(KeysOf(content)), schema)],
                 if IsSuccess(code) && done.output.None? then schema else done.output,
                 done.unsupported || (schema.None? && content != [])))
  }

  function AddResponses(done: Responses, codes: seq<string>, raws: Fields, document: Fields)
    : Result<Responses, ParseError>
    requires forall code <- codes :: Get(raws, code).Some?
  {
    if codes == [] then Ok(done)
    else
      var n := |codes| - 1;
      var earlier :- AddResponses(done, codes[..n], raws, document);
      AddResponse(earlier, codes[n], Get(raws, codes[n]).value, document)
  }

  lemma EveryCodeFound(fields: Fields)
    ensures forall code <- Normalized(KeysOf(fields)) :: Get(fields, code).Some?
  {
    NormalizedIs(KeysOf(fields));
    forall code <- Normalized(KeysOf(fields)) ensures Get(fields, code).Some? {
      var i :| 0 <= i < |fields| && KeysOf(fields)[i] == code;
      GetIsAField(fields, code);
      assert fields[i] in fields;
    }
  }

  const NO_RESPONSES := Responses([], None, false)

  function ResponsesOf(raw: Json, document: Fields): Result<Responses, ParseError> {
    if !raw.Obj? then Err(NotAnObject)
    else
      EveryCodeFound(raw.fields);
      AddResponses(NO_RESPONSES, Normalized(KeysOf(raw.fields)), raw.fields, document)
  }

  /** `_normalize_responses`: in the order of the status codes. */
  method NormalizeResponses(raw: Json, document: Fields) returns (r: Result<Responses, ParseError>)
    ensures r == ResponsesOf(raw, document)
  {
    hide ContentOf, JsonSchema, Get, Normalized, KeysOf;
    if !raw.Obj? { return Err(NotAnObject); }
    EveryCodeFound(raw.fields);
    var codes := Normalized(KeysOf(raw.fields));
    var items: seq<Response>, output: Option<Json>, unsupported := [], None, false;
    for k := 0 to |codes|
      invariant AddResponses(NO_RESPONSES, codes[..k], raw.fields, document) ==
                Ok(Responses(items, output, unsupported))
    {
      assert codes[..k + 1][..k] == codes[..k];
      StopsAt(NO_RESPONSES, codes, k + 1, raw.fields, document);
      var content := ContentOf(Get(raw.fields, codes[k]).value, document);
      if content.Err? { return Err(content.error); }
      var schema := JsonSchema(content.value, document);
      if schema.Err? { return Err(schema.error); }
      if schema.value.Some? {
        if IsSuccess(codes[k]) && output.None? {
          output := schema.value;
        }
      } else if content.value != [] {
        unsupported := true;
      }
      items := items + [Response(codes[k], Normalized(KeysOf(content.value)), schema.value)];
    }
    assert codes[..|codes|] == codes;
    return Ok(Responses(items, output, unsupported));
  }

  /** The first error ends the loop. */
  lemma {:induction false} StopsAt(done: Responses, codes: seq<string>, k: nat, raws: Fields, document: Fields)
    requires k <= |codes| && forall code <- codes :: Get(raws, code).Some?
    ensures AddResponses(done, codes[..k], raws, document).Err? ==>
            AddResponses(done, codes, raws, document) == AddResponses(done, codes[..k], raws, document)
  {
    hide AddResponse, Get;
    if k < |codes| {
      StopsAt(done, codes[..|codes| - 1], k, raws, document);
      assert codes[..|codes| - 1][..k] == codes[..k];
    } else {
      assert codes[..k] == codes;
    }
  }

  /** The schema a status code contributes, if its response has a JSON form. */
  function SchemaAt(raws: Fields, code: string, document: Fields): Option<Json> {
    if Get(raws, code).None? then None
    else
      var content := ContentOf(Get(raws, code).value, document);
      if content.Err? then None
      else
        var schema := JsonSchema(content.value, document);
        if schema.Ok? then schema.value else None
  }

  /** The content types of a response, in ascending order. */
  function TypesAt(raws: Fields, code: string, document: Fields): seq<string> {
    if Get(raws, code).None? then []
    else
      var content := ContentOf(Get(raws, code).value, document);
      if content.Ok? then Normalized(KeysOf(content.value)) else []
  }

  /** A response has content, but no JSON form. */
  predicate NotJson(raws: Fields, code: string, document: Fields) {
    && Get(raws, code).Some?
    && var content := ContentOf(Get(raws, code).value, document);
    content.Ok? && content.value != [] && !HasJson(content.value)
  }

  /** What has been accumulated after these codes. */
  ghost predicate Accumulated(r: Responses, codes: seq<string>, raws: Fields, document: Fields) {
    && |r.items| == |codes|
    && (forall i :: 0 <= i < |codes| ==>
          r.items[i] == Response(codes[i], TypesAt(raws, codes[i], document), SchemaAt(raws, codes[i], document)))
    && (r.unsupported <==> exists code <- codes :: NotJson(raws, code, document))
    && (match r.output
        case None => forall code <- codes :: IsSuccess(code) ==> SchemaAt(raws, code, document).None?
        case Some(schema) => exists i :: FirstSuccess(codes, i, schema, raws, document))
  }

  /** Code number i is the first success with a JSON form, and this is its schema. */
  ghost predicate FirstSuccess(codes: seq<string>, i: int, schema: Json, raws: Fields, document: Fields) {
    && 0 <= i < |codes| && IsSuccess(codes[i]) && SchemaAt(raws, codes[i], document) == Some(schema)
    && forall j :: 0 <= j < i ==> IsSuccess(codes[j]) ==> SchemaAt(raws, codes[j], document).None?
  }

  lemma AddResponseIs(done: Responses, code: string, raws: Fields, document: Fields)
    requires Get(raws, code).Some? && AddResponse(done, code, Get(raws, code).value, document).Ok?
    ensures var r, schema :=
              AddResponse(done, code, Get(raws, code).value, document).value, SchemaAt(raws, code, document);
            && |r.items| == |done.items| + 1 && r.items[..|done.items|] == done.items
            && r.items[|done.items|] == Response(code, TypesAt(raws, code, document), schema)
            && r.output == (if IsSuccess(code) && done.output.None? then schema else done.output)
            && (r.unsupported <==> done.unsupported || NotJson(raws, code, document))
  {
  }

  lemma AccumulatedNext(done: Responses, codes: seq<string>, code: string, raws: Fields, document: Fields)
    requires Accumulated(done, codes, raws, document)
    requires Get(raws, code).Some? && AddResponse(done, code, Get(raws, code).value, document).Ok?
    ensures Accumulated(AddResponse(done, code, Get(raws, code).value, document).value, codes + [code], raws, document)
  {
    hide AddResponse, SchemaAt, TypesAt, NotJson, Get;
    AddResponseIs(done, code, raws, document);
    var r := AddResponse(done, code, Get(raws, code).value, document).value;
    var all := codes + [code];
    assert all[|codes|] == code && all[..|codes|] == codes;
    forall i | 0 <= i < |codes| ensures r.items[i] == done.items[i] {
      assert r.items[..|done.items|][i] == r.items[i];
    }
    if done.output.Some? {
      var i :| FirstSuccess(codes, i, done.output.value, raws, document);
      assert FirstSuccess(all, i, done.output.value, raws, document);
    } else if r.output.Some? {
      assert FirstSuccess(all, |codes|, r.output.value, raws, document);
    }
  }

  lemma {:induction false} AddResponsesAre(codes: seq<string>, raws: Fields, document: Fields)
    requires forall code <- codes :: Get(raws, code).Some?
    requires AddResponses(NO_RESPONSES, codes, raws, document).Ok?
    ensures Accumulated(AddResponses(NO_RESPONSES, codes, raws, document).value, codes, raws, document)
  {
    hide Get, AddResponse, Accumulated, SchemaAt, TypesAt, NotJson;
    if codes == [] {
      NothingAccumulated(raws, document);
    } else {
      var n := |codes| - 1;
      AddResponsesAre(codes[..n], raws, document);
      AccumulatedNext(AddResponses(NO_RESPONSES, codes[..n], raws, document).value, codes[..n], codes[n], raws,
                      document);
      assert codes == codes[..n] + [codes[n]];
    }
  }

  lemma NothingAccumulated(raws: Fields, document: Fields)
    ensures Accumulated(NO_RESPONSES, [], raws, document)
  {
  }

  /**
   The normalized responses are those of the document in ascending order of their
   codes; they are unsupported exactly if some response has content without a
   JSON form; and the output schema is that of the least 2xx code that has one.
   */
  lemma ResponsesExactly(raw: Json, document: Fields)
    requires ResponsesOf(raw, document).Ok?
    ensures raw.Obj? && var codes, r := Normalized(KeysOf(raw.fields)), ResponsesOf(raw, document).value;
            && Ascending(codes) && (forall code :: code in codes <==> Get(raw.fields, code).Some?)
            && Accumulated(r, codes, raw.fields, document)
            && (r.unsupported <==> exists f <- raw.fields :: NotJson(raw.fields, f.key, document))
            && (r.output.Some? <==>
                  exists f <- raw.fields :: IsSuccess(f.key) && SchemaAt(raw.fields, f.key, document).Some?)
  {
    hide SchemaAt, TypesAt, NotJson, Get, AddResponses, Normalized, KeysOf;
    var codes, r := Normalized(KeysOf(raw.fields)), ResponsesOf(raw, document).value;
    EveryCodeFound(raw.fields);
    NormalizedIs(KeysOf(raw.fields));
    CodesAre(raw.fields);
    AddResponsesAre(codes, raw.fields, document);
    if r.output.Some? {
      var i :| FirstSuccess(codes, i, r.output.value, raw.fields, document);
      assert codes[i] in codes;
    }
  }

  lemma CodesAre(fields: Fields)
    ensures forall f <- fields :: f.key in Normalized(KeysOf(fields))
    ensures forall code <- Normalized(KeysOf(fields)) :: exists f <- fields :: f.key == code
    ensures forall code :: Get(fields, code).Some? ==> code in Normalized(KeysOf(fields))
  {
    var codes := Normalized(KeysOf(fields));
    NormalizedIs(KeysOf(fields));
    forall f <- fields ensures f.key in codes {
      var i :| 0 <= i < |fields| && fields[i] == f;
      assert KeysOf(fields)[i] == f.key;
    }
    forall code <- codes ensures exists f <- fields :: f.key == code {
      var i :| 0 <= i < |fields| && KeysOf(fields)[i] == code;
      assert fields[i] in fields;
    }
    forall code | Get(fields, code).Some? ensures code in codes {
      GetIsAField(fields, code);
    }
  }

  // ------------------------------------------------------- the whole operation

  /** Input and responses of an operation; any part may mark it unsupported. */
  function OperationOf(argName: string -> string, hasOperationId: bool, parameters: seq<Fields>, requestBody: Json,
                       rawResponses: Json, document: Fields)
    : Result<(Input, Responses), ParseError>
  {
    var input :- InputOf(argName, hasOperationId, parameters, requestBody, document);
    var responses :- ResponsesOf(rawResponses, document);
    Ok((if responses.unsupported then input.(conflict := UnsupportedOperation) else input, responses))
  }

  /** `_parse_operation`, after the parameters are merged. */
  method ParseOperation(argName: string -> string, hasOperationId: bool, parameters: seq<Fields>, requestBody: Json,
                        rawResponses: Json, document: Fields)
    returns (parsed: Result<(Input, Responses), ParseError>)
    ensures parsed == OperationOf(argName, hasOperationId, parameters, requestBody, rawResponses, document)
  {
    hide InputOf, ResponsesOf;
    var input := ParseInput(argName, hasOperationId, parameters, requestBody, document);
    if input.Err? { return Err(input.error); }
    var responses := NormalizeResponses(rawResponses, document);
    if responses.Err? { return Err(responses.error); }
    var result := input.value;
    if responses.value.unsupported {
      result := result.(conflict := UnsupportedOperation);
    }
    return Ok((result, responses.value));
  }

  lemma {:induction false} AddParametersConflict(argName: string -> string, input: Input, parameters: seq<Fields>,
                                                 document: Fields)
    requires AddParameters(argName, input, parameters, document).Ok?
    ensures AddParameters(argName, input, parameters, document).value.conflict ==
            if exists p <- parameters :: !Supported(p) then UnsupportedOperation else input.conflict
    decreases |parameters|
  {
    hide Supported, Resolve, Get, Put;
    if parameters != [] {
      var next := AddParameter(argName, input, parameters[0], document).value;
      assert next.conflict == if Supported(parameters[0]) then input.conflict else UnsupportedOperation;
      AddParametersConflict(argName, next, parameters[1..], document);
      assert parameters == [parameters[0]] + parameters[1..];
    }
  }

  /** Every cause of a conflict, and no other. */
  lemma ConflictExactly(argName: string -> string, hasOperationId: bool, parameters: seq<Fields>, requestBody: Json,
                        rawResponses: Json, document: Fields)
    requires OperationOf(argName, hasOperationId, parameters, requestBody, rawResponses, document).Ok?
    ensures NormalizeBody(requestBody, document).Ok? && rawResponses.Obj?
    ensures OperationOf(argName, hasOperationId, parameters, requestBody, rawResponses, document).value.0.conflict ==
            if || (exists p <- parameters :: !Supported(p))
               || NormalizeBody(requestBody, document).value.1
               || (exists f <- rawResponses.fields :: NotJson(rawResponses.fields, f.key, document))
            then UnsupportedOperation
            else if hasOperationId then NoConflict else MissingOperationId
  {
    hide AddParameters, Supported, NormalizeBody, ResponsesOf, NotJson, Put, Accumulated;
    AddParametersConflict(argName, Start(hasOperationId), parameters, document);
    ResponsesExactly(rawResponses, document);
  }

  // ------------------------------------------------------------- the binding

  datatype MappedParameter = MappedParameter(argumentName: string, upstreamName: string, location: string,
                                             required: bool)

  datatype MappedBody = MappedBody(argumentName: string, required: bool)

  datatype ArgumentMap = ArgumentMap(parameters: seq<MappedParameter>, requestBody: Option<MappedBody>)

  /** `_build_binding`: the argument mapping stored with the tool version. */
  function MapArguments(input: Input): ArgumentMap {
    ArgumentMap(seq(|input.parameters|, i requires 0 <= i < |input.parameters| =>
              var p := input.parameters[i];
              MappedParameter(p.argumentName, p.upstreamName, p.location, p.required)),
            match input.body
            case None => None
            case Some(b) => Some(MappedBody("body", b.required)))
  }

  /** The arguments that executing a call reads, and those it insists on. */
  ghost predicate Consumes(binding: ArgumentMap, argument: string) {
    (exists p <- binding.parameters :: p.argumentName == argument) ||
    (binding.requestBody.Some? && binding.requestBody.value.argumentName == argument)
  }

  ghost predicate Insists(binding: ArgumentMap, argument: string) {
    (exists p <- binding.parameters :: p.argumentName == argument && p.required) ||
    (binding.requestBody.Some? && binding.requestBody.value.argumentName == argument &&
     binding.requestBody.value.required)
  }

  /** The schema accepts exactly the arguments the binding reads and requires exactly those it insists on. */
  ghost predicate Agrees(input: Input) {
    forall argument: string ::
      (Get(input.properties, argument).Some? <==> Consumes(MapArguments(input), argument)) &&
      (argument in input.required <==> Insists(MapArguments(input), argument))
  }

  /** The same agreement on the normalized parameters, before the binding is built. */
  ghost predicate Declares(input: Input, argument: string) {
    (exists p <- input.parameters :: p.argumentName == argument) || (input.body.Some? && argument == "body")
  }

  ghost predicate Demands(input: Input, argument: string) {
    (exists p <- input.parameters :: p.argumentName == argument && p.required) ||
    (input.body.Some? && argument == "body" && input.body.value.required)
  }

  ghost predicate InStep(input: Input) {
    forall argument: string ::
      (Get(input.properties, argument).Some? <==> Declares(input, argument)) &&
      (argument in input.required <==> Demands(input, argument))
  }

  lemma {:induction false} PutGets(fields: Fields, f: Field, key: string)
    ensures Get(Put(fields, f), key) == if key == f.key then Some(f.value) else Get(fields, key)
  {
    if fields != [] && fields[0].key != f.key {
      PutGets(fields[1..], f, key);
    }
  }

  /** A parameter recorded together with its property and, if it is required, its required name. */
  function Recorded(input: Input, p: Parameter): Input {
    input.(parameters := input.parameters + [p],
           properties := Put(input.properties, Field(p.argumentName, p.schema)),
           required := if p.required then input.required + [p.argumentName] else input.required)
  }

  lemma RecordedInStep(input: Input, added: Parameter)
    requires InStep(input)
    ensures InStep(Recorded(input, added))
  {
    var next := Recorded(input, added);
    assert forall p <- input.parameters :: p in next.parameters;
    assert added in next.parameters && forall p <- next.parameters :: p in input.parameters || p == added;
    forall argument: string
      ensures Get(next.properties, argument).Some? <==> Declares(next, argument)
      ensures argument in next.required <==> Demands(next, argument)
    {
      PutGets(input.properties, Field(added.argumentName, added.schema), argument);
    }
  }

  lemma AddParameterRecords(argName: string -> string, input: Input, parameter: Fields, document: Fields)
    requires AddParameter(argName, input, parameter, document).Ok?
    ensures var next := AddParameter(argName, input, parameter, document).value;
            next == input.(conflict := next.conflict) ||
            (|next.parameters| == |input.parameters| + 1 &&
             next == Recorded(input, next.parameters[|input.parameters|]))
  {
    hide Resolve, Get, Put, Supported;
  }

  lemma ConflictInStep(input: Input, conflict: Conflict)
    requires InStep(input)
    ensures InStep(input.(conflict := conflict))
  {
    var next := input.(conflict := conflict);
    assert forall argument :: Declares(next, argument) == Declares(input, argument);
    assert forall argument :: Demands(next, argument) == Demands(input, argument);
  }

  lemma AddParameterInStep(argName: string -> string, input: Input, parameter: Fields, document: Fields)
    requires InStep(input) && AddParameter(argName, input, parameter, document).Ok?
    ensures InStep(AddParameter(argName, input, parameter, document).value)
  {
    hide *;
    AddParameterRecords(argName, input, parameter, document);
    var next := AddParameter(argName, input, parameter, document).value;
    if next == input.(conflict := next.conflict) {
      ConflictInStep(input, next.conflict);
    } else {
      RecordedInStep(input, next.parameters[|input.parameters|]);
    }
  }

  lemma {:induction false} AddParametersInStep(argName: string -> string, input: Input, parameters: seq<Fields>,
                                               document: Fields)
    requires InStep(input) && input.body.None? && AddParameters(argName, input, parameters, document).Ok?
    ensures var result := AddParameters(argName, input, parameters, document).value; InStep(result) && result.body.None?
    decreases |parameters|
  {
    if parameters != [] {
      AddParameterInStep(argName, input, parameters[0], document);
      AddParametersInStep(argName, AddParameter(argName, input, parameters[0], document).value, parameters[1..],
                          document);
    }
  }

  function WithBody(input: Input, b: Body): Input {
    input.(body := Some(b), properties := Put(input.properties, Field("body", b.schema)),
           required := if b.required then input.required + ["body"] else input.required)
  }

  lemma WithBodyInStep(input: Input, b: Body)
    requires InStep(input) && input.body.None?
    ensures InStep(WithBody(input, b))
  {
    var result := WithBody(input, b);
    forall argument: string
      ensures Get(result.properties, argument).Some? <==> Declares(result, argument)
      ensures argument in result.required <==> Demands(result, argument)
    {
      assert Declares(input, argument) <==> Get(input.properties, argument).Some?;
      PutGets(input.properties, Field("body", b.schema), argument);
    }
  }

  lemma AddBodyRecords(input: Input, raw: Json, document: Fields)
    requires input.body.None? && AddBody(input, raw, document).Ok?
    ensures var result := AddBody(input, raw, document).value;
            var marked := input.(conflict := result.conflict);
            result == if result.body.None? then marked else WithBody(marked, result.body.value)
  {
    hide NormalizeBody, Put;
  }

  lemma AddBodyInStep(input: Input, raw: Json, document: Fields)
    requires InStep(input) && input.body.None? && AddBody(input, raw, document).Ok?
    ensures InStep(AddBody(input, raw, document).value)
  {
    hide *;
    AddBodyRecords(input, raw, document);
    var result := AddBody(input, raw, document).value;
    ConflictInStep(input, result.conflict);
    if result.body.Some? {
      WithBodyInStep(input.(conflict := result.conflict), result.body.value);
    }
  }

  lemma BindingInStep(input: Input, argument: string)
    ensures Consumes(MapArguments(input), argument) <==> Declares(input, argument)
    ensures Insists(MapArguments(input), argument) <==> Demands(input, argument)
  {
    var binding := MapArguments(input);
    forall p | p in input.parameters
      ensures MappedParameter(p.argumentName, p.upstreamName, p.location, p.required) in binding.parameters
    {
      var i :| 0 <= i < |input.parameters| && input.parameters[i] == p;
      assert binding.parameters[i] == MappedParameter(p.argumentName, p.upstreamName, p.location, p.required);
    }
    forall b | b in binding.parameters
      ensures exists p <- input.parameters ::
                b == MappedParameter(p.argumentName, p.upstreamName, p.location, p.required)
    {
      var i :| 0 <= i < |binding.parameters| && binding.parameters[i] == b;
      assert input.parameters[i] in input.parameters;
    }
  }

  lemma InputAgrees(argName: string -> string, hasOperationId: bool, parameters: seq<Fields>, requestBody: Json,
                    document: Fields)
    requires InputOf(argName, hasOperationId, parameters, requestBody, document).Ok?
    ensures InStep(InputOf(argName, hasOperationId, parameters, requestBody, document).value)
  {
    var start := Start(hasOperationId);
    assert InStep(start) by {
      assert forall argument :: !Declares(start, argument) && !Demands(start, argument);
    }
    AddParametersInStep(argName, start, parameters, document);
    AddBodyInStep(AddParameters(argName, start, parameters, document).value, requestBody, document);
  }

  /**
   For every operation and every naming function, the generated schema's
   property names are exactly the arguments the stored binding consumes and its
   required names exactly those the binding requires, name clashes included.
   */
  lemma SchemaAgreesWithBinding(argName: string -> string, hasOperationId: bool, parameters: seq<Fields>,
                                requestBody: Json, rawResponses: Json, document: Fields)
    requires OperationOf(argName, hasOperationId, parameters, requestBody, rawResponses, document).Ok?
    ensures Agrees(OperationOf(argName, hasOperationId, parameters, requestBody, rawResponses, document).value.0)
  {
    hide InputOf, ResponsesOf, InStep, MapArguments, Consumes, Insists, Get;
    InputAgrees(argName, hasOperationId, parameters, requestBody, document);
    var input := InputOf(argName, hasOperationId, parameters, requestBody, document).value;
    ConflictInStep(input, UnsupportedOperation);
    InStepAgrees(OperationOf(argName, hasOperationId, parameters, requestBody, rawResponses, document).value.0);
  }

  lemma InStepAgrees(input: Input)
    requires InStep(input)
    ensures Agrees(input)
  {
    forall argument: string
      ensures Get(input.properties, argument).Some? <==> Consumes(MapArguments(input), argument)
      ensures argument in input.required <==> Insists(MapArguments(input), argument)
    {
      BindingInStep(input, argument);
    }
  }

  // ------------------------------------------------------- name collisions

  datatype Operation = Operation(toolName: string, conflict: Conflict)

  function CountNamed(operations: seq<Operation>, name: string): nat {
    if operations == [] then 0
    else (if operations[0].toolName == name then 1 else 0) + CountNamed(operations[1..], name)
  }

  /** The last pass of `parse`: a clean operation whose name is shared becomes a collision. */
  function MarkCollisions(operations: seq<Operation>): (marked: seq<Operation>)
    ensures |marked| == |operations|
  {
    seq(|operations|, i requires 0 <= i < |operations| =>
      var o := operations[i];
      if CountNamed(operations, o.toolName) > 1 && o.conflict.NoConflict? then o.(conflict := NameCollision) else o)
  }

  lemma {:induction false} CountAtLeast(operations: seq<Operation>, name: string, i: nat)
    requires i < |operations| && operations[i].toolName == name
    ensures CountNamed(operations, name) >= 1
  {
    if i > 0 {
      CountAtLeast(operations[1..], name, i - 1);
    }
  }

  lemma {:induction false} CountTwo(operations: seq<Operation>, name: string)
    ensures CountNamed(operations, name) > 1 <==>
            exists i, j :: 0 <= i < j < |operations| && operations[i].toolName == name && operations[j].toolName == name
  {
    if operations != [] {
      var rest := operations[1..];
      CountTwo(rest, name);
      if i, j :| 0 <= i < j < |operations| && operations[i].toolName == name && operations[j].toolName == name {
        CountAtLeast(rest, name, j - 1);
        if i > 0 {
          assert rest[i - 1].toolName == name && rest[j - 1].toolName == name;
        }
      }
      if CountNamed(operations, name) > 1 {
        if operations[0].toolName == name {
          var k := NamedOnce(rest, name);
          assert operations[0].toolName == name && operations[k + 1].toolName == name;
        } else {
          var i, j :| 0 <= i < j < |rest| && rest[i].toolName == name && rest[j].toolName == name;
          assert operations[i + 1].toolName == name && operations[j + 1].toolName == name;
        }
      }
    }
  }

  lemma {:induction false} NamedOnce(operations: seq<Operation>, name: string) returns (k: nat)
    requires CountNamed(operations, name) >= 1
    ensures k < |operations| && operations[k].toolName == name
  {
    if operations[0].toolName == name {
      k := 0;
    } else {
      k := NamedOnce(operations[1..], name);
      k := k + 1;
    }
  }

  /**
   An operation leaves the parser free of conflict exactly when it had none and
   no other operation of the document, conflicting or not, has its tool name.
   */
  lemma ConflictFreeNamesAreUnique(operations: seq<Operation>, i: nat)
    requires i < |operations|
    ensures MarkCollisions(operations)[i].conflict.NoConflict? <==>
            operations[i].conflict.NoConflict? &&
            forall j :: 0 <= j < |operations| && j != i ==> operations[j].toolName != operations[i].toolName
  {
    CountTwo(operations, operations[i].toolName);
  }
}
