/**
 From the importer into the catalog: the schema and the binding that a review
 stores agree on their arguments, in every catalog that a run reaches.
 */
module ImportedContents {
  import opened Common
  import opened Json
  import OperationParser
  import opened CatalogStore
  import opened CatalogInvariant
  import opened CatalogSteps
  import opened CatalogPublication
  import opened CatalogTheorems

  // ------------------------------------------------------------- as documents

  function Strings(texts: seq<string>): seq<Json> {
    seq(|texts|, i requires 0 <= i < |texts| => Str(texts[i]))
  }

  /** `tool_input_schema` */
  function SchemaJson(input: OperationParser.Input): Json {
    Obj([Field("type", Str("object")), Field("properties", Obj(input.properties)),
         Field("required", Arr(Strings(input.required))), Field("additionalProperties", Bool(false))])
  }

  function ParameterJson(p: OperationParser.MappedParameter): Json {
    Obj([Field("argument_name", Str(p.argumentName)), Field("upstream_name", Str(p.upstreamName)),
         Field("location", Str(p.location)), Field("required", Bool(p.required))])
  }

  function BodyJson(body: Option<OperationParser.MappedBody>): Json {
    match body
    case None => Null
    case Some(b) => Obj([Field("argument_name", Str(b.argumentName)), Field("content_type", Str("application/json")),
                         Field("required", Bool(b.required))])
  }

  function ParametersJson(parameters: seq<OperationParser.MappedParameter>): seq<Json> {
    seq(|parameters|, i requires 0 <= i < |parameters| => ParameterJson(parameters[i]))
  }

  /** `binding_config` */
  function ConfigJson(httpMethod: string, path: string, arguments: OperationParser.ArgumentMap): Json {
    Obj([Field("method", Str(httpMethod)), Field("path_template", Str(path)),
         Field("parameters", Arr(ParametersJson(arguments.parameters))),
         Field("request_body", BodyJson(arguments.requestBody))])
  }

  /** What the importer reads of one operation. */
  datatype Source = Source(
    argName: string -> string, hasOperationId: bool, parameters: seq<Fields>, requestBody: Json, responses: Json,
    document: Fields, httpMethod: string, path: string, summary: Option<string>, description: Option<string>,
    tags: seq<string>, sideEffect: SideEffect)

  /** What it leaves for the review; an output schema that is no object makes it malformed. */
  function ContentOf(src: Source): Option<Content> {
    match OperationParser.OperationOf(src.argName, src.hasOperationId, src.parameters, src.requestBody, src.responses,
                                      src.document)
    case Err(_) => None
    case Ok((input, responses)) =>
      if responses.output.Some? && !responses.output.value.Obj? then None
      else
        Some(Content(src.summary, src.description, SchemaJson(input), responses.output, src.tags, src.sideEffect,
                     ConfigJson(src.httpMethod, src.path, OperationParser.MapArguments(input))))
  }

  // ---------------------------------------------------------------- agreement

  /** The entries of a binding that name an argument: its parameters, and its body if there is one. */
  function Entries(config: Json): seq<Json> {
    if !config.Obj? then []
    else
      (match Get(config.fields, "parameters") case Some(Arr(items)) => items case _ => []) +
      (match Get(config.fields, "request_body") case Some(Obj(fields)) => [Obj(fields)] case _ => [])
  }

  predicate Names(entry: Json, argument: string) {
    entry.Obj? && Get(entry.fields, "argument_name") == Some(Str(argument))
  }

  predicate NamesRequired(entry: Json, argument: string) {
    Names(entry, argument) && Get(entry.fields, "required") == Some(Bool(true))
  }

  predicate Admits(schema: Json, argument: string) {
    schema.Obj? && match Get(schema.fields, "properties")
                   case Some(Obj(properties)) => Get(properties, argument).Some?
                   case _ => false
  }

  predicate Requires(schema: Json, argument: string) {
    schema.Obj? && match Get(schema.fields, "required")
                   case Some(Arr(items)) => Str(argument) in items
                   case _ => false
  }

  /** A stored schema admits exactly the arguments the stored binding reads, and requires exactly those it must have. */
  ghost predicate Agree(schema: Json, config: Json) {
    forall argument: string ::
      && (Admits(schema, argument) <==> exists entry <- Entries(config) :: Names(entry, argument))
      && (Requires(schema, argument) <==> exists entry <- Entries(config) :: NamesRequired(entry, argument))
  }

  lemma GetFirst(f: Field, rest: Fields, key: string)
    ensures Get([f] + rest, key) == if f.key == key then Some(f.value) else Get(rest, key)
  {
  }

  lemma GetOfThree(a: Field, b: Field, c: Field, key: string)
    ensures Get([a, b, c], key) ==
            if a.key == key then Some(a.value) else if b.key == key then Some(b.value)
            else if c.key == key then Some(c.value) else None
  {
    GetFirst(a, [b, c], key);
    GetFirst(b, [c], key);
    assert [a, b, c] == [a] + [b, c] && [b, c] == [b] + [c];
  }

  lemma GetOfFour(a: Field, b: Field, c: Field, d: Field, key: string)
    ensures Get([a, b, c, d], key) ==
            if a.key == key then Some(a.value) else if b.key == key then Some(b.value)
            else if c.key == key then Some(c.value) else if d.key == key then Some(d.value) else None
  {
    GetFirst(a, [b, c, d], key);
    GetOfThree(b, c, d, key);
    assert [a, b, c, d] == [a] + [b, c, d];
  }

  lemma SchemaFields(input: OperationParser.Input)
    ensures SchemaJson(input).Obj?
    ensures Get(SchemaJson(input).fields, "properties") == Some(Obj(input.properties))
    ensures Get(SchemaJson(input).fields, "required") == Some(Arr(Strings(input.required)))
  {
    hide Get;
    var f := SchemaJson(input).fields;
    GetOfFour(f[0], f[1], f[2], f[3], "properties");
    GetOfFour(f[0], f[1], f[2], f[3], "required");
  }

  lemma SchemaReads(input: OperationParser.Input, argument: string)
    ensures Admits(SchemaJson(input), argument) <==> Get(input.properties, argument).Some?
    ensures Requires(SchemaJson(input), argument) <==> argument in input.required
  {
    hide Get, SchemaJson;
    SchemaFields(input);
    var items := Strings(input.required);
    if argument in input.required {
      var i :| 0 <= i < |input.required| && input.required[i] == argument;
      assert items[i] == Str(argument);
    }
  }

  lemma ConfigEntries(httpMethod: string, path: string, arguments: OperationParser.ArgumentMap)
    ensures Entries(ConfigJson(httpMethod, path, arguments)) ==
            ParametersJson(arguments.parameters) +
            (if arguments.requestBody.Some? then [BodyJson(arguments.requestBody)] else [])
  {
    hide Get;
    var f := ConfigJson(httpMethod, path, arguments).fields;
    GetOfFour(f[0], f[1], f[2], f[3], "parameters");
    GetOfFour(f[0], f[1], f[2], f[3], "request_body");
  }

  lemma ParameterReads(p: OperationParser.MappedParameter, argument: string)
    ensures Names(ParameterJson(p), argument) <==> p.argumentName == argument
    ensures NamesRequired(ParameterJson(p), argument) <==> p.argumentName == argument && p.required
  {
    hide Get;
    var f := ParameterJson(p).fields;
    GetOfFour(f[0], f[1], f[2], f[3], "argument_name");
    GetOfFour(f[0], f[1], f[2], f[3], "required");
  }

  lemma BodyReads(b: OperationParser.MappedBody, argument: string)
    ensures Names(BodyJson(Some(b)), argument) <==> b.argumentName == argument
    ensures NamesRequired(BodyJson(Some(b)), argument) <==> b.argumentName == argument && b.required
  {
    hide Get;
    var f := BodyJson(Some(b)).fields;
    GetOfThree(f[0], f[1], f[2], "argument_name");
    GetOfThree(f[0], f[1], f[2], "required");
  }

  lemma ConfigReads(httpMethod: string, path: string, arguments: OperationParser.ArgumentMap, argument: string)
    ensures var entries := Entries(ConfigJson(httpMethod, path, arguments));
            && ((exists entry <- entries :: Names(entry, argument)) <==> OperationParser.Consumes(arguments, argument))
            && ((exists entry <- entries :: NamesRequired(entry, argument)) <==>
                OperationParser.Insists(arguments, argument))
  {
    hide Names, NamesRequired, ConfigJson, Entries, ParameterJson, BodyJson;
    ConfigEntries(httpMethod, path, arguments);
    var entries, parameters := Entries(ConfigJson(httpMethod, path, arguments)), arguments.parameters;
    forall i | 0 <= i < |parameters|
      ensures parameters[i] in parameters && ParameterJson(parameters[i]) in entries
      ensures Names(ParameterJson(parameters[i]), argument) <==> parameters[i].argumentName == argument
      ensures NamesRequired(ParameterJson(parameters[i]), argument) <==>
              parameters[i].argumentName == argument && parameters[i].required
    {
      ParameterReads(parameters[i], argument);
      assert entries[i] == ParameterJson(parameters[i]);
    }
    if arguments.requestBody.Some? {
      BodyReads(arguments.requestBody.value, argument);
      assert entries[|parameters|] == BodyJson(arguments.requestBody);
    }
  }

  /** Whatever the importer leaves for the review agrees. */
  lemma ContentAgrees(src: Source)
    requires ContentOf(src).Some?
    ensures Agree(ContentOf(src).value.inputSchema, ContentOf(src).value.config)
  {
    hide OperationParser.OperationOf, SchemaJson, ConfigJson, OperationParser.MapArguments, Admits, Requires, Entries;
    OperationParser.SchemaAgreesWithBinding(src.argName, src.hasOperationId, src.parameters, src.requestBody,
                                            src.responses, src.document);
    var input := OperationParser.OperationOf(src.argName, src.hasOperationId, src.parameters, src.requestBody,
                                             src.responses, src.document).value.0;
    var schema, config := ContentOf(src).value.inputSchema, ContentOf(src).value.config;
    forall argument: string
      ensures Admits(schema, argument) <==> exists entry <- Entries(config) :: Names(entry, argument)
      ensures Requires(schema, argument) <==> exists entry <- Entries(config) :: NamesRequired(entry, argument)
    {
      SchemaReads(input, argument);
      ConfigReads(src.httpMethod, src.path, OperationParser.MapArguments(input), argument);
    }
  }

  // -------------------------------------------------------------- in the catalog

  /** The operations' contents agree, and so do each stored binding and the schema of its version. */
  ghost predicate AllAgree(cat: Catalog) {
    && (forall o <- cat.operations ::
          var content := cat.operations[o].content;
          content.Some? ==> Agree(content.value.inputSchema, content.value.config))
    && (forall b <- cat.bindings :: BindingAgrees(cat, b))
  }

  ghost predicate BindingAgrees(cat: Catalog, b: string)
    requires b in cat.bindings
  {
    var binding := cat.bindings[b];
    binding.versionId in cat.versions && Agree(cat.versions[binding.versionId].inputSchema, binding.config)
  }

  lemma StatusChangeAgrees(before: Catalog, after: Catalog)
    requires AllAgree(before) && SameVersions(before, after) && SameBindings(before, after)
    requires after.operations == before.operations
    ensures AllAgree(after)
  {
    hide Agree;
    forall b <- after.bindings ensures BindingAgrees(after, b) {
      assert BindingAgrees(before, b);
      assert Restated(before.versions[before.bindings[b].versionId], after.versions[before.bindings[b].versionId]);
    }
  }

  lemma DraftAgrees(before: Catalog, after: Catalog, h: Digests, tool: Tool, v: Version, b: Binding, o: Operation)
    requires AllAgree(before) && DraftAdded(before, after, h, tool, v, b, o)
    ensures AllAgree(after)
  {
    hide Agree;
    forall c <- after.bindings ensures BindingAgrees(after, c) {
      if c != b.id { assert BindingAgrees(before, c); }
    }
  }

  lemma ReviewAgrees(cat: Catalog, h: Digests, cmd: ReviewCommand, ids: Ids)
    requires Inv(cat, h) && AllAgree(cat) && ReviewIn(cat, h, cmd, ids).Ok?
    ensures AllAgree(ReviewIn(cat, h, cmd, ids).value.0)
  {
    hide Inv, ReviewIn, ReviewedRows, DraftAdded, AllAgree;
    ReviewShape(cat, h, cmd, ids);
    var (after, r) := ReviewIn(cat, h, cmd, ids).value;
    if !cat.operations[cmd.operationId].review.Accepted? {
      DraftOf(cat, after, h, cmd, ids, r);
      DraftAgrees(cat, after, h, after.tools[r.toolId], after.versions[r.versionId], after.bindings[r.bindingId],
                  after.operations[r.operationId]);
    }
  }

  lemma SubmitAgrees(cat: Catalog, h: Digests, tenant: string, v: string, now: Time)
    requires Inv(cat, h) && AllAgree(cat)
    ensures AllAgree(SubmitTx(cat, tenant, v, now).0)
  {
    hide *;
    InvParts(cat, h);
    SubmitSucceedsExactly(cat, h, tenant, v, now);
    if SubmitTx(cat, tenant, v, now).1.Ok? {
      var after := SubmitTx(cat, tenant, v, now).0;
      SubmittedRows(cat, after, v, now, h);
      StatusChangeAgrees(cat, after);
    }
  }

  lemma PublishAgrees(cat: Catalog, h: Digests, cmd: PublishCommand, now: Time)
    requires Inv(cat, h) && AllAgree(cat) && PublishIn(cat, h, cmd, now).Ok?
    ensures AllAgree(PublishIn(cat, h, cmd, now).value.0)
  {
    hide *;
    InvParts(cat, h);
    PublishSucceedsExactly(cat, h, cmd, now);
    var (after, p) := PublishIn(cat, h, cmd, now).value;
    var c := BindingIdOf(cat, p.retiredVersionId);
    SwitchedIsStatusChange(cat, after, cmd.toolId, cmd.versionId, p.bindingId, p.retiredVersionId, c, now, h);
    SwitchedOperations(cat, after, cmd.toolId, cmd.versionId, p.bindingId, p.retiredVersionId, c, now);
    StatusChangeAgrees(cat, after);
  }

  lemma SwitchedOperations(before: Catalog, after: Catalog, t: string, v: string, b: string, former: Option<string>,
                           c: string, now: Time)
    requires Switched(before, after, t, v, b, former, c, now)
    ensures after.operations == before.operations
  {
  }

  lemma PipelineAgrees(cat: Catalog, h: Digests, cmd: ReviewCommand, ids: Ids, now: Time)
    requires Inv(cat, h) && AllAgree(cat)
    ensures AllAgree(Pipeline(cat, h, cmd, ids, now, now).0)
  {
    hide Inv, ReviewIn, PublishIn, SubmitTx, AllAgree;
    if ReviewIn(cat, h, cmd, ids).Ok? {
      ReviewKeeps(cat, h, cmd, ids);
      ReviewAgrees(cat, h, cmd, ids);
      var (working, r) := ReviewIn(cat, h, cmd, ids).value;
      SubmitKeeps(working, h, cmd.tenant, r.versionId, now);
      SubmitAgrees(working, h, cmd.tenant, r.versionId, now);
      var draft := r.versionId in working.versions && working.versions[r.versionId].status.Draft?;
      var submitted := if draft then SubmitTx(working, cmd.tenant, r.versionId, now).0 else working;
      if PublishIn(submitted, h, CommandFor(cmd.tenant, r), now).Ok? {
        PublishAgrees(submitted, h, CommandFor(cmd.tenant, r), now);
      }
    }
  }

  lemma DirectAgrees(cat: Catalog, h: Digests, cmd: ReviewCommand, ids: Ids, now: Time)
    requires Inv(cat, h) && AllAgree(cat)
    ensures AllAgree(DirectTx(cat, h, cmd, ids, now).0)
  {
    hide Inv, DirectTx, Pipeline, ReviewIn, PublishIn, SubmitIfDraft, AllAgree;
    DirectIsPipeline(cat, h, cmd, ids, now);
    PipelineAgrees(cat, h, cmd, ids, now);
    DirectAfterReview(cat, h, cmd, ids, now);
  }

  /** Every import is the importer's. */
  ghost predicate Imports(step: Step) {
    step.ImportStep? && step.operation.content.Some? ==>
      exists src: Source :: ContentOf(src) == step.operation.content
  }

  lemma ImportAgrees(cat: Catalog, h: Digests, step: Step)
    requires AllAgree(cat) && Imports(step) && step.ImportStep?
    ensures AllAgree(Apply(cat, h, step))
  {
    hide Agree, ContentOf;
    if step.operation.content.Some? {
      var src: Source :| ContentOf(src) == step.operation.content;
      ContentAgrees(src);
    }
    var after := Apply(cat, h, step);
    forall b <- after.bindings ensures BindingAgrees(after, b) { assert BindingAgrees(cat, b); }
  }

  lemma UpstreamAgrees(cat: Catalog, h: Digests, step: Step)
    requires AllAgree(cat) && step.UpstreamStep?
    ensures AllAgree(Apply(cat, h, step))
  {
    hide Agree;
    var after := Apply(cat, h, step);
    forall b <- after.bindings ensures BindingAgrees(after, b) { assert BindingAgrees(cat, b); }
  }

  lemma ApplyAgrees(cat: Catalog, h: Digests, step: Step)
    requires Inv(cat, h) && AllAgree(cat) && Imports(step)
    ensures AllAgree(Apply(cat, h, step))
  {
    hide Inv, DirectTx, SubmitTx, ReviewIn, PublishIn, AllAgree, Imports;
    match step
    case ReviewStep(cmd, ids) => if ReviewIn(cat, h, cmd, ids).Ok? { ReviewAgrees(cat, h, cmd, ids); }
    case SubmitStep(tenant, v, now) => SubmitAgrees(cat, h, tenant, v, now);
    case PublishStep(cmd, now) => if PublishIn(cat, h, cmd, now).Ok? { PublishAgrees(cat, h, cmd, now); }
    case DirectStep(cmd, ids, now) => DirectAgrees(cat, h, cmd, ids, now);
    case ImportStep(_) => ImportAgrees(cat, h, step);
    case UpstreamStep(_) => UpstreamAgrees(cat, h, step);
  }

  /**
   Whatever is imported, reviewed and published, in any order: the schema of every
   stored version admits exactly the arguments that its stored binding reads, and
   requires exactly those that the binding must have.
   */
  lemma {:induction false} StoredSchemasAgree(cat: Catalog, h: Digests, steps: seq<Step>)
    requires Inv(cat, h) && AllAgree(cat) && forall step <- steps :: Imports(step)
    ensures AllAgree(Run(cat, h, steps))
    decreases |steps|
  {
    hide Inv, Apply, AllAgree, Imports;
    if steps != [] {
      ApplyKeeps(cat, h, steps[0]);
      ApplyAgrees(cat, h, steps[0]);
      StoredSchemasAgree(Apply(cat, h, steps[0]), h, steps[1..]);
    }
  }

  /** So it is in every catalog that a run from the empty one reaches. */
  lemma EveryStoredSchemaAgrees(h: Digests, steps: seq<Step>, b: string)
    requires (forall step <- steps :: Imports(step)) && b in Run(EMPTY, h, steps).bindings
    ensures var cat := Run(EMPTY, h, steps);
            && cat.bindings[b].versionId in cat.versions
            && Agree(cat.versions[cat.bindings[b].versionId].inputSchema, cat.bindings[b].config)
  {
    hide Inv, Run, Imports, Agree;
    EmptyCatalog(h);
    StoredSchemasAgree(EMPTY, h, steps);
    assert BindingAgrees(Run(EMPTY, h, steps), b);
  }
}
