/** Process descriptions: the inputs and outputs a process declares, the
    process itself, and the status report of one of its jobs. */
module Process {
  import opened Wrappers
  import opened Json
  import opened FieldReaders
  import opened Vocabulary
  import opened Schema
  import opened Links

  // ---------------------------------------------------------------------
  // Metadata and additional parameters

  datatype Metadata = Metadata(title: Option<string>, role: Option<string>, href: Option<string>)

  /** All three members are optional strings. */
  function ParseMetadata(j: Json): (r: Result<Metadata, Error>)
    ensures r.Ok? <==>
      && j.JObject? && OptionalStringOk(j.fields, "title")
      && OptionalStringOk(j.fields, "role") && OptionalStringOk(j.fields, "href")
    ensures r.Ok? ==>
      && OptStringRead(j.fields, "title", r.value.title)
      && OptStringRead(j.fields, "role", r.value.role)
      && OptStringRead(j.fields, "href", r.value.href)
  {
    if !j.JObject? then Err(NotAnObject)
    else
      var m := j.fields;
      var title :- OptString(m, "title");
      var role :- OptString(m, "role");
      var href :- OptString(m, "href");
      Ok(Metadata(title, role, href))
  }

  /** One member of the `value` list of additional parameters. The union
      is tried in its declared order string, float, integer, list of
      objects, object, so an integer is taken by the float alternative
      and is kept as a number. */
  datatype ParameterValue =
    | ParamString(s: string)
    | ParamNumber(n: real)
    | ParamObjects(objects: seq<Fields>)
    | ParamObject(object: Fields)

  predicate AllObjects(xs: seq<Json>) {
    forall i :: 0 <= i < |xs| ==> xs[i].JObject?
  }

  function ParseParameterValue(j: Json): (r: Result<ParameterValue, Error>)
    ensures r.Ok? <==> j.JString? || IsNumber(j) || (j.JArray? && AllObjects(j.elems)) || j.JObject?
    ensures j.JString? ==> r == Ok(ParamString(j.s))
    ensures IsNumber(j) ==> r == Ok(ParamNumber(NumberValue(j)))
    ensures j.JObject? ==> r == Ok(ParamObject(j.fields))
    ensures j.JArray? && AllObjects(j.elems) ==>
      && r.Ok? && r.value.ParamObjects? && |r.value.objects| == |j.elems|
      && forall i :: 0 <= i < |j.elems| ==> j.elems[i] == JObject(r.value.objects[i])
  {
    if j.JString? then Ok(ParamString(j.s))
    else if IsNumber(j) then Ok(ParamNumber(NumberValue(j)))
    else if j.JArray? && AllObjects(j.elems) then
      Ok(ParamObjects(seq(|j.elems|, i requires 0 <= i < |j.elems| => j.elems[i].fields)))
    else if j.JObject? then Ok(ParamObject(j.fields))
    else Err(NoAlternative)
  }

  /** Metadata extended with a mandatory `name` and `value` list. */
  datatype AdditionalParameters = AdditionalParameters(
    metadata: Metadata, name: string, value: seq<ParameterValue>)

  function ParseAdditionalParameters(j: Json): (r: Result<AdditionalParameters, Error>)
    ensures r.Ok? <==>
      && ParseMetadata(j).Ok? && RequiredStringOk(j.fields, "name")
      && RequiredListOk(j.fields, "value", ParseParameterValue)
    ensures r.Ok? ==>
      && ParseMetadata(j) == Ok(r.value.metadata)
      && j.fields["name"] == JString(r.value.name)
      && ListRead(j.fields["value"], ParseParameterValue, r.value.value)
    ensures j.JObject? && ("name" !in j.fields || "value" !in j.fields) ==> r.Err?
  {
    var metadata :- ParseMetadata(j);
    var m := j.fields;
    var name :- RequiredString(m, "name");
    var value :- RequiredList(m, "value", ParseParameterValue);
    Ok(AdditionalParameters(metadata, name, value))
  }

  // ---------------------------------------------------------------------
  // Process inputs and outputs

  /** `maxOccurs`: an integer or the literal `"unbounded"`. */
  datatype MaxOccurs = Bounded(n: int) | Unbounded

  const UnboundedToken := "unbounded"

  function ParseMaxOccurs(m: Fields): (r: Result<MaxOccurs, Error>)
    ensures "maxOccurs" !in m ==> r == Ok(Bounded(1))
    ensures "maxOccurs" in m ==>
      (r.Ok? <==> m["maxOccurs"].JInt? || m["maxOccurs"] == JString(UnboundedToken))
    ensures r == Ok(Unbounded) <==> "maxOccurs" in m && m["maxOccurs"] == JString(UnboundedToken)
    ensures r.Ok? && r.value.Bounded? && "maxOccurs" in m ==> m["maxOccurs"] == JInt(r.value.n)
  {
    if "maxOccurs" !in m then Ok(Bounded(1))
    else if m["maxOccurs"].JInt? then Ok(Bounded(m["maxOccurs"].i))
    else if m["maxOccurs"] == JString(UnboundedToken) then Ok(Unbounded)
    else Err(WrongType("maxOccurs"))
  }

  datatype ProcessOutput = ProcessOutput(title: Option<string>, description: Option<string>, schema: IOSchema)

  /** `schema` is mandatory and must itself be an accepted schema. */
  function ParseProcessOutput(j: Json): (r: Result<ProcessOutput, Error>)
    ensures r.Ok? <==>
      && j.JObject? && OptionalStringOk(j.fields, "title") && OptionalStringOk(j.fields, "description")
      && "schema" in j.fields && ParseSchema(j.fields["schema"]).Ok?
    ensures r.Ok? ==>
      && OptStringRead(j.fields, "title", r.value.title)
      && OptStringRead(j.fields, "description", r.value.description)
      && ParseSchema(j.fields["schema"]) == Ok(r.value.schema)
    ensures j.JObject? && "schema" !in j.fields ==> r.Err?
  {
    if !j.JObject? then Err(NotAnObject)
    else
      var m := j.fields;
      var title :- OptString(m, "title");
      var description :- OptString(m, "description");
      var schema :- if "schema" in m then ParseSchema(m["schema"]) else Err(Missing("schema"));
      Ok(ProcessOutput(title, description, schema))
  }

  /** An input declares everything an output does and more. */
  datatype ProcessInput = ProcessInput(
    title: Option<string>,
    description: Option<string>,
    schema: IOSchema,
    keywords: Option<seq<string>>,
    metadata: Option<seq<Metadata>>,
    minOccurs: int,
    maxOccurs: MaxOccurs,
    additionalParameters: Option<AdditionalParameters>)  // wire key `additional_parameters`

  function OptAdditionalParameters(m: Fields): (r: Result<Option<AdditionalParameters>, Error>)
    ensures r.Ok? <==>
      AbsentOrNull(m, "additional_parameters") || ParseAdditionalParameters(m["additional_parameters"]).Ok?
    ensures r.Ok? ==>
      if AbsentOrNull(m, "additional_parameters") then r.value.None?
      else r.value.Some? && ParseAdditionalParameters(m["additional_parameters"]) == Ok(r.value.value)
  {
    if AbsentOrNull(m, "additional_parameters") then Ok(None)
    else var p :- ParseAdditionalParameters(m["additional_parameters"]); Ok(Some(p))
  }

  /** `minOccurs` and `maxOccurs` default to 1; neither is bounded, and
      no order between them is required. */
  function ParseProcessInput(j: Json): (r: Result<ProcessInput, Error>)
    ensures r.Ok? <==>
      && ParseProcessOutput(j).Ok?
      && OptionalStringListOk(j.fields, "keywords")
      && OptionalListOk(j.fields, "metadata", ParseMetadata)
      && IntOk(j.fields, "minOccurs")
      && ParseMaxOccurs(j.fields).Ok?
      && OptAdditionalParameters(j.fields).Ok?
    ensures r.Ok? ==>
      && var out := ParseProcessOutput(j).value;
      && out.title == r.value.title && out.description == r.value.description && out.schema == r.value.schema
      && OptStringListRead(j.fields, "keywords", r.value.keywords)
      && OptListRead(j.fields, "metadata", ParseMetadata, r.value.metadata)
      && IntRead(j.fields, "minOccurs", 1, r.value.minOccurs)
      && ParseMaxOccurs(j.fields) == Ok(r.value.maxOccurs)
      && ("maxOccurs" !in j.fields ==> r.value.maxOccurs == Bounded(1))
      && OptAdditionalParameters(j.fields) == Ok(r.value.additionalParameters)
  {
    var out :- ParseProcessOutput(j);
    var m := j.fields;
    var keywords :- OptStringList(m, "keywords");
    var metadata :- OptList(m, "metadata", ParseMetadata);
    var minOccurs :- IntOr(m, "minOccurs", 1);
    var maxOccurs :- ParseMaxOccurs(m);
    var additional :- OptAdditionalParameters(m);
    Ok(ProcessInput(out.title, out.description, out.schema, keywords, metadata, minOccurs, maxOccurs, additional))
  }

  // ---------------------------------------------------------------------
  // Process

  datatype Process = Process(
    title: map<string, string>,
    description: map<string, string>,
    keywords: seq<string>,
    version: string,
    id: string,
    jobControlOptions: seq<JobControlOption>,
    outputTransmission: seq<TransmissionMode>,
    links: seq<Link>,
    inputs: map<string, ProcessInput>,
    outputs: map<string, ProcessOutput>,
    example: Option<Fields>)

  /** Every member of a process description except `outputTransmission`
      and `example` is mandatory. */
  const ProcessMandatoryKeys: set<string> :=
    {"title", "description", "keywords", "version", "id", "jobControlOptions", "links", "inputs", "outputs"}

  /** Everything a process description must satisfy, member by member. */
  predicate ProcessAccepted(j: Json) {
    && j.JObject?
    && var m := j.fields;
    && StringMapOk(m, "title") && StringMapOk(m, "description")
    && StringListOk(m, "keywords")
    && RequiredStringOk(m, "version") && RequiredStringOk(m, "id")
    && "jobControlOptions" in m && TokensOk(m["jobControlOptions"], ParseJobControlOption)
    && ("outputTransmission" !in m || TokensOk(m["outputTransmission"], ParseTransmissionMode))
    && RequiredListOk(m, "links", ParseLink)
    && DictOk(m, "inputs", ParseProcessInput) && DictOk(m, "outputs", ParseProcessOutput)
    && OptionalObjectOk(m, "example")
  }

  /** `p` is what an accepted description stands for, member by member. */
  ghost predicate ProcessRead(j: Json, p: Process)
    requires ProcessAccepted(j)
  {
    var m := j.fields;
    && StringMapRead(m, "title", p.title) && StringMapRead(m, "description", p.description)
    && StringsOf(m["keywords"].elems, p.keywords)
    && m["version"] == JString(p.version) && m["id"] == JString(p.id)
    && TokensRead(m["jobControlOptions"], ParseJobControlOption, p.jobControlOptions)
    && (if "outputTransmission" in m
        then TokensRead(m["outputTransmission"], ParseTransmissionMode, p.outputTransmission)
        else p.outputTransmission == [TransmissionMode.Value])
    && ListRead(m["links"], ParseLink, p.links)
    && DictRead(m, "inputs", ParseProcessInput, p.inputs)
    && DictRead(m, "outputs", ParseProcessOutput, p.outputs)
    && p.example == (if AbsentOrNull(m, "example") then None else Some(m["example"].fields))
  }

  /** `jobControlOptions` may be empty; `outputTransmission` defaults to
      `[value]`; every input and output entry must be accepted. */
  function ParseProcess(j: Json): (r: Result<Process, Error>)
    ensures r.Ok? <==> ProcessAccepted(j)
    ensures r.Ok? ==> ProcessRead(j, r.value)
  {
    if !j.JObject? then Err(NotAnObject)
    else
      var m := j.fields;
      var title :- RequiredStringMap(m, "title");
      var description :- RequiredStringMap(m, "description");
      var keywords :- RequiredStringList(m, "keywords");
      var version :- RequiredString(m, "version");
      var id :- RequiredString(m, "id");
      var jobControlOptions :- RequiredTokens(m, "jobControlOptions", ParseJobControlOption);
      var outputTransmission :- TokensOr(m, "outputTransmission", ParseTransmissionMode, [TransmissionMode.Value]);
      var links :- RequiredList(m, "links", ParseLink);
      var inputs :- RequiredDict(m, "inputs", ParseProcessInput);
      var outputs :- RequiredDict(m, "outputs", ParseProcessOutput);
      var example :- OptObject(m, "example");
      Ok(Process(title, description, keywords, version, id, jobControlOptions, outputTransmission,
                 links, inputs, outputs, example))
  }

  lemma ProcessMandatoryKeysRequired(j: Json)
    requires j.JObject? && !(ProcessMandatoryKeys <= j.fields.Keys)
    ensures ParseProcess(j).Err?
  {
    var k :| k in ProcessMandatoryKeys && k !in j.fields;
  }

  // ---------------------------------------------------------------------
  // Job status

  /** The status members the model reads; the job status is kept as the
      token it was given. */
  datatype JobStatusInfo = JobStatusInfo(
    jobId: string,
    status: string,
    processId: string,
    message: Option<string>,
    progress: Option<int>,
    links: Option<seq<Link>>)

  const ProcessTypeToken := "process"

  /** The `progress` member, when given, is an integer percentage. */
  predicate ProgressOk(m: Fields) {
    AbsentOrNull(m, "progress") || (m["progress"].JInt? && 0 <= m["progress"].i <= 100)
  }

  /** Everything a status report must satisfy, member by member. */
  predicate JobStatusAccepted(j: Json) {
    && j.JObject?
    && var m := j.fields;
    && RequiredStringOk(m, "jobID") && RequiredStringOk(m, "status") && RequiredStringOk(m, "processID")
    && ("type" !in m || m["type"] == JString(ProcessTypeToken))
    && OptionalStringOk(m, "message") && ProgressOk(m)
    && OptionalListOk(m, "links", ParseLink)
  }

  /** `jobID`, `status` and `processID` are mandatory; `type` may only be
      `"process"`; `progress` is a percentage. */
  function ParseJobStatusInfo(j: Json): (r: Result<JobStatusInfo, Error>)
    ensures r.Ok? <==> JobStatusAccepted(j)
    ensures j.JObject? && ("jobID" !in j.fields || "status" !in j.fields || "processID" !in j.fields) ==> r.Err?
    ensures j.JObject? && "type" in j.fields && j.fields["type"] != JString(ProcessTypeToken) ==> r.Err?
    ensures j.JObject? && "progress" in j.fields && j.fields["progress"].JInt? ==>
      (!(0 <= j.fields["progress"].i <= 100) ==> r.Err?)
    ensures r.Ok? ==>
      && j.JObject?
      && j.fields["jobID"] == JString(r.value.jobId)
      && j.fields["status"] == JString(r.value.status)
      && j.fields["processID"] == JString(r.value.processId)
      && OptStringRead(j.fields, "message", r.value.message)
      && (r.value.progress.None? <==> AbsentOrNull(j.fields, "progress"))
      && (r.value.progress.Some? ==>
            j.fields["progress"] == JInt(r.value.progress.value) && 0 <= r.value.progress.value <= 100)
      && OptListRead(j.fields, "links", ParseLink, r.value.links)
  {
    if !j.JObject? then Err(NotAnObject)
    else
      var m := j.fields;
      var jobId :- RequiredString(m, "jobID");
      var status :- RequiredString(m, "status");
      var _ :- if "type" !in m || m["type"] == JString(ProcessTypeToken) then Ok(ProcessTypeToken)
               else Err(UnknownToken("type"));
      var processId :- RequiredString(m, "processID");
      var message :- OptString(m, "message");
      var progress :- OptIntInRange(m, "progress", 0, 100);
      var links :- OptList(m, "links", ParseLink);
      Ok(JobStatusInfo(jobId, status, processId, message, progress, links))
  }

  // ---------------------------------------------------------------------
  // Examples

  /** A description with every mandatory member, each empty, and nothing
      else is accepted: no job control option is required, and the
      transmission modes default to `[value]`. */
  lemma MinimalProcessAccepted(j: Json)
    requires j.JObject? && j.fields.Keys == ProcessMandatoryKeys
    requires j.fields["title"] == JObject(map[]) && j.fields["description"] == JObject(map[])
    requires j.fields["keywords"] == JArray([]) && j.fields["links"] == JArray([])
    requires j.fields["version"] == JString("1.0") && j.fields["id"] == JString("p")
    requires j.fields["jobControlOptions"] == JArray([])
    requires j.fields["inputs"] == JObject(map[]) && j.fields["outputs"] == JObject(map[])
    ensures ParseProcess(j) ==
      Ok(Process(map[], map[], [], "1.0", "p", [], [TransmissionMode.Value], [], map[], map[], None))
  {
    assert "outputTransmission" !in j.fields && "example" !in j.fields;
    assert ProcessAccepted(j);
    var p := ParseProcess(j).value;
    assert ProcessRead(j, p);
    assert p.title == map[] && p.description == map[];
    assert p.inputs == map[] && p.outputs == map[];
    assert p.keywords == [] && p.jobControlOptions == [] && p.links == [];
  }

  /** A valid job status without a `jobID` is refused. */
  lemma JobWithoutIdRefused()
    ensures ParseJobStatusInfo(JObject(map["status" := JString("running"), "processID" := JString("p")])).Err?
  {
  }

  /** A progress of 101 is refused, one of 100 accepted. */
  lemma ProgressBounds()
    ensures var m := map["jobID" := JString("j"), "status" := JString("running"), "processID" := JString("p")];
      && ParseJobStatusInfo(JObject(m["progress" := JInt(101)])) == Err(OutOfRange("progress"))
      && ParseJobStatusInfo(JObject(m["progress" := JInt(100)])).Ok?
  {
    var m := map["jobID" := JString("j"), "status" := JString("running"), "processID" := JString("p")];
    assert "type" !in m["progress" := JInt(101)];
    assert "type" !in m["progress" := JInt(100)];
  }

  /** An input without `minOccurs` or `maxOccurs` occurs exactly once. */
  lemma InputOccursOnceByDefault()
    ensures var j := JObject(map["schema" := JObject(map[])]);
      ParseProcessInput(j).Ok? && ParseProcessInput(j).value.minOccurs == 1
      && ParseProcessInput(j).value.maxOccurs == Bounded(1)
  {
    EmptySchemaAccepted();
  }
}
