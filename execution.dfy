/** Execution requests: how the value given for a process input is
    resolved among the shapes an input may take, and the request that
    carries those values with the outputs wanted, the response mode and
    the subscriber to notify. */
module Execution {
  import opened Wrappers
  import opened Json
  import opened FieldReaders
  import opened Vocabulary
  import opened Links

  // ---------------------------------------------------------------------
  // Bounding boxes

  /** The coordinate reference system a bounding box has by default. */
  const Crs84 := "http://www.opengis.net/def/crs/OGC/1.3/CRS84"

  datatype BBox = BBox(coords: seq<real>, crs: Option<string>)

  predicate AllNumbers(xs: seq<Json>) {
    forall i :: 0 <= i < |xs| ==> IsNumber(xs[i])
  }

  /** An object whose `bbox` is a list of exactly four numbers and whose
      optional `crs` is a string. */
  predicate BBoxShaped(j: Json) {
    && j.JObject? && "bbox" in j.fields && j.fields["bbox"].JArray?
    && |j.fields["bbox"].elems| == 4 && AllNumbers(j.fields["bbox"].elems)
    && OptionalStringOk(j.fields, "crs")
  }

  function ParseBBox(j: Json): (r: Result<BBox, Error>)
    ensures r.Ok? <==> BBoxShaped(j)
    ensures r.Ok? ==>
      && |r.value.coords| == 4
      && (forall i :: 0 <= i < 4 ==> r.value.coords[i] == NumberValue(j.fields["bbox"].elems[i]))
      && OptStringOrRead(j.fields, "crs", Crs84, r.value.crs)
    ensures j.JObject? && "bbox" !in j.fields ==> r == Err(Missing("bbox"))
    ensures j.JObject? && "bbox" in j.fields && j.fields["bbox"].JArray? && AllNumbers(j.fields["bbox"].elems) ==>
      (|j.fields["bbox"].elems| != 4 ==> r == Err(WrongLength("bbox")))
  {
    if !j.JObject? then Err(NotAnObject)
    else
      var m := j.fields;
      if "bbox" !in m then Err(Missing("bbox"))
      else if !(m["bbox"].JArray? && AllNumbers(m["bbox"].elems)) then Err(WrongType("bbox"))
      else if |m["bbox"].elems| != 4 then Err(WrongLength("bbox"))
      else
        var crs :- OptStringOr(m, "crs", Crs84);
        Ok(BBox(seq(4, i requires 0 <= i < 4 => NumberValue(m["bbox"].elems[i])), crs))
  }

  // ---------------------------------------------------------------------
  // Values that are not free-form objects

  /** A member of an inline array: a bounding box, an integer, a string
      or a nested array, tried in that order. */
  datatype ArrayItem =
    | ItemBBox(bbox: BBox)
    | ItemInt(i: int)
    | ItemString(s: string)
    | ItemArray(items: seq<ArrayItem>)

  function ParseArrayItem(j: Json): (r: Result<ArrayItem, Error>)
    decreases j, 1
    ensures j.JObject? ==> (r.Ok? <==> BBoxShaped(j)) && (r.Ok? ==> r == Ok(ItemBBox(ParseBBox(j).value)))
    ensures j.JInt? ==> r == Ok(ItemInt(j.i))
    ensures j.JString? ==> r == Ok(ItemString(j.s))
    ensures j.JNull? || j.JBool? || j.JFloat? ==> r.Err?
    ensures j.JArray? ==>
      (r.Ok? <==> forall i :: 0 <= i < |j.elems| ==> ParseArrayItem(j.elems[i]).Ok?)
    ensures j.JArray? && r.Ok? ==>
      && r.value.ItemArray? && |r.value.items| == |j.elems|
      && forall i :: 0 <= i < |j.elems| ==> ParseArrayItem(j.elems[i]) == Ok(r.value.items[i])
  {
    if j.JObject? then var b :- ParseBBox(j); Ok(ItemBBox(b))
    else if j.JInt? then Ok(ItemInt(j.i))
    else if j.JString? then Ok(ItemString(j.s))
    else if j.JArray? then var items :- ParseArrayItems(j); Ok(ItemArray(items))
    else Err(NoAlternative)
  }

  function ParseArrayItems(j: Json): (r: Result<seq<ArrayItem>, Error>)
    requires j.JArray?
    decreases j, 0
    ensures r.Ok? <==> forall i :: 0 <= i < |j.elems| ==> ParseArrayItem(j.elems[i]).Ok?
    ensures r.Ok? ==>
      |r.value| == |j.elems| && forall i :: 0 <= i < |j.elems| ==> ParseArrayItem(j.elems[i]) == Ok(r.value[i])
  {
    var rs := seq(|j.elems|, i requires 0 <= i < |j.elems| => ParseArrayItem(j.elems[i]));
    assert forall i :: 0 <= i < |j.elems| ==> rs[i] == ParseArrayItem(j.elems[i]);
    AllOk(rs)
  }

  /** A value that is not a free-form object. Each kind of JSON value is
      matched by the alternative of its own kind: an object must be a
      bounding box, a float is a number, an integer stays an integer. */
  datatype InlineValue =
    | InlineBBox(bbox: BBox)
    | InlineBool(b: bool)
    | InlineNumber(n: real)
    | InlineInt(i: int)
    | InlineArray(items: seq<ArrayItem>)
    | InlineString(s: string)

  function ParseInline(j: Json): (r: Result<InlineValue, Error>)
    ensures j.JObject? ==> (r.Ok? <==> BBoxShaped(j)) && (r.Ok? ==> r == Ok(InlineBBox(ParseBBox(j).value)))
    ensures j.JBool? ==> r == Ok(InlineBool(j.b))
    ensures j.JFloat? ==> r == Ok(InlineNumber(j.r))
    ensures j.JInt? ==> r == Ok(InlineInt(j.i))
    ensures j.JString? ==> r == Ok(InlineString(j.s))
    ensures j.JNull? ==> r.Err?
    ensures j.JArray? ==> (r.Ok? <==> ParseArrayItem(j).Ok?)
    ensures j.JArray? && r.Ok? ==> r == Ok(InlineArray(ParseArrayItem(j).value.items))
  {
    match j
    case JObject(_) => var b :- ParseBBox(j); Ok(InlineBBox(b))
    case JBool(b) => Ok(InlineBool(b))
    case JFloat(x) => Ok(InlineNumber(x))
    case JInt(i) => Ok(InlineInt(i))
    case JArray(_) => var items :- ParseArrayItems(j); Ok(InlineArray(items))
    case JString(s) => Ok(InlineString(s))
    case JNull => Err(NoAlternative)
  }

  // ---------------------------------------------------------------------
  // Writing inline values back as JSON

  function CrsToJson(crs: Option<string>): Json {
    match crs
    case None => JNull
    case Some(c) => JString(c)
  }

  function BBoxToJson(b: BBox): Json {
    JObject(map[
      "bbox" := JArray(seq(|b.coords|, i requires 0 <= i < |b.coords| => JFloat(b.coords[i]))),
      "crs" := CrsToJson(b.crs)])
  }

  function ArrayItemToJson(a: ArrayItem): Json {
    match a
    case ItemBBox(b) => BBoxToJson(b)
    case ItemInt(i) => JInt(i)
    case ItemString(s) => JString(s)
    case ItemArray(items) => JArray(seq(|items|, i requires 0 <= i < |items| => ArrayItemToJson(items[i])))
  }

  function InlineToJson(v: InlineValue): Json {
    match v
    case InlineBBox(b) => BBoxToJson(b)
    case InlineBool(b) => JBool(b)
    case InlineNumber(x) => JFloat(x)
    case InlineInt(i) => JInt(i)
    case InlineArray(items) => ArrayItemToJson(ItemArray(items))
    case InlineString(s) => JString(s)
  }

  /** Every bounding box inside has exactly four coordinates. */
  predicate WellFormedItem(a: ArrayItem) {
    match a
    case ItemBBox(b) => |b.coords| == 4
    case ItemArray(items) => forall i :: 0 <= i < |items| ==> WellFormedItem(items[i])
    case _ => true
  }

  predicate WellFormedInline(v: InlineValue) {
    match v
    case InlineBBox(b) => |b.coords| == 4
    case InlineArray(items) => WellFormedItem(ItemArray(items))
    case _ => true
  }

  lemma BBoxRoundTrip(b: BBox)
    requires |b.coords| == 4
    ensures ParseBBox(BBoxToJson(b)) == Ok(b)
  {
    var j := BBoxToJson(b);
    assert BBoxShaped(j);
    var c := ParseBBox(j).value;
    assert c.coords == b.coords;
  }

  /** Reading back a written array member gives that member, at any depth
      of nesting. */
  lemma {:induction false} ArrayItemRoundTrip(a: ArrayItem)
    requires WellFormedItem(a)
    ensures ParseArrayItem(ArrayItemToJson(a)) == Ok(a)
  {
    match a
    case ItemBBox(b) => BBoxRoundTrip(b);
    case ItemInt(_) =>
    case ItemString(_) =>
    case ItemArray(items) =>
      var j := ArrayItemToJson(a);
      forall i | 0 <= i < |items| ensures ParseArrayItem(j.elems[i]) == Ok(items[i]) {
        ArrayItemRoundTrip(items[i]);
      }
      var r := ParseArrayItem(j);
      assert r.value.items == items;
  }

  lemma InlineRoundTrip(v: InlineValue)
    requires WellFormedInline(v)
    ensures ParseInline(InlineToJson(v)) == Ok(v)
  {
    match v
    case InlineBBox(b) => BBoxRoundTrip(b);
    case InlineArray(items) => ArrayItemRoundTrip(ItemArray(items));
    case _ =>
  }

  /** Every parsed array member is well formed, so the round trip above
      applies to it. */
  lemma {:induction false} ParsedItemWellFormed(j: Json)
    requires ParseArrayItem(j).Ok?
    ensures WellFormedItem(ParseArrayItem(j).value)
  {
    if j.JArray? {
      var items := ParseArrayItem(j).value.items;
      forall i | 0 <= i < |items| ensures WellFormedItem(items[i]) {
        ParsedItemWellFormed(j.elems[i]);
      }
    }
  }

  lemma ParsedInlineWellFormed(j: Json)
    requires ParseInline(j).Ok?
    ensures WellFormedInline(ParseInline(j).value)
  {
    if j.JArray? {
      ParsedItemWellFormed(j);
    }
  }

  // ---------------------------------------------------------------------
  // Formats and qualified values

  datatype FormatSchema = SchemaRef(uri: string) | SchemaObject(object: Fields)

  datatype Format = Format(mediaType: Option<string>, encoding: Option<string>, schema: Option<FormatSchema>)

  /** `mediaType`, `encoding` and `schema` are all optional; a schema is
      given by reference (a string) or inline (an object). */
  function ParseFormat(j: Json): (r: Result<Format, Error>)
    ensures r.Ok? <==>
      && j.JObject? && OptionalStringOk(j.fields, "mediaType") && OptionalStringOk(j.fields, "encoding")
      && (AbsentOrNull(j.fields, "schema") || j.fields["schema"].JString? || j.fields["schema"].JObject?)
    ensures r.Ok? ==>
      && OptStringRead(j.fields, "mediaType", r.value.mediaType)
      && OptStringRead(j.fields, "encoding", r.value.encoding)
      && (if AbsentOrNull(j.fields, "schema") then r.value.schema.None?
          else if j.fields["schema"].JString? then r.value.schema == Some(SchemaRef(j.fields["schema"].s))
          else r.value.schema == Some(SchemaObject(j.fields["schema"].fields)))
  {
    if !j.JObject? then Err(NotAnObject)
    else
      var m := j.fields;
      var mediaType :- OptString(m, "mediaType");
      var encoding :- OptString(m, "encoding");
      var schema :-
        if AbsentOrNull(m, "schema") then Ok(None)
        else if m["schema"].JString? then Ok(Some(SchemaRef(m["schema"].s)))
        else if m["schema"].JObject? then Ok(Some(SchemaObject(m["schema"].fields)))
        else Err(WrongType("schema"));
      Ok(Format(mediaType, encoding, schema))
  }

  /** An optional format read from member `k`. */
  function OptFormat(m: Fields, k: string): (r: Result<Option<Format>, Error>)
    ensures r.Ok? <==> AbsentOrNull(m, k) || ParseFormat(m[k]).Ok?
    ensures r.Ok? ==>
      if AbsentOrNull(m, k) then r.value.None? else r.value.Some? && ParseFormat(m[k]) == Ok(r.value.value)
  {
    if AbsentOrNull(m, k) then Ok(None)
    else var f :- ParseFormat(m[k]); Ok(Some(f))
  }

  /** The `value` of a qualified value: an inline value when one matches,
      otherwise any object, kept as it is. */
  datatype QualifiedContent = Inline(inline: InlineValue) | Opaque(object: Fields)

  function ParseContent(j: Json): (r: Result<QualifiedContent, Error>)
    ensures r.Ok? <==> ParseInline(j).Ok? || j.JObject?
    ensures ParseInline(j).Ok? ==> r == Ok(Inline(ParseInline(j).value))
    ensures ParseInline(j).Err? && j.JObject? ==> r == Ok(Opaque(j.fields))
  {
    if ParseInline(j).Ok? then Ok(Inline(ParseInline(j).value))
    else if j.JObject? then Ok(Opaque(j.fields))
    else Err(NoAlternative)
  }

  datatype Qualified = Qualified(value: QualifiedContent, format: Option<Format>)

  /** A qualified value whose format is read from member `formatKey`:
      `value` is mandatory and may not be `null`. */
  function ParseQualifiedFrom(j: Json, formatKey: string): (r: Result<Qualified, Error>)
    ensures r.Ok? <==>
      && j.JObject? && "value" in j.fields && ParseContent(j.fields["value"]).Ok?
      && OptFormat(j.fields, formatKey).Ok?
    ensures r.Ok? ==>
      && ParseContent(j.fields["value"]) == Ok(r.value.value)
      && (r.value.format.None? <==> AbsentOrNull(j.fields, formatKey))
      && (r.value.format.Some? ==> ParseFormat(j.fields[formatKey]) == Ok(r.value.format.value))
    ensures j.JObject? && "value" !in j.fields ==> r == Err(Missing("value"))
  {
    if !j.JObject? then Err(NotAnObject)
    else
      var m := j.fields;
      var value :- if "value" in m then ParseContent(m["value"]) else Err(Missing("value"));
      var format :- OptFormat(m, formatKey);
      Ok(Qualified(value, format))
  }

  /** The qualified value as declared: its format member has no wire
      name of its own, so it is read from the member `format_`. */
  function ParseQualifiedAsWritten(j: Json): (r: Result<Qualified, Error>)
    ensures r.Ok? ==>
      j.JObject? &&
      (if AbsentOrNull(j.fields, "format_") then r.value.format.None?
       else r.value.format.Some? && ParseFormat(j.fields["format_"]) == Ok(r.value.format.value))
    ensures j.JObject? && !AbsentOrNull(j.fields, "format_") ==>
      (ParseFormat(j.fields["format_"]).Err? ==> r.Err?)
  {
    ParseQualifiedFrom(j, "format_")
  }

  /** The qualified value with its format read from `format`, the name
      the output description uses for the same member. */
  function ParseQualified(j: Json): (r: Result<Qualified, Error>)
    ensures r.Ok? ==>
      j.JObject? &&
      (if AbsentOrNull(j.fields, "format") then r.value.format.None?
       else r.value.format.Some? && ParseFormat(j.fields["format"]) == Ok(r.value.format.value))
    ensures j.JObject? && !AbsentOrNull(j.fields, "format") ==>
      (ParseFormat(j.fields["format"]).Err? ==> r.Err?)
  {
    ParseQualifiedFrom(j, "format")
  }

  /** As written, a `format` member never reaches the parsed value: the
      document reads the same with it removed. */
  lemma AsWrittenIgnoresFormat(j: Json)
    requires j.JObject? && "format" in j.fields
    ensures ParseQualifiedAsWritten(j) == ParseQualifiedAsWritten(JObject(j.fields - {"format"}))
  {
    var m' := j.fields - {"format"};
    assert "value" in j.fields <==> "value" in m';
    assert "value" in j.fields ==> j.fields["value"] == m'["value"];
    assert "format_" in j.fields <==> "format_" in m';
    assert "format_" in j.fields ==> j.fields["format_"] == m'["format_"];
  }

  /** The qualified-value example: as written its media type is lost. */
  lemma QualifiedFormatLostAsWritten()
    ensures var j := JObject(map["value" := JInt(42), "format" := JObject(map["mediaType" := JString("text/plain")])]);
      ParseQualifiedAsWritten(j) == Ok(Qualified(Inline(InlineInt(42)), None))
  {
    var j := JObject(map["value" := JInt(42), "format" := JObject(map["mediaType" := JString("text/plain")])]);
    assert AbsentOrNull(j.fields, "format_");
  }

  /** The qualified-value example, read with its format. */
  lemma QualifiedFormatRead()
    ensures var j := JObject(map["value" := JInt(42), "format" := JObject(map["mediaType" := JString("text/plain")])]);
      ParseQualified(j) == Ok(Qualified(Inline(InlineInt(42)), Some(Format(Some("text/plain"), None, None))))
  {
    var f := JObject(map["mediaType" := JString("text/plain")]);
    assert ParseFormat(f) == Ok(Format(Some("text/plain"), None, None));
  }

  // ---------------------------------------------------------------------
  // Resolving an input value

  datatype InputValue =
    | NoObject(inline: InlineValue)
    | QualifiedInput(qualified: Qualified)
    | LinkInput(link: Link)

  /** A qualified value document: `value` present and readable, and a
      readable format under `formatKey` when one is given there. */
  predicate QualifiedShaped(j: Json, formatKey: string) {
    && j.JObject? && "value" in j.fields
    && (ParseInline(j.fields["value"]).Ok? || j.fields["value"].JObject?)
    && (AbsentOrNull(j.fields, formatKey) || ParseFormat(j.fields[formatKey]).Ok?)
  }

  /** A link document: a string `href` and optional string members. */
  predicate LinkShaped(j: Json) {
    && j.JObject? && "href" in j.fields && j.fields["href"].JString?
    && OptionalStringOk(j.fields, "type") && OptionalStringOk(j.fields, "rel")
    && OptionalStringOk(j.fields, "title") && OptionalStringOk(j.fields, "hreflang")
  }

  /** The alternatives are tried in their declared order: an inline
      value, then a qualified value whose format is read from
      `formatKey`, then a link. */
  function ResolveValueFrom(j: Json, formatKey: string): (r: Result<InputValue, Error>)
    ensures r.Ok? <==> ParseInline(j).Ok? || QualifiedShaped(j, formatKey) || LinkShaped(j)
    ensures r.Ok? && r.value.NoObject? ==> ParseInline(j) == Ok(r.value.inline)
    ensures r.Ok? && r.value.QualifiedInput? ==>
      ParseInline(j).Err? && ParseQualifiedFrom(j, formatKey) == Ok(r.value.qualified)
    ensures r.Ok? && r.value.LinkInput? ==>
      ParseInline(j).Err? && !QualifiedShaped(j, formatKey) && ParseLink(j) == Ok(r.value.link)
  {
    if ParseInline(j).Ok? then Ok(NoObject(ParseInline(j).value))
    else if ParseQualifiedFrom(j, formatKey).Ok? then Ok(QualifiedInput(ParseQualifiedFrom(j, formatKey).value))
    else if ParseLink(j).Ok? then Ok(LinkInput(ParseLink(j).value))
    else Err(NoAlternative)
  }

  /** The resolver as declared: a qualified value takes its format from
      the member `format_`. */
  function ResolveValue(j: Json): (r: Result<InputValue, Error>)
    ensures r.Ok? <==> ParseInline(j).Ok? || QualifiedShaped(j, "format_") || LinkShaped(j)
    ensures r.Ok? && r.value.QualifiedInput? ==> ParseQualifiedAsWritten(j) == Ok(r.value.qualified)
  {
    ResolveValueFrom(j, "format_")
  }

  /** The resolver with a qualified value's format read from `format`. */
  function ResolveValueIntended(j: Json): (r: Result<InputValue, Error>)
    ensures r.Ok? <==> ParseInline(j).Ok? || QualifiedShaped(j, "format") || LinkShaped(j)
    ensures r.Ok? && r.value.QualifiedInput? ==> ParseQualified(j) == Ok(r.value.qualified)
  {
    ResolveValueFrom(j, "format")
  }

  /** Precedence among the shapes of an object: a bounding box wins over
      a qualified value, which wins over a link; an object of none of
      these shapes is refused. */
  lemma ObjectResolution(j: Json, formatKey: string)
    requires j.JObject?
    ensures BBoxShaped(j) ==> ResolveValueFrom(j, formatKey) == Ok(NoObject(InlineBBox(ParseBBox(j).value)))
    ensures !BBoxShaped(j) && QualifiedShaped(j, formatKey) ==>
      ResolveValueFrom(j, formatKey) == Ok(QualifiedInput(ParseQualifiedFrom(j, formatKey).value))
    ensures !BBoxShaped(j) && !QualifiedShaped(j, formatKey) && LinkShaped(j) ==>
      ResolveValueFrom(j, formatKey) == Ok(LinkInput(ParseLink(j).value))
    ensures ResolveValueFrom(j, formatKey).Ok? <==> BBoxShaped(j) || QualifiedShaped(j, formatKey) || LinkShaped(j)
    ensures "bbox" !in j.fields && "value" !in j.fields && "href" !in j.fields ==> ResolveValueFrom(j, formatKey).Err?
  {
  }

  /** A value that is not an object can only be an inline value. */
  lemma BareResolution(j: Json, formatKey: string)
    requires !j.JObject?
    ensures ResolveValueFrom(j, formatKey).Ok? <==> ParseInline(j).Ok?
    ensures ResolveValueFrom(j, formatKey).Ok? ==> ResolveValueFrom(j, formatKey) == Ok(NoObject(ParseInline(j).value))
  {
  }

  /** What may be given for one input: one value, or a list of values
      when the list is not itself an inline array. */
  datatype InputEntry = One(value: InputValue) | Several(values: seq<InputValue>)

  function ResolveEntry(j: Json): (r: Result<InputEntry, Error>)
    ensures ResolveValue(j).Ok? ==> r == Ok(One(ResolveValue(j).value))
    ensures ResolveValue(j).Err? ==>
      (r.Ok? <==> j.JArray? && forall i :: 0 <= i < |j.elems| ==> ResolveValue(j.elems[i]).Ok?)
    ensures ResolveValue(j).Err? && r.Ok? ==>
      && r.value.Several? && j.JArray? && |r.value.values| == |j.elems|
      && forall i :: 0 <= i < |j.elems| ==> ResolveValue(j.elems[i]) == Ok(r.value.values[i])
  {
    if ResolveValue(j).Ok? then Ok(One(ResolveValue(j).value))
    else if !j.JArray? then Err(NoAlternative)
    else
      var values :- ParseList(j, "inputs", ResolveValue);
      Ok(Several(values))
  }

  // ---------------------------------------------------------------------
  // Requested outputs, subscriber and the request itself

  datatype ExecutionOutput = ExecutionOutput(format: Option<Format>, transmissionMode: Option<TransmissionMode>)

  /** `transmissionMode` defaults to `value` and may be `null`. */
  function ParseExecutionOutput(j: Json): (r: Result<ExecutionOutput, Error>)
    ensures r.Ok? <==>
      && j.JObject? && OptFormat(j.fields, "format").Ok?
      && OptionalTokenOk(j.fields, "transmissionMode", ParseTransmissionMode)
    ensures r.Ok? ==>
      && OptTokenOrRead(j.fields, "transmissionMode", ParseTransmissionMode, TransmissionMode.Value,
                        r.value.transmissionMode)
      && OptFormat(j.fields, "format") == Ok(r.value.format)
  {
    if !j.JObject? then Err(NotAnObject)
    else
      var m := j.fields;
      var format :- OptFormat(m, "format");
      var mode :- OptTokenOr(m, "transmissionMode", ParseTransmissionMode, TransmissionMode.Value);
      Ok(ExecutionOutput(format, mode))
  }

  datatype Subscriber = Subscriber(successUri: string, inProgressUri: Option<string>, failedUri: Option<string>)

  /** `successUri` is mandatory. */
  function ParseSubscriber(j: Json): (r: Result<Subscriber, Error>)
    ensures r.Ok? <==>
      && j.JObject? && "successUri" in j.fields && j.fields["successUri"].JString?
      && OptionalStringOk(j.fields, "inProgressUri") && OptionalStringOk(j.fields, "failedUri")
    ensures r.Ok? ==>
      && j.fields["successUri"] == JString(r.value.successUri)
      && OptStringRead(j.fields, "inProgressUri", r.value.inProgressUri)
      && OptStringRead(j.fields, "failedUri", r.value.failedUri)
    ensures j.JObject? && "successUri" !in j.fields ==> r == Err(Missing("successUri"))
  {
    if !j.JObject? then Err(NotAnObject)
    else
      var m := j.fields;
      var successUri :- RequiredString(m, "successUri");
      var inProgressUri :- OptString(m, "inProgressUri");
      var failedUri :- OptString(m, "failedUri");
      Ok(Subscriber(successUri, inProgressUri, failedUri))
  }

  function OptSubscriber(m: Fields): (r: Result<Option<Subscriber>, Error>)
    ensures r.Ok? <==> AbsentOrNull(m, "subscriber") || ParseSubscriber(m["subscriber"]).Ok?
    ensures r.Ok? ==>
      if AbsentOrNull(m, "subscriber") then r.value.None?
      else r.value.Some? && ParseSubscriber(m["subscriber"]) == Ok(r.value.value)
  {
    if AbsentOrNull(m, "subscriber") then Ok(None)
    else var s :- ParseSubscriber(m["subscriber"]); Ok(Some(s))
  }

  datatype ExecutionRequest = ExecutionRequest(
    inputs: Option<map<string, InputEntry>>,
    outputs: Option<map<string, ExecutionOutput>>,
    response: Option<ResponseType>,
    subscriber: Option<Subscriber>)

  /** Everything an execution request must satisfy, member by member. */
  predicate ExecutionAccepted(j: Json) {
    && j.JObject?
    && OptionalDictOk(j.fields, "inputs", ResolveEntry)
    && OptionalDictOk(j.fields, "outputs", ParseExecutionOutput)
    && OptionalTokenOk(j.fields, "response", ParseResponseType)
    && (AbsentOrNull(j.fields, "subscriber") || ParseSubscriber(j.fields["subscriber"]).Ok?)
  }

  /** Every member is optional; `response` defaults to `raw`. */
  function ParseExecution(j: Json): (r: Result<ExecutionRequest, Error>)
    ensures r.Ok? <==> ExecutionAccepted(j)
    ensures r.Ok? ==>
      && OptDictRead(j.fields, "inputs", ResolveEntry, r.value.inputs)
      && OptDictRead(j.fields, "outputs", ParseExecutionOutput, r.value.outputs)
      && OptTokenOrRead(j.fields, "response", ParseResponseType, ResponseType.Raw, r.value.response)
      && OptSubscriber(j.fields) == Ok(r.value.subscriber)
    ensures j.JObject? && "inputs" in j.fields && j.fields["inputs"].JObject? ==>
      (forall n :: n in j.fields["inputs"].fields && ResolveEntry(j.fields["inputs"].fields[n]).Err? ==> r.Err?)
  {
    if !j.JObject? then Err(NotAnObject)
    else
      var m := j.fields;
      var inputs :- OptDict(m, "inputs", ResolveEntry);
      var outputs :- OptDict(m, "outputs", ParseExecutionOutput);
      var response :- OptTokenOr(m, "response", ParseResponseType, ResponseType.Raw);
      var subscriber :- OptSubscriber(m);
      Ok(ExecutionRequest(inputs, outputs, response, subscriber))
  }

  // ---------------------------------------------------------------------
  // Examples

  /** A bare bounding box takes the default reference system. */
  lemma BBoxExample()
    ensures var j := JObject(map["bbox" := JArray([JFloat(-71.1), JFloat(42.3), JFloat(-71.0), JFloat(42.4)])]);
      ResolveValue(j) == Ok(NoObject(InlineBBox(BBox([-71.1, 42.3, -71.0, 42.4], Some(Crs84)))))
  {
    var j := JObject(map["bbox" := JArray([JFloat(-71.1), JFloat(42.3), JFloat(-71.0), JFloat(42.4)])]);
    assert BBoxShaped(j);
    assert ParseBBox(j).value.coords == [-71.1, 42.3, -71.0, 42.4];
  }

  /** A bounding box wins even when the object also has `value` and
      `href` members. */
  lemma BBoxBeforeQualifiedAndLink()
    ensures var j := JObject(map["bbox" := JArray([JInt(0), JInt(0), JInt(1), JInt(1)]),
                                 "value" := JInt(1), "href" := JString("x")]);
      ResolveValue(j).Ok? && ResolveValue(j).value.NoObject?
  {
    var j := JObject(map["bbox" := JArray([JInt(0), JInt(0), JInt(1), JInt(1)]),
                         "value" := JInt(1), "href" := JString("x")]);
    assert BBoxShaped(j);
  }

  /** With three coordinates the box is refused and the object falls
      through to the qualified value. */
  lemma ShortBBoxFallsThrough()
    ensures var j := JObject(map["bbox" := JArray([JInt(0), JInt(0), JInt(1)]), "value" := JInt(1)]);
      ResolveValue(j) == Ok(QualifiedInput(Qualified(Inline(InlineInt(1)), None)))
  {
    var j := JObject(map["bbox" := JArray([JInt(0), JInt(0), JInt(1)]), "value" := JInt(1)]);
    assert !BBoxShaped(j);
    assert AbsentOrNull(j.fields, "format_");
  }

  /** A malformed `format` member does not stop the declared resolver,
      which never reads it; read as `format`, the same member refuses the
      document. */
  lemma UnderscorelessFormatIgnored()
    ensures var j := JObject(map["value" := JInt(1), "format" := JInt(5)]);
      && ResolveValue(j) == Ok(QualifiedInput(Qualified(Inline(InlineInt(1)), None)))
      && ResolveValueIntended(j).Err?
  {
    var j := JObject(map["value" := JInt(1), "format" := JInt(5)]);
    assert AbsentOrNull(j.fields, "format_");
    assert !QualifiedShaped(j, "format");
  }

  /** A malformed `format_` member refuses the document under the declared
      resolver, and is ignored when the format is read from `format`. */
  lemma UnderscoredFormatRead()
    ensures var j := JObject(map["value" := JInt(1), "format_" := JInt(5)]);
      && ResolveValue(j).Err?
      && ResolveValueIntended(j) == Ok(QualifiedInput(Qualified(Inline(InlineInt(1)), None)))
  {
    var j := JObject(map["value" := JInt(1), "format_" := JInt(5)]);
    assert !QualifiedShaped(j, "format_");
    assert !LinkShaped(j);
    assert AbsentOrNull(j.fields, "format");
  }

  /** The qualified-value example as an input: the declared resolver drops
      its media type, the other keeps it. */
  lemma ResolversDisagreeOnFormat()
    ensures var j := JObject(map["value" := JInt(42), "format" := JObject(map["mediaType" := JString("text/plain")])]);
      && ResolveValue(j) == Ok(QualifiedInput(Qualified(Inline(InlineInt(42)), None)))
      && ResolveValueIntended(j) ==
           Ok(QualifiedInput(Qualified(Inline(InlineInt(42)), Some(Format(Some("text/plain"), None, None)))))
  {
    var j := JObject(map["value" := JInt(42), "format" := JObject(map["mediaType" := JString("text/plain")])]);
    QualifiedFormatLostAsWritten();
    QualifiedFormatRead();
  }

  /** An object with only an `href` is a link. */
  lemma LinkFallback()
    ensures var j := JObject(map["href" := JString("https://example.org/data.json")]);
      ResolveValue(j) == Ok(LinkInput(Link("https://example.org/data.json", None, None, None, None)))
  {
    var j := JObject(map["href" := JString("https://example.org/data.json")]);
    assert "value" !in j.fields;
    assert ParseQualifiedAsWritten(j).Err?;
  }

  /** An object of no known shape is refused. */
  lemma UnknownObjectRefused()
    ensures ResolveEntry(JObject(map["answer" := JInt(42)])).Err?
  {
    var j := JObject(map["answer" := JInt(42)]);
    ObjectResolution(j, "format_");
  }

  /** A list that is an inline array is one value; a list of links is
      several values. */
  lemma ListResolution()
    ensures ResolveEntry(JArray([JInt(1), JString("a")])) ==
      Ok(One(NoObject(InlineArray([ItemInt(1), ItemString("a")]))))
    ensures var l := JObject(map["href" := JString("x")]);
      ResolveEntry(JArray([l, l])).Ok? && ResolveEntry(JArray([l, l])).value.Several?
  {
    var a := JArray([JInt(1), JString("a")]);
    assert ParseArrayItem(a).value.items == [ItemInt(1), ItemString("a")];
    var l := JObject(map["href" := JString("x")]);
    assert ParseArrayItem(l).Err?;
    assert ParseInline(JArray([l, l])).Err?;
    assert ParseQualifiedAsWritten(l).Err?;
    assert ResolveValue(l).Ok?;
  }

  /** An empty request takes the `raw` response and nothing else. */
  lemma EmptyRequest()
    ensures ParseExecution(JObject(map[])) == Ok(ExecutionRequest(None, None, Some(ResponseType.Raw), None))
  {
  }
}
