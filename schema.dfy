/** ProcessIOSchema: the `schema.yml` fragment of OGC API - Processes, a
    JSON-Schema-like constraint set that nests through `not`, `allOf`,
    `oneOf`, `anyOf`, `items`, `properties` and `additionalProperties`.
    The fields are grouped as the fragment groups them; every group is read
    from the same JSON object with its camelCase wire keys. */
module Schema {
  import opened Wrappers
  import opened Json
  import opened FieldReaders
  import opened Vocabulary

  /** `title`, `description`, `default`, `example` and the boolean flags.
      `default` and `example` are kept as the raw text handed to the JSON
      decoder. */
  datatype Annotations = Annotations(
    title: Option<string>,
    description: Option<string>,
    defaultText: Option<string>,
    exampleText: Option<string>,
    nullable: bool,
    readOnly: bool,
    writeOnly: bool,
    deprecated: bool)

  datatype NumericConstraints = NumericConstraints(
    multipleOf: Option<real>,
    maximum: Option<real>,
    exclusiveMaximum: bool,
    minimum: Option<real>,
    exclusiveMinimum: bool)

  datatype StringConstraints = StringConstraints(
    maxLength: Option<nat>,
    minLength: nat,
    pattern: Option<string>,
    contentMediaType: Option<string>,
    contentEncoding: Option<string>,
    contentSchema: Option<string>)

  datatype ArrayConstraints = ArrayConstraints(
    maxItems: Option<nat>,
    minItems: nat,
    uniqueItems: bool)

  datatype ObjectConstraints = ObjectConstraints(
    maxProperties: Option<nat>,
    minProperties: nat,
    required: Option<seq<string>>)

  datatype ValueConstraints = ValueConstraints(
    enumValues: Option<seq<Json>>,
    ioType: Option<IOType>,
    ioFormat: Option<IOFormat>)

  /** The list under `allOf`, `oneOf`, `anyOf` or `items`. */
  datatype SchemaList = SchemaList(schemas: seq<IOSchema>)

  /** `additionalProperties`: a boolean or a nested schema. */
  datatype AdditionalProperties = Allowed(allowed: bool) | Constrained(schema: IOSchema)

  datatype IOSchema = IOSchema(
    annotations: Annotations,
    numeric: NumericConstraints,
    strings: StringConstraints,
    arrays: ArrayConstraints,
    objects: ObjectConstraints,
    values: ValueConstraints,
    notSchema: Option<IOSchema>,
    allOf: Option<SchemaList>,
    oneOf: Option<SchemaList>,
    anyOf: Option<SchemaList>,
    items: Option<SchemaList>,
    properties: Option<IOSchema>,
    additionalProperties: AdditionalProperties)

  // ---------------------------------------------------------------------
  // The non-recursive groups

  function ParseAnnotations(m: Fields): (r: Result<Annotations, Error>)
    ensures r.Ok? <==>
      && OptionalStringOk(m, "title") && OptionalStringOk(m, "description")
      && OptionalStringOk(m, "default") && OptionalStringOk(m, "example")
      && BoolOk(m, "nullable") && BoolOk(m, "readOnly")
      && BoolOk(m, "writeOnly") && BoolOk(m, "deprecated")
    ensures r.Ok? ==>
      && OptStringRead(m, "title", r.value.title)
      && OptStringRead(m, "description", r.value.description)
      && OptStringRead(m, "default", r.value.defaultText)
      && OptStringRead(m, "example", r.value.exampleText)
    ensures r.Ok? ==>
      && BoolRead(m, "nullable", false, r.value.nullable)
      && BoolRead(m, "readOnly", false, r.value.readOnly)
      && BoolRead(m, "writeOnly", false, r.value.writeOnly)
      && BoolRead(m, "deprecated", false, r.value.deprecated)
  {
    var title :- OptString(m, "title");
    var description :- OptString(m, "description");
    var defaultText :- OptString(m, "default");
    var exampleText :- OptString(m, "example");
    var nullable :- BoolOr(m, "nullable", false);
    var readOnly :- BoolOr(m, "readOnly", false);
    var writeOnly :- BoolOr(m, "writeOnly", false);
    var deprecated :- BoolOr(m, "deprecated", false);
    Ok(Annotations(title, description, defaultText, exampleText, nullable, readOnly, writeOnly, deprecated))
  }

  function ParseNumericConstraints(m: Fields): (r: Result<NumericConstraints, Error>)
    ensures r.Ok? <==>
      && OptionalNumberOk(m, "multipleOf") && OptionalNumberOk(m, "maximum")
      && OptionalNumberOk(m, "minimum")
      && BoolOk(m, "exclusiveMaximum") && BoolOk(m, "exclusiveMinimum")
    ensures r.Ok? ==>
      && OptNumberRead(m, "multipleOf", r.value.multipleOf)
      && OptNumberRead(m, "maximum", r.value.maximum)
      && OptNumberRead(m, "minimum", r.value.minimum)
      && BoolRead(m, "exclusiveMaximum", false, r.value.exclusiveMaximum)
      && BoolRead(m, "exclusiveMinimum", false, r.value.exclusiveMinimum)
  {
    var multipleOf :- OptNumber(m, "multipleOf");
    var maximum :- OptNumber(m, "maximum");
    var exclusiveMaximum :- BoolOr(m, "exclusiveMaximum", false);
    var minimum :- OptNumber(m, "minimum");
    var exclusiveMinimum :- BoolOr(m, "exclusiveMinimum", false);
    Ok(NumericConstraints(multipleOf, maximum, exclusiveMaximum, minimum, exclusiveMinimum))
  }

  /** `minLength` and `maxLength` must not be negative; `minLength`
      defaults to 0 and `maxLength` to None. No order between the two is
      required. */
  function ParseStringConstraints(m: Fields): (r: Result<StringConstraints, Error>)
    ensures r.Ok? <==>
      && OptionalNatOk(m, "maxLength") && NatOk(m, "minLength")
      && OptionalStringOk(m, "pattern") && OptionalStringOk(m, "contentMediaType")
      && OptionalStringOk(m, "contentEncoding") && OptionalStringOk(m, "contentSchema")
    ensures NegativeAt(m, "minLength") || NegativeAt(m, "maxLength") ==> r.Err?
    ensures r.Ok? ==>
      && IntRead(m, "minLength", 0, r.value.minLength)
      && OptNatRead(m, "maxLength", r.value.maxLength)
      && OptStringRead(m, "pattern", r.value.pattern)
      && OptStringRead(m, "contentMediaType", r.value.contentMediaType)
      && OptStringRead(m, "contentEncoding", r.value.contentEncoding)
      && OptStringRead(m, "contentSchema", r.value.contentSchema)
  {
    var maxLength :- OptNat(m, "maxLength");
    var minLength :- NatOr(m, "minLength", 0);
    var pattern :- OptString(m, "pattern");
    var contentMediaType :- OptString(m, "contentMediaType");
    var contentEncoding :- OptString(m, "contentEncoding");
    var contentSchema :- OptString(m, "contentSchema");
    Ok(StringConstraints(maxLength, minLength, pattern, contentMediaType, contentEncoding, contentSchema))
  }

  /** `minItems` and `maxItems` must not be negative; `minItems` defaults
      to 0, `maxItems` to None and `uniqueItems` to false. */
  function ParseArrayConstraints(m: Fields): (r: Result<ArrayConstraints, Error>)
    ensures r.Ok? <==> OptionalNatOk(m, "maxItems") && NatOk(m, "minItems") && BoolOk(m, "uniqueItems")
    ensures NegativeAt(m, "minItems") || NegativeAt(m, "maxItems") ==> r.Err?
    ensures r.Ok? ==>
      && IntRead(m, "minItems", 0, r.value.minItems)
      && OptNatRead(m, "maxItems", r.value.maxItems)
      && BoolRead(m, "uniqueItems", false, r.value.uniqueItems)
  {
    var maxItems :- OptNat(m, "maxItems");
    var minItems :- NatOr(m, "minItems", 0);
    var uniqueItems :- BoolOr(m, "uniqueItems", false);
    Ok(ArrayConstraints(maxItems, minItems, uniqueItems))
  }

  /** `required`, when given, is a non-empty list of distinct strings. */
  predicate RequiredOk(m: Fields) {
    AbsentOrNull(m, "required")
    || (m["required"].JArray? && AllStrings(m["required"].elems)
        && |m["required"].elems| > 0 && Distinct(Strings(m["required"].elems)))
  }

  function ParseRequired(m: Fields): (r: Result<Option<seq<string>>, Error>)
    ensures r.Ok? <==> RequiredOk(m)
    ensures r.Ok? && r.value.None? <==> AbsentOrNull(m, "required")
    ensures r.Ok? && r.value.Some? ==>
      && |r.value.value| > 0 && Distinct(r.value.value)
      && |r.value.value| == |m["required"].elems|
      && forall i :: 0 <= i < |r.value.value| ==> m["required"].elems[i] == JString(r.value.value[i])
  {
    if AbsentOrNull(m, "required") then Ok(None)
    else if !m["required"].JArray? || !AllStrings(m["required"].elems) then Err(WrongType("required"))
    else
      var names := Strings(m["required"].elems);
      if |names| == 0 then Err(EmptyList("required"))
      else if !Distinct(names) then Err(DuplicateItems("required"))
      else Ok(Some(names))
  }

  /** `minProperties` and `maxProperties` must not be negative;
      `minProperties` defaults to 0 and `maxProperties` to None. */
  function ParseObjectConstraints(m: Fields): (r: Result<ObjectConstraints, Error>)
    ensures r.Ok? <==> OptionalNatOk(m, "maxProperties") && NatOk(m, "minProperties") && RequiredOk(m)
    ensures NegativeAt(m, "minProperties") || NegativeAt(m, "maxProperties") ==> r.Err?
    ensures r.Ok? ==>
      && IntRead(m, "minProperties", 0, r.value.minProperties)
      && OptNatRead(m, "maxProperties", r.value.maxProperties)
      && ParseRequired(m) == Ok(r.value.required)
      && (r.value.required.Some? ==> |r.value.required.value| > 0 && Distinct(r.value.required.value))
  {
    var maxProperties :- OptNat(m, "maxProperties");
    var minProperties :- NatOr(m, "minProperties", 0);
    var required :- ParseRequired(m);
    Ok(ObjectConstraints(maxProperties, minProperties, required))
  }

  /** A closed-vocabulary field: absent or `null`, or the token of a member. */
  predicate TokenOk(m: Fields, k: string, isToken: string -> bool) {
    AbsentOrNull(m, k) || (m[k].JString? && isToken(m[k].s))
  }

  /** `enum`, when given, is a non-empty list (duplicates allowed); `type`
      and `format`, when given, are tokens of their vocabularies. */
  function ParseValueConstraints(m: Fields): (r: Result<ValueConstraints, Error>)
    ensures r.Ok? <==>
      && (AbsentOrNull(m, "enum") || (m["enum"].JArray? && |m["enum"].elems| > 0))
      && TokenOk(m, "type", s => ParseIOType(s).Some?)
      && TokenOk(m, "format", s => ParseIOFormat(s).Some?)
    ensures r.Ok? ==>
      && (if AbsentOrNull(m, "enum") then r.value.enumValues == None
          else r.value.enumValues == Some(m["enum"].elems))
      && (if AbsentOrNull(m, "type") then r.value.ioType == None
          else r.value.ioType.Some? && IOTypeToken(r.value.ioType.value) == m["type"].s)
      && (if AbsentOrNull(m, "format") then r.value.ioFormat == None
          else r.value.ioFormat.Some? && IOFormatToken(r.value.ioFormat.value) == m["format"].s)
  {
    var enumValues :-
      if AbsentOrNull(m, "enum") then Ok(None)
      else if !m["enum"].JArray? then Err(WrongType("enum"))
      else if |m["enum"].elems| == 0 then Err(EmptyList("enum"))
      else Ok(Some(m["enum"].elems));
    var ioType :-
      if AbsentOrNull(m, "type") then Ok(None)
      else if !m["type"].JString? then Err(WrongType("type"))
      else if ParseIOType(m["type"].s).None? then Err(UnknownToken("type"))
      else Ok(ParseIOType(m["type"].s));
    var ioFormat :-
      if AbsentOrNull(m, "format") then Ok(None)
      else if !m["format"].JString? then Err(WrongType("format"))
      else if ParseIOFormat(m["format"].s).None? then Err(UnknownToken("format"))
      else Ok(ParseIOFormat(m["format"].s));
    Ok(ValueConstraints(enumValues, ioType, ioFormat))
  }

  // ---------------------------------------------------------------------
  // The recursive schema

  /** Reads a schema fragment; any key the fragment does not declare is
      ignored. */
  function ParseSchema(j: Json): (r: Result<IOSchema, Error>)
    ensures !j.JObject? ==> r == Err(NotAnObject)
    ensures r.Ok? ==> j.JObject? && Valid(r.value)
    decreases j, 1
  {
    if !j.JObject? then Err(NotAnObject)
    else
      var m := j.fields;
      var annotations :- ParseAnnotations(m);
      var numeric :- ParseNumericConstraints(m);
      var strings :- ParseStringConstraints(m);
      var arrays :- ParseArrayConstraints(m);
      var objects :- ParseObjectConstraints(m);
      var values :- ParseValueConstraints(m);
      var notSchema :- ParseOptSubschema(j, "not");
      var allOf :- ParseOptSubschemas(j, "allOf");
      var oneOf :- ParseOptSubschemas(j, "oneOf");
      var anyOf :- ParseOptSubschemas(j, "anyOf");
      var items :- ParseOptSubschemas(j, "items");
      var properties :- ParseOptSubschema(j, "properties");
      var additionalProperties :- ParseAdditionalProperties(j);
      Ok(IOSchema(annotations, numeric, strings, arrays, objects, values,
                  notSchema, allOf, oneOf, anyOf, items, properties, additionalProperties))
  }

  /** `not` and `properties`: an optional nested schema. */
  function ParseOptSubschema(j: Json, k: string): (r: Result<Option<IOSchema>, Error>)
    requires j.JObject?
    ensures r.Ok? <==> AbsentOrNull(j.fields, k) || ParseSchema(j.fields[k]).Ok?
    ensures r.Ok? ==>
      if AbsentOrNull(j.fields, k) then r.value == None
      else r.value.Some? && ParseSchema(j.fields[k]) == Ok(r.value.value)
    decreases j, 0
  {
    if AbsentOrNull(j.fields, k) then Ok(None)
    else
      var s :- ParseSchema(j.fields[k]);
      Ok(Some(s))
  }

  /** `allOf`, `oneOf`, `anyOf` and `items`: an optional list of nested schemas. */
  function ParseOptSubschemas(j: Json, k: string): (r: Result<Option<SchemaList>, Error>)
    requires j.JObject?
    ensures r.Ok? <==>
      || AbsentOrNull(j.fields, k)
      || (j.fields[k].JArray? &&
          forall i :: 0 <= i < |j.fields[k].elems| ==> ParseSchema(j.fields[k].elems[i]).Ok?)
    ensures r.Ok? ==>
      if AbsentOrNull(j.fields, k) then r.value == None
      else
        && r.value.Some? && |r.value.value.schemas| == |j.fields[k].elems|
        && forall i :: 0 <= i < |j.fields[k].elems| ==>
             ParseSchema(j.fields[k].elems[i]) == Ok(r.value.value.schemas[i])
    decreases j, 0
  {
    if AbsentOrNull(j.fields, k) then Ok(None)
    else if !j.fields[k].JArray? then Err(WrongType(k))
    else
      var xs := j.fields[k].elems;
      var rs := seq(|xs|, i requires 0 <= i < |xs| => ParseSchema(xs[i]));
      assert forall i :: 0 <= i < |xs| ==> rs[i] == ParseSchema(xs[i]);
      var schemas :- AllOk(rs);
      Ok(Some(SchemaList(schemas)))
  }

  /** `additionalProperties` defaults to true; `null` is refused. */
  function ParseAdditionalProperties(j: Json): (r: Result<AdditionalProperties, Error>)
    requires j.JObject?
    ensures "additionalProperties" !in j.fields ==> r == Ok(Allowed(true))
    ensures "additionalProperties" in j.fields ==>
      match j.fields["additionalProperties"]
      case JBool(b) => r == Ok(Allowed(b))
      case JObject(_) =>
        (r.Ok? <==> ParseSchema(j.fields["additionalProperties"]).Ok?) &&
        (r.Ok? ==> r == Ok(Constrained(ParseSchema(j.fields["additionalProperties"]).value)))
      case _ => r.Err?
    decreases j, 0
  {
    var k := "additionalProperties";
    if k !in j.fields then Ok(Allowed(true))
    else match j.fields[k]
      case JBool(b) => Ok(Allowed(b))
      case JObject(_) =>
        var s :- ParseSchema(j.fields[k]);
        Ok(Constrained(s))
      case _ => Err(WrongType(k))
  }

  // ---------------------------------------------------------------------
  // Properties of the recursive schema

  /** The rules every schema node the parser returns keeps: `required`, when
      present, is non-empty with distinct names, `enum`, when present, is
      non-empty, and every nested schema keeps the same rules. */
  predicate Valid(s: IOSchema)
    decreases s
  {
    && (s.objects.required.Some? ==>
          |s.objects.required.value| > 0 && Distinct(s.objects.required.value))
    && (s.values.enumValues.Some? ==> |s.values.enumValues.value| > 0)
    && (s.notSchema.Some? ==> Valid(s.notSchema.value))
    && (s.allOf.Some? ==> forall t :: t in s.allOf.value.schemas ==> Valid(t))
    && (s.oneOf.Some? ==> forall t :: t in s.oneOf.value.schemas ==> Valid(t))
    && (s.anyOf.Some? ==> forall t :: t in s.anyOf.value.schemas ==> Valid(t))
    && (s.items.Some? ==> forall t :: t in s.items.value.schemas ==> Valid(t))
    && (s.properties.Some? ==> Valid(s.properties.value))
    && (s.additionalProperties.Constrained? ==> Valid(s.additionalProperties.schema))
  }

  /** ParseSchema succeeds exactly when every group and every composition
      keyword is read without error, and then assembles their values (a
      helper for the lemmas below). */
  lemma ParseSchemaParts(j: Json)
    requires j.JObject?
    ensures var m := j.fields;
      ParseSchema(j).Ok? <==>
        && ParseAnnotations(m).Ok? && ParseNumericConstraints(m).Ok?
        && ParseStringConstraints(m).Ok? && ParseArrayConstraints(m).Ok?
        && ParseObjectConstraints(m).Ok? && ParseValueConstraints(m).Ok?
        && ParseOptSubschema(j, "not").Ok? && ParseOptSubschemas(j, "allOf").Ok?
        && ParseOptSubschemas(j, "oneOf").Ok? && ParseOptSubschemas(j, "anyOf").Ok?
        && ParseOptSubschemas(j, "items").Ok? && ParseOptSubschema(j, "properties").Ok?
        && ParseAdditionalProperties(j).Ok?
    ensures var m := j.fields;
      ParseSchema(j).Ok? ==>
        ParseSchema(j).value == IOSchema(
          ParseAnnotations(m).value, ParseNumericConstraints(m).value,
          ParseStringConstraints(m).value, ParseArrayConstraints(m).value,
          ParseObjectConstraints(m).value, ParseValueConstraints(m).value,
          ParseOptSubschema(j, "not").value, ParseOptSubschemas(j, "allOf").value,
          ParseOptSubschemas(j, "oneOf").value, ParseOptSubschemas(j, "anyOf").value,
          ParseOptSubschemas(j, "items").value, ParseOptSubschema(j, "properties").value,
          ParseAdditionalProperties(j).value)
  {
  }

  /** The value under `k` when it is present and not `null`. */
  function OptChild(m: Fields, k: string): seq<Json> {
    if AbsentOrNull(m, k) then [] else [m[k]]
  }

  /** The members of the list under `k`, when there is one. */
  function ListChildren(m: Fields, k: string): seq<Json> {
    if k in m && m[k].JArray? then m[k].elems else []
  }

  /** The direct subschemas of a fragment: the values under `not` and
      `properties`, the members of `allOf`, `oneOf`, `anyOf` and `items`, and
      `additionalProperties` when it is an object. */
  function Subschemas(m: Fields): seq<Json> {
    OptChild(m, "not") + ListChildren(m, "allOf") + ListChildren(m, "oneOf")
    + ListChildren(m, "anyOf") + ListChildren(m, "items") + OptChild(m, "properties")
    + (if "additionalProperties" in m && m["additionalProperties"].JObject?
       then [m["additionalProperties"]] else [])
  }

  /** A composition list is absent, `null` or a list. */
  predicate ListShapeOk(m: Fields, k: string) {
    AbsentOrNull(m, k) || m[k].JArray?
  }

  /** Everything a fragment must satisfy apart from its subschemas. */
  predicate LocallyAccepted(m: Fields) {
    && ParseAnnotations(m).Ok? && ParseNumericConstraints(m).Ok?
    && ParseStringConstraints(m).Ok? && ParseArrayConstraints(m).Ok?
    && ParseObjectConstraints(m).Ok? && ParseValueConstraints(m).Ok?
    && ListShapeOk(m, "allOf") && ListShapeOk(m, "oneOf")
    && ListShapeOk(m, "anyOf") && ListShapeOk(m, "items")
    && ("additionalProperties" in m ==>
          m["additionalProperties"].JBool? || m["additionalProperties"].JObject?)
  }

  /** Every document of `cs` is accepted as a schema. */
  predicate AllAccepted(cs: seq<Json>) {
    forall c :: c in cs ==> ParseSchema(c).Ok?
  }

  /** A fragment is accepted exactly when its own fields are accepted and
      each of its direct subschemas is accepted under the same rules. */
  lemma AcceptedIffSubschemasAccepted(j: Json)
    ensures ParseSchema(j).Ok? <==>
      j.JObject? && LocallyAccepted(j.fields) && AllAccepted(Subschemas(j.fields))
  {
    if j.JObject? {
      var m := j.fields;
      ParseSchemaParts(j);
      OptAccepted(j, "not");
      ListAccepted(j, "allOf");
      ListAccepted(j, "oneOf");
      ListAccepted(j, "anyOf");
      ListAccepted(j, "items");
      OptAccepted(j, "properties");
      var extra := if "additionalProperties" in m && m["additionalProperties"].JObject?
                   then [m["additionalProperties"]] else [];
      AdditionalAccepted(j);
      var a := OptChild(m, "not") + ListChildren(m, "allOf");
      AllAcceptedConcat(OptChild(m, "not"), ListChildren(m, "allOf"));
      AllAcceptedConcat(a, ListChildren(m, "oneOf"));
      a := a + ListChildren(m, "oneOf");
      AllAcceptedConcat(a, ListChildren(m, "anyOf"));
      a := a + ListChildren(m, "anyOf");
      AllAcceptedConcat(a, ListChildren(m, "items"));
      a := a + ListChildren(m, "items");
      AllAcceptedConcat(a, OptChild(m, "properties"));
      a := a + OptChild(m, "properties");
      AllAcceptedConcat(a, extra);
      assert Subschemas(m) == a + extra;
    }
  }

  lemma AllAcceptedConcat(a: seq<Json>, b: seq<Json>)
    ensures AllAccepted(a + b) <==> AllAccepted(a) && AllAccepted(b)
  {
    assert forall c :: c in a + b <==> c in a || c in b;
  }

  lemma OptAccepted(j: Json, k: string)
    requires j.JObject?
    ensures ParseOptSubschema(j, k).Ok? <==> AllAccepted(OptChild(j.fields, k))
  {
    if !AbsentOrNull(j.fields, k) {
      assert j.fields[k] in OptChild(j.fields, k);
    }
  }

  lemma AdditionalAccepted(j: Json)
    requires j.JObject?
    ensures var m := j.fields;
      ParseAdditionalProperties(j).Ok? <==>
        && ("additionalProperties" in m ==>
              m["additionalProperties"].JBool? || m["additionalProperties"].JObject?)
        && AllAccepted(if "additionalProperties" in m && m["additionalProperties"].JObject?
                       then [m["additionalProperties"]] else [])
  {
    var m := j.fields;
    if "additionalProperties" in m && m["additionalProperties"].JObject? {
      assert m["additionalProperties"] in [m["additionalProperties"]];
    }
  }

  lemma ListAccepted(j: Json, k: string)
    requires j.JObject?
    ensures ParseOptSubschemas(j, k).Ok? <==>
      ListShapeOk(j.fields, k) && AllAccepted(ListChildren(j.fields, k))
  {
    if !AbsentOrNull(j.fields, k) && j.fields[k].JArray? {
      var xs := j.fields[k].elems;
      assert ListChildren(j.fields, k) == xs;
      if ParseOptSubschemas(j, k).Ok? {
        forall c | c in xs ensures ParseSchema(c).Ok? {
          var i :| 0 <= i < |xs| && xs[i] == c;
        }
      } else if AllAccepted(xs) {
        forall i | 0 <= i < |xs| ensures ParseSchema(xs[i]).Ok? {
          assert xs[i] in xs;
        }
        assert false;
      }
    }
  }

  // ---------------------------------------------------------------------
  // Concrete fragments

  /** The empty fragment `{}` is an accepted schema. */
  lemma EmptySchemaAccepted()
    ensures ParseSchema(JObject(map[])).Ok?
  {
    var m: Fields := map[];
    EmptyLocallyAccepted(m);
    assert Subschemas(m) == [];
    AcceptedIffSubschemasAccepted(JObject(m));
  }

  /** `enum` may repeat a value. */
  lemma EnumMayRepeat(j: Json)
    requires j.JObject? && j.fields.Keys == {"enum"} && j.fields["enum"] == JArray([JInt(1), JInt(1)])
    ensures ParseSchema(j).Ok?
  {
    var m := j.fields;
    UntypedGroupsAccepted(m);
    assert ParseStringConstraints(m).Ok? && ParseValueConstraints(m).Ok?;
    assert Subschemas(m) == [];
    AcceptedIffSubschemasAccepted(j);
  }

  /** `required` may not repeat a name. */
  lemma RequiredMayNotRepeat()
    ensures var m := map["required" := JArray([JString("a"), JString("a")])];
      ParseSchema(JObject(m)).Err? && ParseObjectConstraints(m) == Err(DuplicateItems("required"))
  {
    var m := map["required" := JArray([JString("a"), JString("a")])];
    var names := Strings(m["required"].elems);
    assert names[0] == names[1];
    ParseSchemaParts(JObject(m));
  }

  /** `required` may not be empty. */
  lemma RequiredMayNotBeEmpty()
    ensures var m := map["required" := JArray([])];
      ParseSchema(JObject(m)).Err? && ParseObjectConstraints(m) == Err(EmptyList("required"))
  {
    ParseSchemaParts(JObject(map["required" := JArray([])]));
  }

  /** An empty `enum` is refused. */
  lemma EnumMayNotBeEmpty()
    ensures var m := map["enum" := JArray([])];
      ParseSchema(JObject(m)).Err? && ParseValueConstraints(m) == Err(EmptyList("enum"))
  {
    ParseSchemaParts(JObject(map["enum" := JArray([])]));
  }

  /** A `minLength` above `maxLength` is accepted: no order between the two
      bounds is enforced. */
  lemma MinLengthAboveMaxLengthAccepted()
    ensures ParseSchema(JObject(map["minLength" := JInt(10), "maxLength" := JInt(5)])).Ok?
  {
    var m := map["minLength" := JInt(10), "maxLength" := JInt(5)];
    LengthBoundsLocallyAccepted(m);
    NoSubschemas(m);
    AcceptedIffSubschemasAccepted(JObject(m));
  }

  /** A negative `minItems` and an unknown `type` token are refused. */
  lemma NegativeBoundAndUnknownTypeRefused()
    ensures var m := map["minItems" := JInt(-1)];
      ParseSchema(JObject(m)).Err? && ParseArrayConstraints(m) == Err(Negative("minItems"))
    ensures var m := map["type" := JString("float")];
      ParseSchema(JObject(m)).Err? && ParseValueConstraints(m) == Err(UnknownToken("type"))
  {
    ParseSchemaParts(JObject(map["minItems" := JInt(-1)]));
    ParseSchemaParts(JObject(map["type" := JString("float")]));
    assert ParseIOType("float") == None;
  }

  // ---------------------------------------------------------------------
  // Proof helpers for the concrete fragments: each settles the local
  // groups of one fragment, so that the example lemmas above stay small.

  lemma EmptyLocallyAccepted(m: Fields)
    requires m == map[]
    ensures LocallyAccepted(m)
  {
    UntypedGroupsAccepted(m);
    assert ParseStringConstraints(m).Ok? && ParseValueConstraints(m).Ok?;
  }

  lemma NoSubschemas(m: Fields)
    requires m == map["minLength" := JInt(10), "maxLength" := JInt(5)]
    ensures AllAccepted(Subschemas(m))
  {
    assert Subschemas(m) == [];
  }

  lemma LengthBoundsLocallyAccepted(m: Fields)
    requires m == map["minLength" := JInt(10), "maxLength" := JInt(5)]
    ensures LocallyAccepted(m)
  {
    assert ParseStringConstraints(m).Ok?;
    assert ParseValueConstraints(m).Ok?;
    UntypedGroupsAccepted(m);
  }

  /** The annotation, numeric, array and object groups, and the shape of
      the composition members, accept a fragment holding none of their
      keys. */
  lemma UntypedGroupsAccepted(m: Fields)
    requires m.Keys <= {"enum", "minLength", "maxLength"}
    ensures ParseAnnotations(m).Ok? && ParseNumericConstraints(m).Ok?
    ensures ParseArrayConstraints(m).Ok? && ParseObjectConstraints(m).Ok?
    ensures ListShapeOk(m, "allOf") && ListShapeOk(m, "oneOf")
    ensures ListShapeOk(m, "anyOf") && ListShapeOk(m, "items")
    ensures "additionalProperties" !in m
  {
    AnnotationsAccepted(m);
    NumericAccepted(m);
    ArraysAccepted(m);
    ObjectsAccepted(m);
  }

  lemma AnnotationsAccepted(m: Fields)
    requires m.Keys <= {"enum", "minLength", "maxLength"}
    ensures ParseAnnotations(m).Ok?
  {
  }

  lemma NumericAccepted(m: Fields)
    requires m.Keys <= {"enum", "minLength", "maxLength"}
    ensures ParseNumericConstraints(m).Ok?
  {
  }

  lemma ArraysAccepted(m: Fields)
    requires m.Keys <= {"enum", "minLength", "maxLength"}
    ensures ParseArrayConstraints(m).Ok?
  {
  }

  lemma ObjectsAccepted(m: Fields)
    requires m.Keys <= {"enum", "minLength", "maxLength"}
    ensures ParseObjectConstraints(m).Ok?
  {
  }
}
