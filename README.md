# pygeoapi-prefect schemas, modelled in Dafny

This project models the data schemas that the pygeoapi Prefect process
manager uses for OGC API - Processes - Part 1: Core (OGC 18-062r2). The
schemas are declared in `src/pygeoapi_prefect/schemas.py`. Each schema is a
declarative validator: given a raw JSON document it either builds a typed
value, filling in the declared defaults, or refuses the document. The model
gives every schema a parse function from a small JSON datatype to a Dafny
datatype, or to an error, and proves what each parse accepts, refuses and
defaults.

The modules:

- `Wrappers`: `Option` and `Result`.
- `Json`: the JSON values a document is made of. Integers and floats are
  kept apart, as the JSON decoder in front of the validators keeps them
  apart.
- `FieldReaders`: how one member of an object is read for a declared field,
  and the error kinds.
  - An absent key takes the field's default.
  - `null` is accepted only by an optional field.
  - Any other value must be of the declared kind exactly.
  - Extra keys are ignored.
- `Vocabulary`: the five closed vocabularies, with their wire tokens, their
  parsers and the round-trip lemmas. The vocabularies are input and output
  types, formats, job control options, transmission modes and response
  types.
- `Schema`: the recursive `schema.yml` fragment (`ProcessIOSchema`).
  - It covers every constraint group, the composition keywords and
    `additionalProperties`.
  - The parse's own contract states a validity predicate of every schema
    it returns.
  - A lemma characterises acceptance as local acceptance plus acceptance of
    every subschema.
- `Links`: `Link`.
- `Process`:
  - the metadata and additional parameters of a process input;
  - process inputs and outputs with their occurrence bounds;
  - the process description;
  - the job status report.
- `Execution`: the execution request.
  - A bounding box.
  - The inline values that are not free-form objects, and the array members
    they nest.
  - Formats and qualified values.
  - The first-match resolution of an input value, with its precedence
    lemmas. `ResolveValue` reads a qualified value's format as declared,
    from `format_`; `ResolveValueIntended` reads it from `format` (see
    Findings). The request uses `ResolveValue`.
  - Requested outputs, the subscriber and the request.

Union fields are tried in the order their alternatives are declared, with
exactly-typed matching. The one exception is the inline value (smart union,
lines 237-250): every JSON kind there is taken by the alternative of its own
kind.

In a few places the code does something other than what the OGC standard
or a reader of it might expect. The model follows the code:

- No `min* <= max*` order is required between any pair of bounds.
- `jobControlOptions` may be empty.
- `minOccurs` and `maxOccurs` accept any integer.
- `properties` is a single schema, not a map of schemas.
- Members of an inline array are declared as bounding boxes, integers,
  strings or nested arrays (lines 231-234).
- The additional parameters of a process input are read from the key
  `additional_parameters`, since that field has no alias (line 148).

Two consequences of matching exact kinds, which the library itself does
not do (see Left out):

- A boolean or a float member makes a list fail as an inline array. The
  library would coerce such a member to an integer, since the integer
  alternative comes before the string one at line 232.
- In the `value` list of additional parameters (line 89), the model takes
  an integer with the float alternative and keeps it as a number. The
  library tries the string alternative first and would turn `5` into
  `"5"`.

## Model

| member | source | states |
|---|---|---|
| Vocabulary.ParseIOType | src/pygeoapi_prefect/schemas.py:11-17 | a token is accepted exactly when it is the token of some input/output type, and then it is that type's token |
| Vocabulary.IOTypeRoundTrip | src/pygeoapi_prefect/schemas.py:11-17 | every type's token parses back to that type, and no two types share a token |
| Vocabulary.ParseIOFormat | src/pygeoapi_prefect/schemas.py:20-54 | an accepted token is the token of the format it yields |
| Vocabulary.IOFormatRoundTrip | src/pygeoapi_prefect/schemas.py:20-54 | every one of the 24 formats' tokens parses back to that format |
| Vocabulary.IOFormatRoundTripDates | src/pygeoapi_prefect/schemas.py:24-31 | the round trip for the date, time, duration, e-mail, host name and IP address formats |
| Vocabulary.IOFormatRoundTripIdentifiers | src/pygeoapi_prefect/schemas.py:32-42 | the round trip for the URI, UUID, template, pointer, regex and binary formats |
| Vocabulary.IOFormatRoundTripOgcUris | src/pygeoapi_prefect/schemas.py:43-50 | the round trip for the four OGC format URIs |
| Vocabulary.IOFormatRoundTripOgcCodes | src/pygeoapi_prefect/schemas.py:51-54 | the round trip for the four OGC short codes |
| Vocabulary.IOFormatTokens | src/pygeoapi_prefect/schemas.py:20-54 | format tokens are pairwise distinct, and a token is refused exactly when no format has it |
| Vocabulary.ParseJobControlOption | src/pygeoapi_prefect/schemas.py:57-60 | accepted exactly for the three job control tokens, yielding the option with that token |
| Vocabulary.JobControlOptionRoundTrip | src/pygeoapi_prefect/schemas.py:57-60 | round trip and distinct tokens for job control options |
| Vocabulary.ParseTransmissionMode | src/pygeoapi_prefect/schemas.py:63-65 | accepted exactly for `value` and `reference` |
| Vocabulary.TransmissionModeRoundTrip | src/pygeoapi_prefect/schemas.py:63-65 | round trip and distinct tokens for transmission modes |
| Vocabulary.ParseResponseType | src/pygeoapi_prefect/schemas.py:68-70 | accepted exactly for `document` and `raw` |
| Vocabulary.ResponseTypeRoundTrip | src/pygeoapi_prefect/schemas.py:68-70 | round trip and distinct tokens for response types |
| Links.ParseLink | src/pygeoapi_prefect/schemas.py:73-78 | accepted exactly for an object with a string `href` and optional string `type`, `rel`, `title`, `hreflang`; `href` and each of the four is kept as given, none when absent or `null`; a missing `href` is the error reported |
| Schema.ParseAnnotations | src/pygeoapi_prefect/schemas.py:95-128 | accepted exactly when `title`, `description`, `default`, `example` are optional strings and the four flags booleans; each text is kept as given (none when absent or `null`) and each flag is kept, false when absent |
| Schema.ParseNumericConstraints | src/pygeoapi_prefect/schemas.py:96-100 | accepted exactly when `multipleOf`, `maximum`, `minimum` are optional numbers and the exclusivity flags booleans; each bound keeps its numeric value (none when absent or `null`) and each flag is kept, false when absent |
| Schema.ParseStringConstraints | src/pygeoapi_prefect/schemas.py:101-131 | accepted exactly when `maxLength` is absent, `null` or an integer >= 0, `minLength` absent or an integer >= 0, and the four texts optional strings; negative bounds refused; `minLength` kept (0 when absent), `maxLength` kept (none when absent or `null`), `pattern`, `contentMediaType`, `contentEncoding`, `contentSchema` kept as given; no order between the bounds |
| Schema.ParseArrayConstraints | src/pygeoapi_prefect/schemas.py:104-106 | accepted exactly when the bounds are non-negative integers (`maxItems` optional) and `uniqueItems` a boolean; negative bounds refused; `minItems` kept (0 when absent), `maxItems` kept (none when absent or `null`), `uniqueItems` kept (false when absent) |
| Schema.ParseRequired | src/pygeoapi_prefect/schemas.py:109 | `required`, when given, is accepted exactly when it is a non-empty list of distinct strings, which it keeps in order |
| Schema.ParseObjectConstraints | src/pygeoapi_prefect/schemas.py:107-109 | accepted exactly when the bounds are non-negative integers (`maxProperties` optional) and `required` is accepted; negative bounds refused; `minProperties` kept (0 when absent), `maxProperties` kept (none when absent or `null`), `required` is what ParseRequired reads, non-empty and distinct |
| Schema.ParseValueConstraints | src/pygeoapi_prefect/schemas.py:110-122 | `enum` must be a non-empty list and may repeat; `type` and `format` must be known tokens |
| Schema.ParseOptSubschema | src/pygeoapi_prefect/schemas.py:112-117 | `not`/`properties` are accepted exactly when absent, null or an accepted schema, which becomes the child |
| Schema.ParseOptSubschemas | src/pygeoapi_prefect/schemas.py:113-116 | `allOf`/`oneOf`/`anyOf`/`items` are accepted exactly when absent, null or a list of accepted schemas, kept element by element |
| Schema.ParseAdditionalProperties | src/pygeoapi_prefect/schemas.py:118-120 | defaults to allowed; a boolean is kept; an object must be an accepted schema; anything else, `null` included, is refused |
| Schema.ParseSchema | src/pygeoapi_prefect/schemas.py:94-131 | a value that is not an object is refused; every schema it returns is Valid at every depth: `required`, when present, non-empty with distinct names and `enum`, when present, non-empty, in the schema and in every nested schema |
| Schema.AcceptedIffSubschemasAccepted | src/pygeoapi_prefect/schemas.py:112-120 | a schema is accepted exactly when it is an object whose own members are accepted and every nested subschema (`not`, each list element, `properties`, a schema-valued `additionalProperties`) is accepted |
| Schema.EmptySchemaAccepted | src/pygeoapi_prefect/schemas.py:94-131 | `{}` is an accepted schema: every field has a default or is optional |
| Schema.EnumMayRepeat | src/pygeoapi_prefect/schemas.py:110 | any fragment whose only member is `enum: [1, 1]` is accepted: enumerated values may repeat |
| Schema.RequiredMayNotRepeat | src/pygeoapi_prefect/schemas.py:109 | `{"required": ["a", "a"]}` is refused as a duplicate |
| Schema.RequiredMayNotBeEmpty | src/pygeoapi_prefect/schemas.py:109 | `{"required": []}` is refused as empty |
| Schema.EnumMayNotBeEmpty | src/pygeoapi_prefect/schemas.py:110 | `{"enum": []}` is refused as empty |
| Schema.MinLengthAboveMaxLengthAccepted | src/pygeoapi_prefect/schemas.py:101-102 | `{"minLength": 10, "maxLength": 5}` is accepted |
| Schema.NegativeBoundAndUnknownTypeRefused | src/pygeoapi_prefect/schemas.py:105-111 | a negative `minItems` and the type `float` are refused |
| Process.ParseMetadata | src/pygeoapi_prefect/schemas.py:81-84 | accepted exactly for an object whose `title`, `role`, `href` are optional strings; each is kept as given, none when absent or `null` |
| Process.ParseParameterValue | src/pygeoapi_prefect/schemas.py:89 | accepted exactly for a string, a number, a list of objects or an object; a string and an object are kept as they are, a list of objects becomes the list of those objects member by member, and every number, an integer included, is kept as a number |
| Process.ParseAdditionalParameters | src/pygeoapi_prefect/schemas.py:86-89 | accepted exactly when the metadata is accepted, `name` is a string and `value` a list whose every member is accepted; the metadata and `name` are kept and `value` is read member by member |
| Process.ParseMaxOccurs | src/pygeoapi_prefect/schemas.py:147 | defaults to 1; accepted exactly when an integer or `"unbounded"` |
| Process.ParseProcessOutput | src/pygeoapi_prefect/schemas.py:137-140 | accepted exactly when `title` and `description` are optional strings and a `schema` is present and accepted; the texts are kept as given and the schema is the one read from `schema` |
| Process.ParseProcessInput | src/pygeoapi_prefect/schemas.py:143-148 | accepted exactly when it is an accepted output description with optional string-list `keywords`, an optional metadata list, an integer or absent `minOccurs`, an accepted `maxOccurs` and accepted or absent additional parameters; the output part, `keywords`, the metadata list (member by member), `minOccurs` (1 when absent), `maxOccurs` (as ParseMaxOccurs reads it, 1 when absent) and the additional parameters are kept |
| Process.ParseProcess | src/pygeoapi_prefect/schemas.py:151-167 | accepted exactly when every mandatory member is present and of its declared kind, every job control and transmission token is known, every link, input and output entry is accepted and `example` is an optional object; every member is kept: the language maps key by key, keywords and tokens in order, `outputTransmission` `[value]` when absent, links member by member, inputs and outputs under their own names, `example` none when absent or `null` |
| Process.ProcessMandatoryKeysRequired | src/pygeoapi_prefect/schemas.py:151-166 | a description missing any of `title`, `description`, `keywords`, `version`, `id`, `jobControlOptions`, `links`, `inputs`, `outputs` is refused |
| Process.ParseJobStatusInfo | src/pygeoapi_prefect/schemas.py:203-216 | accepted exactly when `jobID`, `status`, `processID` are strings, `type` is absent or `process`, `message` an optional string, `progress` absent, `null` or an integer in 0..100, and `links` an optional list of accepted links; a missing mandatory member, another `type` and a progress outside 0..100 are refused; `jobID`, `status`, `processID`, `message`, `progress` and the links are kept |
| Process.MinimalProcessAccepted | src/pygeoapi_prefect/schemas.py:151-167 | a description whose members are exactly the mandatory ones, each empty (version `1.0`, id `p`), is accepted as the process with those values, no job control option and transmission `[value]` |
| Process.JobWithoutIdRefused | src/pygeoapi_prefect/schemas.py:206 | a status without `jobID` is refused |
| Process.ProgressBounds | src/pygeoapi_prefect/schemas.py:215 | a progress of 101 is refused as out of range, 100 is accepted |
| Process.InputOccursOnceByDefault | src/pygeoapi_prefect/schemas.py:146-147 | an input without occurrence bounds occurs exactly once |
| Execution.ParseBBox | src/pygeoapi_prefect/schemas.py:226-228 | accepted exactly for a list of four numbers with an optional string `crs`; the numbers are kept in order; `crs` is kept, CRS84 when absent and none when `null`; another length is a length error |
| Execution.ParseArrayItem | src/pygeoapi_prefect/schemas.py:231-234 | an object must be a bounding box; integers and strings are taken as they are; a list is accepted exactly when every member is; null, booleans and floats are refused |
| Execution.ParseArrayItems | src/pygeoapi_prefect/schemas.py:232-234 | a list is read member by member |
| Execution.ParseInline | src/pygeoapi_prefect/schemas.py:237-250 | each JSON kind is taken by the alternative of its own kind; an object only as a bounding box; null is refused |
| Execution.BBoxRoundTrip | src/pygeoapi_prefect/schemas.py:226-228 | a four-coordinate box reads back from its JSON form |
| Execution.ArrayItemRoundTrip | src/pygeoapi_prefect/schemas.py:231-234 | every well-formed array member, at any depth of nesting, reads back from its JSON form |
| Execution.InlineRoundTrip | src/pygeoapi_prefect/schemas.py:237-247 | every well-formed inline value reads back from its JSON form |
| Execution.ParsedItemWellFormed | src/pygeoapi_prefect/schemas.py:231-234 | every parsed array member is well formed, so the round trip covers all of them |
| Execution.ParsedInlineWellFormed | src/pygeoapi_prefect/schemas.py:237-247 | every parsed inline value is well formed |
| Execution.ParseFormat | src/pygeoapi_prefect/schemas.py:253-260 | accepted exactly for optional string media type and encoding and a schema given as a string or an object; media type and encoding are kept as given, a string schema is a reference, an object schema is kept as it is, and a missing or `null` schema is none |
| Execution.ParseContent | src/pygeoapi_prefect/schemas.py:266 | an inline value when one matches, otherwise any object kept as it is |
| Execution.ParseQualifiedFrom | src/pygeoapi_prefect/schemas.py:263-267 | accepted exactly for an object with an acceptable `value` and an acceptable format under the given key; the format is none exactly when that key is absent or `null`; a missing `value` is the error reported |
| Execution.ParseQualifiedAsWritten | src/pygeoapi_prefect/schemas.py:263-267 | the qualified value as declared: its format is read from the member `format_`, and a malformed `format_` refuses the value |
| Execution.ParseQualified | src/pygeoapi_prefect/schemas.py:263-273 | the qualified value with its format read from `format`, as the output description reads it; a malformed `format` refuses the value |
| Execution.AsWrittenIgnoresFormat | src/pygeoapi_prefect/schemas.py:267 | as written, removing `format` from a qualified value never changes the result |
| Execution.QualifiedFormatLostAsWritten | src/pygeoapi_prefect/schemas.py:263-267 | as written, `{"value": 42, "format": {"mediaType": "text/plain"}}` yields no format |
| Execution.QualifiedFormatRead | src/pygeoapi_prefect/schemas.py:263-273 | with the format read from `format`, the same document keeps its media type |
| Execution.UnderscorelessFormatIgnored | src/pygeoapi_prefect/schemas.py:263-299 | as declared, `{"value": 1, "format": 5}` resolves as a qualified value without a format; read from `format`, it is refused |
| Execution.UnderscoredFormatRead | src/pygeoapi_prefect/schemas.py:263-299 | as declared, `{"value": 1, "format_": 5}` is refused; read from `format`, it resolves as a qualified value without a format |
| Execution.ResolversDisagreeOnFormat | src/pygeoapi_prefect/schemas.py:263-299 | the qualified-value example as an input: the declared resolver drops its media type and the other keeps it |
| Execution.ResolveValueFrom | src/pygeoapi_prefect/schemas.py:296-299 | resolves exactly when the value is an inline value, a qualified value with its format under the given key, or a link; an inline result is the inline reading, a qualified result only when no inline reading exists, a link only when neither of the others does |
| Execution.ResolveValue | src/pygeoapi_prefect/schemas.py:263-299 | the resolver as declared, reading a qualified value's format from `format_`: resolves exactly for an inline value, a qualified value with an acceptable or absent `format_`, or a link |
| Execution.ResolveValueIntended | src/pygeoapi_prefect/schemas.py:266-299 | the resolver with the format read from `format`: resolves exactly for an inline value, a qualified value with an acceptable or absent `format`, or a link |
| Execution.ObjectResolution | src/pygeoapi_prefect/schemas.py:296-299 | for either format key, a bounding box wins over a qualified value, which wins over a link; an object is resolved exactly when it has one of the three shapes |
| Execution.BareResolution | src/pygeoapi_prefect/schemas.py:296-299 | for either format key, a value that is not an object resolves exactly when it is an inline value |
| Execution.ResolveEntry | src/pygeoapi_prefect/schemas.py:296-306 | a single value when one matches; otherwise accepted exactly for a list whose every member resolves, which becomes the list of those values member by member |
| Execution.ParseExecutionOutput | src/pygeoapi_prefect/schemas.py:270-276 | accepted exactly for an object with an acceptable or absent `format` and a known, absent or `null` `transmissionMode`; the mode is `value` when absent, none when `null` and the named mode otherwise; the format is the one read from the key `format` |
| Execution.ParseSubscriber | src/pygeoapi_prefect/schemas.py:282-287 | accepted exactly with a string `successUri` and optional string URIs; all three are kept as given; a missing `successUri` is the error reported |
| Execution.ParseExecution | src/pygeoapi_prefect/schemas.py:290-312 | accepted exactly when `inputs` is absent, `null` or an object whose every entry resolves, `outputs` likewise with accepted outputs, `response` absent, `null` or known, and `subscriber` absent, `null` or accepted; inputs and outputs are kept under their own names, `response` is `raw` when absent, and the subscriber is the one read; one entry that does not resolve refuses the request |
| Execution.BBoxExample | src/pygeoapi_prefect/schemas.py:226-228 | `{"bbox": [-71.1, 42.3, -71.0, 42.4]}` resolves to that box in CRS84 |
| Execution.BBoxBeforeQualifiedAndLink | src/pygeoapi_prefect/schemas.py:240-299 | a valid box with `value` and `href` members still resolves as a box |
| Execution.ShortBBoxFallsThrough | src/pygeoapi_prefect/schemas.py:227-298 | a three-number box with a `value` resolves as a qualified value |
| Execution.LinkFallback | src/pygeoapi_prefect/schemas.py:73-299 | `{"href": "https://example.org/data.json"}` resolves as a link |
| Execution.UnknownObjectRefused | src/pygeoapi_prefect/schemas.py:296-306 | an object of no known shape is refused |
| Execution.ListResolution | src/pygeoapi_prefect/schemas.py:296-306 | `[1, "a"]` is one inline array; a list of links is several values |
| Execution.EmptyRequest | src/pygeoapi_prefect/schemas.py:309-312 | `{}` is a request with no inputs, outputs or subscriber and the `raw` response |

## Left out

- Coercions made by the validation library: numeric strings to numbers,
  numbers and booleans to strings or integers, floats truncated to
  integers, strings such as `"true"` or `"yes"` and the numbers 0 and 1 to
  booleans, and booleans to floats. The model matches exact kinds.
  - So `{"uniqueItems": "true"}` and `{"additionalProperties": 1}` are
    refused, and so is a box of `[true, 0, 1, 1]`.
  - So `["5"]` is an inline array holding the string `"5"`.
  - `[1.5]` is not an inline array at all. It resolves as several values
    holding the number 1.5.
- Floating-point arithmetic. Numbers are reals, and `multipleOf` is not
  applied.
- The validity of `pattern` as a regular expression. `pattern` is kept as a
  string.
- Decoding of the JSON text held by `default` and `example`. Each is kept as
  the string it is given.
- Membership of `status` in the job status vocabulary. That vocabulary
  comes from pygeoapi and is not part of this model, so `status` is kept as
  the string it is given.
- The four timestamps of a job status. They are not read.
- `ProcessManagerConfig`, `ProcessSummary`, `AdditionalParameter` and
  `AdditionalParameters` (lines 170-200, 219-223). They are plain
  data-transfer shapes that no modelled schema uses.
- Serialisation back to JSON, and the enum-value output setting. The only
  exception is the JSON form of inline values, used by the round trip.
- Error reports.
  - The model returns the first error it meets, naming the key.
  - It does not return the list of every error with its location.
  - When a document is refused, which error is returned depends on the
    order in which fields are read.
- A custom-root schema given an object whose only key is `__root__` is
  unwrapped by the library. The model does not do this.
- JSON text decoding. Documents are given as `Json` values.
- The library's fallback for a model, or a `dict`-typed field, given a
  value that is not a dict. It calls `dict(value)` first, so an empty list
  or an empty string becomes `{}`, and a list whose every member has
  exactly two elements becomes an object; an object with two keys counts
  as its two keys.
  - The `dict`-typed fields are the process's `title`, `description`,
    `inputs`, `outputs` and `example` (lines 152-153, 165-167), the
    format's `schema` (lines 258-260), the request's `inputs` and
    `outputs` (lines 293-310), and the object alternatives of lines 89
    and 266.
  - So the library accepts `{"inputs": []}` and `{"outputs": ""}` as
    requests with no inputs or outputs, and `{"inputs": [["x", 1]]}` as
    `{"inputs": {"x": 1}}`; the model refuses all three as `WrongType`.
  - For models, `[{"href": "a", "type": "t"}]` becomes `{"href": "type"}`
    and would be resolved as one link with `href` `"type"`; the model
    resolves the list as several values instead.
    `[{"value": 1, "format": {}}]` likewise becomes one qualified value
    there. The result depends on the order of the keys in each object,
    which the model's `Json` objects, being maps, do not keep.

## Findings

| source | as written | input that shows it | evidently intended | confidence | as-written member | corrected member |
|---|---|---|---|---|---|---|
| src/pygeoapi_prefect/schemas.py:267 | the qualified value's `format_` field has no alias, so it is read from the wire key `format_` and a `format` member is silently ignored | `{"value": 42, "format": {"mediaType": "text/plain"}}` gives a qualified value with no format | read from `format`, as the same-named field of `ExecutionOutput` is, through its alias, at line 273 | not executed; high | Execution.QualifiedFormatLostAsWritten | Execution.QualifiedFormatRead |

The as-written parse is `Execution.ParseQualifiedAsWritten`, and
`Execution.AsWrittenIgnoresFormat` shows it ignores `format` for every
document. The corrected parse is `Execution.ParseQualified`. The request
parse follows the code as written, through `Execution.ResolveValue`;
`Execution.ResolveValueIntended` is the corrected resolver, and
`Execution.UnderscorelessFormatIgnored`, `Execution.UnderscoredFormatRead`
and `Execution.ResolversDisagreeOnFormat` show where the two differ.
