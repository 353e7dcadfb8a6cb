/** The closed vocabularies of process descriptions and execution requests.
    Each is a datatype with its wire token (`...Token`) and the parser of
    that token (`Parse...`), which refuses every other string. */
module Vocabulary {
  import opened Wrappers

  /** ProcessIOType: the primitive JSON types a schema's `type` names */
  datatype IOType =
    | Array
    | Boolean
    | Integer
    | Number
    | Object
    | String

  function IOTypeToken(t: IOType): string {
    match t
    case Array => "array"
    case Boolean => "boolean"
    case Integer => "integer"
    case Number => "number"
    case Object => "object"
    case String => "string"
  }

  /** The member whose token is `s`; None for every other string. */
  function ParseIOType(s: string): (r: Option<IOType>)
    ensures r.Some? ==> IOTypeToken(r.value) == s
    ensures r.None? <==> forall t :: IOTypeToken(t) != s
  {
    if s == "array" then Some(Array)
    else if s == "boolean" then Some(Boolean)
    else if s == "integer" then Some(Integer)
    else if s == "number" then Some(Number)
    else if s == "object" then Some(Object)
    else if s == "string" then Some(String)
    else None
  }

  /** Every member's token parses back to that member, so no two members share a token. */
  lemma IOTypeRoundTrip(t: IOType)
    ensures ParseIOType(IOTypeToken(t)) == Some(t)
    ensures forall u :: IOTypeToken(u) == IOTypeToken(t) ==> u == t
  {
  }

  /** ProcessIOFormat: the formats defined in section 7.3 of JSON Schema
      Validation (draft 2020-12) except `iri` and `iri-reference`, then
      `binary`, then the four OGC API - Processes formats, each both as a
      URI and as a short code. */
  datatype IOFormat =
    | DateTime
    | Date
    | Time
    | Duration
    | Email
    | Hostname
    | Ipv4
    | Ipv6
    | Uri
    | UriReference
    | Uuid
    | UriTemplate
    | JsonPointer
    | RelativeJsonPointer
    | Regex
    | Binary
    | GeoJsonFeatureCollectionUri
    | GeoJsonFeatureUri
    | GeoJsonGeometryUri
    | OgcBBoxUri
    | GeoJsonFeatureCollectionCode
    | GeoJsonFeatureCode
    | GeoJsonGeometryCode
    | OgcBBoxCode

  /** The common prefix of the OGC format URIs. */
  const OgcFormatPrefix: string := "http://www.opengis.net/def/format/ogcapi-processes/0/"

  function IOFormatToken(t: IOFormat): string {
    match t
    case DateTime => "date-time"
    case Date => "date"
    case Time => "time"
    case Duration => "duration"
    case Email => "email"
    case Hostname => "hostname"
    case Ipv4 => "ipv4"
    case Ipv6 => "ipv6"
    case Uri => "uri"
    case UriReference => "uri-reference"
    case Uuid => "uuid"
    case UriTemplate => "uri-template"
    case JsonPointer => "json-pointer"
    case RelativeJsonPointer => "relative-json-pointer"
    case Regex => "regex"
    case Binary => "binary"
    case GeoJsonFeatureCollectionUri => OgcFormatPrefix + "geojson-feature-collection"
    case GeoJsonFeatureUri => OgcFormatPrefix + "geojson-feature"
    case GeoJsonGeometryUri => OgcFormatPrefix + "geojson-geometry"
    case OgcBBoxUri => OgcFormatPrefix + "ogc-bbox"
    case GeoJsonFeatureCollectionCode => "geojson-feature-collection"
    case GeoJsonFeatureCode => "geojson-feature"
    case GeoJsonGeometryCode => "geojson-geometry"
    case OgcBBoxCode => "ogc-bbox"
  }

  /** The member whose token is `s`; None for every other string. This is
      a plain lookup of `s` among the tokens above (IOFormatTokens proves
      exactly that). The dispatch on the OGC prefix and on the length of `s`
      only keeps the comparisons the verifier has to make few. */
  function ParseIOFormat(s: string): (r: Option<IOFormat>)
    ensures r.Some? ==> IOFormatToken(r.value) == s
  {
    if |OgcFormatPrefix| <= |s| && s[..|OgcFormatPrefix|] == OgcFormatPrefix then
      if s == IOFormatToken(GeoJsonFeatureCollectionUri) then Some(GeoJsonFeatureCollectionUri)
      else if s == IOFormatToken(GeoJsonFeatureUri) then Some(GeoJsonFeatureUri)
      else if s == IOFormatToken(GeoJsonGeometryUri) then Some(GeoJsonGeometryUri)
      else if s == IOFormatToken(OgcBBoxUri) then Some(OgcBBoxUri)
      else None
    else
      match |s|
      case 3 =>
        if s == IOFormatToken(Uri) then Some(Uri)
        else None
      case 4 =>
        if s == IOFormatToken(Date) then Some(Date)
        else if s == IOFormatToken(Time) then Some(Time)
        else if s == IOFormatToken(Ipv4) then Some(Ipv4)
        else if s == IOFormatToken(Ipv6) then Some(Ipv6)
        else if s == IOFormatToken(Uuid) then Some(Uuid)
        else None
      case 5 =>
        if s == IOFormatToken(Email) then Some(Email)
        else if s == IOFormatToken(Regex) then Some(Regex)
        else None
      case 6 =>
        if s == IOFormatToken(Binary) then Some(Binary)
        else None
      case 8 =>
        if s == IOFormatToken(Duration) then Some(Duration)
        else if s == IOFormatToken(Hostname) then Some(Hostname)
        else if s == IOFormatToken(OgcBBoxCode) then Some(OgcBBoxCode)
        else None
      case 9 =>
        if s == IOFormatToken(DateTime) then Some(DateTime)
        else None
      case 12 =>
        if s == IOFormatToken(UriTemplate) then Some(UriTemplate)
        else if s == IOFormatToken(JsonPointer) then Some(JsonPointer)
        else None
      case 13 =>
        if s == IOFormatToken(UriReference) then Some(UriReference)
        else None
      case 15 =>
        if s == IOFormatToken(GeoJsonFeatureCode) then Some(GeoJsonFeatureCode)
        else None
      case 16 =>
        if s == IOFormatToken(GeoJsonGeometryCode) then Some(GeoJsonGeometryCode)
        else None
      case 21 =>
        if s == IOFormatToken(RelativeJsonPointer) then Some(RelativeJsonPointer)
        else None
      case 26 =>
        if s == IOFormatToken(GeoJsonFeatureCollectionCode) then Some(GeoJsonFeatureCollectionCode)
        else None
      case _ => None
  }

  /** Every member's token parses back to that member, so no two members
      share a token. */
  lemma IOFormatRoundTrip(t: IOFormat)
    ensures ParseIOFormat(IOFormatToken(t)) == Some(t)
  {
    if t.DateTime? || t.Date? || t.Time? || t.Duration? || t.Email? || t.Hostname? || t.Ipv4? || t.Ipv6? {
      IOFormatRoundTripDates(t);
    } else if t.Uri? || t.UriReference? || t.Uuid? || t.UriTemplate? || t.JsonPointer? || t.RelativeJsonPointer? || t.Regex? || t.Binary? {
      IOFormatRoundTripIdentifiers(t);
    } else if t.GeoJsonFeatureCollectionUri? || t.GeoJsonFeatureUri? || t.GeoJsonGeometryUri? || t.OgcBBoxUri? {
      IOFormatRoundTripOgcUris(t);
    } else {
      IOFormatRoundTripOgcCodes(t);
    }
  }

  // Proof helpers for IOFormatRoundTrip: the round trip one group of
  // formats at a time, so that each proof compares few tokens.

  /** The round trip for JSON Schema date, time and network formats. */
  lemma IOFormatRoundTripDates(t: IOFormat)
    requires t.DateTime? || t.Date? || t.Time? || t.Duration? || t.Email? || t.Hostname? || t.Ipv4? || t.Ipv6?
    ensures ParseIOFormat(IOFormatToken(t)) == Some(t)
  {
  }

  /** The round trip for the remaining JSON Schema formats and `binary`. */
  lemma IOFormatRoundTripIdentifiers(t: IOFormat)
    requires t.Uri? || t.UriReference? || t.Uuid? || t.UriTemplate? || t.JsonPointer? || t.RelativeJsonPointer? || t.Regex? || t.Binary?
    ensures ParseIOFormat(IOFormatToken(t)) == Some(t)
  {
  }

  /** The round trip for the OGC format URIs. */
  lemma IOFormatRoundTripOgcUris(t: IOFormat)
    requires t.GeoJsonFeatureCollectionUri? || t.GeoJsonFeatureUri? || t.GeoJsonGeometryUri? || t.OgcBBoxUri?
    ensures ParseIOFormat(IOFormatToken(t)) == Some(t)
  {
  }

  /** The round trip for the OGC format short codes. */
  lemma IOFormatRoundTripOgcCodes(t: IOFormat)
    requires t.GeoJsonFeatureCollectionCode? || t.GeoJsonFeatureCode? || t.GeoJsonGeometryCode? || t.OgcBBoxCode?
    ensures ParseIOFormat(IOFormatToken(t)) == Some(t)
  {
  }

  /** Tokens are pairwise distinct, and exactly the strings that are no
      member's token are refused. */
  lemma IOFormatTokens(s: string)
    ensures forall t, u :: IOFormatToken(t) == IOFormatToken(u) ==> t == u
    ensures ParseIOFormat(s).None? <==> forall t :: IOFormatToken(t) != s
  {
    forall t ensures ParseIOFormat(IOFormatToken(t)) == Some(t) {
      IOFormatRoundTrip(t);
    }
  }

  /** ProcessJobControlOption: how a process may be run and controlled */
  datatype JobControlOption =
    | SyncExecute
    | AsyncExecute
    | Dismiss

  function JobControlOptionToken(t: JobControlOption): string {
    match t
    case SyncExecute => "sync-execute"
    case AsyncExecute => "async-execute"
    case Dismiss => "dismiss"
  }

  /** The member whose token is `s`; None for every other string. */
  function ParseJobControlOption(s: string): (r: Option<JobControlOption>)
    ensures r.Some? ==> JobControlOptionToken(r.value) == s
    ensures r.None? <==> forall t :: JobControlOptionToken(t) != s
  {
    if s == "sync-execute" then Some(SyncExecute)
    else if s == "async-execute" then Some(AsyncExecute)
    else if s == "dismiss" then Some(Dismiss)
    else None
  }

  /** Every member's token parses back to that member, so no two members share a token. */
  lemma JobControlOptionRoundTrip(t: JobControlOption)
    ensures ParseJobControlOption(JobControlOptionToken(t)) == Some(t)
    ensures forall u :: JobControlOptionToken(u) == JobControlOptionToken(t) ==> u == t
  {
  }

  /** ProcessOutputTransmissionMode: an output returned inline or by reference */
  datatype TransmissionMode =
    | Value
    | Reference

  function TransmissionModeToken(t: TransmissionMode): string {
    match t
    case Value => "value"
    case Reference => "reference"
  }

  /** The member whose token is `s`; None for every other string. */
  function ParseTransmissionMode(s: string): (r: Option<TransmissionMode>)
    ensures r.Some? ==> TransmissionModeToken(r.value) == s
    ensures r.None? <==> forall t :: TransmissionModeToken(t) != s
  {
    if s == "value" then Some(Value)
    else if s == "reference" then Some(Reference)
    else None
  }

  /** Every member's token parses back to that member, so no two members share a token. */
  lemma TransmissionModeRoundTrip(t: TransmissionMode)
    ensures ParseTransmissionMode(TransmissionModeToken(t)) == Some(t)
    ensures forall u :: TransmissionModeToken(u) == TransmissionModeToken(t) ==> u == t
  {
  }

  /** ProcessResponseType: the shape of an execution's response */
  datatype ResponseType =
    | Document
    | Raw

  function ResponseTypeToken(t: ResponseType): string {
    match t
    case Document => "document"
    case Raw => "raw"
  }

  /** The member whose token is `s`; None for every other string. */
  function ParseResponseType(s: string): (r: Option<ResponseType>)
    ensures r.Some? ==> ResponseTypeToken(r.value) == s
    ensures r.None? <==> forall t :: ResponseTypeToken(t) != s
  {
    if s == "document" then Some(Document)
    else if s == "raw" then Some(Raw)
    else None
  }

  /** Every member's token parses back to that member, so no two members share a token. */
  lemma ResponseTypeRoundTrip(t: ResponseType)
    ensures ParseResponseType(ResponseTypeToken(t)) == Some(t)
    ensures forall u :: ResponseTypeToken(u) == ResponseTypeToken(t) ==> u == t
  {
  }
}
