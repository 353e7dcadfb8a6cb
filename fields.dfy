/** Reading one member of a JSON object the way a declared model field is
    validated: an absent key takes the field's default, `null` is accepted
    only by an optional field, and any other value must have the field's
    declared kind exactly.

    Each reader comes with two predicates on the raw object: `...Ok` says
    which members the field accepts, and `...Read` says which value a
    member stands for. A reader's contract ties it to both. */
module FieldReaders {
  import opened Wrappers
  import opened Json

  /** Why a document was refused; each carries the wire key it concerns. */
  datatype Error =
    | NotAnObject                  // the document is not a JSON object
    | Missing(key: string)         // a field without a default is absent
    | WrongType(key: string)       // a value of the wrong kind (or a forbidden null)
    | Negative(key: string)        // a `ge=0` bound is violated
    | OutOfRange(key: string)      // a `ge=..., le=...` range is violated
    | EmptyList(key: string)       // a `min_items=1` list is empty
    | WrongLength(key: string)     // a list of fixed length has another length
    | DuplicateItems(key: string)  // a `unique_items=True` list repeats a member
    | UnknownToken(key: string)    // a token outside a closed vocabulary
    | InvalidEntry(key: string)    // some entry of a dictionary is refused
    | NoAlternative                // no member of a union accepts the value

  /** The key is absent or holds `null`: an optional field reads as None. */
  predicate AbsentOrNull(m: Fields, k: string) {
    k !in m || m[k].JNull?
  }

  /** The member is a negative integer. */
  predicate NegativeAt(m: Fields, k: string) {
    k in m && m[k].JInt? && m[k].i < 0
  }

  // ---------------------------------------------------------------------
  // Strings

  /** An optional string field: absent, `null` or a string. */
  predicate OptionalStringOk(m: Fields, k: string) {
    AbsentOrNull(m, k) || m[k].JString?
  }

  /** `v` is what an optional string member stands for. */
  ghost predicate OptStringRead(m: Fields, k: string, v: Option<string>) {
    if AbsentOrNull(m, k) then v.None? else v.Some? && m[k] == JString(v.value)
  }

  /** `k: str | None` */
  function OptString(m: Fields, k: string): (r: Result<Option<string>, Error>)
    ensures r.Ok? <==> OptionalStringOk(m, k)
    ensures r.Ok? ==> OptStringRead(m, k, r.value)
  {
    if AbsentOrNull(m, k) then Ok(None)
    else if m[k].JString? then Ok(Some(m[k].s))
    else Err(WrongType(k))
  }

  /** `v` is what an optional string member with default `d` stands for:
      the default when absent, None when `null`. */
  ghost predicate OptStringOrRead(m: Fields, k: string, d: string, v: Option<string>) {
    if k !in m then v == Some(d) else OptStringRead(m, k, v)
  }

  /** `k: typing.Optional[str] = d` */
  function OptStringOr(m: Fields, k: string, d: string): (r: Result<Option<string>, Error>)
    ensures r.Ok? <==> OptionalStringOk(m, k)
    ensures r.Ok? ==> OptStringOrRead(m, k, d, r.value)
  {
    if k !in m then Ok(Some(d))
    else if m[k].JNull? then Ok(None)
    else if m[k].JString? then Ok(Some(m[k].s))
    else Err(WrongType(k))
  }

  /** A mandatory string field: present and a string. */
  predicate RequiredStringOk(m: Fields, k: string) {
    k in m && m[k].JString?
  }

  /** `k: str`, without a default */
  function RequiredString(m: Fields, k: string): (r: Result<string, Error>)
    ensures r.Ok? <==> RequiredStringOk(m, k)
    ensures r.Ok? ==> m[k] == JString(r.value)
    ensures k !in m ==> r == Err(Missing(k))
  {
    if k !in m then Err(Missing(k))
    else if m[k].JString? then Ok(m[k].s)
    else Err(WrongType(k))
  }

  // ---------------------------------------------------------------------
  // Booleans and numbers

  /** A boolean field with a default: absent or a boolean. */
  predicate BoolOk(m: Fields, k: string) {
    k !in m || m[k].JBool?
  }

  /** `v` is what a boolean member with default `d` stands for. */
  ghost predicate BoolRead(m: Fields, k: string, d: bool, v: bool) {
    if k !in m then v == d else m[k] == JBool(v)
  }

  /** `k: bool = d` */
  function BoolOr(m: Fields, k: string, d: bool): (r: Result<bool, Error>)
    ensures r.Ok? <==> BoolOk(m, k)
    ensures r.Ok? ==> BoolRead(m, k, d, r.value)
  {
    if k !in m then Ok(d)
    else if m[k].JBool? then Ok(m[k].b)
    else Err(WrongType(k))
  }

  /** An optional number field: absent, `null`, an integer or a float. */
  predicate OptionalNumberOk(m: Fields, k: string) {
    AbsentOrNull(m, k) || IsNumber(m[k])
  }

  /** `v` is what an optional number member stands for. */
  ghost predicate OptNumberRead(m: Fields, k: string, v: Option<real>) {
    if AbsentOrNull(m, k) then v.None? else IsNumber(m[k]) && v == Some(NumberValue(m[k]))
  }

  /** `k: float | None`; an integer is read as the same number */
  function OptNumber(m: Fields, k: string): (r: Result<Option<real>, Error>)
    ensures r.Ok? <==> OptionalNumberOk(m, k)
    ensures r.Ok? ==> OptNumberRead(m, k, r.value)
  {
    if AbsentOrNull(m, k) then Ok(None)
    else if IsNumber(m[k]) then Ok(Some(NumberValue(m[k])))
    else Err(WrongType(k))
  }

  /** An integer field with a default: absent or an integer. */
  predicate IntOk(m: Fields, k: string) {
    k !in m || m[k].JInt?
  }

  /** `v` is what an integer member with default `d` stands for. */
  ghost predicate IntRead(m: Fields, k: string, d: int, v: int) {
    if k !in m then v == d else m[k] == JInt(v)
  }

  /** `k: int = d`, without bounds */
  function IntOr(m: Fields, k: string, d: int): (r: Result<int, Error>)
    ensures r.Ok? <==> IntOk(m, k)
    ensures r.Ok? ==> IntRead(m, k, d, r.value)
  {
    if k !in m then Ok(d)
    else if m[k].JInt? then Ok(m[k].i)
    else Err(WrongType(k))
  }

  /** An optional `ge=0` integer field: absent, `null` or an integer >= 0. */
  predicate OptionalNatOk(m: Fields, k: string) {
    AbsentOrNull(m, k) || (m[k].JInt? && m[k].i >= 0)
  }

  /** `v` is what an optional integer member stands for. */
  ghost predicate OptNatRead(m: Fields, k: string, v: Option<nat>) {
    if AbsentOrNull(m, k) then v.None? else v.Some? && m[k] == JInt(v.value)
  }

  /** `k: int | None = Field(None, ge=0)` */
  function OptNat(m: Fields, k: string): (r: Result<Option<nat>, Error>)
    ensures r.Ok? <==> OptionalNatOk(m, k)
    ensures r.Ok? ==> OptNatRead(m, k, r.value)
    ensures NegativeAt(m, k) ==> r == Err(Negative(k))
  {
    if AbsentOrNull(m, k) then Ok(None)
    else if !m[k].JInt? then Err(WrongType(k))
    else if m[k].i < 0 then Err(Negative(k))
    else Ok(Some(m[k].i))
  }

  /** A `ge=0` integer field with a default: absent or an integer >= 0. */
  predicate NatOk(m: Fields, k: string) {
    k !in m || (m[k].JInt? && m[k].i >= 0)
  }

  /** `k: int = Field(d, ge=0)` */
  function NatOr(m: Fields, k: string, d: nat): (r: Result<nat, Error>)
    ensures r.Ok? <==> NatOk(m, k)
    ensures r.Ok? ==> IntRead(m, k, d, r.value)
    ensures NegativeAt(m, k) ==> r == Err(Negative(k))
  {
    if k !in m then Ok(d)
    else if !m[k].JInt? then Err(WrongType(k))
    else if m[k].i < 0 then Err(Negative(k))
    else Ok(m[k].i)
  }

  /** `k: int | None = Field(None, ge=lo, le=hi)` */
  function OptIntInRange(m: Fields, k: string, lo: int, hi: int): (r: Result<Option<int>, Error>)
    ensures r.Ok? <==> AbsentOrNull(m, k) || (m[k].JInt? && lo <= m[k].i <= hi)
    ensures r.Ok? ==>
      if AbsentOrNull(m, k) then r.value.None?
      else r.value.Some? && m[k] == JInt(r.value.value) && lo <= r.value.value <= hi
    ensures k in m && m[k].JInt? && !(lo <= m[k].i <= hi) ==> r == Err(OutOfRange(k))
  {
    if AbsentOrNull(m, k) then Ok(None)
    else if !m[k].JInt? then Err(WrongType(k))
    else if m[k].i < lo || hi < m[k].i then Err(OutOfRange(k))
    else Ok(Some(m[k].i))
  }

  // ---------------------------------------------------------------------
  // Lists and dictionaries of strings

  predicate AllStrings(xs: seq<Json>) {
    forall i :: 0 <= i < |xs| ==> xs[i].JString?
  }

  /** `v` lists the strings of `xs`, in order. */
  ghost predicate StringsOf(xs: seq<Json>, v: seq<string>) {
    |v| == |xs| && forall i :: 0 <= i < |xs| ==> xs[i] == JString(v[i])
  }

  function Strings(xs: seq<Json>): (r: seq<string>)
    requires AllStrings(xs)
    ensures StringsOf(xs, r)
  {
    seq(|xs|, i requires 0 <= i < |xs| => xs[i].s)
  }

  /** A mandatory list of strings. */
  predicate StringListOk(m: Fields, k: string) {
    k in m && m[k].JArray? && AllStrings(m[k].elems)
  }

  /** `k: list[str]`, without a default */
  function RequiredStringList(m: Fields, k: string): (r: Result<seq<string>, Error>)
    ensures r.Ok? <==> StringListOk(m, k)
    ensures r.Ok? ==> StringsOf(m[k].elems, r.value)
  {
    if k !in m then Err(Missing(k))
    else if m[k].JArray? && AllStrings(m[k].elems) then Ok(Strings(m[k].elems))
    else Err(WrongType(k))
  }

  /** An optional string-list field: absent, `null` or a list of strings. */
  predicate OptionalStringListOk(m: Fields, k: string) {
    AbsentOrNull(m, k) || (m[k].JArray? && AllStrings(m[k].elems))
  }

  /** `v` is what an optional list of strings stands for. */
  ghost predicate OptStringListRead(m: Fields, k: string, v: Option<seq<string>>) {
    if AbsentOrNull(m, k) then v.None? else v.Some? && m[k].JArray? && StringsOf(m[k].elems, v.value)
  }

  /** `k: list[str] | None` */
  function OptStringList(m: Fields, k: string): (r: Result<Option<seq<string>>, Error>)
    ensures r.Ok? <==> OptionalStringListOk(m, k)
    ensures r.Ok? ==> OptStringListRead(m, k, r.value)
  {
    if AbsentOrNull(m, k) then Ok(None)
    else if m[k].JArray? && AllStrings(m[k].elems) then Ok(Some(Strings(m[k].elems)))
    else Err(WrongType(k))
  }

  /** A mandatory dictionary of strings. */
  predicate StringMapOk(m: Fields, k: string) {
    k in m && m[k].JObject? && forall n :: n in m[k].fields ==> m[k].fields[n].JString?
  }

  /** `v` has the keys of the dictionary under `k`, each with its string. */
  ghost predicate StringMapRead(m: Fields, k: string, v: map<string, string>) {
    && k in m && m[k].JObject? && v.Keys == m[k].fields.Keys
    && forall n :: n in v ==> m[k].fields[n] == JString(v[n])
  }

  /** `k: dict[str, str]`, without a default */
  function RequiredStringMap(m: Fields, k: string): (r: Result<map<string, string>, Error>)
    ensures r.Ok? <==> StringMapOk(m, k)
    ensures r.Ok? ==> StringMapRead(m, k, r.value)
  {
    if k !in m then Err(Missing(k))
    else if m[k].JObject? && forall n :: n in m[k].fields ==> m[k].fields[n].JString? then
      Ok(map n | n in m[k].fields :: m[k].fields[n].s)
    else Err(WrongType(k))
  }

  /** An optional free-form object: absent, `null` or an object. */
  predicate OptionalObjectOk(m: Fields, k: string) {
    AbsentOrNull(m, k) || m[k].JObject?
  }

  /** `k: typing.Optional[dict]` */
  function OptObject(m: Fields, k: string): (r: Result<Option<Fields>, Error>)
    ensures r.Ok? <==> OptionalObjectOk(m, k)
    ensures r.Ok? ==> r.value == if AbsentOrNull(m, k) then None else Some(m[k].fields)
  {
    if AbsentOrNull(m, k) then Ok(None)
    else if m[k].JObject? then Ok(Some(m[k].fields))
    else Err(WrongType(k))
  }

  /** True when no two positions of `xs` hold the same element. */
  predicate Distinct<T(==)>(xs: seq<T>) {
    forall i, j :: 0 <= i < j < |xs| ==> xs[i] != xs[j]
  }

  // ---------------------------------------------------------------------
  // Lists and dictionaries of models

  /** The values of a sequence of results, or the first error among them. */
  function AllOk<T>(rs: seq<Result<T, Error>>): (r: Result<seq<T>, Error>)
    ensures r.Ok? <==> forall i :: 0 <= i < |rs| ==> rs[i].Ok?
    ensures r.Ok? ==> |r.value| == |rs| && forall i :: 0 <= i < |rs| ==> r.value[i] == rs[i].value
  {
    if rs == [] then Ok([])
    else if rs[0].Err? then Err(rs[0].error)
    else
      var rest :- AllOk(rs[1..]);
      assert forall i :: 1 <= i < |rs| ==> rs[i] == rs[1..][i - 1];
      Ok([rs[0].value] + rest)
  }

  /** A list whose every member `parse` accepts. */
  predicate ListOk<T>(j: Json, parse: Json -> Result<T, Error>) {
    j.JArray? && forall i :: 0 <= i < |j.elems| ==> parse(j.elems[i]).Ok?
  }

  /** `v` holds, in order, what `parse` makes of each member of the list. */
  ghost predicate ListRead<T>(j: Json, parse: Json -> Result<T, Error>, v: seq<T>) {
    j.JArray? && |v| == |j.elems| && forall i :: 0 <= i < |j.elems| ==> parse(j.elems[i]) == Ok(v[i])
  }

  /** `list[T]`: a list whose every member is read by `parse`. */
  function ParseList<T>(j: Json, k: string, parse: Json -> Result<T, Error>): (r: Result<seq<T>, Error>)
    ensures r.Ok? <==> ListOk(j, parse)
    ensures r.Ok? ==> ListRead(j, parse, r.value)
  {
    if !j.JArray? then Err(WrongType(k))
    else
      var rs := seq(|j.elems|, i requires 0 <= i < |j.elems| => parse(j.elems[i]));
      assert forall i :: 0 <= i < |j.elems| ==> rs[i] == parse(j.elems[i]);
      AllOk(rs)
  }

  /** A mandatory list of models. */
  predicate RequiredListOk<T>(m: Fields, k: string, parse: Json -> Result<T, Error>) {
    k in m && ListOk(m[k], parse)
  }

  /** `k: list[T]`, without a default */
  function RequiredList<T>(m: Fields, k: string, parse: Json -> Result<T, Error>): (r: Result<seq<T>, Error>)
    ensures r.Ok? <==> RequiredListOk(m, k, parse)
    ensures r.Ok? ==> ListRead(m[k], parse, r.value)
    ensures k !in m ==> r == Err(Missing(k))
  {
    if k !in m then Err(Missing(k)) else ParseList(m[k], k, parse)
  }

  /** An optional list of models. */
  predicate OptionalListOk<T>(m: Fields, k: string, parse: Json -> Result<T, Error>) {
    AbsentOrNull(m, k) || ListOk(m[k], parse)
  }

  /** `v` is what an optional list of models stands for. */
  ghost predicate OptListRead<T>(m: Fields, k: string, parse: Json -> Result<T, Error>, v: Option<seq<T>>) {
    if AbsentOrNull(m, k) then v.None? else v.Some? && ListRead(m[k], parse, v.value)
  }

  /** `k: list[T] | None` */
  function OptList<T>(m: Fields, k: string, parse: Json -> Result<T, Error>): (r: Result<Option<seq<T>>, Error>)
    ensures r.Ok? <==> OptionalListOk(m, k, parse)
    ensures r.Ok? ==> OptListRead(m, k, parse, r.value)
  {
    if AbsentOrNull(m, k) then Ok(None)
    else var xs :- ParseList(m[k], k, parse); Ok(Some(xs))
  }

  /** The values of a dictionary of results, or an error naming the
      dictionary `k` when some entry was refused. */
  function AllEntriesOk<T>(rs: map<string, Result<T, Error>>, k: string): (r: Result<map<string, T>, Error>)
    ensures r.Ok? <==> forall n :: n in rs ==> rs[n].Ok?
    ensures r.Ok? ==> r.value.Keys == rs.Keys && forall n :: n in rs ==> rs[n] == Ok(r.value[n])
  {
    if forall n :: n in rs ==> rs[n].Ok? then Ok(map n | n in rs :: rs[n].value)
    else Err(InvalidEntry(k))
  }

  /** A mandatory dictionary whose every entry `parse` accepts. */
  predicate DictOk<T>(m: Fields, k: string, parse: Json -> Result<T, Error>) {
    k in m && m[k].JObject? && forall n :: n in m[k].fields ==> parse(m[k].fields[n]).Ok?
  }

  /** `v` has the keys of the dictionary under `k`, each with what `parse`
      makes of its entry. */
  ghost predicate DictRead<T>(m: Fields, k: string, parse: Json -> Result<T, Error>, v: map<string, T>) {
    && k in m && m[k].JObject? && v.Keys == m[k].fields.Keys
    && forall n :: n in v ==> parse(m[k].fields[n]) == Ok(v[n])
  }

  /** `k: dict[str, T]`, without a default */
  function RequiredDict<T>(m: Fields, k: string, parse: Json -> Result<T, Error>): (r: Result<map<string, T>, Error>)
    ensures r.Ok? <==> DictOk(m, k, parse)
    ensures r.Ok? ==> DictRead(m, k, parse, r.value)
  {
    if k !in m then Err(Missing(k))
    else if !m[k].JObject? then Err(WrongType(k))
    else
      var rs := map n | n in m[k].fields :: parse(m[k].fields[n]);
      assert rs.Keys == m[k].fields.Keys;
      assert forall n :: n in rs ==> rs[n] == parse(m[k].fields[n]);
      AllEntriesOk(rs, k)
  }

  /** An optional dictionary of models. */
  predicate OptionalDictOk<T>(m: Fields, k: string, parse: Json -> Result<T, Error>) {
    AbsentOrNull(m, k) || DictOk(m, k, parse)
  }

  /** `v` is what an optional dictionary of models stands for. */
  ghost predicate OptDictRead<T>(m: Fields, k: string, parse: Json -> Result<T, Error>, v: Option<map<string, T>>) {
    if AbsentOrNull(m, k) then v.None? else v.Some? && DictRead(m, k, parse, v.value)
  }

  /** `k: typing.Optional[dict[str, T]] = None` */
  function OptDict<T>(m: Fields, k: string, parse: Json -> Result<T, Error>): (r: Result<Option<map<string, T>>, Error>)
    ensures r.Ok? <==> OptionalDictOk(m, k, parse)
    ensures r.Ok? ==> OptDictRead(m, k, parse, r.value)
  {
    if AbsentOrNull(m, k) then Ok(None)
    else var d :- RequiredDict(m, k, parse); Ok(Some(d))
  }

  // ---------------------------------------------------------------------
  // Tokens of a closed vocabulary

  /** One token of the closed vocabulary that `parse` reads. */
  function TokenAt<T>(j: Json, k: string, parse: string -> Option<T>): Result<T, Error> {
    if !j.JString? then Err(WrongType(k))
    else if parse(j.s).None? then Err(UnknownToken(k))
    else Ok(parse(j.s).value)
  }

  /** A list of tokens that `parse` knows. */
  predicate TokensOk<T>(j: Json, parse: string -> Option<T>) {
    j.JArray? && forall i :: 0 <= i < |j.elems| ==> j.elems[i].JString? && parse(j.elems[i].s).Some?
  }

  /** `v` holds, in order, the vocabulary members the tokens name. */
  ghost predicate TokensRead<T>(j: Json, parse: string -> Option<T>, v: seq<T>) {
    && j.JArray? && |v| == |j.elems|
    && forall i :: 0 <= i < |j.elems| ==> j.elems[i].JString? && parse(j.elems[i].s) == Some(v[i])
  }

  /** A list of tokens of the closed vocabulary that `parse` reads. */
  function ParseTokens<T>(j: Json, k: string, parse: string -> Option<T>): (r: Result<seq<T>, Error>)
    ensures r.Ok? <==> TokensOk(j, parse)
    ensures r.Ok? ==> TokensRead(j, parse, r.value)
  {
    if !j.JArray? then Err(WrongType(k))
    else
      var rs := seq(|j.elems|, i requires 0 <= i < |j.elems| => TokenAt(j.elems[i], k, parse));
      assert forall i :: 0 <= i < |j.elems| ==> rs[i] == TokenAt(j.elems[i], k, parse);
      AllOk(rs)
  }

  /** `k: list[E]`, without a default */
  function RequiredTokens<T>(m: Fields, k: string, parse: string -> Option<T>): (r: Result<seq<T>, Error>)
    ensures r.Ok? <==> k in m && TokensOk(m[k], parse)
    ensures r.Ok? ==> TokensRead(m[k], parse, r.value)
    ensures k !in m ==> r == Err(Missing(k))
  {
    if k !in m then Err(Missing(k)) else ParseTokens(m[k], k, parse)
  }

  /** `k: list[E] = d` */
  function TokensOr<T>(m: Fields, k: string, parse: string -> Option<T>, d: seq<T>): (r: Result<seq<T>, Error>)
    ensures r.Ok? <==> k !in m || TokensOk(m[k], parse)
    ensures r.Ok? ==> if k !in m then r.value == d else TokensRead(m[k], parse, r.value)
  {
    if k !in m then Ok(d) else ParseTokens(m[k], k, parse)
  }

  /** An optional vocabulary field with a default: absent, `null` or a
      known token. */
  predicate OptionalTokenOk<T>(m: Fields, k: string, parse: string -> Option<T>) {
    k !in m || m[k].JNull? || (m[k].JString? && parse(m[k].s).Some?)
  }

  /** `v` is what such a member stands for: the default when absent, None
      when `null`, otherwise the member its token names. */
  ghost predicate OptTokenOrRead<T>(m: Fields, k: string, parse: string -> Option<T>, d: T, v: Option<T>) {
    if k !in m then v == Some(d)
    else if m[k].JNull? then v.None?
    else m[k].JString? && v == parse(m[k].s)
  }

  /** `k: typing.Optional[E] = d` for an enumeration read by `parse` */
  function OptTokenOr<T>(m: Fields, k: string, parse: string -> Option<T>, d: T): (r: Result<Option<T>, Error>)
    ensures r.Ok? <==> OptionalTokenOk(m, k, parse)
    ensures r.Ok? ==> OptTokenOrRead(m, k, parse, d, r.value)
  {
    if k !in m then Ok(Some(d))
    else if m[k].JNull? then Ok(None)
    else var t :- TokenAt(m[k], k, parse); Ok(Some(t))
  }
}
