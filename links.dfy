/** Link: a reference by URI with optional media type, relation, title and
    language. */
module Links {
  import opened Wrappers
  import opened Json
  import opened FieldReaders

  datatype Link = Link(
    href: string,
    mediaType: Option<string>,  // wire key `type`
    rel: Option<string>,
    title: Option<string>,
    hreflang: Option<string>)

  /** `href` is mandatory; the other members are optional strings. */
  function ParseLink(j: Json): (r: Result<Link, Error>)
    ensures r.Ok? <==>
      && j.JObject? && "href" in j.fields && j.fields["href"].JString?
      && OptionalStringOk(j.fields, "type") && OptionalStringOk(j.fields, "rel")
      && OptionalStringOk(j.fields, "title") && OptionalStringOk(j.fields, "hreflang")
    ensures r.Ok? ==>
      && j.fields["href"] == JString(r.value.href)
      && OptStringRead(j.fields, "type", r.value.mediaType)
      && OptStringRead(j.fields, "rel", r.value.rel)
      && OptStringRead(j.fields, "title", r.value.title)
      && OptStringRead(j.fields, "hreflang", r.value.hreflang)
    ensures j.JObject? && "href" !in j.fields ==> r == Err(Missing("href"))
  {
    if !j.JObject? then Err(NotAnObject)
    else
      var m := j.fields;
      var href :- RequiredString(m, "href");
      var mediaType :- OptString(m, "type");
      var rel :- OptString(m, "rel");
      var title :- OptString(m, "title");
      var hreflang :- OptString(m, "hreflang");
      Ok(Link(href, mediaType, rel, title, hreflang))
  }
}
