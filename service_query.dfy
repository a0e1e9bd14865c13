/**
 * The museum API query (RijksMuseum/Service/RijksmuseumServiceQuery.swift):
 * the request kinds and their path, the fluent builders, and the URL string
 * that `getUrl()` hands to `URL(string:)`.
 */
module ServiceQuery {
  import opened Wrappers
  import opened Foundation
  import opened Text

  datatype Format = Json | Jsonp | Xml {
    function RawValue(): string {
      match this
      case Json => "json"
      case Jsonp => "jsonp"
      case Xml => "xml"
    }
  }

  function ParseFormat(s: string): (r: Option<Format>)
    ensures forall f: Format :: f.RawValue() == s <==> r == Some(f)
  {
    if s == "json" then Some(Json)
    else if s == "jsonp" then Some(Jsonp)
    else if s == "xml" then Some(Xml)
    else None
  }

  datatype Culture = En | Nl {
    function RawValue(): string {
      match this
      case En => "en"
      case Nl => "nl"
    }
  }

  function ParseCulture(s: string): (r: Option<Culture>)
    ensures forall c: Culture :: c.RawValue() == s <==> r == Some(c)
  {
    if s == "en" then Some(En)
    else if s == "nl" then Some(Nl)
    else None
  }

  datatype Request = All | Collection(id: string) | Tiles(id: string) {
    /** The `description` of the request: its path below the culture. */
    function Description(): (s: string)
      ensures "collection" <= s
      ensures All? <==> s == "collection"
    {
      match this
      case All => "collection"
      case Collection(id) => "collection/" + id
      case Tiles(id) => "collection/" + id + "/tiles"
    }
  }

  /** An object id that is one path segment and holds no query part. */
  predicate PlainId(id: string) {
    '/' !in id && '?' !in id
  }

  predicate PlainRequest(r: Request) {
    r.All? || PlainId(r.id)
  }

  /** Reads a request back from its description. */
  function ParseDescription(s: string): Option<Request> {
    if s == "collection" then Some(All)
    else
      var rest :- StripPrefix(s, "collection/");
      match SplitAt(rest, '/')
      case None => Some(Collection(rest))
      case Some(p) => if p.1 == "tiles" then Some(Tiles(p.0)) else None
  }

  lemma ParseDescriptionOf(r: Request)
    requires '/' !in (if r.All? then "" else r.id)
    ensures ParseDescription(r.Description()) == Some(r)
  {
    match r
    case All =>
    case Collection(id) =>
      StripPrefixOf("collection/", id);
    case Tiles(id) =>
      assert r.Description() == "collection/" + (id + ['/'] + "tiles");
      StripPrefixOf("collection/", id + ['/'] + "tiles");
      SplitAtFirst(id, '/', "tiles");
  }

  /** Without the one-segment restriction two requests share a description. */
  lemma DescriptionAmbiguous(id: string)
    ensures Collection(id + "/tiles") != Tiles(id)
    ensures Collection(id + "/tiles").Description() == Tiles(id).Description()
  {
  }

  const BaseUrl := "https://www.rijksmuseum.nl/api"
  const Key := "0fiuZFh4"

  /** The value of a query object: every field `getUrl()` reads. */
  datatype Query = Query(format: Format, culture: Culture, request: Request, page: int, pageSize: int)

  /** The field values `init(request:)` leaves. */
  function DefaultQuery(request: Request): Query {
    Query(Json, En, request, 0, 10)
  }

  /** The query items after the `?`: API key, format, page and page size. */
  function QueryItems(q: Query): string {
    "key=" + Key + "&format=" + q.format.RawValue()
    + "&p=" + IntToString(q.page) + "&ps=" + IntToString(q.pageSize)
  }

  /** The string `getUrl()` passes to `URL(string:)`. */
  function UrlString(q: Query): string {
    BaseUrl + "/" + q.culture.RawValue() + "/" + q.request.Description() + "?" + QueryItems(q)
  }

  /** Reads format, page and page size back from the query items. */
  function ParseQueryItems(s: string): Option<(Format, int, int)> {
    var s1 :- StripPrefix(s, "key=" + Key + "&format=");
    var p1 :- SplitAt(s1, '&');
    var format :- ParseFormat(p1.0);
    var s2 :- StripPrefix(p1.1, "p=");
    var p2 :- SplitAt(s2, '&');
    var page :- ParseInt(p2.0);
    var s3 :- StripPrefix(p2.1, "ps=");
    var pageSize :- ParseInt(s3);
    Some((format, page, pageSize))
  }

  /** Reads every field of a query back from its URL string. */
  function ParseUrlString(s: string): Option<Query> {
    var s1 :- StripPrefix(s, BaseUrl + "/");
    var p1 :- SplitAt(s1, '/');
    var culture :- ParseCulture(p1.0);
    var p2 :- SplitAt(p1.1, '?');
    var request :- ParseDescription(p2.0);
    var items :- ParseQueryItems(p2.1);
    Some(Query(items.0, culture, request, items.1, items.2))
  }

  lemma NoAmpersandInDecimal(n: int)
    ensures '&' !in IntToString(n)
  {
  }

  lemma NoQuestionMarkInDescription(r: Request)
    requires PlainRequest(r)
    ensures '?' !in r.Description()
  {
  }

  lemma {:induction false} ParseQueryItemsOf(q: Query)
    ensures ParseQueryItems(QueryItems(q)) == Some((q.format, q.page, q.pageSize))
  {
    var f, pg, ps := q.format.RawValue(), IntToString(q.page), IntToString(q.pageSize);
    var r2 := pg + ['&'] + ("ps=" + ps);
    var r1 := f + ['&'] + ("p=" + r2);
    assert QueryItems(q) == ("key=" + Key + "&format=") + r1;
    StripPrefixOf("key=" + Key + "&format=", r1);
    SplitAtFirst(f, '&', "p=" + r2);
    StripPrefixOf("p=", r2);
    NoAmpersandInDecimal(q.page);
    SplitAtFirst(pg, '&', "ps=" + ps);
    ParseIntToString(q.page);
    StripPrefixOf("ps=", ps);
    ParseIntToString(q.pageSize);
  }

  /** The URL string determines the query: every field can be read back from it. */
  lemma {:induction false} ParseUrlStringOf(q: Query)
    requires PlainRequest(q.request)
    ensures ParseUrlString(UrlString(q)) == Some(q)
  {
    var c, d, items := q.culture.RawValue(), q.request.Description(), QueryItems(q);
    var r1 := c + ['/'] + (d + ['?'] + items);
    assert UrlString(q) == (BaseUrl + "/") + r1;
    StripPrefixOf(BaseUrl + "/", r1);
    SplitAtFirst(c, '/', d + ['?'] + items);
    NoQuestionMarkInDescription(q.request);
    SplitAtFirst(d, '?', items);
    ParseDescriptionOf(q.request);
    ParseQueryItemsOf(q);
  }

  lemma UrlStringInjective(q1: Query, q2: Query)
    requires PlainRequest(q1.request) && PlainRequest(q2.request)
    requires UrlString(q1) == UrlString(q2)
    ensures q1 == q2
  {
    ParseUrlStringOf(q1);
    ParseUrlStringOf(q2);
  }

  /** `RijksmuseumServiceQuery`, whose builders set one field and return the same object. */
  class RijksmuseumServiceQuery {
    var format: Format
    var culture: Culture
    var request: Request
    var page: int
    var pageSize: int

    function Value(): Query
      reads this
    {
      Query(format, culture, request, page, pageSize)
    }

    constructor (request: Request)
      ensures Value() == DefaultQuery(request)
    {
      this.format := Json;
      this.culture := En;
      this.request := request;
      this.page := 0;
      this.pageSize := 10;
    }

    method WithFormat(format: Format) returns (q: RijksmuseumServiceQuery)
      modifies this
      ensures q == this
      ensures Value() == old(Value()).(format := format)
    {
      this.format := format;
      q := this;
    }

    method WithCulture(culture: Culture) returns (q: RijksmuseumServiceQuery)
      modifies this
      ensures q == this
      ensures Value() == old(Value()).(culture := culture)
    {
      this.culture := culture;
      q := this;
    }

    method WithPage(page: int) returns (q: RijksmuseumServiceQuery)
      modifies this
      ensures q == this
      ensures Value() == old(Value()).(page := page)
    {
      this.page := page;
      q := this;
    }

    method WithPageSize(pageSize: int) returns (q: RijksmuseumServiceQuery)
      modifies this
      ensures q == this
      ensures Value() == old(Value()).(pageSize := pageSize)
    {
      this.pageSize := pageSize;
      q := this;
    }

    /** `getUrl()`: the URL string given to the (foreign) URL parser. */
    function GetUrl(parse: UrlParser): Option<Url>
      reads this
    {
      parse(UrlString(Value()))
    }
  }
}
