/**
 * The client side of the refactored book service: a resource knows a base
 * URL and an endpoint, builds URLs from them, and turns each CRUD operation
 * into an HTTP verb, a URL and an optional JSON body. Sending the request is
 * not modelled.
 */
module Crud {
  import opened Common
  import opened JavaText
  import opened PyJson

  /** A `CrudResource`: the normalised base URL and the class's `endpoint`. */
  datatype Resource = Resource(baseUrl: string, endpoint: string)

  /** The `endpoint` of `CrudResource` itself, which subclasses override. */
  const DEFAULT_ENDPOINT: string := ""

  predicate NoTrailingSlash(s: string)
  {
    s == [] || s[|s| - 1] != '/'
  }

  /** Stripping a string that does not end in `c` leaves it alone. */
  lemma RStripIdle(s: string, c: char)
    requires s == [] || s[|s| - 1] != c
    ensures RStrip(s, c) == s
  {
  }

  /** Stripping one more trailing `c` gives what stripping without it gives. */
  lemma RStripAppend(s: string, c: char)
    ensures RStrip(s + [c], c) == RStrip(s, c)
  {
    assert (s + [c])[..|s|] == s;
  }

  /**
   * `__init__`: the base URL without its trailing slashes, all of them, and
   * nothing else removed.
   */
  function New(baseUrl: string, endpoint: string): (r: Resource)
    ensures r.endpoint == endpoint
    ensures NoTrailingSlash(r.baseUrl)
    ensures r.baseUrl <= baseUrl
    ensures forall i :: |r.baseUrl| <= i < |baseUrl| ==> baseUrl[i] == '/'
  {
    Resource(RStrip(baseUrl, '/'), endpoint)
  }

  /** Normalising an already normalised base URL changes nothing. */
  lemma NewIdempotent(baseUrl: string, endpoint: string)
    ensures New(New(baseUrl, endpoint).baseUrl, endpoint) == New(baseUrl, endpoint)
  {
    RStripIdle(RStrip(baseUrl, '/'), '/');
  }

  /** The f-string `_url` strips: base, endpoint and path joined by slashes. */
  function Joined(res: Resource, path: string): string
  {
    res.baseUrl + "/" + res.endpoint + "/" + path
  }

  /** `_url(path)`: the joined URL without trailing slashes, so it never ends in one. */
  function Url(res: Resource, path: string): (r: string)
    ensures NoTrailingSlash(r)
    ensures r <= Joined(res, path)
    ensures forall i :: |r| <= i < |Joined(res, path)| ==> Joined(res, path)[i] == '/'
  {
    RStrip(Joined(res, path), '/')
  }

  /** An endpoint a subclass can set: non-empty and not ending in a slash, such as "books". */
  predicate GoodEndpoint(endpoint: string)
  {
    endpoint != [] && endpoint[|endpoint| - 1] != '/'
  }

  /** `_url()` is the collection URL: base, a slash, the endpoint. */
  lemma {:induction false} CollectionUrl(res: Resource)
    requires GoodEndpoint(res.endpoint)
    ensures Url(res, "") == res.baseUrl + "/" + res.endpoint
  {
    var s := res.baseUrl + "/" + res.endpoint;
    assert Joined(res, "") == s + ['/'];
    RStripAppend(s, '/');
    RStripIdle(s, '/');
  }

  /** `_url(str(id))` is the item URL: the collection URL, a slash, the id in decimal. */
  lemma {:induction false} ItemUrl(res: Resource, id: int)
    requires GoodEndpoint(res.endpoint)
    ensures Url(res, Decimal(id)) == res.baseUrl + "/" + res.endpoint + "/" + Decimal(id)
  {
    var d := Decimal(id);
    var s := Joined(res, d);
    assert s[|s| - 1] == d[|d| - 1];
    RStripIdle(s, '/');
  }

  /**
   * With the default empty endpoint, the collection URL is the base URL
   * itself: the two slashes the f-string adds are both stripped.
   */
  lemma {:induction false} DefaultEndpointUrl(res: Resource)
    requires res.endpoint == DEFAULT_ENDPOINT && NoTrailingSlash(res.baseUrl)
    ensures Url(res, "") == res.baseUrl
  {
    assert Joined(res, "") == res.baseUrl + ['/'] + ['/'];
    RStripAppend(res.baseUrl + ['/'], '/');
    RStripAppend(res.baseUrl, '/');
    RStripIdle(res.baseUrl, '/');
  }

  /** The five operations a resource offers. */
  datatype Operation =
    | GetAll
    | Get(id: int)
    | Create(data: Json)
    | Update(id: int, data: Json)
    | Delete(id: int)

  /** What `_request` is asked to send. */
  datatype Request = Request(verb: string, url: string, json: Option<Json>)

  /** The operations that address one item by its id. */
  predicate ById(op: Operation)
  {
    op.Get? || op.Update? || op.Delete?
  }

  /**
   * The request an operation makes: GET, GET, POST, PUT, DELETE; the
   * collection URL or the item URL; a JSON body only for create and update.
   */
  function RequestOf(res: Resource, op: Operation): (r: Request)
    ensures r.verb == "GET" <==> op.GetAll? || op.Get?
    ensures r.verb == "POST" <==> op.Create?
    ensures r.verb == "PUT" <==> op.Update?
    ensures r.verb == "DELETE" <==> op.Delete?
    ensures ById(op) ==> r.url == Url(res, Decimal(op.id))
    ensures !ById(op) ==> r.url == Url(res, "")
    ensures r.json.Some? <==> op.Create? || op.Update?
    ensures r.json.Some? ==> r.json.value == op.data
  {
    match op
    case GetAll => Request("GET", Url(res, ""), None)
    case Get(id) => Request("GET", Url(res, Decimal(id)), None)
    case Create(data) => Request("POST", Url(res, ""), Some(data))
    case Update(id, data) => Request("PUT", Url(res, Decimal(id)), Some(data))
    case Delete(id) => Request("DELETE", Url(res, Decimal(id)), None)
  }

  /**
   * With a proper endpoint, listing and creating go to base/endpoint, and
   * reading, updating and deleting to base/endpoint/id.
   */
  lemma RequestUrls(res: Resource, op: Operation)
    requires GoodEndpoint(res.endpoint)
    ensures !ById(op) ==> RequestOf(res, op).url == res.baseUrl + "/" + res.endpoint
    ensures ById(op) ==> RequestOf(res, op).url == res.baseUrl + "/" + res.endpoint + "/" + Decimal(op.id)
  {
    if ById(op) {
      ItemUrl(res, op.id);
    } else {
      CollectionUrl(res);
    }
  }

  /** The item URL is the collection URL with "/" and the id appended. */
  lemma ItemUnderCollection(res: Resource, id: int)
    requires GoodEndpoint(res.endpoint)
    ensures RequestOf(res, Get(id)).url == RequestOf(res, GetAll).url + "/" + Decimal(id)
  {
    RequestUrls(res, Get(id));
    RequestUrls(res, GetAll);
  }

  /** Reading, updating and deleting one id address the same URL. */
  lemma SameIdSameUrl(res: Resource, id: int, data: Json)
    ensures RequestOf(res, Update(id, data)).url == RequestOf(res, Get(id)).url
    ensures RequestOf(res, Delete(id)).url == RequestOf(res, Get(id)).url
  {
  }
}
