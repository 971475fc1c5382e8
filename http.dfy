/** The normalised HTTP vocabulary shared by the engine: methods, status codes and
    the request record a wire adapter delivers. */
module Http {
  import opened Common

  datatype HttpMethod = GET | HEAD | POST | PUT | PATCH | DELETE | CONNECT | OPTIONS | TRACE

  /** The enum constant's name. */
  function MethodName(m: HttpMethod): string {
    match m
    case GET => "GET" case HEAD => "HEAD" case POST => "POST" case PUT => "PUT"
    case PATCH => "PATCH" case DELETE => "DELETE" case CONNECT => "CONNECT"
    case OPTIONS => "OPTIONS" case TRACE => "TRACE"
  }

  /** `valueOf(name)`: the method with exactly that name, or none. */
  function MethodValueOf(name: string): (r: Option<HttpMethod>)
    ensures r.Some? ==> MethodName(r.value) == name
    ensures (exists m :: MethodName(m) == name) ==> r.Some?
  {
    if name == "GET" then Some(GET) else if name == "HEAD" then Some(HEAD)
    else if name == "POST" then Some(POST) else if name == "PUT" then Some(PUT)
    else if name == "PATCH" then Some(PATCH) else if name == "DELETE" then Some(DELETE)
    else if name == "CONNECT" then Some(CONNECT) else if name == "OPTIONS" then Some(OPTIONS)
    else if name == "TRACE" then Some(TRACE) else None
  }

  /** Names and methods are in one-to-one correspondence. */
  lemma MethodNameRoundTrip(m: HttpMethod)
    ensures MethodValueOf(MethodName(m)) == Some(m)
  {
  }

  const HTTP_OK: int := 200
  const HTTP_CREATED: int := 201
  const HTTP_NO_CONTENT: int := 204
  const HTTP_MOVED_PERM: int := 301
  const HTTP_UNAUTHORIZED: int := 401
  const HTTP_NOT_FOUND: int := 404
  const HTTP_BAD_METHOD: int := 405
  const HTTP_NOT_ACCEPTABLE: int := 406
  const HTTP_INTERNAL_ERROR: int := 500

  const CONTENT_TYPE: string := "Content-Type"
  const CONTENT_TYPE_JSON: string := "application/json"
  const CONTENT_TYPE_HTML: string := "text/html"
  const CONTENT_TYPE_PLAIN_TEXT: string := "text/plain"

  /** A `Map<String, String>` of the request, as its entries in iteration order.
      A map built by successive puts keeps the last value put for a key, so
      lookup returns the last entry with that key. */
  type Entries = seq<(string, string)>

  function Get(es: Entries, key: string): (r: Option<string>)
    ensures r.Some? <==> exists i :: 0 <= i < |es| && es[i].0 == key
    ensures r.Some? ==> exists i :: 0 <= i < |es| && es[i] == (key, r.value)
  {
    if es == [] then None
    else if es[|es| - 1].0 == key then Some(es[|es| - 1].1)
    else Get(es[..|es| - 1], key)
  }

  /** `CollectionUtil.convertKeysToLowerCase`: every key lower-cased; on a clash the
      later entry wins, as with Kotlin's `mapKeys`. */
  function LowerKeys(es: Entries): (r: Entries)
    ensures |r| == |es|
    ensures forall i :: 0 <= i < |es| ==> r[i] == (Lower(es[i].0), es[i].1)
  {
    if es == [] then [] else [(Lower(es[0].0), es[0].1)] + LowerKeys(es[1..])
  }

  /** Two entry lists that agree on the keys of `keys`. */
  ghost predicate AgreeOn(a: Entries, b: Entries, keys: set<string>) {
    forall k :: k in keys ==> Get(a, k) == Get(b, k)
  }

  /** Some entry's key equals `key` ignoring case. */
  predicate HasKeyIgnoringCase(es: Entries, key: string) {
    exists i :: 0 <= i < |es| && EqualsIgnoreCase(es[i].0, key)
  }

  lemma HasKeyIgnoringCaseInit(es: Entries, key: string)
    requires es != []
    ensures HasKeyIgnoringCase(es, key) ==
            (EqualsIgnoreCase(es[|es| - 1].0, key) || HasKeyIgnoringCase(es[..|es| - 1], key))
  {
    var init := es[..|es| - 1];
    if HasKeyIgnoringCase(es, key) && !EqualsIgnoreCase(es[|es| - 1].0, key) {
      var i :| 0 <= i < |es| && EqualsIgnoreCase(es[i].0, key);
      assert i < |init| && init[i] == es[i];
    }
    if HasKeyIgnoringCase(init, key) {
      var i :| 0 <= i < |init| && EqualsIgnoreCase(init[i].0, key);
      assert es[i] == init[i];
    }
  }

  /** Looking a lower-cased key up in the lower-cased entries finds the last entry
      whose key equals it ignoring case. */
  lemma {:induction false} GetLowerKeys(es: Entries, key: string)
    ensures Get(LowerKeys(es), Lower(key)) ==
            (if HasKeyIgnoringCase(es, key) then Some(es[LastIgnoringCase(es, key)].1) else None)
  {
    if es != [] {
      var init := es[..|es| - 1];
      var lowered := LowerKeys(es);
      assert lowered[..|es| - 1] == LowerKeys(init);
      assert lowered[|es| - 1] == (Lower(es[|es| - 1].0), es[|es| - 1].1);
      HasKeyIgnoringCaseInit(es, key);
      GetLowerKeys(init, key);
    }
  }

  /** Index of the last entry whose key equals `key` ignoring case. */
  function LastIgnoringCase(es: Entries, key: string): (i: nat)
    requires HasKeyIgnoringCase(es, key)
    ensures i < |es| && EqualsIgnoreCase(es[i].0, key)
    ensures forall j :: i < j < |es| ==> !EqualsIgnoreCase(es[j].0, key)
  {
    if EqualsIgnoreCase(es[|es| - 1].0, key) then |es| - 1
    else
      var init := es[..|es| - 1];
      HasKeyIgnoringCaseInit(es, key);
      LastIgnoringCase(init, key)
  }

  /** `HttpRoute`: a route is given by a path template, by a regular expression, or by neither. */
  datatype HttpRoute = HttpRoute(path: Option<string>, regex: Option<string>)

  /** The request half of an exchange. */
  datatype HttpRequest = HttpRequest(
    httpMethod: HttpMethod,
    path: string,
    pathParams: Entries,
    queryParams: Entries,
    formParams: Entries,
    headers: Entries,
    body: Option<string>
  )
}
