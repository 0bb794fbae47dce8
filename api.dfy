/** The API client: the single point through which the storefront talks to
    its REST backend. It fixes the route of every remote operation, attaches
    the stored bearer token to each outgoing request, and reacts globally to
    an expired session (HTTP 401) by wiping the stored credentials and
    sending the browser to the login page.

    The transport itself is not modelled: a remote call is given its
    response as an input, and the client records the request it would have
    sent. */
module Api {
  import opened Common

  /** Fallback base URL when the build environment does not supply one. */
  const DefaultBaseUrl := "http://localhost:5000/api"

  /** `import.meta.env.VITE_API_URL || "http://localhost:5000/api"` */
  function BaseUrl(env: Option<string>): (url: string)
    ensures env.Some? && env.value != "" ==> url == env.value
    ensures env.None? || env.value == "" ==> url == DefaultBaseUrl
    ensures url != ""
  {
    Or(env, DefaultBaseUrl)
  }

  // ---------------------------------------------------------------------
  // Shapes exchanged with the backend

  /** The user record as the client keeps it: its serialised JSON text.
      The client never looks inside it. */
  type UserRecord = string

  /** Body of a successful login or registration: `{ token, user }`. */
  datatype Session = Session(token: string, user: UserRecord)

  datatype Credentials = Credentials(email: string, password: string)

  /** Body of a registration request: exactly these three fields. */
  datatype Registration = Registration(name: string, email: string, password: string)

  datatype Product = Product(id: nat, name: string, price: real, stock: int)

  /** One line of the cart, as the server computes it. */
  datatype CartLine = CartLine(
    cart_id: nat, item_id: nat, name: string, price: real,
    quantity: int, stock: int, image_url: string, total_price: real)

  /** The cart object returned by `GET /cart`. Each field may be absent
      from the JSON object; the client copies over whatever is present. */
  datatype CartSnapshot = CartSnapshot(
    items: Option<seq<CartLine>>, total_amount: Option<real>, total_items: Option<int>)

  /** An HTTP error response: its status and the `error` field of its body. */
  datatype HttpError = HttpError(status: int, error: Option<string>)

  /** What a remote call yields: the response data, or a rejection that
      carries the server's response when there was one (none on a network
      failure). */
  datatype Response<+T> = Ok(data: T) | Err(reply: Option<HttpError>)

  predicate IsUnauthorized<T>(r: Response<T>) {
    r.Err? && r.reply.Some? && r.reply.value.status == 401
  }

  /** `error.response?.data?.error || fallback` */
  function FailureMessage<T>(r: Response<T>, fallback: string): (m: string)
    requires r.Err?
    ensures r.reply.Some? && r.reply.value.error.Some? && r.reply.value.error.value != "" ==>
              m == r.reply.value.error.value
    ensures !(r.reply.Some? && r.reply.value.error.Some? && r.reply.value.error.value != "") ==>
              m == fallback
    ensures fallback != "" ==> m != ""
  {
    Or(if r.reply.Some? then r.reply.value.error else None, fallback)
  }

  // ---------------------------------------------------------------------
  // The route table

  datatype Verb = Get | Post | Put | Delete

  datatype Route = Route(verb: Verb, path: string)

  /** Every operation the client exposes, with its arguments. */
  datatype Endpoint =
    | AuthRegister(registration: Registration)
    | AuthLogin(credentials: Credentials)
    | ItemsGetAll(params: map<string, string>)
    | ItemsGetById(id: nat)
    | ItemsGetCategories
    | CartGet
    | CartAdd(item_id: nat, quantity: int)
    | CartUpdate(cart_id: nat, quantity: int)
    | CartRemove(cart_id: nat)
    | CartClear

  /** The path prefixes of the three server areas. */
  const AuthArea := "/auth/"
  const ItemsArea := "/items"
  const CartArea := "/cart"

  /** No path lies in two areas, so each route's area is the one its
      operation belongs to. */
  lemma AreasDisjoint(path: string)
    ensures !(AuthArea <= path && ItemsArea <= path)
    ensures !(AuthArea <= path && CartArea <= path)
    ensures !(ItemsArea <= path && CartArea <= path)
  {
    if AuthArea <= path { assert path[1] == AuthArea[1] == 'a'; }
    if ItemsArea <= path { assert path[1] == ItemsArea[1] == 'i'; }
  }

  /** The verb and path of each operation, as the client's methods call
      them. */
  function RouteOf(e: Endpoint): (r: Route)
    ensures r.verb == Get <==> e.ItemsGetAll? || e.ItemsGetById? || e.ItemsGetCategories? || e.CartGet?
    ensures r.verb == Post <==> e.AuthRegister? || e.AuthLogin? || e.CartAdd?
    ensures r.verb == Put <==> e.CartUpdate?
    ensures r.verb == Delete <==> e.CartRemove? || e.CartClear?
    ensures e.AuthRegister? || e.AuthLogin? ==> AuthArea <= r.path
    ensures e.ItemsGetAll? || e.ItemsGetById? || e.ItemsGetCategories? ==> ItemsArea <= r.path
    ensures e.CartGet? || e.CartAdd? || e.CartUpdate? || e.CartRemove? || e.CartClear? ==> CartArea <= r.path
  {
    match e
    case AuthRegister(_) => Route(Post, "/auth/register")
    case AuthLogin(_) => Route(Post, "/auth/login")
    case ItemsGetAll(_) => Route(Get, "/items")
    case ItemsGetById(id) => Route(Get, "/items/" + NatToString(id))
    case ItemsGetCategories => Route(Get, "/items/categories")
    case CartGet => Route(Get, "/cart")
    case CartAdd(_, _) => Route(Post, "/cart")
    case CartUpdate(id, _) => Route(Put, "/cart/" + NatToString(id))
    case CartRemove(id) => Route(Delete, "/cart/" + NatToString(id))
    case CartClear => Route(Delete, "/cart")
  }

  /** A route's path names its operation's group: it lies under `/auth/`,
      `/items` or `/cart` exactly when the operation belongs there. */
  lemma AreaNamesGroup(e: Endpoint)
    ensures AuthArea <= RouteOf(e).path <==> e.AuthRegister? || e.AuthLogin?
    ensures ItemsArea <= RouteOf(e).path <==> e.ItemsGetAll? || e.ItemsGetById? || e.ItemsGetCategories?
    ensures CartArea <= RouteOf(e).path <==>
              e.CartGet? || e.CartAdd? || e.CartUpdate? || e.CartRemove? || e.CartClear?
  {
    AreasDisjoint(RouteOf(e).path);
  }

  /** Two calls address the same resource with the same verb: same
      operation and, where the path carries an identifier, the same one.
      Bodies and query parameters do not take part. */
  predicate SameTarget(e1: Endpoint, e2: Endpoint) {
    match e1
    case AuthRegister(_) => e2.AuthRegister?
    case AuthLogin(_) => e2.AuthLogin?
    case ItemsGetAll(_) => e2.ItemsGetAll?
    case ItemsGetById(id) => e2.ItemsGetById? && e2.id == id
    case ItemsGetCategories => e2.ItemsGetCategories?
    case CartGet => e2.CartGet?
    case CartAdd(_, _) => e2.CartAdd?
    case CartUpdate(id, _) => e2.CartUpdate? && e2.cart_id == id
    case CartRemove(id) => e2.CartRemove? && e2.cart_id == id
    case CartClear => e2.CartClear?
  }

  lemma PrefixedIdInjective(prefix: string, a: nat, b: nat)
    ensures prefix + NatToString(a) == prefix + NatToString(b) ==> a == b
  {
    if prefix + NatToString(a) == prefix + NatToString(b) {
      assert NatToString(a) == (prefix + NatToString(a))[|prefix|..];
      assert NatToString(b) == (prefix + NatToString(b))[|prefix|..];
      NatToStringInjective(a, b);
    }
  }

  /** The route table is unambiguous: a verb and path identify the
      operation, and the cart line or item it addresses. */
  lemma RouteIdentifiesTarget(e1: Endpoint, e2: Endpoint)
    ensures RouteOf(e1) == RouteOf(e2) <==> SameTarget(e1, e2)
  {
    if RouteOf(e1) == RouteOf(e2) {
      var p := RouteOf(e1).path;
      match e1
      case ItemsGetById(a) =>
        assert '0' <= p[7] <= '9';
        if e2.ItemsGetById? { PrefixedIdInjective("/items/", a, e2.id); }
      case ItemsGetCategories =>
        assert p[7] == 'c';
      case CartUpdate(a, _) =>
        PrefixedIdInjective("/cart/", a, e2.cart_id);
      case CartRemove(a) =>
        assert |p| > 5;
        if e2.CartRemove? { PrefixedIdInjective("/cart/", a, e2.cart_id); }
      case CartClear =>
        assert |p| == 5;
      case _ =>
    }
  }

  // ---------------------------------------------------------------------
  // Headers and the request interceptor

  const AuthorizationHeader := "Authorization"
  const BearerPrefix := "Bearer "

  function DefaultHeaders(): map<string, string> {
    map["Content-Type" := "application/json"]
  }

  /** The token the request interceptor would attach: the stored `token`
      when it is present and non-empty (JavaScript truthiness). */
  function StoredToken(st: map<string, string>): (t: Option<string>)
    ensures t.Some? <==> TokenKey in st && st[TokenKey] != ""
    ensures t.Some? ==> t.value == st[TokenKey]
  {
    if TokenKey in st && st[TokenKey] != "" then Some(st[TokenKey]) else None
  }

  /** Headers after the request interceptor has run against storage `st`. */
  function WithBearer(h: map<string, string>, st: map<string, string>): (r: map<string, string>)
    ensures StoredToken(st).None? ==> r == h
    ensures StoredToken(st).Some? ==> AuthorizationHeader in r
    ensures forall k :: k != AuthorizationHeader ==> (k in r <==> k in h)
    ensures forall k :: k in h && k != AuthorizationHeader ==> r[k] == h[k]
  {
    match StoredToken(st)
    case Some(t) => h[AuthorizationHeader := BearerPrefix + t]
    case None => h
  }

  /** How the server reads the credential back from the headers. */
  function BearerToken(h: map<string, string>): Option<string> {
    if AuthorizationHeader in h && |h[AuthorizationHeader]| >= |BearerPrefix|
       && h[AuthorizationHeader][..|BearerPrefix|] == BearerPrefix
    then Some(h[AuthorizationHeader][|BearerPrefix|..])
    else None
  }

  /** The credential a request carries is exactly the stored token, and is
      absent when no (non-empty) token is stored. */
  lemma BearerRoundTrip(h: map<string, string>, st: map<string, string>)
    requires AuthorizationHeader !in h
    ensures BearerToken(WithBearer(h, st)) == StoredToken(st)
  {
    match StoredToken(st)
    case Some(t) =>
      var v := BearerPrefix + t;
      assert WithBearer(h, st)[AuthorizationHeader] == v;
      assert v[..|BearerPrefix|] == BearerPrefix;
      assert v[|BearerPrefix|..] == t;
    case None =>
  }

  /** The headers depend on storage only through the stored token. */
  lemma BearerDependsOnlyOnToken(h: map<string, string>, st1: map<string, string>, st2: map<string, string>)
    requires Lookup(st1, TokenKey) == Lookup(st2, TokenKey)
    ensures WithBearer(h, st1) == WithBearer(h, st2)
  {
  }

  /** A request as it leaves the client. */
  datatype Request = Request(endpoint: Endpoint, headers: map<string, string>)

  function Outgoing(e: Endpoint, st: map<string, string>): Request {
    Request(e, WithBearer(DefaultHeaders(), st))
  }

  // ---------------------------------------------------------------------
  // The response interceptor

  /** Storage after the response interceptor has seen `r`. */
  function AfterCall<T>(st: map<string, string>, r: Response<T>): map<string, string> {
    if IsUnauthorized(r) then WithoutSession(st) else st
  }

  /** Browser location after the response interceptor has seen `r`. */
  function LocationAfter<T>(location: string, r: Response<T>): string {
    if IsUnauthorized(r) then "/login" else location
  }

  /** The mutable request configuration the request interceptor receives. */
  class RequestConfig {
    var headers: map<string, string>

    constructor (headers: map<string, string>)
      ensures this.headers == headers
    {
      this.headers := headers;
    }
  }

  class ApiClient {
    const storage: LocalStorage
    const baseUrl: string
    /** `window.location.href` */
    var location: string
    /** Every request sent so far, oldest first. */
    var sent: seq<Request>

    constructor (storage: LocalStorage, env: Option<string>, location: string)
      ensures this.storage == storage && baseUrl == BaseUrl(env)
      ensures this.location == location && sent == []
    {
      this.storage := storage;
      baseUrl := BaseUrl(env);
      this.location := location;
      sent := [];
    }

    /** Attaches `Authorization: Bearer <token>` when a token is stored. */
    method InterceptRequest(config: RequestConfig)
      modifies config
      ensures config.headers == WithBearer(old(config.headers), storage.entries)
    {
      var token := storage.GetItem(TokenKey);
      if token.Some? && token.value != "" {
        config.headers := config.headers[AuthorizationHeader := BearerPrefix + token.value];
      }
    }

    /** Passes every response through; on a 401 it first removes both
        session keys and redirects to the login page. The rejection still
        reaches the caller. */
    method InterceptResponse<T>(response: Response<T>) returns (r: Response<T>)
      modifies storage, this`location
      ensures r == response
      ensures IsUnauthorized(response) ==>
                storage.entries == WithoutSession(old(storage.entries)) && location == "/login"
      ensures !IsUnauthorized(response) ==>
                storage.entries == old(storage.entries) && location == old(location)
    {
      if IsUnauthorized(response) {
        storage.RemoveItem(TokenKey);
        storage.RemoveItem(UserKey);
        location := "/login";
      }
      r := response;
    }

    /** One remote call: the request goes out with the interceptor's
        headers, and the response comes back through the response
        interceptor. */
    method Send<T>(e: Endpoint, response: Response<T>) returns (r: Response<T>)
      modifies this, storage
      ensures sent == old(sent) + [Outgoing(e, old(storage.entries))]
      ensures r == response
      ensures storage.entries == AfterCall(old(storage.entries), response)
      ensures location == LocationAfter(old(location), response)
    {
      var config := new RequestConfig(DefaultHeaders());
      InterceptRequest(config);
      sent := sent + [Request(e, config.headers)];
      r := InterceptResponse(response);
    }
  }
}
