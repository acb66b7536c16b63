/** The Kroger API client (custom_components/kroger_api/api.py): the query
    parameters and JSON bodies it sends, the way it reshapes the retailer's
    answers, its token handling, and the three HTTP views in front of it.
    The network is abstracted: an operation is given the Reply the remote side
    (together with the host's OAuth2 session in between) produces for the
    request, and returns the request it sends next to its result. */
module KrogerApi {
  import opened PyJson

  const ApiBaseUrl := "https://api.kroger.com/v1"
  const ProductUrl := ApiBaseUrl + "/product"
  const LocationUrl := ApiBaseUrl + "/locations"
  const CartAddUrl := ApiBaseUrl + "/cart/add"
  const TokenUrl := ApiBaseUrl + "/connect/oauth2/token"

  /** The scopes asked for at authorization (`extra_authorize_data`). */
  const AuthorizeScopes := ["cart.basic:write", "product.compact", "locations"]

  const TermRequired := "Term must be specified when querying products."
  /** The message of the ValueError aiohttp's `BasicAuth` raises for a None password. */
  const NoBasicAuthPassword := "None is not allowed as password value"

  const AcceptJson: map<string, string> := map["Accept" := "application/json"]
  /** The cart request's headers, spelled as the client spells them. */
  const CartHeaders: map<string, string> :=
    map["Content Type" := "application.json", "Accept" := "application/json"]
  const FormHeaders: map<string, string> :=
    map["Content-Type" := "application/x-www-form-urlencoded"]

  datatype Verb = GET | PUT | POST

  datatype Body = NoBody | JsonBody(json: Json) | FormBody(form: map<string, string>)

  datatype Request = Request(
    verb: Verb,
    url: string,
    headers: map<string, string>,
    query: map<string, string>,
    body: Body)

  /** What comes back for a request: either issuing it raised (transport
      failure, or a failed token refresh inside the session), or a status with
      a body that decodes as JSON (Some) or does not (None). */
  datatype Reply = Raised | Replied(status: int, json: Option<Json>)

  /** `raise_for_status()` raises for every status from 400 up. */
  predicate StatusOk(status: int) {
    status < 400
  }

  /** The reply passed `raise_for_status()` and `json()`. */
  predicate Decoded(reply: Reply) {
    reply.Replied? && StatusOk(reply.status) && reply.json.Some?
  }

  datatype Exception =
    | ValueError(message: string)
    | TransportError
    | HttpError(status: int)
    | JsonDecodeError
    | KeyError(key: string)
    | AttributeError
    | RefreshFailed

  /** A Python call either raises or returns. */
  datatype Outcome<+T> = Raises(exc: Exception) | Returns(value: T)

  datatype Product = Product(upc: Json, description: Json, brand: Json, image: Json)

  datatype Location = Location(locationId: Json, name: Json)

  /** The host's home coordinates, already rendered with `str()`. */
  datatype Coordinates = Coordinates(latitude: string, longitude: string)

  // ---------------------------------------------------------------------------
  // Query parameters

  /** The product search filters for a term that passed validation. */
  function ProductFilters(brand: Option<string>, term: string, locationId: Option<string>): (r: map<string, string>)
    ensures "filter.term" in r && r["filter.term"] == term
    ensures "filter.brand" in r <==> Truthy(brand)
    ensures Truthy(brand) ==> r["filter.brand"] == brand.value
    ensures "filter.locationId" in r <==> Truthy(locationId)
    ensures Truthy(locationId) ==> r["filter.locationId"] == locationId.value
    ensures r.Keys <= {"filter.term", "filter.brand", "filter.locationId"}
  {
    map["filter.term" := term]
    + (if Truthy(brand) then map["filter.brand" := brand.value] else map[])
    + (if Truthy(locationId) then map["filter.locationId" := locationId.value] else map[])
  }

  /** The location search filters: a latitude/longitude pair first, then a zip
      code, then the host's home coordinates. */
  function LocationFilters(zipCode: Option<string>, latitude: Option<string>, longitude: Option<string>, home: Coordinates): (r: map<string, string>)
    ensures Truthy(latitude) && Truthy(longitude) ==>
      r.Keys == {"filter.lat.near", "filter.lon.near"} &&
      r["filter.lat.near"] == latitude.value && r["filter.lon.near"] == longitude.value
    ensures "filter.zipCode.near" in r <==> !(Truthy(latitude) && Truthy(longitude)) && Truthy(zipCode)
    ensures "filter.zipCode.near" in r ==> r.Keys == {"filter.zipCode.near"} && r["filter.zipCode.near"] == zipCode.value
    ensures !(Truthy(latitude) && Truthy(longitude)) && !Truthy(zipCode) ==>
      r.Keys == {"filter.lat.near", "filter.lon.near"} &&
      r["filter.lat.near"] == home.latitude && r["filter.lon.near"] == home.longitude
  {
    if Truthy(latitude) && Truthy(longitude) then
      map["filter.lat.near" := latitude.value, "filter.lon.near" := longitude.value]
    else if Truthy(zipCode) then
      map["filter.zipCode.near" := zipCode.value]
    else
      map["filter.lat.near" := home.latitude, "filter.lon.near" := home.longitude]
  }

  /** A latitude without a longitude (or the reverse) is discarded, and a zip
      code is ignored once both coordinates are given. */
  lemma {:induction false} UnpairedCoordinateIgnored(zipCode: Option<string>, latitude: Option<string>, longitude: Option<string>, home: Coordinates)
    ensures !(Truthy(latitude) && Truthy(longitude)) ==>
      LocationFilters(zipCode, latitude, longitude, home) == LocationFilters(zipCode, None, None, home)
    ensures Truthy(latitude) && Truthy(longitude) ==>
      LocationFilters(zipCode, latitude, longitude, home) == LocationFilters(None, latitude, longitude, home)
  {
  }

  // ---------------------------------------------------------------------------
  // Reshaping the product search answer

  /** Whether `image_data['perspective'] == 'front'`. */
  predicate IsFront(image: Json) {
    Subscript(image, "perspective") == Some(JStr("front"))
  }

  /** `image_data['sizes'][0]['url']`. */
  function FirstSizeUrl(image: Json): Option<Json> {
    match Subscript(image, "sizes")
    case None => None
    case Some(sizes) =>
      match Index0(sizes)
      case None => None
      case Some(size) => Subscript(size, "url")
  }

  /** What one image adds to the list of front urls: the filter itself raises
      when the image has no perspective; a front image adds its first size's
      url, any other image adds nothing and is never indexed. */
  function Contribution(image: Json): Option<seq<Json>> {
    match Subscript(image, "perspective")
    case None => None
    case Some(p) =>
      if p == JStr("front") then
        match FirstSizeUrl(image)
        case None => None
        case Some(url) => Some([url])
      else Some([])
  }

  /** The index of the first front image, an independent reference for the
      image the product search picks. */
  function FirstFront(images: seq<Json>): (r: Option<nat>)
    ensures r.Some? ==> r.value < |images| && IsFront(images[r.value])
    ensures r.Some? ==> forall j :: 0 <= j < r.value ==> !IsFront(images[j])
    ensures r.None? ==> forall j :: 0 <= j < |images| ==> !IsFront(images[j])
  {
    if images == [] then None
    else if IsFront(images[0]) then Some(0)
    else
      match FirstFront(images[1..])
      case None => None
      case Some(k) => Some(k + 1)
  }

  /** The list of first-size urls of the front images, in order; None when
      evaluating it raises. */
  function FrontUrls(images: seq<Json>): (r: Option<seq<Json>>)
    ensures r.Some? <==> forall i :: 0 <= i < |images| ==> Contribution(images[i]).Some?
    ensures r.Some? ==> (r.value == [] <==> FirstFront(images).None?)
    ensures r.Some? && FirstFront(images).Some? ==>
      Some(r.value[0]) == FirstSizeUrl(images[FirstFront(images).value])
  {
    if images == [] then Some([])
    else
      match (Contribution(images[0]), FrontUrls(images[1..]))
      case (Some(u), Some(us)) => Some(u + us)
      case _ => None
  }

  /** Replacing an image that is not a front image by another one that is not
      either leaves the result unchanged: non-front images are never indexed. */
  lemma {:induction false} NonFrontNeverIndexed(images: seq<Json>, k: nat, other: Json)
    requires k < |images|
    requires Subscript(images[k], "perspective").Some? && !IsFront(images[k])
    requires Subscript(other, "perspective").Some? && !IsFront(other)
    ensures FrontUrls(images[k := other]) == FrontUrls(images)
  {
    var swapped := images[k := other];
    if k == 0 {
      assert swapped[1..] == images[1..];
      assert Contribution(swapped[0]) == Some([]) == Contribution(images[0]);
    } else {
      assert swapped[1..] == images[1..][k - 1 := other];
      NonFrontNeverIndexed(images[1..], k - 1, other);
      assert swapped[0] == images[0];
    }
  }

  predicate HasProductKeys(item: Json) {
    item.JObj? && "productId" in item.fields && "description" in item.fields
    && "brand" in item.fields && "images" in item.fields
  }

  /** The images of an item allow a choice: they can be iterated, none of
      them makes the filter raise, and one of them is a front image. */
  predicate ImagesSelectable(images: Json) {
    Elements(images).Some?
    && (forall i :: 0 <= i < |Elements(images).value| ==> Contribution(Elements(images).value[i]).Some?)
    && FirstFront(Elements(images).value).Some?
  }

  /** One product record: its id as `upc`, description and brand copied, and
      the url of the first size of its first front image. */
  function ShapeProduct(item: Json): (r: Option<Product>)
    ensures r.Some? <==> HasProductKeys(item) && ImagesSelectable(item.fields["images"])
    ensures r.Some? ==>
      var images := Elements(item.fields["images"]).value;
      r.value.upc == item.fields["productId"]
      && r.value.description == item.fields["description"]
      && r.value.brand == item.fields["brand"]
      && Some(r.value.image) == FirstSizeUrl(images[FirstFront(images).value])
  {
    if !HasProductKeys(item) then None
    else
      match Elements(item.fields["images"])
      case None => None
      case Some(images) =>
        match FrontUrls(images)
        case None => None
        case Some(urls) =>
          if urls == [] then None
          else Some(Product(item.fields["productId"], item.fields["description"], item.fields["brand"], urls[0]))
  }

  /** All items, in order, or None as soon as one of them cannot be shaped. */
  function ShapeProducts(items: seq<Json>): (r: Option<seq<Product>>)
    ensures r.Some? <==> forall i :: 0 <= i < |items| ==> ShapeProduct(items[i]).Some?
    ensures r.Some? ==> |r.value| == |items|
    ensures r.Some? ==> forall i :: 0 <= i < |items| ==> ShapeProduct(items[i]) == Some(r.value[i])
  {
    if items == [] then Some([])
    else
      match (ShapeProduct(items[0]), ShapeProducts(items[1..]))
      case (Some(p), Some(ps)) => Some([p] + ps)
      case _ => None
  }

  /** The elements of `json_response['data']` of a reply that got through. */
  function ResponseData(reply: Reply): Option<seq<Json>> {
    if Decoded(reply) then
      match Subscript(reply.json.value, "data")
      case None => None
      case Some(data) => Elements(data)
    else None
  }

  /** What the product search returns for a reply: the products or None. */
  function ProductsFrom(reply: Reply): (r: Option<seq<Product>>)
    ensures !Decoded(reply) ==> r.None?
    ensures r.Some? <==>
      ResponseData(reply).Some? &&
      forall i :: 0 <= i < |ResponseData(reply).value| ==> ShapeProduct(ResponseData(reply).value[i]).Some?
    ensures r.Some? ==> ResponseData(reply).Some? && |r.value| == |ResponseData(reply).value|
    ensures r.Some? ==> forall i :: 0 <= i < |r.value| ==> ShapeProduct(ResponseData(reply).value[i]) == Some(r.value[i])
  {
    match ResponseData(reply)
    case None => None
    case Some(items) => ShapeProducts(items)
  }

  // ---------------------------------------------------------------------------
  // Reshaping the location search answer

  predicate HasLocationKeys(item: Json) {
    item.JObj? && "locationId" in item.fields && "name" in item.fields
  }

  function ShapeLocations(items: seq<Json>): (r: Option<seq<Location>>)
    ensures r.Some? <==> forall i :: 0 <= i < |items| ==> HasLocationKeys(items[i])
    ensures r.Some? ==> |r.value| == |items|
    ensures r.Some? ==> forall i :: 0 <= i < |items| ==>
      r.value[i] == Location(items[i].fields["locationId"], items[i].fields["name"])
  {
    if items == [] then Some([])
    else if !HasLocationKeys(items[0]) then None
    else
      match ShapeLocations(items[1..])
      case None => None
      case Some(ls) => Some([Location(items[0].fields["locationId"], items[0].fields["name"])] + ls)
  }

  /** What the location search returns for a reply: the locations or None. */
  function LocationsFrom(reply: Reply): (r: Option<seq<Location>>)
    ensures !Decoded(reply) ==> r.None?
    ensures r.Some? <==>
      ResponseData(reply).Some? &&
      forall i :: 0 <= i < |ResponseData(reply).value| ==> HasLocationKeys(ResponseData(reply).value[i])
    ensures r.Some? ==> ResponseData(reply).Some? && |r.value| == |ResponseData(reply).value|
    ensures r.Some? ==> forall i :: 0 <= i < |r.value| ==>
      var item := ResponseData(reply).value[i];
      HasLocationKeys(item) && r.value[i] == Location(item.fields["locationId"], item.fields["name"])
  {
    match ResponseData(reply)
    case None => None
    case Some(items) => ShapeLocations(items)
  }

  // ---------------------------------------------------------------------------
  // The token request form

  /** The form after `_token_request` has added the client credentials. */
  function TokenForm(data: map<string, string>, clientId: string, clientSecret: Option<string>): (r: map<string, string>)
    ensures "client_id" in r && r["client_id"] == clientId
    ensures clientSecret.Some? ==> "client_secret" in r && r["client_secret"] == clientSecret.value
    ensures r.Keys == data.Keys + {"client_id"} + (if clientSecret.Some? then {"client_secret"} else {})
    ensures forall k :: k in data && k != "client_id" && (k != "client_secret" || clientSecret.None?) ==>
      k in r && r[k] == data[k]
  {
    var withId := data["client_id" := clientId];
    if clientSecret.Some? then withId["client_secret" := clientSecret.value] else withId
  }

  /** A mutable form dict, shared by the caller and `_token_request`. */
  class FormData {
    var fields: map<string, string>

    constructor(fields: map<string, string>)
      ensures this.fields == fields
    {
      this.fields := fields;
    }
  }

  /** The local OAuth2 implementation registered for the domain. */
  class OAuth2Implementation {
    const clientId: string
    const clientSecret: Option<string>
    const tokenUrl: string

    constructor(clientId: string, clientSecret: Option<string>, tokenUrl: string)
      ensures this.clientId == clientId && this.clientSecret == clientSecret && this.tokenUrl == tokenUrl
    {
      this.clientId := clientId;
      this.clientSecret := clientSecret;
      this.tokenUrl := tokenUrl;
    }

    /** Adds the client credentials to the caller's form in place, posts it to
        the token endpoint and returns the decoded answer. The Basic-Auth
        header is built before the post, and aiohttp's `BasicAuth` refuses a
        None password: with no secret the form is filled in and then the
        request raises without being sent. */
    method TokenRequest(data: FormData, reply: Reply) returns (sent: Option<Request>, r: Outcome<Json>)
      modifies data
      ensures data.fields == TokenForm(old(data.fields), clientId, clientSecret)
      ensures clientSecret.None? ==> sent.None? && r == Raises(ValueError(NoBasicAuthPassword))
      ensures clientSecret.Some? ==> sent == Some(Request(POST, tokenUrl, FormHeaders, map[], FormBody(data.fields)))
      ensures r.Returns? <==> clientSecret.Some? && Decoded(reply)
      ensures r.Returns? ==> r.value == reply.json.value
      ensures clientSecret.Some? && reply.Raised? ==> r == Raises(TransportError)
      ensures clientSecret.Some? && reply.Replied? && !StatusOk(reply.status) ==> r == Raises(HttpError(reply.status))
      ensures clientSecret.Some? && reply.Replied? && StatusOk(reply.status) && reply.json.None? ==>
        r == Raises(JsonDecodeError)
    {
      data.fields := data.fields["client_id" := clientId];
      if clientSecret.Some? {
        data.fields := data.fields["client_secret" := clientSecret.value];
      }
      if clientSecret.None? {
        return None, Raises(ValueError(NoBasicAuthPassword));
      }
      sent := Some(Request(POST, tokenUrl, FormHeaders, map[], FormBody(data.fields)));
      match reply
      case Raised => r := Raises(TransportError);
      case Replied(status, json) =>
        if !StatusOk(status) {
          r := Raises(HttpError(status));
        } else if json.None? {
          r := Raises(JsonDecodeError);
        } else {
          r := Returns(json.value);
        }
    }
  }

  // ---------------------------------------------------------------------------
  // The OAuth2 session and the client

  /** The host's OAuth2 session, reduced to what the client relies on: whether
      the held token is still valid, the token itself, and how many refreshes
      have been attempted. */
  class Session {
    var validToken: bool
    var token: map<string, Json>
    var refreshes: nat

    constructor(validToken: bool, token: map<string, Json>)
      ensures this.validToken == validToken && this.token == token && refreshes == 0
    {
      this.validToken := validToken;
      this.token := token;
      refreshes := 0;
    }

    /** The host's `async_ensure_token_valid`: nothing when the token is
        valid, otherwise one refresh, whose answer is `refreshed` (None when the
        refresh raises). */
    method EnsureTokenValid(refreshed: Option<map<string, Json>>) returns (ok: bool)
      modifies this
      ensures old(validToken) ==> ok && validToken && token == old(token) && refreshes == old(refreshes)
      ensures !old(validToken) ==> refreshes == old(refreshes) + 1 && ok == refreshed.Some?
      ensures !old(validToken) && ok ==> validToken && token == refreshed.value
      ensures !old(validToken) && !ok ==> !validToken && token == old(token)
    {
      if validToken {
        return true;
      }
      refreshes := refreshes + 1;
      match refreshed
      case None => ok := false;
      case Some(t) =>
        token := t;
        validToken := true;
        ok := true;
    }
  }

  /** `token["access_token"]`. */
  function AccessToken(token: map<string, Json>): Outcome<Json> {
    if "access_token" in token then Returns(token["access_token"]) else Raises(KeyError("access_token"))
  }

  /** `ConfigEntryKrogerApiClient`. */
  class Client {
    const session: Session
    const home: Coordinates

    constructor(session: Session, home: Coordinates)
      ensures this.session == session && this.home == home
    {
      this.session := session;
      this.home := home;
    }

    /** Refreshes only an invalid token, then reads its access token. */
    method GetAccessToken(refreshed: Option<map<string, Json>>) returns (r: Outcome<Json>)
      modifies session
      ensures old(session.validToken) ==>
        session.refreshes == old(session.refreshes) && session.token == old(session.token)
        && r == AccessToken(old(session.token))
      ensures old(session.validToken) ==> session.validToken
      ensures !old(session.validToken) ==> session.refreshes == old(session.refreshes) + 1
      ensures !old(session.validToken) && refreshed.Some? ==> session.validToken && session.token == refreshed.value
      ensures !old(session.validToken) && refreshed.None? ==> !session.validToken && session.token == old(session.token)
      ensures !old(session.validToken) && refreshed.None? ==> r == Raises(RefreshFailed)
      ensures !old(session.validToken) && refreshed.Some? ==> r == AccessToken(refreshed.value)
    {
      if !session.validToken {
        var ok := session.EnsureTokenValid(refreshed);
        if !ok {
          return Raises(RefreshFailed);
        }
      }
      r := AccessToken(session.token);
    }

    /** Validates the term, builds the filters, sends the search and shapes
        the answer; upstream failures give None rather than an exception. */
    method QueryProducts(brand: Option<string>, term: Option<string>, locationId: Option<string>, reply: Reply)
      returns (sent: Option<Request>, r: Outcome<Option<seq<Product>>>)
      ensures r.Raises? <==> !Truthy(term)
      ensures !Truthy(term) ==> sent.None? && r == Raises(ValueError(TermRequired))
      ensures Truthy(term) ==>
        sent == Some(Request(GET, ProductUrl, AcceptJson, ProductFilters(brand, term.value, locationId), NoBody))
      ensures Truthy(term) ==> r == Returns(ProductsFrom(reply))
    {
      if !Truthy(term) {
        return None, Raises(ValueError(TermRequired));
      }
      var params := map["filter.term" := term.value];
      if Truthy(brand) {
        params := params["filter.brand" := brand.value];
      }
      if Truthy(locationId) {
        params := params["filter.locationId" := locationId.value];
      }
      assert params == ProductFilters(brand, term.value, locationId);
      sent := Some(Request(GET, ProductUrl, AcceptJson, params, NoBody));
      r := Returns(ProductsFrom(reply));
    }

    /** Builds the filters by the pair / zip / home priority, sends the search
        and shapes the answer; it never raises. */
    method QueryLocations(zipCode: Option<string>, latitude: Option<string>, longitude: Option<string>, reply: Reply)
      returns (sent: Request, r: Option<seq<Location>>)
      ensures sent == Request(GET, LocationUrl, AcceptJson, LocationFilters(zipCode, latitude, longitude, home), NoBody)
      ensures r == LocationsFrom(reply)
    {
      var params: map<string, string> := map[];
      if Truthy(latitude) && Truthy(longitude) {
        params := params["filter.lat.near" := latitude.value];
        params := params["filter.lon.near" := longitude.value];
      } else if Truthy(zipCode) {
        params := params["filter.zipCode.near" := zipCode.value];
      } else {
        params := params["filter.lat.near" := home.latitude];
        params := params["filter.lon.near" := home.longitude];
      }
      sent := Request(GET, LocationUrl, AcceptJson, params, NoBody);
      r := LocationsFrom(reply);
    }

    /** Sends `{"upc": upc, "quantity": quantity}` (quantity 1 when omitted)
        and reports whether the answer got through; it never raises. */
    function AddToCart(upc: Json, quantity: Option<Json>, reply: Reply): (r: (Request, bool))
      ensures r.0.verb == PUT && r.0.url == CartAddUrl && r.0.query == map[]
      ensures r.0.body == JsonBody(JObj(map["upc" := upc, "quantity" := if quantity.Some? then quantity.value else JNum(1)]))
      ensures r.1 <==> reply.Replied? && StatusOk(reply.status) && reply.json.Some?
    {
      var q := match quantity case Some(v) => v case None => JNum(1);
      (Request(PUT, CartAddUrl, CartHeaders, map[], JsonBody(JObj(map["upc" := upc, "quantity" := q]))),
       Decoded(reply))
    }
  }

  // ---------------------------------------------------------------------------
  // The HTTP views

  datatype ViewBody =
    | EmptyBody
    | ProductsBody(products: Option<seq<Product>>)
    | LocationsBody(locations: Option<seq<Location>>)
    | ErrorBody(exc: Exception)

  datatype ViewResponse = ViewResponse(status: int, body: ViewBody)

  /** `request.query.get(key)`. */
  function QueryGet(query: map<string, string>, key: string): Option<string> {
    if key in query then Some(query[key]) else None
  }

  /** `GET /api/kroger/products`: the products (or None) with 200, or 500
      when the search raises, which only a missing term makes it do. */
  method ProductQueryGet(client: Client, query: map<string, string>, reply: Reply)
    returns (sent: Option<Request>, resp: ViewResponse)
    ensures resp.status == 500 <==> !Truthy(QueryGet(query, "term"))
    ensures resp.status == 500 ==> sent.None? && resp.body == ErrorBody(ValueError(TermRequired))
    ensures resp.status != 500 ==> resp == ViewResponse(200, ProductsBody(ProductsFrom(reply)))
    ensures resp.status != 500 ==>
      "term" in query && sent.Some? &&
      sent.value.query == ProductFilters(QueryGet(query, "brand"), query["term"], QueryGet(query, "locationId"))
  {
    var r;
    sent, r := client.QueryProducts(QueryGet(query, "brand"), QueryGet(query, "term"), QueryGet(query, "locationId"), reply);
    match r
    case Raises(exc) => resp := ViewResponse(500, ErrorBody(exc));
    case Returns(products) => resp := ViewResponse(200, ProductsBody(products));
  }

  /** `GET /api/kroger/locations`: always 200, since the search never raises. */
  method LocationQueryGet(client: Client, query: map<string, string>, reply: Reply)
    returns (sent: Request, resp: ViewResponse)
    ensures resp == ViewResponse(200, LocationsBody(LocationsFrom(reply)))
    ensures sent.query == LocationFilters(QueryGet(query, "zip_code"), QueryGet(query, "latitude"), QueryGet(query, "longitude"), client.home)
  {
    var locations;
    sent, locations := client.QueryLocations(QueryGet(query, "zip_code"), QueryGet(query, "latitude"), QueryGet(query, "longitude"), reply);
    resp := ViewResponse(200, LocationsBody(locations));
  }

  /** `PUT /api/kroger/cart_add`. `requestJson` is the decoded request body
      (None when it does not decode). The client's boolean is ignored: once
      the body is a JSON object the answer is 200, whatever the cart reply. */
  method AddToCartPut(client: Client, requestJson: Option<Json>, reply: Reply)
    returns (sent: Option<Request>, resp: ViewResponse)
    ensures resp.status == 200 <==> requestJson.Some? && requestJson.value.JObj?
    ensures resp.status == 200 ==> resp.body == EmptyBody && sent.Some?
    ensures resp.status == 200 ==>
      var fields := requestJson.value.fields;
      var upc := if "upc" in fields then fields["upc"] else JNull;
      var quantity := if "quantity" in fields then fields["quantity"] else JNum(1);
      sent.value.body == JsonBody(JObj(map["upc" := upc, "quantity" := quantity]))
    ensures resp.status != 200 ==> sent.None? && resp.status == 500
    ensures requestJson.None? ==> resp.body == ErrorBody(JsonDecodeError)
  {
    if requestJson.None? {
      return None, ViewResponse(500, ErrorBody(JsonDecodeError));
    }
    var upc := DictGet(requestJson.value, "upc", JNull);
    var quantity := DictGet(requestJson.value, "quantity", JNum(1));
    if upc.None? || quantity.None? {
      return None, ViewResponse(500, ErrorBody(AttributeError));
    }
    var (request, _) := client.AddToCart(upc.value, Some(quantity.value), reply);
    sent := Some(request);
    resp := ViewResponse(200, EmptyBody);
  }
}
