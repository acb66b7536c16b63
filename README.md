# Kroger API integration for Home Assistant: a verified model

This project models the logic of the `kroger_api` custom component. The
component lets Home Assistant search Kroger products and store locations and
add items to a cart. It talks to the retailer's REST API through an OAuth2
session. The model covers:

- **The API client** (`ConfigEntryKrogerApiClient`), in module `KrogerApi`
  (`kroger_api.dfy`):
  - the access-token guard, which refreshes only an invalid token;
  - the product and location searches. Each one checks its arguments, builds
    its query filters and reshapes the retailer's JSON into product or
    location records. When the upstream call fails, it returns `None`;
  - the add-to-cart call;
  - the token-request form that `KrogerApiOAuth2Implementation` fills in place;
  - the three HTTP views in front of the client.
- **The config flow** (`KrogerApiConfigFlowHandler` and
  `register_flow_implementation`), in module `ConfigFlow`
  (`config_flow.dfy`):
  - the single-instance rule;
  - the reauthentication confirmation;
  - the choice between updating an existing entry and creating a new one;
  - the registration of the credentials in `hass.data`.
- **Decoded JSON**, in module `PyJson` (`py_json.dfy`). A `Json` datatype
  stands for a value as Python's `json` module decodes it. The module also
  gives the Python operations the component applies to such values:
  subscripting, `[0]`, iteration and `dict.get`. Each operation that raises in
  Python yields `None` here. This is how a missing key, a missing front image or
  an empty `sizes` list becomes an explicit failure.

The network is a parameter. Each remote operation takes the `Reply` that the
retailer and the host's session give it. A `Reply` is one of:

- `Raised`: issuing the request raised. This includes a failed token refresh
  inside the session.
- `Replied(status, json)`: a status and a body. The body is `None` when it
  does not decode as JSON.

Each operation returns the `Request` it sends alongside its result. A search
that raises before sending anything returns no request. `raise_for_status()`
is modelled as "status 400 or above raises".

The model follows the code, including these behaviours:

- A failed product or location search returns `None`. It does not return an
  empty list.
- `add_to_cart` succeeds on any status below 400, not only on 2xx. It does
  not check that the quantity is positive.
- The cart view answers 200 whatever the cart call reports.

## Model

| member | source | states |
|---|---|---|
| `KrogerApi.ProductFilters` | custom_components/kroger_api/api.py:50-56 | `filter.term` is exactly the term. `filter.brand` and `filter.locationId` are present iff the brand and location id are non-empty, and then hold them. No other key is present. |
| `KrogerApi.Client.QueryProducts` | custom_components/kroger_api/api.py:38-81 | A missing or empty term raises `ValueError` with the source's message, and no request is sent. Otherwise one `GET /product` is sent with `Accept: application/json` and the filters `ProductFilters` gives, and the result is never an exception. |
| `KrogerApi.FirstFront` | custom_components/kroger_api/api.py:70-73 | Reference definition of the image choice: the index of the first image whose perspective is `"front"`, with no front image before it. `None` means no image is a front image. |
| `KrogerApi.FrontUrls` | custom_components/kroger_api/api.py:70-73 | The url list is computed iff no image makes it raise. It is empty iff there is no front image. Its first element is `sizes[0].url` of the first front image. |
| `KrogerApi.NonFrontNeverIndexed` | custom_components/kroger_api/api.py:70-73 | Replacing a non-front image by any other non-front image leaves the url list unchanged. Only front images have their `sizes` indexed. |
| `KrogerApi.ShapeProduct` | custom_components/kroger_api/api.py:66-74 | A record is produced iff the item has `productId`, `description`, `brand` and iterable `images`, no image makes the filter raise, and some image is a front image. Then `upc` is `productId`, description and brand are copied unchanged, and `image` is the first size url of the first front image. |
| `KrogerApi.ShapeProducts` | custom_components/kroger_api/api.py:65-76 | All or nothing. A list comes out iff every item can be shaped. It has the same length and order as the input, and element i is item i's record. |
| `KrogerApi.ProductsFrom` | custom_components/kroger_api/api.py:58-81 | These all give `None`: a reply that raised, a status of 400 or above, or a body that is not JSON. Products come out iff the reply gets through, `data` can be iterated and every one of its items can be shaped. They then correspond one to one, in order, to the elements of `data`. |
| `KrogerApi.LocationFilters` | custom_components/kroger_api/api.py:93-101 | Both coordinates non-empty: exactly `filter.lat.near`/`filter.lon.near` with those values. Otherwise a non-empty zip code gives exactly `filter.zipCode.near`. Otherwise the home coordinates are used. |
| `KrogerApi.UnpairedCoordinateIgnored` | custom_components/kroger_api/api.py:94-101 | A lone latitude or a lone longitude does not affect the filters. The zip code does not affect them once both coordinates are given. |
| `KrogerApi.ShapeLocations` | custom_components/kroger_api/api.py:110-116 | A list comes out iff every item has `locationId` and `name`. Element i is `{locationId, name}` of item i, in input order and with the same length. |
| `KrogerApi.LocationsFrom` | custom_components/kroger_api/api.py:103-121 | Any raised, error-status or undecodable reply gives `None`. Locations come out iff the reply gets through, `data` can be iterated and every item has `locationId` and `name`. Element i is then `{locationId, name}` of item i, in order and with the same length. |
| `KrogerApi.Client.QueryLocations` | custom_components/kroger_api/api.py:83-121 | The filters built step by step are exactly `LocationFilters` of the arguments and the home coordinates. One `GET /locations` is sent. The result is `LocationsFrom` of the reply, never an exception. |
| `KrogerApi.Client.AddToCart` | custom_components/kroger_api/api.py:123-149 | Sends `PUT /cart/add` with the JSON body exactly `{"upc": upc, "quantity": quantity}`, where an omitted quantity is 1. Returns true iff the status is below 400 and the body decodes. |
| `KrogerApi.TokenForm` | custom_components/kroger_api/api.py:171-174 | `client_id` is always set. `client_secret` is set only when the secret is not `None`. Every other key keeps its value, and no other key appears. |
| `KrogerApi.OAuth2Implementation.TokenRequest` | custom_components/kroger_api/api.py:167-186 | The caller's form is updated in place to `TokenForm` of its old contents. With no secret, the Basic-Auth header raises `ValueError` and nothing is posted. Otherwise the updated form is posted to the token URL. The decoded answer is returned iff the reply got through; otherwise the transport, HTTP-status or decode error is raised. |
| `KrogerApi.Session.EnsureTokenValid` | custom_components/kroger_api/api.py:33-34 | The host's refresh guard. A valid token changes nothing. An invalid one costs exactly one refresh attempt, which installs the refreshed token when it succeeds. |
| `KrogerApi.Client.GetAccessToken` | custom_components/kroger_api/api.py:31-36 | A valid token means no refresh, the session keeps its token, and `token["access_token"]` of that token is returned. An invalid token means exactly one refresh. A failed refresh propagates and leaves the session's token and invalid flag as they were. A successful one installs the refreshed token as valid and returns its `access_token`. A missing key raises `KeyError`. |
| `KrogerApi.ProductQueryGet` | custom_components/kroger_api/api.py:201-217 | Status 500 with the `ValueError` iff the `term` query parameter is missing or empty. Otherwise status 200 with `ProductsFrom` of the reply, which may be `None`, and the request filters come from the `term`, `brand` and `locationId` parameters. |
| `KrogerApi.LocationQueryGet` | custom_components/kroger_api/api.py:232-248 | Always status 200 with `LocationsFrom` of the reply. The filters come from `zip_code`, `latitude` and `longitude`. |
| `KrogerApi.AddToCartPut` | custom_components/kroger_api/api.py:263-278 | Status 200 iff the request body decodes to a JSON object, whatever the cart reply. In that case the cart body uses the request's `upc` (null when absent) and `quantity` (1 when absent). A body that does not decode, or is not an object, gives 500 and sends nothing. |
| `ConfigFlow.Credentials` | custom_components/kroger_api/config_flow.py:26-29 | The registered value has exactly the keys `client_id` and `client_secret`, holding the given strings. |
| `ConfigFlow.RegisterFlowImplementation` | custom_components/kroger_api/config_flow.py:16-29 | `hass.data[DOMAIN]` becomes exactly the two credentials, whatever it held before. Every other domain's data is unchanged. |
| `ConfigFlow.StepUser` | custom_components/kroger_api/config_flow.py:43-49 | Aborts with `single_instance_allowed` iff some entry exists. Otherwise it hands the same input to the generic OAuth2 user step. |
| `ConfigFlow.StepReauth` | custom_components/kroger_api/config_flow.py:51-53 | Always shows the `reauth_confirm` form with an empty schema. |
| `ConfigFlow.StepReauthConfirm` | custom_components/kroger_api/config_flow.py:55-62 | Without input, the `reauth_confirm` form with an empty schema. With input, it aborts with `single_instance_allowed` iff some entry exists. Otherwise it goes to the generic OAuth2 user step with no input. |
| `ConfigFlow.ConfirmedReauthAborts` | custom_components/kroger_api/config_flow.py:51-62 | When an entry exists, reauth shows the form, and confirming it ends in the `single_instance_allowed` abort. It never reaches the OAuth2 step. |
| `ConfigFlow.StepReauthConfirmIntended` | custom_components/kroger_api/config_flow.py:55-62 | Corrected confirmation. Confirming never aborts and always reaches the generic OAuth2 user step. Without input, or with no entries, it agrees with the code as written. |
| `ConfigFlow.FindByUniqueId` | custom_components/kroger_api/config_flow.py:66 | The entry `async_set_unique_id(DOMAIN)` returns: the first entry with that unique id, or none when no entry has it. |
| `ConfigFlow.AtMostOneKeyedEntry` | custom_components/kroger_api/config_flow.py:64-71 | With distinct unique ids, a store whose entries all carry the domain as unique id holds at most one entry. |
| `ConfigFlow.FlowHandler.OAuthCreateEntry` | custom_components/kroger_api/config_flow.py:64-71 | If an entry has unique id `DOMAIN`, only its data is replaced, it is reloaded once, and the flow aborts with `reauth_successful`. Otherwise exactly one entry titled `KrogerAPI` is added, carrying the data and the unique id, and the next entry id advances by one. The store's invariant is kept. If every entry carried the domain id, exactly one entry remains afterwards, holding the new data. |

## Findings

| source | as written | input that shows it | evidently intended | confidence | as-written member | corrected member |
|---|---|---|---|---|---|---|
| custom_components/kroger_api/config_flow.py:62 | Confirming reauth calls `async_step_user`, which aborts `single_instance_allowed` whenever an entry exists | Any reauth: it is started for an existing entry, so `current` is non-empty and the confirmation aborts. The update-in-place branch of `async_oauth_create_entry` (lines 67-70, "update existing entry for reauth") is then never reached through reauth. | Confirming reauth hands over to the generic OAuth2 step without the single-instance check, so the exchange ends in the update branch | medium, not executed | `ConfigFlow.ConfirmedReauthAborts` | `ConfigFlow.StepReauthConfirmIntended` |

## Left out

- HTTP traffic: `OAuth2Session.async_request`, the token `session.post`, `raise_for_status` and `resp.json()` become the `Reply` parameter. The refresh that the host's session performs inside `async_request` is also folded into `Reply`: it shows up only as `Raised`.
- The `Authorization` header value of the token request (the Basic-Auth encoding of the client id and secret) is not modelled. Only its refusal of a `None` secret is kept, in `TokenRequest`. The authorization-code exchange is not modelled either. Both are library code.
- The host's generic OAuth2 steps (implementation choice, external authorization, callback) are not modelled. `OAuthUserStep` marks the hand-over to them.
- `async_set_unique_id` also aborts a flow when another flow with the same unique id is in progress. That check is host code and is not modelled.
- The filtering of ignored entries in `_async_current_entries` is not modelled. `current` is whatever the host reports.
- Host entry ids are random strings. The model draws them from a counter instead.
- The rendering of an exception into the view's `"Unexpected error occurred: ..."` text is not modelled: `ErrorBody` carries the exception itself.
- The views record a status and a body kind. aiohttp's `Response` construction is library code and is not modelled.
- ProductQueryGet: promises 200 with the product list. aiohttp's `Response` refuses a list as a body with a `ValueError`, so the program as written answers a non-`None` result with the web framework's own 500. Its 500 branch builds a `Response` with a dict body, which is refused the same way, so that error also ends in the framework's 500 rather than the `{"error": ...}` body.
- LocationQueryGet: promises 200 with the location list. As with products, the program as written ends in the framework's own 500 for every non-`None` result.
- AddToCartPut: promises 500 with an `{"error": ...}` body on a bad request. The dict body is refused by aiohttp, so the program as written also ends in the framework's own 500 there, without that body. Its 200 answer has no body and is unaffected.
- Logging, async scheduling, concurrent token refreshes and timeouts are not modelled.
- JSON numbers are integers. Floats, and the host's float coordinates, are not modelled: the home coordinates are opaque strings, already passed through `str()`.
- Iterating a non-empty JSON object (which yields its key strings) is collapsed to failure in `PyJson.Elements`. Every loop that uses it subscripts each element with a string key, which raises on a string, so the outcome is the same.
- Values that other integrations keep in `hass.data` are modelled as `Json`, not as arbitrary Python objects.
- `extra_authorize_data` is kept only as the constant `KrogerApi.AuthorizeScopes`.
- The component's setup in `__init__.py` (configuration schema, registration of the implementation with the host) is not part of this model. Of `const.py`, only the URL and domain values are used.
