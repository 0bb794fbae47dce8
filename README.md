# Storefront client: session store, cart store and API client

This project models the client side of a small web storefront written with
React. The model covers:

- the **session store** (`authReducer`, rehydration from `localStorage`,
  `login`, `register`, `logout`);
- the **cart store** (`cartReducer`, `fetchCart` and the four cart
  mutations);
- the **API client**: the base URL, the route table, the request
  interceptor that attaches the stored bearer token, and the response
  interceptor that ends an expired session on HTTP 401;
- the client-side rules of four screens:
  - registration validation and submission;
  - the quantity and remove controls of a cart line;
  - the filter bar and its active-filter badge;
  - the query the home page builds from the filters, and its loading and
    error state.

Layout, one Dafny module per source file:

| file | module | models |
|---|---|---|
| `common.dfy` | `Common` | `Option`, JavaScript `a \|\| b` on strings, decimal rendering of identifiers, `localStorage` as a class over a `map<string, string>` |
| `api.dfy` | `Api` | `src/services/api.js` |
| `auth_context.dfy` | `AuthContext` | `src/context/AuthContext.jsx` |
| `cart_context.dfy` | `CartContext` | `src/context/CartContext.jsx` |
| `register_page.dfy` | `RegisterPage` | `src/pages/Register.jsx` |
| `cart_item_view.dfy` | `CartItemView` | `src/components/CartItem.jsx` |
| `product_filters.dfy` | `ProductFilters` | `src/components/ProductFilters.jsx` |
| `home_page.dfy` | `HomePage` | `src/pages/Home.jsx` |

How remote calls are modelled:

- A call does not reach a server. The caller passes in the response it
  receives: `Ok(data)`, or `Err(reply)`, where `reply` carries the HTTP
  status and the body's `error` field, or nothing on a network failure.
- `ApiClient.Send` logs the request it would send, in the `sent` field. The
  request holds the endpoint and the headers after the request interceptor
  has run.
- `Send` then applies the 401 handling to storage and to the browser
  location.

How the stores are modelled:

- Each store is a class with a `state` field and a ghost log `dispatched`.
- The store's invariant is that `state` is the reducer folded over the log,
  starting from the initial state.
- This lets whole-history properties be proved as lemmas about the fold:
  - every reachable session state is consistent;
  - cart contents only ever come from server snapshots;
  - the cart totals agree with its lines as long as the server's snapshots
    do.

Two behaviours of the source that the contracts make explicit:

- **A failed login with status 401 also ends any stored session.** The
  response interceptor removes both storage keys and moves the browser to
  `/login` before the failure reaches `login`. See the `api.location` and
  storage clauses of `AuthContext.AuthProvider.Login`.
- **The decrement button can do nothing.** It is enabled whenever
  `quantity > 1`. If the stock has dropped below `quantity - 1`, the
  target quantity fails the bounds guard and the click is dropped in
  silence. `CartItemView.EnabledDecrementAllowedIff` states exactly when an
  enabled decrement goes through.

## Model

| member | source | states |
|---|---|---|
| Common.Or | src/context/AuthContext.jsx:83 | `v \|\| fallback` on an optional string: the value when present and non-empty, otherwise the fallback; a non-empty fallback gives a non-empty result |
| Common.NatToString | src/services/api.js:45 | an identifier in a path is a non-empty run of decimal digits, one digit exactly for values below 10, and never starting with `0` unless the value is 0 (with `NatToStringValue`, exactly the digits `${id}` writes) |
| Common.NatToStringValue | src/services/api.js:45 | the rendered digits denote the number rendered, most significant digit first, as `${id}` writes it |
| Common.NatToStringInjective | src/services/api.js:45-54 | different identifiers render to different path segments |
| Common.WithSession | src/context/AuthContext.jsx:73-74 | storing a session sets `token` and `user` to the given values and leaves every other key as it was |
| Common.WithoutSession | src/context/AuthContext.jsx:117-119 | removing the session deletes exactly `token` and `user` and leaves every other key as it was |
| Common.Lookup | src/services/api.js:16 | `getItem` yields a value exactly when the key is stored, and then the stored value |
| Common.LocalStorage.GetItem | src/services/api.js:16 | `getItem` on the storage object yields a value exactly when the key is stored, and then the stored value |
| Common.LocalStorage.SetItem | src/context/AuthContext.jsx:73-74 | `setItem` overwrites one key and nothing else |
| Common.LocalStorage.RemoveItem | src/context/AuthContext.jsx:118-119 | `removeItem` deletes one key and nothing else |
| Api.BaseUrl | src/services/api.js:3-4 | the environment's URL when it is set and non-empty, else `http://localhost:5000/api`; never empty |
| Api.FailureMessage | src/context/AuthContext.jsx:83 | `error.response?.data?.error \|\| fallback`: the server's non-empty message when there is one, and the fallback in every other case (no response, no `error` field, or an empty one); never empty for a non-empty fallback |
| Api.RouteOf | src/services/api.js:37-56 | reads (`getAll`, `getById`, `getCategories`, cart `get`) use `GET`; login, register and cart `add` use `POST`; only cart `update` uses `PUT`; cart `remove` and `clear` use `DELETE`; each route's path lies under `/auth/`, `/items` or `/cart` by the operation's group |
| Api.AreasDisjoint | src/services/api.js:37-56 | no path starts with two of `/auth/`, `/items` and `/cart` |
| Api.AreaNamesGroup | src/services/api.js:37-56 | a route's path lies under `/auth/`, `/items` or `/cart` exactly when its operation is an auth, item or cart call |
| Api.PrefixedIdInjective | src/services/api.js:45-54 | a fixed prefix followed by an identifier determines the identifier |
| Api.RouteIdentifiesTarget | src/services/api.js:37-56 | two calls have the same verb and path exactly when they are the same operation on the same item or cart line: the route table is unambiguous |
| Api.StoredToken | src/services/api.js:16-17 | the token the interceptor uses is present exactly when a non-empty `token` is stored, and is that stored value |
| Api.WithBearer | src/services/api.js:15-21 | with no stored token the headers are unchanged; with one, `Authorization` is set; no other header changes |
| Api.BearerRoundTrip | src/services/api.js:17-18 | the credential read back from `Authorization: Bearer …` is exactly the stored token, and absent when none is stored |
| Api.BearerDependsOnlyOnToken | src/services/api.js:15-21 | two storages holding the same `token` entry give the same headers |
| Api.ApiClient.constructor | src/services/api.js:3-12 | the client starts with the resolved base URL and no requests sent |
| Api.ApiClient.InterceptRequest | src/services/api.js:15-21 | the request interceptor rewrites the configuration's headers to `WithBearer` of the current storage |
| Api.ApiClient.InterceptResponse | src/services/api.js:24-34 | every response is passed on unchanged; a 401 first removes both session keys and sets the location to `/login`; any other outcome leaves storage and location alone |
| Api.ApiClient.Send | src/services/api.js:7-34 | one call appends exactly one request with the interceptor's headers, returns the response unchanged, and applies the 401 handling to storage and location |
| AuthContext.Reduce | src/context/AuthContext.jsx:6-39 | the start actions set `loading` and clear `error`; the success actions install user and token and authenticate; the failure actions record the message; logout drops the identity but keeps `loading` and `error`; an unknown action changes nothing; every action preserves consistency (authenticated exactly when both user and token are held) |
| AuthContext.LoginAndRegisterAgree | src/context/AuthContext.jsx:8-35 | each register action has exactly the effect of the matching login action |
| AuthContext.ReduceAllSnoc | src/context/AuthContext.jsx:50 | folding one more dispatch applies the reducer once more to the previous state |
| AuthContext.ReachableIsConsistent | src/context/AuthContext.jsx:6-47 | every state reachable from the initial state by any sequence of dispatches is consistent |
| AuthContext.Rehydrated | src/context/AuthContext.jsx:52-65 | with a stored session the state becomes authenticated with exactly the stored user and token, not loading and with no error; without one it is left as it was |
| AuthContext.RehydrationAuthenticatesIffStored | src/context/AuthContext.jsx:41-65 | rehydration authenticates exactly when both `token` and `user` are stored (non-empty), leaves the initial state otherwise, and the result agrees with storage |
| AuthContext.ReloadRestoresSession | src/context/AuthContext.jsx:52-74 | after a session has been stored, a reload restores the same user and token |
| AuthContext.AuthProvider.constructor | src/context/AuthContext.jsx:41-50 | the store starts in the anonymous initial state with nothing dispatched |
| AuthContext.AuthProvider.Dispatch | src/context/AuthContext.jsx:50 | a dispatch appends the action to the log and applies the reducer |
| AuthContext.AuthProvider.Rehydrate | src/context/AuthContext.jsx:52-65 | the mount effect dispatches one login success with the stored token and user when both are present, and nothing otherwise |
| AuthContext.AuthProvider.SignIn | src/context/AuthContext.jsx:67-115 | the shared shape of login and register: start, one request, then on success the session is written to storage and the success action dispatched, on failure storage is only touched by the 401 handling and the failure action carries the message that is also returned |
| AuthContext.AuthProvider.Login | src/context/AuthContext.jsx:67-90 | login sends one `POST /auth/login` with the credentials; success stores the token and user, makes the state agree with storage and reports success; failure reports and records the server message or `Login failed` and keeps the identity |
| AuthContext.AuthProvider.Register | src/context/AuthContext.jsx:92-115 | the same for `POST /auth/register`, with fallback `Registration failed` |
| AuthContext.AuthProvider.Logout | src/context/AuthContext.jsx:117-121 | logout removes both storage keys and dispatches logout: not authenticated, no user, no token, `loading` and `error` unchanged |
| CartContext.Reduce | src/context/CartContext.jsx:7-26 | `SET_LOADING` changes only `loading`; `SET_CART` overwrites the fields the snapshot carries, forces `loading` false and keeps `error`; `SET_ERROR` records the message and keeps the contents; `CLEAR_CART` yields the empty cart from any state; an unknown action changes nothing |
| CartContext.ClearCartIdempotent | src/context/CartContext.jsx:15-22 | clearing twice equals clearing once, and both give the empty cart |
| CartContext.ReduceAllSnoc | src/context/CartContext.jsx:37 | folding one more dispatch applies the reducer once more to the previous state |
| CartContext.ReduceAllPair | src/context/CartContext.jsx:46-49 | folding one or two dispatches is applying the reducer once or twice |
| CartContext.ContentsComeFromServer | src/context/CartContext.jsx:7-34 | after any sequence of dispatches, the items and each total are either the empty-cart values or were carried by some `SET_CART` snapshot: the client never computes them |
| CartContext.CoherentWhileServerIs | src/context/CartContext.jsx:7-34 | when every snapshot ever installed is complete and self-consistent, the cart's `total_items` and `total_amount` always agree with its lines |
| CartContext.FetchOutcome | src/context/CartContext.jsx:40-56 | unauthenticated, a fetch yields the empty cart; authenticated, it ends not loading with the snapshot installed, or with the server message or `Failed to fetch cart` and the previous contents |
| CartContext.CartStore.constructor | src/context/CartContext.jsx:28-38 | the cart store starts empty with nothing dispatched, on the same client as the session store, so both see one storage and one location |
| CartContext.CartStore.Dispatch | src/context/CartContext.jsx:37 | a dispatch appends the action to the log and applies the reducer |
| CartContext.CartStore.FetchCart | src/context/CartContext.jsx:40-56 | unauthenticated: one `CLEAR_CART` and no request; authenticated: `SET_LOADING` then `SET_CART` or `SET_ERROR`, after exactly one `GET /cart` |
| CartContext.CartStore.Mutate | src/context/CartContext.jsx:58-92 | the shared shape of the three mutations: on failure, state and log untouched and the message or fallback returned; on success, exactly one refetch and success returned, whatever the refetch yields |
| CartContext.CartStore.AddToCart | src/context/CartContext.jsx:58-68 | `POST /cart` with the item and quantity (default 1); on failure state and log untouched, the server message or `Failed to add item to cart` returned, and storage and location changed only by the 401 handling; on success the state is the fetch's actions folded over the old state, after exactly one refetch whose own 401 handling alone touches storage and location |
| CartContext.CartStore.UpdateCartItem | src/context/CartContext.jsx:70-80 | `PUT /cart/<id>` with the quantity; on failure state and log untouched, the server message or `Failed to update cart item` returned, and storage and location changed only by the 401 handling; on success the state is the fetch's actions folded over the old state, after exactly one refetch whose own 401 handling alone touches storage and location |
| CartContext.CartStore.RemoveFromCart | src/context/CartContext.jsx:82-92 | `DELETE /cart/<id>`; on failure state and log untouched, the server message or `Failed to remove item from cart` returned, and storage and location changed only by the 401 handling; on success the state is the fetch's actions folded over the old state, after exactly one refetch whose own 401 handling alone touches storage and location |
| CartContext.CartStore.ClearCart | src/context/CartContext.jsx:94-104 | `DELETE /cart`; success empties the cart with no refetch; failure leaves state and log untouched and returns the message or `Failed to clear cart` |
| RegisterPage.With | src/pages/Register.jsx:20-24 | an edit changes exactly the named field |
| RegisterPage.Validate | src/pages/Register.jsx:31-39 | the form passes exactly when the passwords match and have at least 6 characters; a mismatch is reported first, then a short password |
| RegisterPage.Payload | src/pages/Register.jsx:41-45 | the request carries name, email and password from the form |
| RegisterPage.DisplayError | src/pages/Register.jsx:52 | a non-empty validation message is shown, otherwise the store's error |
| RegisterPage.RegisterView.constructor | src/pages/Register.jsx:7-15 | the form starts empty with no validation message |
| RegisterPage.RegisterView.HandleChange | src/pages/Register.jsx:20-26 | an edit replaces one field and clears the validation message |
| RegisterPage.RegisterView.HandleSubmit | src/pages/Register.jsx:28-50 | a failed check shows its message and sends nothing; otherwise exactly one registration request with the payload is sent, and the location changes only by the 401 handling. On success the session is written to storage, the user is signed in with the returned user and token, the state agrees with storage, and the page navigates to `/`. On failure the server message or `Registration failed` is recorded, the identity is kept, and storage changes only by the 401 handling |
| CartItemView.QuantityAllowed | src/components/CartItem.jsx:10 | the bounds guard lets a quantity through exactly when it is between 1 and the stock |
| CartItemView.DecrementDisabled | src/components/CartItem.jsx:61-63 | "-" is enabled exactly when no update runs and one less is still at least 1 |
| CartItemView.IncrementDisabled | src/components/CartItem.jsx:73-75 | "+" is enabled exactly when no update runs and one more stays within the stock |
| CartItemView.EnabledIncrementIsAllowed | src/components/CartItem.jsx:73-75 | for a non-negative quantity, an enabled increment always passes the bounds guard |
| CartItemView.EnabledDecrementAllowedIff | src/components/CartItem.jsx:61-63 | an enabled decrement passes the bounds guard exactly when `quantity <= stock + 1` |
| CartItemView.BusyDisablesBoth | src/components/CartItem.jsx:61-75 | while an update runs both buttons are disabled |
| CartItemView.CartLineView.constructor | src/components/CartItem.jsx:5-7 | a line starts not updating with no alerts |
| CartItemView.CartLineView.HandleQuantityChange | src/components/CartItem.jsx:9-20 | a quantity below 1 or above the stock changes nothing; otherwise exactly one update of this line with that quantity is sent and a failure is alerted. On failure the cart and its log are untouched, the request log gains only that request, and storage and location change only by the 401 handling. On success the cart is the refetch's actions folded over the old one, the request log gains the update and the refetch, and storage and location change only by the refetch's 401 handling. `isUpdating` ends false |
| CartItemView.CartLineView.HandleRemove | src/components/CartItem.jsx:22-32 | nothing happens unless confirmed; then exactly one removal of this line is sent and an alert is raised exactly when it fails. On failure the cart and its log are untouched, the request log gains only that request, and storage and location change only by the 401 handling. On success the cart is the refetch's actions folded over the old one, the request log gains the removal and the refetch, and storage and location change only by the refetch's 401 handling |
| ProductFilters.ActiveKeysByCase | src/components/ProductFilters.jsx:37-43 | the counted filters are exactly the non-empty ones among category, minimum and maximum price |
| ProductFilters.ActiveCountAtMostThree | src/components/ProductFilters.jsx:37-43 | the badge count is at most 3 |
| ProductFilters.NoFiltersCountNothing | src/components/ProductFilters.jsx:26-43 | reset filters count nothing |
| ProductFilters.SearchNeverCounts | src/components/ProductFilters.jsx:37-43 | changing the search text never changes which filters are counted |
| ProductFilters.SummaryLabel | src/components/ProductFilters.jsx:135-139 | no count reads `No filters applied`, one reads `1 filter applied`, more read the decimal count followed by ` filters applied` |
| ProductFilters.SummaryLabelLead | src/components/ProductFilters.jsx:135-139 | the summary starts with a digit exactly when some filter is counted |
| ProductFilters.SummaryLabelInjective | src/components/ProductFilters.jsx:135-139 | different counts give different summaries |
| ProductFilters.FilterPanel.constructor | src/components/ProductFilters.jsx:7 | the panel starts closed |
| ProductFilters.FilterPanel.ToggleFilters | src/components/ProductFilters.jsx:63 | the filter icon flips the panel open or closed |
| ProductFilters.FilterPanel.HandleFilterChange | src/components/ProductFilters.jsx:22-24 | the filters handed to the page differ from the old ones only at the edited key |
| ProductFilters.FilterPanel.ClearFilters | src/components/ProductFilters.jsx:26-34 | the filters handed to the page are all empty, none is counted, and the panel closes |
| ProductFilters.FilterPanel.GetActiveFiltersCount | src/components/ProductFilters.jsx:37-43 | the step-by-step count equals the number of counted filters that are set, at most 3 |
| HomePage.Trim | src/pages/Home.jsx:26 | `trim()` is never longer than its input and leaves no whitespace at either end (what it removes is stated by `TrimIsInner`) |
| HomePage.TrimStartSpec | src/pages/Home.jsx:26 | trimming the start keeps a suffix of the input, everything removed is whitespace, and it does not start with whitespace |
| HomePage.TrimEndSpec | src/pages/Home.jsx:26 | trimming the end keeps a prefix of the input, everything removed is whitespace, and it does not end with whitespace |
| HomePage.TrimEmptyIffBlank | src/pages/Home.jsx:26 | `trim()` is empty exactly when the text is all whitespace |
| HomePage.TrimIsInner | src/pages/Home.jsx:26 | the trimmed text is a contiguous piece of the input with no whitespace at either end, and everything cut off before and after it is whitespace |
| HomePage.QueryDeterminedByFilters | src/pages/Home.jsx:24-29 | the filters determine the query completely |
| HomePage.IsQueryFor | src/pages/Home.jsx:24-29 | (definition, used by `QueryOf`, `BuildParams` and `FetchProducts`) a query holds the trimmed search exactly when it is not blank, each other filter exactly when set and verbatim, and no other key |
| HomePage.QueryOf | src/pages/Home.jsx:24-29 | the built query has the trimmed search exactly when it is not blank, each price or category filter exactly when set and verbatim, and no other key |
| HomePage.BlankFiltersAskForEverything | src/pages/Home.jsx:24-29 | filters with a blank search and nothing counted give an empty query |
| HomePage.CountedFiltersAreSent | src/pages/Home.jsx:27-29 | a filter counted by the badge is sent exactly when it is counted |
| HomePage.BuildParams | src/pages/Home.jsx:24-29 | the conditional assignments build exactly the query the filters call for (`IsQueryFor`) |
| HomePage.Home.constructor | src/pages/Home.jsx:9-17 | the page starts loading, with no products, no error and no filter set |
| HomePage.Home.FetchProducts | src/pages/Home.jsx:19-39 | one `GET /items` whose query is the one the current filters call for; success replaces the products and clears the error, failure keeps them and shows `Failed to load products. Please try again.`; loading ends false either way |
| HomePage.Home.HandleFilterChange | src/pages/Home.jsx:49-51 | the page adopts the filters the bar hands over |
| HomePage.Home.ClearAllFilters | src/pages/Home.jsx:102-108 | all four filters become empty: nothing counted and a blank search |
| HomePage.Home.View | src/pages/Home.jsx:53-100 | the full-page spinner shows exactly while loading with no products; otherwise the status reads `Searching...` while loading or the product count, and the empty-result panel shows exactly when a finished load found nothing |

## Left out

- JSX markup, styling and icons. `src/pages/Login.jsx`, `src/pages/Cart.jsx`, `src/components/Navbar.jsx` and `src/components/ProductCard.jsx` are not part of this model; they render state and route.
- The HTTP transport and the backend. Each call is given its response as an input. The base URL and the request bodies are recorded but not turned into wire requests.
- `JSON.stringify`/`JSON.parse` of the user record. The user is its serialised text, which survives storage unchanged. Rehydration with malformed stored JSON throws in the source and is not modelled.
- Asynchrony and interleaving. Each operation is one atomic step, so the model leaves out:
  - overlapping `fetchCart` calls;
  - the refetch effect on a change of `isAuthenticated`;
  - the 500 ms debounce of the home page;
  - the home page's initial fetch on mount.
- HomePage.Home.FetchProducts: `loading` true and `error` cleared before the request are set but are not observable in an atomic step, so only the final state is stated. The cart store keeps its `SET_LOADING` in the dispatch log.
- CartItemView.CartLineView.HandleQuantityChange: `isUpdating` is true only during the call, so the contract states only that it ends false.
- The category fetch of the filter bar (console logging only), and the money formatting with `toFixed(2)` (floating point).
- `window.confirm` is an input boolean. `alert` and `navigate` are appended to sequences of messages and targets. `window.location.href` is a field of the client.
- String length is the number of characters. JavaScript counts UTF-16 code units, which differ only for characters outside the Basic Multilingual Plane.
- Cart snapshots carry only `items`, `total_amount` and `total_items`. Other keys in the server's object would be spread into the state by `SET_CART`; they are not modelled.
- Prices are `real`. Their floating-point rounding is not modelled.
