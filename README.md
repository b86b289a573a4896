# Retail admin dashboard: session client, client ledger, cart and lists

A Dafny model of the logic inside a React/Next admin dashboard for a small shop.
The rendering is not modelled, only the values and decisions the components compute.

- **Session HTTP client** (`api.dfy`, module `Api`). The axios response interceptor is a class that receives explicit events:
  - `OnError` is an error response reaching the interceptor.
  - `OnRefreshSuccess` and `OnRefreshFailure` are the refresh POST settling.
  - The module-level `isRefreshing` flag and `failedRequestsQueue` are fields of the class. `Valid()` states the invariant: a request waits only while a refresh is in flight, and at most one refresh is in flight.
- **Session hooks** (hooks/useAuth.tsx), in two modules because the API client and the hooks call each other:
  - `auth.dfy`, module `Auth`: `signOut`, the `auth` broadcast-channel handler, and the cookies and routes of `signIn`;
  - `auth_provider.dfy`, module `AuthContext`: the `AuthProvider` component, whose mount effects and `signIn` go through the session client, so a failed request meets its interceptor first.
- **Environment** (`env.dfy`, module `Env`):
  - the cookie jar as a map from name to value and `maxAge`;
  - the router and the broadcast channel as append-only logs;
  - `api.defaults.headers` as a `Headers` object;
  - the Bearer `Authorization` value of section 2.1 of RFC 6750.
- **Server-side guard** (`ssr_auth.dfy`, module `SsrAuth`): the redirect decision of `withSSRAuth` as a pure function, and the cookie deletion as a method on the request's cookie store.
- **Client ledger** (`ledger.dfy`, module `Ledger`; `clients.dfy`, module `Clients`):
  - The balance is Σ `amountPaid` + Σ credit `value` − Σ `quantity × price`, in integer minor units.
  - It is built from the same left folds as the source's `reduce` calls (`folds.dfy`).
  - It is proved equal to a flat closed form, insensitive to record order, and to move by exactly one credit or one order.
  - The client list repeats the expression inline, and is proved to agree with the details modal.
- **Bag** (`bag_modal.dfy`, module `BagModal`):
  - pure: line subtotals, the cart total and the checkout panel;
  - imperative: a `Bag` class with the buyer-search state, the quantity-button requests, and the checkout POSTs (one shop, then one order per line, issued by a loop).
- **Product table** (`products.dfy`): the case-insensitive, order-preserving name filter, and the low-stock flag.
- **Sales list** (`all_shop.dfy`): only paid sales are rendered; the status chooses an icon and the grey text.

## Quirks of the code the model keeps

- `typeof window` is a non-empty string in every context, in a browser and on the server alike, so the interceptor's `AuthTokenError` branch is never taken (`Api.TypeOfWindow`).
- A refresh reads the refresh token from `snap.refreshToken` but writes the new one to `zaytech.refreshToken`. The next refresh still sends the old token (`OnRefreshSuccess` keeps `snap.refreshToken` unchanged).
- `signOut` deletes `babi.token` and `babi.refreshToken`, not the `snap.*` cookies the session client reads.
- The refresh POST goes through the same interceptor. If it fails with an expired token, it queues itself behind its own refresh and never settles, so every stalled request waits for good. If it fails with any status other than 400, the user is signed out twice: once by the interceptor and once by the refresh's `.catch` (`Api.SessionClient.OnRefreshFailure`).
- A failed `sellers/me` request with a status other than 400 and other than an expired token also signs out twice: in the interceptor and in the hook's `.catch` (`AuthContext.AuthProvider.LoadSession`).
- Quantities and prices are not validated. The amounts are unconstrained `int`s.

## Model

| member | source | states |
|---|---|---|
| Api.Classify | src/services/api.ts:27-98 | expired token iff status 401 with message 'Invalid JWT token'; bad request iff status 400; every other error otherwise (a 401 with another message included) |
| Api.TypeOfWindow | src/services/api.ts:92-96 | `typeof window` is never the empty string, so the `AuthTokenError` branch cannot be taken |
| Api.Replays | src/services/api.ts:58-61 | each queued continuation, in insertion order, replays its request with `Authorization: Bearer <new token>` |
| Api.Rejections | src/services/api.ts:63-65 | each queued continuation, in insertion order, rejects with the refresh call's error |
| Api.SessionClient.RejectQueue | src/services/api.ts:64-65 | every queued request settles as Rejections of the old queue, in order, and the queue is emptied; the flag and the refresh calls are untouched |
| Api.SessionClient.constructor | src/services/api.ts:10-20 | the default header is `Bearer ` followed by the `snap.token` cookie, or by "undefined" when the cookie is missing; flag false and queue empty |
| Api.SessionClient.OnError | src/services/api.ts:26-99 | an expired token enqueues exactly one continuation and posts a refresh (with `snap.refreshToken`) only if none is in flight, then sets the flag; a 400 rejects with the original error and changes nothing; any other error signs out (both `babi.*` cookies deleted and every other cookie kept, 'signOut' posted when the channel exists, one `/admin` navigation) and rejects with the original error; flag and queue untouched outside the expired branch |
| Api.SessionClient.OnRefreshSuccess | src/services/api.ts:38-62 | sets `snap.token` and `zaytech.refreshToken` for 30 days, keeps every other cookie, `snap.refreshToken` included; header becomes `Bearer <token>`; queue settled as Replays in order and emptied; flag false |
| Api.SessionClient.OnRefreshFailure | src/services/api.ts:63-73 | the refresh error first passes the interceptor: an expired token queues the refresh behind itself and nothing settles; otherwise the queue is settled as Rejections in order and emptied, the flag cleared and the `babi.*` cookies deleted, with one sign-out for a 400 and two (two `/admin` navigations, two broadcasts when the channel exists) for any other status |
| Api.RefreshWindow | src/services/api.ts:34-86 | k expired errors from idle cause exactly one refresh POST and queue k continuations in arrival order; a successful or non-expired outcome settles all of them in that order; an expired-token outcome leaves all k queued behind the refresh itself |
| Env.SetCookie | src/services/api.ts:41-54 | the named cookie holds the value with maxAge 30 days; every other cookie unchanged |
| Env.DestroyCookie | src/services/hooks/useAuth.tsx:39-40 | the named cookie is gone; every other cookie unchanged |
| Env.Bearer | src/services/api.ts:56 | the header is the prefix `Bearer ` followed by exactly the token |
| Env.Interpolate | src/services/api.ts:18 | a template literal prints an undefined cookie as "undefined" |
| Auth.SignedOut | src/services/hooks/useAuth.tsx:39-40 | both `babi.*` cookies are gone and every other cookie is kept |
| Auth.SignedOutIdempotent | src/services/hooks/useAuth.tsx:38-45 | signing out a second time leaves the same cookie jar |
| Auth.SignOutMessages | src/services/hooks/useAuth.tsx:42 | one 'signOut' message when the channel exists, none otherwise |
| Auth.SignOut | src/services/hooks/useAuth.tsx:38-45 | the cookie jar becomes SignedOut of the old one; posts 'signOut' only when the channel exists; always navigates to `/admin`; the channel is kept |
| Auth.OnChannelMessage | src/services/hooks/useAuth.tsx:53-61 | navigates to `/admin` on 'signOut' and ignores every other message |
| Auth.SignInRoutes | src/services/hooks/useAuth.tsx:107-111 | an admin is sent to `/painelAdm` then `/`; anyone else only to `/` |
| AuthContext.AuthProvider.IsAuthenticated | src/services/hooks/useAuth.tsx:48-49 | always true, because the initial user `{}` is truthy |
| AuthContext.AuthProvider.OpenChannel | src/services/hooks/useAuth.tsx:51-62 | the mount effect assigns the channel and changes nothing else |
| AuthContext.AuthProvider.LoadSession | src/services/hooks/useAuth.tsx:64-79 | with a non-empty `babi.token`, one `sellers/me` call: success sets the user and changes nothing else; an expired-token failure stalls in the refresh queue and changes nothing else; a 400 signs out once; any other failure signs out twice (interceptor and `.catch`); without the token, no call and no change |
| AuthContext.AuthProvider.SignIn | src/services/hooks/useAuth.tsx:81-112 | on success writes both `babi.*` cookies for 30 days, sets the user and the `Bearer <token>` header, pushes the sign-in routes and resolves; a failed POST writes no cookie, user or header, and the promise stalls (expired token, refresh queued) or rejects with the original error, after the interceptor's sign-out for any status other than 400 |
| Auth.SignInCookies | src/services/hooks/useAuth.tsx:89-97 | after sign-in both cookies hold the response's tokens with maxAge 30 days and all other cookies are kept |
| SsrAuth.Decide | src/utils/WithSSRAuth.ts:13-41 | missing or empty token: non-permanent redirect to `/admin` and the page function is not called; otherwise its result passes through unchanged; an `AuthTokenError` destroys both cookies and redirects; any other error gives undefined |
| SsrAuth.WithSSRAuth | src/utils/WithSSRAuth.ts:9-42 | returns the decision's result; the store becomes SignedOut of the old one exactly when the decision says so, and is otherwise untouched |
| Ledger.ShopDebts | src/components/Modais/DetailsClientsShop.tsx:117-124 | one debt per shop, in shop order, each the sum of `quantity × price` over its orders |
| Ledger.IndicatorColor | src/components/Modais/DetailsClientsShop.tsx:188 | green (`#00fa00`) iff balance ≥ 0, so zero is green; red iff negative |
| Ledger.DebtTotal | src/components/Modais/DetailsClientsShop.tsx:117-131 | the per-shop debts added up equal the fold of the shops by their debt, and the flat sum of `quantity × price` over all orders of all shops |
| Ledger.DebtIsFlatSum | src/components/Modais/DetailsClientsShop.tsx:117-131 | folding the shops by their debt equals the flat sum of `quantity × price` over all orders of all shops |
| Ledger.PaidTotal | src/components/Modais/DetailsClientsShop.tsx:109-114 | the fold of `amountPaid` equals the sum of the shops' `amountPaid` values, each counted once |
| Ledger.CreditTotal | src/components/Modais/DetailsClientsShop.tsx:133-135 | the fold of `value` equals the sum of the credits' values, each counted once |
| Ledger.Balance | src/components/Modais/DetailsClientsShop.tsx:137-140 | balance = Σ amountPaid + Σ credit value − Σ quantity·price over all orders (the closed form) |
| Ledger.EmptyClientBalance | src/components/Modais/DetailsClientsShop.tsx:110-140 | no shops and no credits: balance 0, shown green |
| Ledger.ShopWithoutOrders | src/components/Modais/DetailsClientsShop.tsx:110-131 | a shop without orders adds only its amountPaid to the balance |
| Ledger.CreditRaisesBalance | src/components/Modais/DetailsClientsShop.tsx:133-140 | appending a credit of value v raises the balance by exactly v |
| Ledger.OrderLowersBalance | src/components/Modais/DetailsClientsShop.tsx:117-140 | appending an order (q, p) to any shop lowers the balance by exactly q·p |
| Ledger.BalanceIgnoresRecordOrder | src/components/Modais/DetailsClientsShop.tsx:110-140 | permuting the shops or the credits leaves the balance unchanged |
| Ledger.BalanceIgnoresOrderOrder | src/components/Modais/DetailsClientsShop.tsx:117-131 | permuting the orders within each shop leaves the balance unchanged |
| Ledger.DetailsHeading | src/components/Modais/DetailsClientsShop.tsx:187-190 | shows the closed-form balance, green iff ≥ 0; while data is undefined the amount is NaN and the colour red |
| Ledger.ShopViews | src/components/Modais/DetailsClientsShop.tsx:228-248 | each shop's displayed total is its contribution to the debt, next to its amountPaid; each line shows `quantity × price` |
| Ledger.ShownTotalsAreDebt | src/components/Modais/DetailsClientsShop.tsx:228-235 | the displayed shop totals add up to the debt subtracted from the balance |
| Clients.InlineBalance | src/components/Clients/index.tsx:131-175 | the row's inline expression equals the ledger balance of the details modal |
| Clients.RowColor | src/components/Clients/index.tsx:131-153 | green iff the ledger balance is ≥ 0, red iff it is negative |
| Clients.Row | src/components/Clients/index.tsx:129-177 | the name upper-cased; the displayed amount equals the ledger balance; green iff it is ≥ 0, red otherwise |
| Clients.Rows | src/components/Clients/index.tsx:126-128 | exactly one row per client, in input order; none while data is undefined |
| Clients.RowsAgreeWithDetails | src/components/Clients/index.tsx:131-177 | a row's amount and colour equal the details modal's heading for the same client |
| Clients.EmptyClientRow | src/components/Clients/index.tsx:133-176 | a client with no shops and no credits shows 0 in green |
| BagModal.CartFormatted | src/components/Modais/BagModal.tsx:78-82 | same length and order as the cart; keeps every product field and adds the unit price and `price × amount` |
| BagModal.Total | src/components/Modais/BagModal.tsx:84-88 | the total equals the sum of the line subtotals shown, and 0 for an empty cart |
| BagModal.IncrementRaisesTotal | src/components/Modais/BagModal.tsx:84-92 | one more unit of a line raises the total by that line's price |
| BagModal.Panel | src/components/Modais/BagModal.tsx:261-327 | the checkout form, showing the total, iff the cart is non-empty; otherwise "Nenhum item no carrinho" |
| BagModal.OrderPosts | src/components/Modais/BagModal.tsx:142-148 | one order per cart line, in cart order, each with that line's product id, the new shop's id and quantity = amount |
| BagModal.Bag.HandleProductIncrement | src/components/Modais/BagModal.tsx:90-92 | requests amount + 1 for that product id only |
| BagModal.Bag.HandleProductDecrement | src/components/Modais/BagModal.tsx:94-96 | requests amount − 1 for that product id only, with no lower bound |
| BagModal.Bag.HandleRemoveProduct | src/components/Modais/BagModal.tsx:98-100 | requests removal of that product id |
| BagModal.Bag.GetClient | src/components/Modais/BagModal.tsx:114-126 | every change clears the selected client; empty text sets the flag false and issues no search; non-empty text issues one search and sets the flag true after the results arrive |
| BagModal.Bag.CloseOptionsClients | src/components/Modais/BagModal.tsx:128-131 | selects the client and hides the options |
| BagModal.Bag.SelectedClientId | src/components/Modais/BagModal.tsx:137-140 | the shop POST's clientId is undefined when no client was selected |
| BagModal.Bag.Checkout | src/components/Modais/BagModal.tsx:133-166 | posts one shop; if it succeeds, then the orders of OrderPosts in cart order and empties the cart; if it fails, the handler does nothing more |
| Products.FilterByName | src/components/Products/index.tsx:114-127 | empty filter keeps all products in order; otherwise exactly the products whose lower-cased name contains the lower-cased filter, each as many times as in the data; an order-preserving subsequence of the data |
| Products.Row | src/components/Products/index.tsx:130 | a row is red iff amount < 3 |
| Products.Rows | src/components/Products/index.tsx:114-130 | one row per kept product, in order; none while data is undefined |
| Products.FilterIgnoresCase | src/components/Products/index.tsx:120-124 | a filter and its upper-cased form select the same products |
| Products.EmptyFilterMatchesAll | src/components/Products/index.tsx:116-126 | the empty filter would match every name even without the explicit empty check |
| Text.ToLower | src/components/Products/index.tsx:121-123 | lower-cases character by character, keeping the length |
| Text.ToUpper | src/components/Clients/index.tsx:129 | upper-cases character by character, keeping the length |
| Text.LowerOfUpper | src/components/Products/index.tsx:121-123 | lower-casing an upper-cased text gives the lower-cased text |
| Text.Includes | src/components/Products/index.tsx:121-123 | true iff the needle occurs at some position of the text |
| AllShop.StatusIcon | src/components/AllShop/index.tsx:83-85 | box iff 'Preparando', truck iff 'Enviado', check iff 'Entregue', otherwise no icon, so at most one icon per row |
| AllShop.Row | src/components/AllShop/index.tsx:71-86 | green iff paid, grey otherwise; date and name greyed iff 'Entregue'; the icon of the status |
| AllShop.AllRows | src/components/AllShop/index.tsx:68-86 | the mapped entries, one per sale, in order |
| AllShop.VisibleRows | src/components/AllShop/index.tsx:68-73 | only sales with truthy `paid` are rendered, each as many times as it occurs in the data, each with colour `#00FF00`, as an order-preserving subsequence of the mapped entries |
| AllShop.GetShopProjection | src/services/hooks/useShop.tsx:38-54 | the projection keeps each sale's fields but leaves `paid` undefined |
| AllShop.NothingRenderedFromGetShop | src/components/AllShop/index.tsx:68-70 | when the data comes from `getShop`, no row is rendered |
| AllShop.DeliveredRows | src/components/AllShop/index.tsx:77-85 | date and client text are greyed iff the status is 'Entregue', the same rows that show the check icon |

## Left out

- Api.SessionClient.OnError: a client with `inBrowser` false, built on the server, is given the browser's sign-out. On the server `signOut` deletes no cookie, has no channel, and `Router.push` throws, so the request rejects with that error rather than the original one. The model does not capture this.
- Api.SessionClient.OnRefreshFailure: a failed refresh on a server-side client is likewise given the browser's sign-out, for the same reason.
- Api.RefreshWindow: on a server-side client, the failed-refresh outcome is likewise given the browser's cookie deletion and navigation.
- Network I/O is not modelled: axios, `api.get/post/put/delete`, and the replay `api(originalConfig)`. Responses and refresh outcomes are event parameters. A replay is recorded as the header it carries; its own outcome is not modelled.
- services/apiClient is not part of this model. The `api` it exports is taken to be a client built by `setupAPIClient`, with the interceptor of `Api.SessionClient`.
- AuthContext.AuthProvider.LoadSession: a `sellers/me` request that stalls behind a refresh is left in the queue. How it ends after the refresh settles, and what the hook then does, is not modelled.
- AuthContext.AuthProvider.SignIn: a `POST sessions` that stalls behind a refresh is left in the queue, and the `signIn` promise stays pending. How it ends after the refresh settles is not modelled.
- A `error.response` that is undefined makes the interceptor throw at its first line. The model assumes every error has a response.
- `isRefreshing` and `failedRequestsQueue` are module globals, shared by every client that `setupAPIClient` creates. The model gives one `SessionClient` its own copy.
- The model's `SessionClient` uses the `Browser` cookie jar where the code uses the cookies of the `ctx` it was created with, which on the server is the request's. The per-request cookie store is modelled only for the guard.
- Cookie `path` options are not modelled.
- Promise interleaving is reduced to sequential events. `onSubmit` issues the order POSTs of checkout without awaiting them and does not handle their failures. They are modelled as the list of payloads issued.
- `Number()` coercion, floating-point sums, `formatPrice`, `realMask`, `convertRealToNumber` and `toLocaleDateString` are not modelled. Amounts are integer minor units, and "formatted" prices are the minor units themselves.
- Case mapping is ASCII only. Other characters map to themselves.
- Rendering, Chakra layout, modals, toasts and react-hook-form/yup validation are not modelled. Checkout is modelled as it runs after validation has passed.
- react-query caching and `invalidateQueries` are not modelled. The Next `Router` and the `BroadcastChannel` are append-only logs.
- BagModal.Bag.Checkout: a failed shop POST is modelled as ending the handler. Each request of checkout, the shop POST and every order POST, still passes the interceptor (`Api.SessionClient.OnError`): an expired token queues it and may start a refresh, and any status other than 400 signs out. This contract does not repeat those effects.
- BagModal.Bag.GetClient: a failed search is modelled as ending the handler. The interceptor's effects on that failure are those of `Api.SessionClient.OnError` and are not repeated in this contract.
- The cart hook (`useCart`) is not part of this model. The bag records the requests it sends to it: update amount, remove, remove all.
- The credit form of the details modal (`createCredit`, the `isSubmited` flag) is a network call and is not modelled.
- The fetch-and-project hooks are not modelled, except the `paid`-dropping projection of `getShop`. Their record shapes give the datatypes.
