# ordering-core, modelled in Dafny

This project models the client-side core of the Ordering Stack library
`ordering-core`, which has three parts.

- **Order record store** (`src/orderStore.ts`): a map from order id to
  order record. Order creation acknowledgements, push events and error
  notifications change it. An observer callback is told about the changes.
- **Token manager** (`src/auth.ts`): the cached credential `_authData`
  and the time it was obtained. It also covers the expiry test, the two
  token requests (password grant and refresh grant), and `authDataProvider`.
  The provider picks between the cache, the stored refresh token and
  anonymous login. Before it uses the refresh token, it checks the cached
  credential again under a mutex.
- **Event connection** (`src/wsListener.ts`):
  - the wait for a non-empty access token, with exponential backoff;
  - the STOMP broker URL;
  - the `beforeConnect`, `onConnect` and `onStompError` callbacks;
  - the disposer that `connectWebSockets` returns.

It builds on `replaceProtocolInUrl` (`src/tools.ts`). The types are in
`order_types.dfy` (from `src/orderTypes.ts`).

How each part is modelled:

- **Pure parts are functions with contracts.** The effect of each store
  entry point on the map, the provider's decision chain, the expiry test,
  the URL rewrite and the subscription list are all functions.
- **Module state is a class.** The module-level variables of
  `orderStore.ts` and `auth.ts` become the fields of `OrderRecordStore` and
  `AuthModule`. The variables `connectWebSockets` closes over become the
  fields of `EventConnection`. Their methods change those fields in place,
  and each method's `ensures` ties the new state to the pure function.
- **The outside world is a parameter or a log.**
  - The HTTP responses, the stored refresh token, the clock and the
    provider's replies are parameters.
  - The refresh-token storage handler, the token requests, the STOMP client
    and the observer are logs of the calls made to them.
- **Properties that span several calls are lemmas over the pure
  functions.** Examples: what a run of store events keeps consistent, the
  backoff bounds, and the subscriptions `onConnect` makes.

Modelling choices:

- A missing or falsy JavaScript string (`undefined`, `null`, `''`) is the
  empty string.
- `parseInt(expires_in)` is an `Option<int>`, with `None` standing for NaN.
- As written, `replaceProtocolInUrl` returns `undefined` when the parsed
  protocol and "//" do not start the URL word for word. For example, this
  happens when:
  - the scheme has upper-case letters (`Tools.UpperCaseSchemeIsNoMatch`);
  - the scheme is not followed by "//", as in `mailto:x` or `http:host`
    (`Tools.NoSlashesIsNoMatch`);
  - the URL starts with spaces or control characters, which the parser
    strips (`Tools.LeadingSpaceIsNoMatch`);
  - a tab or newline sits inside the scheme or the "//", as in
    `ht\ttps://x`, since the parser removes it (`Tools.ProtocolOf` and
    `Tools.RemoveDropsTabOrNewline` cover this, without a lemma of its own).

  The broker URL is then the text `undefined/websocket`
  (`WsListener.BrokerUrlOfPaddedUrl`).

## Model

| member | source | states |
|---|---|---|
| Tools.ProtocolOf | src/tools.ts:2-4 | the parser input is the URL with leading and trailing spaces and control characters stripped and tabs and newlines removed; `new URL` throws (None) exactly when that input has no ':' or the text before its first ':' is not a valid scheme; otherwise `protocol` is that text lower-cased, plus ':' |
| Tools.ProtocolOfSchemeUrl | src/tools.ts:2-4 | the protocol of `scheme:rest` is the lower-cased scheme and ':', whatever follows |
| Tools.TrimLeadingIsSuffix | src/tools.ts:2 | leading trimming removes a prefix made only of spaces and C0 controls and keeps the rest of the URL unchanged |
| Tools.TrimTrailingIsPrefix | src/tools.ts:2 | trailing trimming removes a suffix made only of spaces and C0 controls and keeps the rest of the URL unchanged |
| Tools.RemoveAppend | src/tools.ts:2 | tab and newline removal works piecewise over a concatenation |
| Tools.RemoveKeepsOtherChars | src/tools.ts:2 | every character other than a tab or newline is kept, in order, between what remains before and after it |
| Tools.RemoveDropsTabOrNewline | src/tools.ts:2 | a tab or newline is dropped and nothing around it changes |
| Tools.RemoveWithoutTabsIsIdentity | src/tools.ts:2 | text without tabs or newlines is left unchanged |
| Tools.ReplaceProtocolInUrl | src/tools.ts:1-9 | throws exactly when the URL does not parse; returns a string exactly when the URL starts with its protocol followed by "//"; the result is the new protocol followed by the rest of the URL after that prefix |
| Tools.ReplaceSchemeUrl | src/tools.ts:1-9 | for every lower-case scheme, `scheme://rest` becomes `newProtocol + rest` |
| Tools.ReplaceOwnScheme | src/tools.ts:1-9 | replacing a URL's own `scheme://` gives the URL back unchanged |
| Tools.NoSlashesIsNoMatch | src/tools.ts:4-8 | a URL whose scheme is not followed by "//" parses, but the result is undefined |
| Tools.LeadingSpaceIsNoMatch | src/tools.ts:2-8 | a URL with leading spaces or control characters parses as if they were absent, but the prefix test runs on the URL as given, so the result is undefined |
| Tools.UpperCaseSchemeIsNoMatch | src/tools.ts:4-8 | a scheme with an upper-case letter is lower-cased by the parser, so the prefix test fails and the result is undefined |
| Tools.ReplaceHttpsWithWss | src/__tests__/toolsTest.ts:3-7 | every `https://rest` becomes `wss://rest` |
| Tools.ColonAfterScheme | src/tools.ts:2 | in `scheme:rest` the first ':' is the one right after the scheme |
| OrderStore.InVenue | src/orderStore.ts:49-54 | computes the kitchen-display filter: some bucket of the order is at the venue, and false when the payload has no bucket list; `OrderStore.AfterUpdate` proves that an event failing it changes nothing |
| OrderStore.AfterCreate | src/orderStore.ts:29-37 | the id is in the map afterwards; an existing record is left alone; otherwise an INITIALIZING record with no payload and the given correlation id is added; no other key changes; consistency is preserved |
| OrderStore.AfterUpdate | src/orderStore.ts:47-82 | no effect and no notification for a falsy id, for an order outside the venue in kitchen-display mode, or for a closed order with no record; a new open order is stored VALID with correlation id '' and notified; an existing record gets the payload and is promoted from INITIALIZING to VALID (other statuses kept), or is deleted if the order is closed, and is notified; no other key changes; consistency is preserved |
| OrderStore.AfterError | src/orderStore.ts:86-107 | no effect for a falsy id; an unknown id gets an INVALID record with no payload and is notified; a correlated error makes the record INVALID; an uncorrelated one makes only an INITIALIZING record INVALID; neither notifies; no other key changes; consistency is preserved |
| OrderStore.OrderRecordStore.constructor | src/orderStore.ts:13-14 | the store starts empty with no callback and is consistent |
| OrderStore.OrderRecordStore.SetOrderStoreUpdatedCallback | src/orderStore.ts:16-18 | records whether a truthy callback is installed |
| OrderStore.OrderRecordStore.Notify | src/orderStore.ts:38 | the callback, if set, receives the record now under the id (or undefined) and the whole map |
| OrderStore.OrderRecordStore.CmdOrderCreate | src/orderStore.ts:20-40 | the map becomes AfterCreate of the old map, the observer receives the record under the id, the acknowledgement returns the id and correlation id, and consistency is kept |
| OrderStore.OrderRecordStore.OnOrderUpdate | src/orderStore.ts:42-83 | the map becomes AfterUpdate of the old map, and the observer is called exactly when AfterUpdate says so, with the resulting record (undefined after deletion) |
| OrderStore.OrderRecordStore.OnOrderError | src/orderStore.ts:85-108 | the map becomes AfterError of the old map, and the observer is called only for an unknown id |
| OrderStore.OrderRecordStore.ClearOrderStore | src/orderStore.ts:111-113 | the map is replaced by an empty one |
| OrderStore.RunFrame | src/orderStore.ts:20-108 | over any run of entry-point calls, a key no call is about keeps its record or stays absent |
| OrderStore.RunConsistent | src/orderStore.ts:20-108 | every run from a consistent map ends consistent: an INITIALIZING record has no payload, a VALID one has one, and a stored payload has the record's id and is not closed |
| OrderStore.OnlyCreateInitializes | src/orderStore.ts:33-36 | without a creation for a key, a record of that key that is not INITIALIZING never becomes INITIALIZING |
| OrderStore.CreateThenUncorrelatedError | src/__tests__/orderStoreTest.ts:46-62 | a created order is INITIALIZING, and an error for it without a correlation id makes it INVALID |
| OrderStore.CreateThenUpdates | src/__tests__/orderStoreTest.ts:64-83 | a created order becomes VALID with the pushed payload, and a closed push then removes it, giving back the map from before the creation, and notifies |
| OrderStore.CreateThenCorrelatedError | src/orderStore.ts:97-101 | an error carrying the creation's correlation id makes the created record INVALID without notifying and touches nothing else |
| Auth.IsTokenExpired | src/auth.ts:77-88 | a missing credential or empty access token is expired; otherwise the token is expired exactly when expires_in parses and at least 950 ms per second of lifetime have elapsed since retrieval |
| Auth.ExpiredStaysExpired | src/auth.ts:77-88 | an expired token stays expired as the clock advances |
| Auth.ExpiryExamples | src/__tests__/authTest.ts:49-139 | with expires_in 3600, a token one minute old is valid and one an hour and a minute old is expired |
| Auth.Authorize | src/auth.ts:24-42 | a token request succeeds exactly when it is accepted; success replaces the cached credential with the response body and stamps the time; failure changes nothing |
| Auth.CacheHit | src/auth.ts:96-97 | computes the first test: no forced refresh, a cached access token, and that token not expired; `Auth.ProviderRun` proves that a hit returns the cached credential with no calls |
| Auth.RefreshPath | src/auth.ts:106-120 | without a refresh token, nothing happens; with one and a cache still valid inside the lock, success with no request; otherwise one refresh-grant request, whose outcome is Authorize's |
| Auth.ProviderRun | src/auth.ts:90-140 | a valid cached token is returned with no storage read and no request; otherwise the refresh token is read first; the refresh grant is requested exactly when a refresh token exists and the cache is expired at lock time; anonymous login is tried exactly when the refresh path failed and is allowed; at most two requests; if both fail, the result is the empty credential with no state change and nothing stored; the refresh token is stored exactly when a route succeeds and leaves a credential, and it is that of the credential returned; the requests are exactly the refresh path's, followed by the anonymous password grant when that is tried; after the refresh path succeeds (or finds the cache valid under the lock) the state is the refresh path's, otherwise it is that of the anonymous login when one is tried, and the old state when none is |
| Auth.ExpiredCacheIsRefreshed | src/__tests__/authTest.ts:84-139 | a cached token an hour and a minute old is replaced through one refresh grant; the provider returns the new token and UUID and stores the new refresh token |
| Auth.AuthModule.constructor | src/auth.ts:12-13 | no cached credential, retrieval time -1 |
| Auth.AuthModule.AuthorizeWithUserPass | src/auth.ts:16-43 | logs one password-grant request; the result and the new state are Authorize's |
| Auth.AuthModule.AuthorizeWithRefreshToken | src/auth.ts:45-75 | logs one refresh-grant request; the result and the new state are Authorize's |
| Auth.AuthModule.AuthDataProvider | src/auth.ts:90-140 | the returned credential, the new state and the storage calls and requests made are exactly ProviderRun's |
| Auth.AuthModule.SetAuthData | src/auth.ts:150-159 | the credential and retrieval time are replaced and its refresh token is stored |
| Auth.AuthModule.ClearAuthData | src/auth.ts:161-167 | the stored refresh token is cleared and the cache emptied; the retrieval time stays |
| Auth.SetThenProvide | src/__tests__/authTest.ts:49-82 | after setAuthData with a token set one minute earlier, the provider returns that token and UUID and sends no request |
| WsListener.BackoffMs | src/wsListener.ts:67 | computes `1000 * min(2^tries, 30)`; `WsListener.BackoffSchedule` gives its meaning: 2 s first, never shrinking, capped at 30 s |
| WsListener.Delays | src/wsListener.ts:56-68 | one delay per empty token, the i-th being the backoff for i tries |
| WsListener.AwaitAccessToken | src/wsListener.ts:47-72 | every reply before the last is an empty token; the loop stops at the first non-empty token (returned) or the first rejection (thrown), otherwise is still waiting when the replies run out; `tries` counts the empty tokens, the delays slept are the backoff schedule, and `userUUID` is the UUID of the last reply |
| WsListener.WaitOutcomeUnique | src/wsListener.ts:50-70 | the outcome of the wait is determined by the replies |
| WsListener.BackoffSchedule | src/wsListener.ts:67 | the first wait is 2 s; waits never shrink and never exceed 30 s; from the fifth empty token on every wait is 30 s |
| WsListener.DelaysBounded | src/wsListener.ts:66-68 | every delay slept is between 2 s and 30 s |
| WsListener.Pow2Monotone | src/wsListener.ts:67 | `2^j <= 2^k` for `j <= k` |
| WsListener.BrokerUrl | src/wsListener.ts:45 | the broker URL is missing exactly when the base URL does not parse (connectWebSockets rejects), and otherwise ends in "/websocket" |
| WsListener.BrokerUrlOfSchemeUrl | src/wsListener.ts:45 | `scheme://rest` with a lower-case scheme gives `wss://rest/websocket` |
| WsListener.BrokerUrlOfPaddedUrl | src/wsListener.ts:45 | a base URL with leading spaces gives the broker URL `undefined/websocket` |
| WsListener.Destination | src/wsListener.ts:99-136 | computes `/{channel}/{tenant}/{scope}`; `WsListener.DestinationsDistinct` proves that different channels never share one |
| WsListener.Header | src/wsListener.ts:115 | computes the `x-venue` header, set only on order changes and notifications and only when the venue is set; `WsListener.PlanShape` proves which subscriptions carry it |
| WsListener.SubscriptionPlan | src/wsListener.ts:99-136 | computes the subscriptions onConnect makes, in order; `WsListener.PlanChannels`, `WsListener.PlanSubscribes` and `WsListener.PlanShape` give its meaning |
| WsListener.WantedChannels | src/wsListener.ts:99-128 | the four guards of onConnect, written out as the list of channels they select, in source order |
| WsListener.DestinationsDistinct | src/wsListener.ts:99-136 | two different channels never share a destination, whatever the tenant and scopes |
| WsListener.PlanChannels | src/wsListener.ts:99-136 | onConnect subscribes to the kitchen-display channel iff its handler is set, to order changes and notifications iff theirs are, and to steering iff its handler and the venue are set, in that order, each at most once |
| WsListener.PlanSubscribes | src/wsListener.ts:99-136 | a channel is subscribed to exactly when it is wanted |
| WsListener.PlanShape | src/wsListener.ts:99-136 | channels come in strictly increasing order; each subscription goes to `/{channel}/{tenant}/{venue or UUID}` (venue for kitchen display and steering, UUID otherwise) and carries the `x-venue` header only on order changes and notifications and only when the venue is set |
| WsListener.PlanDestinations | src/wsListener.ts:99-136 | each subscription is made to `/{channel}/{tenant}/{venue or UUID}`, and no two subscriptions of one plan share a destination |
| WsListener.RankedIsPlanPrefix | src/wsListener.ts:99-136 | the recursive ordering check implies the quantified one |
| WsListener.SubscribeCalls | src/wsListener.ts:99-136 | one subscribe call on the current client per planned subscription, in order |
| WsListener.EventConnection.constructor | src/wsListener.ts:44-46 | no client, no connect headers, empty `userUUID` |
| WsListener.EventConnection.StartNewClient | src/wsListener.ts:193-194 | a new client is created and activated and becomes the current one |
| WsListener.EventConnection.BeforeConnect | src/wsListener.ts:83-89 | waits as AwaitAccessToken does, then sets the connect headers to the token obtained |
| WsListener.EventConnection.OnConnect | src/wsListener.ts:91-137 | without connect headers nothing happens; otherwise onConnectedAsync gets the token, and unless it rejects the current client gets exactly the subscribe calls of the subscription plan |
| WsListener.EventConnection.SubscribeIf | src/wsListener.ts:99-136 | one guarded subscribe call extends the log by that subscription when its guard holds |
| WsListener.EventConnection.OnStompError | src/wsListener.ts:144-163 | the current client is deactivated, and a new one is created, activated and made current |
| WsListener.EventConnection.Dispose | src/wsListener.ts:195-201 | the returned disposer deactivates whatever client is current when it runs; the no-op one does nothing |
| WsListener.ConnectWebSockets | src/wsListener.ts:40-203 | rejects exactly when the base URL does not parse; otherwise waits for a token; it then starts one client and returns the deactivating disposer, or returns the no-op disposer if the wait throws, or is still waiting |

## Left out

- HTTP requests, the STOMP protocol, timers, JSON parsing, logging and
  Application Insights tracing are not modelled. Their outcomes are
  inputs, and the calls made to them are logs.
- The mutex of `authDataProvider` is not modelled. The locked block runs as
  one step, so interleaving of concurrent callers is not modelled.
- Auth.IsTokenExpired: compares against exactly 950 ms per second of
  lifetime. The rounding of the floating-point product
  `expires_in * 1000 * 0.95` at the boundary millisecond is not modelled.
- Falsy strings are all the empty string, so the model loses two
  differences JavaScript makes. A template literal renders `undefined` as
  the text "undefined": an unset user UUID subscribes to
  `/order-changes/{tenant}/undefined` (`src/wsListener.ts:110`), whereas
  the model uses `/order-changes/{tenant}/`. And `includes` and `===`
  tell `undefined` from `''`: a bucket venue or correlation id that is
  `undefined` does not match a `''` one (`src/orderStore.ts:50-51`,
  `src/orderStore.ts:98`), whereas in the model they match.
- Tools.ProtocolOf: models the parser's stripping of spaces and control
  characters, its removal of tabs and newlines, and the scheme syntax, but
  nothing after the scheme. A URL that `new URL` rejects for other reasons
  counts as parsed here: for example bad host or port syntax, or a special
  scheme with an empty host such as `https:`. Non-ASCII case mapping is not
  modelled either.
- `createAuthDataProvider` (`src/auth.ts:142-148`) is not modelled. It only
  binds arguments.
- `getLoggedUserData`, `updateUserData` and the other REST wrappers in
  `src/auth.ts` are not modelled.
- `onDisconnect`, `onWebSocketClose`, `onWebSocketError` and
  `onUnhandledMessage` (`src/wsListener.ts:139-185`) only forward or log,
  and are not modelled.
- The handlers that the subscriptions call on each message are not
  modelled.
- The STOMP library's reconnect timer is not modelled. Neither is its
  calling `beforeConnect` before each connection; `BeforeConnect` is the
  callback on its own.
- Exceptions from `createNewClient` are not modelled.
- GetOrderStore has no contract. It returns the map by value, so aliasing
  is not modelled: the caller and the observer get the live object, and
  `toOrder` stores the event payload itself.
- The code does these things:
  - The token wait has no retry cap, and `onAuthFailure` is never called.
  - An error for an existing record never notifies the observer.
  - A failed login does not clear the stored refresh token.
  - Token expiry has no 10-second margin and decodes no JWT.
  - There is no negative cache of rejected refresh tokens.
  - There is no snapshot reconciliation.
  - `enableKDS` is never read by `src/wsListener.ts`.
  - The first backoff wait is 2 s, not 1 s.

  The model follows the code in each of these.
