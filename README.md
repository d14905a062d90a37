# Session gate, API proxies and dashboard logic of a URL shortener

The application is a Next.js front end for a URL-shortening service. This project models its
core in Dafny and proves properties of that model:

- the **session gate** (`src/middleware.js`). It reads the `token` cookie and verifies it
  against the `JWT_TOKEN` secret. Then it either redirects the request (to `/` or to
  `/dashboard`) or lets it through with the caller's `x-user-id` and `x-user-username` headers
  attached. The gate runs only on the paths of its `config.matcher`.
- the two **API proxy routes**. `POST /api/create-url` checks its guards in order: the body,
  the cookie, the secret, the token and its `userID` claim. It then forwards the client's
  body with `user_id` overridden by the claim. `GET /api/get-urls` checks the same guards
  without the body and asks the backend for `/get-all-urls/<userID>`. Each route is a function
  from its inputs to an `Exchange`: the request it sent to the backend, if any, and the
  response it gave.
- the **dashboard's pure computations** (`src/app/dashboard/page.jsx`):
  - the total click count;
  - the unique-visitor count, as a loop over a set;
  - the browser, device, OS and referrer histograms;
  - the expand/collapse toggle.
- the **Create URL dialog** (`src/components/create-url-dialog.js`). It is a class whose
  fields are the component's state variables. Its methods are the event handlers:
  - editing the form;
  - generating a random code;
  - the submit flow, in two halves around the request;
  - resetting the form;
  - opening and closing the dialog.

`Dialog.Serialized` writes out how `JSON.stringify` drops `undefined` fields. The other
JavaScript semantics these depend on are written out in `JsValues`:
- truthiness;
- optional and plain property access, including the throw on reading a property of
  `null`/`undefined`;
- string conversion of values in template literals;
- object spread of objects and arrays;
- the Fetch Standard's `Headers.set`, which strips leading and trailing HTTP whitespace and
  throws on a value containing NUL, LF or CR, or any character above U+00FF.

### Inputs treated as parameters
These effects are modelled as parameters:
- `jwtVerify` is a function from token and secret to `Verified(payload)` or `Failed`.
- The axios backend call is a function from the request to the backend's reply or a network
  fault. axios's default `validateStatus` is applied to that reply: only 2xx statuses resolve.
- `fetch` in the dialog is the reply it produced.
- `new URL(...)` succeeding is a predicate on strings.
- `Math.random` is a nondeterministic choice of index.
- The cookie, the secret and `request.json()` are option-valued inputs.

### Behaviour worth noting
Lemmas state each of these facts about the code:
- **Both routes answer an invalid token with 500, not 401.** `jwtVerify` throws and the
  catch-all answers (`CreateUrlRoute.FailedVerificationIsServerError`,
  `GetUrlsRoute.FailedVerification`).
- **The gate does not require a user identifier.** It checks only that the verified payload
  is truthy. A payload without `userID` passes with `x-user-id: undefined`
  (`SessionGate.PayloadWithoutUserIdPasses`).
- **A `token` cookie with an empty value reaches `/dashboard` without verification.** On
  protected paths only the cookie's existence is checked (`SessionGate.EmptyCookieSkipsVerification`).
- **Which backend-failure message `GET /api/get-urls` gives depends on axios.** Under axios
  defaults a non-2xx backend status rejects, so a backend 404 gives "Authentication or
  Fetching failed". "Failed to fetch URLs" appears only for a 2xx status other than 200
  (`GetUrlsRoute.BackendFailureMessages`).
- **The claim read everywhere is `userID`** (capital D).
- **A stale or invalid cookie locks the user out of the landing page.** A non-empty cookie
  that fails verification, or any non-empty cookie while `JWT_TOKEN` is unset, redirects a
  request for `/` to `/`. The gate runs on `/` again, so the redirect repeats until the
  cookie is cleared, and the login page is never shown
  (`SessionGate.StaleCookieRedirectsLandingToItself`).
- **A body that is not JSON gets a 500, not the 400 "Invalid JSON payload".** `request.json()`
  throws inside the handler's `try`. The 400 applies only to a body that parses to a falsy
  value (`CreateUrlRoute.MalformedBodyIsServerError`).

## Model

| member | source | states |
|---|---|---|
| SessionGate.Middleware | src/middleware.js:5-62 | The only redirect targets are `/` and `/dashboard`, and `/dashboard` only from `/`. The dashboard redirect, or a pass-through carrying identity headers, happens exactly when a non-empty cookie, a configured secret, a successful verification, a truthy payload and settable header values all hold. The headers then are the payload's `userID` and `username`. A non-empty cookie never passes without identity headers: every failure redirects. With no cookie, every `/dashboard…` path is redirected to `/`. |
| SessionGate.IdentityHeaders | src/middleware.js:30-32 | Both headers are set exactly when both claim values are valid header values. The response then carries exactly `x-user-id` and `x-user-username`, each holding the normalised string of its claim. |
| SessionGate.VerifiedDecision | src/middleware.js:22-46 | After a verification, the request passes exactly when the payload is verified and truthy, both claims can be set as headers, and the path is not `/`. It then carries those headers. Every other outcome redirects to `/`, or to `/dashboard` only from `/`. |
| SessionGate.FalsyPayloadRedirectsHome | src/middleware.js:27-42 | A verified but falsy payload redirects to `/` on every path. |
| SessionGate.UnsettableHeadersRedirectHome | src/middleware.js:30-46 | A truthy payload with a claim that `headers.set` refuses redirects to `/` on every path. |
| SessionGate.Gate | src/middleware.js:64-66 | Unmatched paths pass through untouched; matched paths get the middleware's decision. Every matched path other than `/` is redirected to `/` without a cookie. |
| SessionGate.StaleCookieRedirectsLandingToItself | src/middleware.js:14-66 | A non-empty cookie that fails verification, or any non-empty cookie while `JWT_TOKEN` is unset, makes the gate redirect `/` to `/` itself. |
| SessionGate.MatchedPathsAreLandingOrProtected | src/middleware.js:64-66 | Every path the matcher admits is `/` or starts with `/dashboard`. |
| SessionGate.NoSecretRedirectsHome | src/middleware.js:14-20 | A non-empty token with `JWT_TOKEN` unset or empty redirects to `/` on every path, whatever the verifier would say. |
| SessionGate.FailedVerificationRedirectsHome | src/middleware.js:22-46 | A token whose verification throws redirects to `/` on every path. |
| SessionGate.VerifiedLandingGoesToDashboard | src/middleware.js:27-36 | A verified, truthy, header-safe payload on `/` redirects to `/dashboard`. |
| SessionGate.VerifiedPassesWithIdentity | src/middleware.js:27-38 | A verified payload on any other path passes with exactly the two identity headers holding its claims. |
| SessionGate.PayloadWithoutUserIdPasses | src/middleware.js:27-32 | A payload with a username but no `userID` still reaches `/dashboard`, with `x-user-id` set to "undefined". |
| SessionGate.UnsettableClaimRedirectsHome | src/middleware.js:31-45 | A username with a line break between other characters, such as `a\nb`, makes `headers.set` throw, and the request is redirected to `/`. A line break at either end is stripped, not refused. |
| SessionGate.NoCookieProtectedRedirects | src/middleware.js:49-52 | Without a cookie, every path beginning with `/dashboard` redirects to `/`. |
| SessionGate.EmptyCookieSkipsVerification | src/middleware.js:14-54 | An empty cookie value never reaches the verifier, and every path passes through without headers. |
| SessionGate.NoCookieUnprotectedPasses | src/middleware.js:56-61 | Without a cookie, `/` and every other unprotected path pass through without headers. |
| SessionGate.MatcherNarrowsProtectedPrefix | src/middleware.js:49-66 | `/dashboard-old` counts as protected for the middleware, but the matcher excludes it, so it is served with no session. |
| JsValues.HeaderValue | src/middleware.js:31-32 | A value stored by `headers.set` contains no NUL, LF or CR and no character above U+00FF. It has no leading or trailing HTTP whitespace and is no longer than the value's string form. |
| JsValues.HeaderValueStored | src/middleware.js:31-32 | A stored header value is exactly the normalised string form of the claim. |
| JsValues.HeaderValueAccepted | src/middleware.js:31-32 | A claim whose string form is Latin-1 with no NUL, LF or CR is always accepted. |
| JsValues.HeaderValueRejected | src/middleware.js:31-32 | A NUL or a character above U+00FF anywhere in the string form always makes `headers.set` throw. |
| JsValues.IntegerHeaderValue | src/middleware.js:31 | A numeric `userID` (a safe integer, at most 2^53 in magnitude) is stored as its decimal string, with a leading minus sign when negative. |
| JsValues.PlainHeaderValue | src/middleware.js:31-32 | A Latin-1 string with no NUL, LF or CR, and no space or tab at either end, is set unchanged. |
| JsValues.EdgeLineBreakStripped | src/middleware.js:31-32 | A trailing line feed is stripped before the value is checked: `"ann\n"` is stored as `"ann"`. |
| JsValues.InteriorLineBreakRejected | src/middleware.js:31-32 | A string with a line feed between non-empty, non-whitespace parts cannot be set. |
| JsValues.SpreadFields | src/app/api/create-url/route.js:42 | Spreading an object copies exactly its fields. Spreading `null`, `undefined`, a boolean or a number copies nothing. |
| JsValues.IndexMapAt | src/app/api/create-url/route.js:41-44 | Spreading an array body into the forwarded object puts its element `i` under the key `"i"`. |
| JsValues.IndexMapKeys | src/app/api/create-url/route.js:41-44 | Spreading an array body adds no key other than the decimal indices of the array. |
| CreateUrlRoute.Post | src/app/api/create-url/route.js:6-66 | A request reaches the backend exactly when the body is truthy, a cookie exists, the secret is set, the token verifies and its `userID` is truthy. That request is `/create-short-url/` with the client's body and `user_id` set to the claim. The response is 200 exactly when the backend answered 200, and then it is the backend's data. Any other response is one of the route's five fixed error bodies. |
| CreateUrlRoute.Forward | src/app/api/create-url/route.js:34-58 | After verification, a request is sent exactly when the payload is identified, and it carries the client's body with the claim's `user_id`. The response is 200 exactly on a backend 200, relaying its data. Otherwise it is one of the fixed failures. |
| CreateUrlRoute.BackendBody | src/app/api/create-url/route.js:41-44 | The forwarded body is an object holding the spread client fields plus `user_id`, which is always the token's claim. |
| CreateUrlRoute.MalformedBodyIsServerError | src/app/api/create-url/route.js:6-65 | A body that fails to parse gives the catch-all 500, not the 400. |
| CreateUrlRoute.FalsyBodyRejectedFirst | src/app/api/create-url/route.js:8-12 | A falsy body is rejected with 400 "Invalid JSON payload" before any other check. |
| CreateUrlRoute.MissingCookieBeforeSecret | src/app/api/create-url/route.js:14-19 | A missing cookie is a 401, whatever the secret. |
| CreateUrlRoute.MissingSecret | src/app/api/create-url/route.js:21-27 | With the secret unset or empty, the answer is the 500 "JWT Secret missing", whatever the token. |
| CreateUrlRoute.PayloadWithoutUserId | src/app/api/create-url/route.js:34-39 | A verified payload without a truthy `userID` is a 401 and nothing is sent. |
| CreateUrlRoute.FailedVerificationIsServerError | src/app/api/create-url/route.js:29-65 | A token that fails verification gives the catch-all 500, not a 401. |
| CreateUrlRoute.ClientUserIdOverridden | src/app/api/create-url/route.js:41-44 | A client-supplied `user_id` is replaced by the claim, and every other field is kept. |
| CreateUrlRoute.BackendFailureIsServerError | src/app/api/create-url/route.js:41-65 | A network fault, an error status or a non-200 2xx status all give 500 "Failed to create shortened URL". |
| GetUrlsRoute.GetUrls | src/app/api/get-urls/route.js:6-56 | A request reaches the backend exactly when a cookie exists, the secret is set, the token verifies and its `userID` is truthy. That request is for `/get-all-urls/<userID>`. The response is 200 exactly when the backend answered 200, and then it is its data. Any other response is one of the route's five fixed error bodies. |
| GetUrlsRoute.Forward | src/app/api/get-urls/route.js:28-48 | After verification, a request for `/get-all-urls/<userID>` is sent exactly when the payload is identified. The response is 200 exactly on a backend 200, relaying its data. Otherwise it is one of the fixed failures. |
| GetUrlsRoute.ListPath | src/app/api/get-urls/route.js:35 | The backend path is `/get-all-urls/` followed by the claim's string form. |
| GetUrlsRoute.MissingCookie | src/app/api/get-urls/route.js:11-13 | No cookie gives 401 "No session found". |
| GetUrlsRoute.MissingSecret | src/app/api/get-urls/route.js:15-21 | With a cookie but no secret, the answer is the 500 "JWT Secret missing". |
| GetUrlsRoute.PayloadWithoutUserId | src/app/api/get-urls/route.js:28-33 | A verified payload without a truthy `userID` is a 401. |
| GetUrlsRoute.FailedVerification | src/app/api/get-urls/route.js:23-55 | A failed verification gives the 500 "Authentication or Fetching failed". |
| GetUrlsRoute.BackendFailureMessages | src/app/api/get-urls/route.js:35-55 | A backend 404 and a network fault give "Authentication or Fetching failed". A 204 gives "Failed to fetch URLs". The two messages differ. |
| GetUrlsRoute.StringUserIdPath | src/app/api/get-urls/route.js:35 | A string user id appears verbatim after `/get-all-urls/`. |
| Dashboard.Clicks | src/app/dashboard/page.jsx:86 | A link without `Analitics` or `Click` counts 0. A non-zero count is the link's own `Click`. |
| Dashboard.TotalClicks | src/app/dashboard/page.jsx:84-89 | With no negative counts, the total is non-negative and at least any one link's clicks. With no counts at all it is 0. |
| Dashboard.TotalClicksAppend | src/app/dashboard/page.jsx:84-89 | The total click count of two lists of links is the sum of their totals. |
| Dashboard.TotalClicksIsSum | src/app/dashboard/page.jsx:84-89 | An empty list totals 0, and a non-empty one totals the first link's clicks plus the rest's total. |
| Dashboard.UncountedRecordAddsNothing | src/app/dashboard/page.jsx:86 | A link with no analytics, or with no `Click`, adds nothing to the total. |
| Dashboard.UniqueVisitors | src/app/dashboard/page.jsx:91-99 | The nested loops return the size of the set of all IPs that visited any link. |
| Dashboard.VisitedIpsMembership | src/app/dashboard/page.jsx:91-98 | An IP is counted exactly when it appears in some link's `IPsWhoVisited`. |
| Dashboard.UniqueVisitorsBound | src/app/dashboard/page.jsx:91-98 | The unique-visitor count never exceeds the total number of IP entries. |
| Dashboard.RepeatVisitorsAddNothing | src/app/dashboard/page.jsx:93-96 | A link visited only by already-counted IPs leaves the count unchanged. |
| Dashboard.Tally | src/app/dashboard/page.jsx:347-352 | The browser, device and OS `reduce` builds a map whose keys are exactly the values seen, each mapped to its number of occurrences. |
| Dashboard.HistogramSumsToLength | src/app/dashboard/page.jsx:347-352 | The counts of a histogram add up to the number of values tallied. |
| Dashboard.RecordPanels | src/app/dashboard/page.jsx:347-510 | Each of a link's browser, device, OS and referrer panels has a histogram exactly when the link has that list, and the histogram counts the list's values (missing or empty referrers under "Direct"). |
| Dashboard.ReferrerKey | src/app/dashboard/page.jsx:496-497 | A missing or empty referrer is filed under "Direct". Any other referrer is filed under itself, and no key is empty. |
| Dashboard.TallyReferrers | src/app/dashboard/page.jsx:494-500 | The referrer histogram counts each key's occurrences. It never has an empty key, and it has "Direct" exactly when some referrer maps to it. |
| Dashboard.DirectBucketCount | src/app/dashboard/page.jsx:496-497 | The "Direct" bucket counts the missing and empty referrers plus the referrers literally named "Direct". |
| Dashboard.Toggle | src/app/dashboard/page.jsx:101-106 | Toggling flips the given link's open state, defined afterwards. Every other link's entry is unchanged. |
| Dashboard.ToggleTwice | src/app/dashboard/page.jsx:101-106 | Toggling the same link twice restores what every link shows. |
| Dashboard.ToggleTwiceLeavesEntry | src/app/dashboard/page.jsx:101-106 | Toggling twice from an empty map does not restore the map itself: it leaves an explicit `false` entry. |
| Dialog.Validate | src/components/create-url-dialog.js:56-69 | The form passes exactly when the URL is non-empty, parses, and a custom code is given whenever custom codes are on. Otherwise the result is one of the three messages. |
| Dialog.EmptyUrlFirst | src/components/create-url-dialog.js:56-59 | An empty URL is reported first, and the URL check is never consulted. |
| Dialog.InvalidUrlSecond | src/components/create-url-dialog.js:61-64 | A URL that does not parse is reported before a missing custom code. |
| Dialog.EmptyCustomCodeThird | src/components/create-url-dialog.js:66-69 | With a valid URL, custom codes switched on and an empty code, the custom-code message appears. |
| Dialog.RequestBody | src/components/create-url-dialog.js:79-82 | The body object holds `url` and `customCode`. `customCode` is `undefined` exactly when custom codes are off, and holds the code otherwise. |
| Dialog.Serialized | src/components/create-url-dialog.js:79-82 | The serialised body keeps exactly the fields whose value is not `undefined`, with their values. |
| Dialog.RequestCarriesCodeOnlyWhenChosen | src/components/create-url-dialog.js:79-82 | The request carries `url`, and `customCode` exactly when custom codes are switched on. |
| Dialog.HandleReply | src/components/create-url-dialog.js:85-101 | A short URL is produced exactly when the success toast is shown. It comes only from a 2xx reply and always starts with `https://url.dipdev.xyz/r/`. A failed fetch shows the generic error. |
| Dialog.ShortUrlFromReply | src/components/create-url-dialog.js:87-95 | A 2xx reply with `data.short` yields exactly the base URL followed by that code. |
| Dialog.ErrorMessageFromReply | src/components/create-url-dialog.js:96-98 | A refused request shows the body's `error`, or "Failed to create shortened URL" when there is none. |
| Dialog.RandomCode | src/components/create-url-dialog.js:44-49 | The generated code has six characters, each drawn from the alphabet. |
| Dialog.AlphabetIsAlphanumeric | src/components/create-url-dialog.js:45 | The alphabet has 62 characters and contains exactly the ASCII letters and digits. |
| Dialog.CreateUrlDialog.constructor | src/components/create-url-dialog.js:27-33 | The dialog starts closed, with an empty form, nothing submitting and the create tab showing. |
| Dialog.CreateUrlDialog.EditUrl | src/components/create-url-dialog.js:159 | Only the URL changes. |
| Dialog.CreateUrlDialog.EditCustomCode | src/components/create-url-dialog.js:175 | Only the custom code changes. |
| Dialog.CreateUrlDialog.SetUseCustomCode | src/components/create-url-dialog.js:164 | Only the custom-code switch changes. |
| Dialog.CreateUrlDialog.GenerateRandomCode | src/components/create-url-dialog.js:44-51 | The custom code becomes a six-character alphanumeric code, and nothing else changes. |
| Dialog.CreateUrlDialog.BeginSubmit | src/components/create-url-dialog.js:53-83 | A failed check shows its message, sends nothing and changes no state. Otherwise the form's body is sent and `isSubmitting` becomes true. |
| Dialog.CreateUrlDialog.FinishSubmit | src/components/create-url-dialog.js:85-104 | The toast is the reply's. On success the short URL is stored and the success tab shown. `isSubmitting` is always cleared, and nothing else changes. |
| Dialog.CreateUrlDialog.HandleSubmit | src/components/create-url-dialog.js:53-105 | The whole submit leaves the form inputs and `open` unchanged. It sends the body only when validation passes. After a send, `isSubmitting` is cleared and, on success, the short URL is stored and the success tab shown; nothing else changes. The success tab appears exactly when it was already showing or a sent request produced a short URL. |
| Dialog.CreateUrlDialog.ResetForm | src/components/create-url-dialog.js:112-118 | Every form field returns to its initial value. `open` and `isSubmitting` are kept. |
| Dialog.CreateUrlDialog.Close | src/components/create-url-dialog.js:188-223 | The Cancel and Done buttons close the dialog and keep the form as it was. |
| Dialog.CreateUrlDialog.HandleDialogChange | src/components/create-url-dialog.js:120-125 | Opening changes only `open`. Closing returns every field to its initial value except `isSubmitting`. |

## Left out

- The verification of the JWT signature itself (`jose`): it is a parameter, together with the payload it yields.
- The internals of the framework:
  - `cookies()`, `NextResponse` and `request.json()` are inputs or outputs;
  - the Next.js path matcher is reduced to its three path forms; trailing-slash normalisation, locales and data routes are not modelled.
- Console logging, `Content-Type` headers, the redirect URL's origin: no effect on decisions.
- Network I/O: the backend and `fetch` are parameters.
- The dashboard:
  - `fetchData`, the logout and delete handlers, clipboard copying and date formatting;
  - the JSX rendering, including the `Click > 0` condition (line 334) that decides whether the analytics panels are shown at all.
- `window.fetchDashboardData`: a side effect with no result.
- The key order of `Object.entries` over a histogram is not modelled, and neither are prototype-named keys such as `__proto__` or `constructor` behaving differently in a plain object.
- Dashboard.TotalClicks: `Click` is modelled as an integer. String-concatenation for non-numeric clicks, fractional values and `NaN` are not modelled.
- JsValues.JsString: `Num` stands only for safe integers, at most 2^53 in magnitude, which `String(n)` writes as their exact decimal digits. Fractions, exponent forms and larger integers are not modelled. JavaScript prints a larger integer with its shortest round-trip digits (`String(2**60)` is `"1152921504606847000"`), so for such values the model's string, and with it `x-user-id`, the backend list path and the dialog's short URL, would differ.
- JsValues.SpreadFields: spreading a string makes one key per Unicode scalar value. JavaScript makes one key per UTF-16 code unit, so a character outside the Basic Multilingual Plane gives one key in the model but two in JavaScript, each holding a lone surrogate.
- Dashboard.Tally: one method stands for the three identical browser, device and OS reducers (also at lines 394-399 and 446-451 of the page).
- Dialog.RandomCode: states only the range of each character, not that `Math.random` makes every code equally likely.
- Dialog.AlphabetIsAlphanumeric: the alphabet is written as the three ranges `A`–`Z`, `a`–`z`, `0`–`9`, in the order of the source's literal string.
- Dialog.CreateUrlDialog.HandleSubmit: React's batched, asynchronous state updates are reduced to two sequential steps around the request. A second submit while one is pending is not modelled, since the button is disabled then.
- Dialog.CreateUrlDialog.BeginSubmit: `new URL(...)` is a parameter predicate, not a URL parser.
- Dialog.CreateUrlDialog.SetUseCustomCode: takes any boolean. In the page the switch is inside a hidden element and is pinned to `checked={false}` (create-url-dialog.js lines 163-164), so users cannot reach it and a click could only pass `true`. Custom codes are therefore effectively off.
- `src/app/api/create-url/route.js` line 14 calls `cookies()` without `await`, unlike the other route and the middleware. The model treats both routes alike, which holds under Next.js 15's synchronous compatibility access to `cookies()`.
- `src/app/page.js`, `src/lib/action/auth/auth.js` and `src/lib/axiosInstance.js` are not part of this model. The latter's base URL is taken as a configured backend.
