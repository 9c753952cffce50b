# Tool rental: authentication, store handlers and the product page, in Dafny

This project models the decision logic of a small tool-rental web
application, from three of its files:

- **The backend's request handlers** (`backend/server.js`). `Server.Database` is
  an in-memory stand-in for the MySQL tables `users`, `tools` and `rental`.
  Each table is an ordered sequence of rows with an AUTO_INCREMENT counter.
  The class has one method per handler: signup, login, profile, order,
  add-tool, remove-tool and the rental summary. Each method returns the
  status code and JSON body the handler sends.
- **bcrypt and jsonwebtoken, as the handlers use them.**
  - `Password.Hash`/`Password.Matches` model `bcrypt.hash(pw, 10)` and `bcrypt.compare`.
  - `Jwt.Sign`/`Jwt.Verify` model `jwt.sign({ userId }, secret, { expiresIn: "1d" })` and `jwt.verify`.
  - Tokens are strings in the compact serialisation of section 7.1 of RFC 7515:
    header, payload and signature joined by `.`.
  - The `exp` claim (section 4.1.4 of RFC 7519) is `iat + 86400` seconds.
- **The client's session gate** (`frontend/src/App.jsx`). `App.Session` holds
  the stored token and the flags `isAuthenticated`, `isAdminAuthenticated` and
  `loading`. Its methods are the start-up `checkAuth`, login success, logout
  and the admin password prompt. `App.Route` is the route table as a pure
  function of the location and the flags.
- **The product page** (`frontend/src/pages/ProductDetails.jsx`). It covers the
  rental total, the quantity stepper (`ProductDetails.RentalForm`), the guarded
  "Rent Now" navigation and the related-products filter.

The following are parameters:

- the clock: seconds on the server, milliseconds in the client;
- bcrypt's random salt;
- the JWT secret;
- what `window.prompt` returns.

Navigation is modelled as the target path a method returns.

The modules are:

- `Wrappers`: `Option`.
- `Js`: JavaScript truthiness of optional strings and numbers.
- `Seqs`: first-match lookup and `Filter`.
- `Text`: split/join, a decimal codec, and a fingerprint that stands in for digests.
- `Password`, `Jwt`, `Server`, `App` and `ProductDetails`.

## Model

| member | source | states |
|---|---|---|
| `Server.Database.Signup` | backend/server.js:37-62 | A known email gives 400 "Email already exists." and leaves every table unchanged. A fresh email appends exactly one row (new id, name, email, bcrypt hash of the password) and gives 201. The unique-email invariant is kept. |
| `Server.OtherPasswordRefused` | backend/server.js:76-80 | Logging in to a registered account with any password other than the registered one gives the 400 "Invalid email or password.". |
| `Server.Database.Login` | backend/server.js:65-97 | An unknown email and a wrong password both give the identical 400 "Invalid email or password.". A match gives 200, a token that verifies at issue time to the stored `user_id`, and the public user (id, name, email, no hash) of a row whose email and password match. |
| `Server.Database.Profile` | backend/server.js:126-151 | A missing or empty header gives 401 "Access Denied. No Token Provided.". A token that fails verification gives 401 "Invalid Token". A verified id with no user gives 404 "User not found.". Otherwise 200 with that user's public fields. |
| `Server.Database.Order` | backend/server.js:98-123 | If any of name, price, quantity or duration is missing, "" or 0, the result is 400 "All fields are required." and nothing is inserted. Otherwise exactly one rental row is appended and the response is 201 with the new booking id. |
| `Server.Database.AddTool` | backend/server.js:178-198 | If name, price or quantity is missing, "" or 0, the result is 400 with the list of required fields and no insert. Otherwise one tool row is appended, with a falsy image or description stored as null, and the response is 201. |
| `Server.Database.RemoveTool` | backend/server.js:201-213 | The tools table becomes the old one without the rows of that `tool_id`. The response is always 200 "Tool removed successfully.". |
| `Server.RemoveToolRows` | backend/server.js:206-208 | After the delete, every remaining row was already in the table and has another id. Every row with another id is kept. When no row matches, the table is unchanged. |
| `Server.Database.RentalSummary` | backend/server.js:216-240 | The response is 200 with exactly one entry per tool, in tool order. Each entry holds the tool's name and quantity, the summed rental quantity for that name, and the quantity minus that sum. |
| `Server.Combine` | backend/server.js:225-233 | The `tools.map`/`find` has one entry per tool, in order. `availableQuantity` is `totalQuantity - rentedQuantity`, with no clamping. |
| `Server.GroupedRented` | backend/server.js:222-231 | Looking a name up in the `GROUP BY name` sums gives the total rental quantity for that name, or 0 when it has no rentals. |
| `Server.AddToGroupRented` | backend/server.js:222 | Folding one rental row into the grouped sums adds its quantity to its own name's total and to no other name's. |
| `Server.SummaryOfTables` | backend/server.js:219-233 | The rental summary, field by field, in terms of the `tools` and `rental` tables alone. |
| `Seqs.FindFirst` | backend/server.js:42-44 | A lookup by email, or by `user_id` at lines 135-139, returns the first matching row. It returns none exactly when no row matches. |
| `Server.RegisterThenAuthenticate` | backend/server.js:37-151 | With a fresh email, signup gives 201, login with the same password gives 200, and the profile request with the returned token gives 200 with the same new user. |
| `Password.Hash` | backend/server.js:49 | The hash records cost 10 and the salt, and `bcrypt.compare` accepts the password it was made from. |
| `Password.MatchesExactly` | backend/server.js:77-80 | `bcrypt.compare` against a hash accepts the password the hash was made from and rejects every other password. |
| `Jwt.VerifySign` | backend/server.js:83 | A token from `jwt.sign` verifies to its user id at every time before `iat + 86400` seconds, and fails from then on. |
| `Jwt.TruncatedTokenRejected` | backend/server.js:134 | A signed token with its last character removed never verifies. |
| `Jwt.TamperedPayloadRejected` | backend/server.js:134 | A signed token whose payload segment is replaced by any other dot-free segment, keeping the signature, does not verify. |
| `Jwt.DecodeEncode` | backend/server.js:83 | Decoding an encoded payload gives back its claims. |
| `Jwt.SignedSegments` | backend/server.js:83 | A signed token splits on `.` into exactly the header, the payload and the signature. |
| `Text.SplitJoin` | frontend/src/App.jsx:24 | `split(sep)` undoes `join(sep)` when no part contains the separator. |
| `Text.Split` | frontend/src/App.jsx:24 | `token.split(".")` gives at least one part, and no part contains the separator. |
| `Text.ParseDecimal` | frontend/src/App.jsx:24 | Reading back the decimal spelling of a number gives the number. |
| `Text.FingerprintInjective` | backend/server.js:77 | Different strings never share a fingerprint, so the digest stand-in has no collisions. |
| `App.Session.CheckAuth` | frontend/src/App.jsx:20-39 | With no token (or ""), the user is unauthenticated and storage is untouched. An undecodable payload leaves the user unauthenticated and removes the token. If `now >= exp*1000`, the user is unauthenticated and the token is removed. Otherwise the user is authenticated and the token is kept. `loading` ends false and the admin flag is untouched. |
| `App.DecodeSignedToken` | frontend/src/App.jsx:24 | The client decodes a token the server signed to its user id, `iat` and `exp = iat + 86400`. |
| `App.ClientAgreesWithServer` | frontend/src/App.jsx:25 | For a server-signed token, the client's expiry check at `nowMs` accepts it exactly when `jwt.verify` at `floor(nowMs/1000)` seconds does. |
| `App.ReloadWithFreshToken` | frontend/src/App.jsx:20-43 | On page load with a freshly stored, unexpired token, the user is authenticated and the token is kept. |
| `App.ReloadAfterLogout` | frontend/src/App.jsx:50-56 | After logout, the start-up check leaves the user signed out with no token. |
| `App.Session.constructor` | frontend/src/App.jsx:14-16 | The component starts unauthenticated, not admin, and loading. |
| `App.Session.StoreToken` | frontend/src/components/Login.jsx:22 | Storing a token makes it exactly the stored token and changes no flag. |
| `App.Session.HandleLoginSuccess` | frontend/src/App.jsx:45-48 | Login success sets `isAuthenticated` and navigates to /home. |
| `App.Session.HandleLogout` | frontend/src/App.jsx:50-56 | Logout removes the token, clears both flags and navigates to /login. |
| `App.Session.AdminPrompt` | frontend/src/App.jsx:137-146 | Only the exact input "admin" sets the admin flag, with no redirect. Any other input, or a cancelled prompt, leaves the flag as it was and redirects to /home. |
| `App.Route` | frontend/src/App.jsx:73-127 | While loading, only the loading screen shows. Unauthenticated users going to /home, /product/:id, /checkout/:id or /admin are sent to /login. Authenticated users going to /login or /signup are sent to /home. `/` goes to /home or /login. A page behind the gate renders only when authenticated. The admin page renders exactly when both flags hold. |
| `ProductDetails.TotalCost` | frontend/src/pages/ProductDetails.jsx:39-41 | The total is 0 unless both dates are set. A missing or 0 price gives 0. Otherwise it is the days charged × quantity × price. |
| `ProductDetails.RentalDays` | frontend/src/pages/ProductDetails.jsx:40 | The days charged are the least whole number of days covering `end - start`. |
| `ProductDetails.CeilDiv` | frontend/src/pages/ProductDetails.jsx:40 | `Math.ceil(a / b)` is the least `q` with `a <= q*b`. |
| `ProductDetails.WholeDaysCost` | frontend/src/pages/ProductDetails.jsx:40 | Renting for exactly k whole days costs k × quantity × price. |
| `ProductDetails.PartialDayCost` | frontend/src/pages/ProductDetails.jsx:40 | Any part of a day beyond k whole days is charged as a full day. |
| `ProductDetails.RentalForm.constructor` | frontend/src/pages/ProductDetails.jsx:12-14 | The form starts with quantity 1 and no dates. |
| `ProductDetails.RentalForm.Decrement` | frontend/src/pages/ProductDetails.jsx:95 | The "-" button lowers the quantity by one but never below 1; from 1 the quantity stays 1. |
| `ProductDetails.RentalForm.Increment` | frontend/src/pages/ProductDetails.jsx:100 | The "+" button raises the quantity by exactly 1. |
| `ProductDetails.RentalForm.PickStartDate` | frontend/src/pages/ProductDetails.jsx:70 | The start date picker sets the start date only. |
| `ProductDetails.RentalForm.PickEndDate` | frontend/src/pages/ProductDetails.jsx:80 | The end date picker sets the end date only. |
| `ProductDetails.RentalForm.RentNow` | frontend/src/pages/ProductDetails.jsx:43-49 | With a date missing, there is no navigation. Otherwise it navigates to `/checkout/{id}` carrying both dates, the quantity and the total. |
| `ProductDetails.RelatedProducts` | frontend/src/pages/ProductDetails.jsx:27 | No item whose `_id` equals the route id is kept, and every other item is. |
| `ProductDetails.RelatedKeepsOrder` | frontend/src/pages/ProductDetails.jsx:27 | The related list keeps the relative order of the fetched list. |
| `ProductDetails.RelatedKeepsCurrentProduct` | frontend/src/pages/ProductDetails.jsx:27 | For rows without `_id`, which is what the backend serves, the filter removes nothing. |
| `ProductDetails.CurrentProductListed` | frontend/src/pages/ProductDetails.jsx:27 | Viewing /product/3 lists tool 3 among its own related products. |
| `ProductDetails.RelatedByToolId` | frontend/src/pages/ProductDetails.jsx:27 | The corrected filter keeps exactly the items whose `tool_id` differs from the route id. |
| `ProductDetails.RelatedByToolIdExcludesCurrent` | frontend/src/pages/ProductDetails.jsx:27 | With the corrected filter, the product on screen is never listed and the relative order is kept. |
| `Js.StringOrNull` | backend/server.js:190 | The image or description falls back to null exactly when it is falsy, and is kept otherwise. |
| `Js.NumberOrZero` | frontend/src/pages/ProductDetails.jsx:40 | The price falls back to 0 exactly when it is falsy, and is kept otherwise. |
| `Seqs.Filter` | backend/server.js:206 | The kept elements are exactly the elements of the input that the predicate accepts. |
| `Seqs.FilterAppend` | frontend/src/pages/ProductDetails.jsx:27 | Filtering distributes over concatenation, so relative order is kept. |

## Left out

- The MySQL pool, the connection test and the express/cors setup (backend/server.js:1-34) are I/O plumbing. They are replaced by the in-memory `Database`.
- The 500 "Server Error" branches of every handler are not modelled, because the in-memory store never fails.
- The 500 also raised when `password` is undefined (bcrypt throws) is not modelled. Signup and login body fields are modelled as strings.
- GET /products and GET /products/:id (backend/server.js:153-175) are plain reads with no decision logic and are not part of this model.
- The second GET /profile route (backend/server.js:241-266) is never reached, because Express dispatches to the first route with that path. It is modelled once.
- The check-then-insert race between concurrent signups is not modelled. Requests run one at a time.
- Email lookup uses exact string equality. MySQL's default collation (utf8mb4_0900_ai_ci in MySQL 8) compares case- and accent-insensitively, so "A@x.com" would find the row of "a@x.com". That is not modelled.
- `Server.GroupedRented`: groups by exact name. The `GROUP BY name` of the rental summary uses the column's collation, so "Drill" and "drill" would form one group there; the `===` join in the handler is exact, as modelled.
- `Server.Database.RemoveTool`: takes the tool id as an integer. The route parameter is a string that MySQL converts to a number when comparing with `tool_id`, so "3abc" would delete tool 3; that conversion is not modelled.
- The internals of bcrypt, HMAC-SHA256, base64url and JSON are not modelled; stand-ins replace them:
  - Digests are an injective fingerprint: the string read as a numeral in base 0x110001. It is not one-way, and it has no collisions where the real digests have astronomically unlikely ones.
  - The payload segment is the decimal form "userId,iat[,exp]".
- `jwt.verify` checks only the HS256 header segment, the signature and `exp` in this model. Its other checks (`nbf`, other algorithms, header variants) are not modelled.
- `Password.MatchesExactly`: bcrypt reads only the first 72 bytes of a password, so two passwords that agree on those bytes match the same hash. The model compares the whole password.
- Request fields other than strings and integers are not modelled: booleans, numeric strings, and `parseFloat` prices. Prices are integers.
- The rental sums are modelled as integers. The MySQL driver returns `SUM(...)` as a decimal string.
- The order of the `GROUP BY` rows is unspecified in SQL. The model uses order of first appearance.
- URL matching by the router is not modelled: `App.Route` takes the matched pattern. This covers case-insensitivity, trailing slashes and unmatched paths beyond `OtherPath`.
- These browser effects are not modelled:
  - the header and footer shown when authenticated;
  - `location.reload`;
  - `alert`;
  - the full-page redirect of `window.location.href`.
- Dates are integer milliseconds. The date pickers' `minDate` limits are not modelled, so the end may precede the start. That gives a zero or negative total, as the expression does.
- The backend ignores the related-products request's `category` query. The fetched list is taken as given.
- Checkout.jsx, AdminPage.jsx, Header.jsx, useUserData.jsx, Signup.jsx, Footer.jsx, Hero.jsx, Products.jsx and ProductCard.jsx are rendering and network code and are not part of this model. Login.jsx contributes only its `setItem`.

## Findings

| source | as written | input that shows it | evidently intended | confidence | as-written member | corrected member |
|---|---|---|---|---|---|---|
| frontend/src/pages/ProductDetails.jsx:27 | The related-products filter compares `item._id` with the route id. The rows from `/products` carry `tool_id` and no `_id`, as frontend/src/components/Products.jsx:53-54 reads them. So `undefined !== id` always holds and nothing is removed. | Viewing `/product/3` with tool 3 among the fetched rows: tool 3 is listed as related to itself. | Drop the product whose `tool_id` is the route id. | medium, not executed (the table schema is not in the repository) | `ProductDetails.CurrentProductListed` | `ProductDetails.RelatedByToolIdExcludesCurrent` |
