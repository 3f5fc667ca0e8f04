# Gym portal back end — a Dafny model

This project models the decision rules and state changes of a gym
back end:

- members (clients) sign up, pay for a membership through the Paystack
  gateway, and buy items from the gym store;
- admins manage the store catalogue and client memberships;
- Paystack calls back through signed webhooks.

The database becomes a `Database` object with one map per table: clients,
admins, store items and purchases, each keyed by id. `Database.Valid()`
states the table invariants the services keep:

- every row is stored under its own id;
- client e-mails are unique, and so are admin e-mails;
- every purchase line names an existing store item, has quantity at least 1,
  and has `totalPrice = unitPrice × quantity`;
- a purchase's total is the sum of its lines;
- a purchase is `paymentVerified` exactly when it is COMPLETED.

Every state-changing service method (`modifies db`) keeps `Valid()` and
states its complete new state, including which tables are unchanged.

Foreign parts of the system are values or parameters:

- The gateway is a `Gateway` value. It carries the secret key, the
  HMAC-SHA512 hex digest (RFC 2104 over the SHA-512 of FIPS 180-4) and the
  two HTTP calls. These are functions about which nothing is assumed, and a
  failed HTTP call is `None`.
- bcrypt and the JWT signer are the functions of a `Crypto` value.
- File uploads are an `Upload` outcome: no file, a URL, or a failure.
- The clock reading `now` (ms since the epoch), the random part of a
  payment reference, fresh row ids, the QR-code upload result and JSON
  parsing are parameters.

Exceptions are the `Error` kinds of a `Result`. `Internal` stands for a
plain `Error` or a database error, which reaches the caller as HTTP 500.

Modules follow the source files:

- `Common`, `Records`: shared vocabulary, entities, the `Database` class;
- `Paystack`: `paystack.service.ts`;
- `AuthService`, `JwtStrategy`, `ClientGuard`: the `auth` directory;
- `StoreService`, `StoreController`: the `store` directory;
- `MembershipService`, `MembershipController`: the `membership` directory;
- `ClientService`: `client.service.ts`.

Where the code and its comments, tests or documentation disagree, the model
follows the code:

- `daysRemaining` is not floored at 0. A past due date gives a negative
  count.
- `updateClientMembershipAsInactive` writes ACTIVE, not INACTIVE.
- `verifyMembershipPayment` has no already-verified guard. Repeating it
  restarts the 30 days from the new time.
- The membership webhook endpoint dispatches on the top-level
  `metadata.payment_type`, but both handlers read `data.metadata`. The
  store path through that endpoint verifies a purchase only for an event
  tagged 'subscription' at the top level and 'store_purchase' under `data`.
  It is therefore not "never"; it is never when the two metadata agree.
- `findAll` returns `{data, pagination}`, not a bare array.
- The client list route passes `search` and `status` on to `findAll`, but
  `findAll` ignores them, so `ClientService.FindAll` takes only the page and
  the limit.
- The `createStoreItem` route declares no file interceptor, so no uploaded
  file reaches it and the image on that route is always absent (`NoFile`).
  The `Upload` parameter of `StoreService.CreateStoreItem` still covers the
  service's own handling of a file.
- `updateStoreItem` and `createStoreItem` write `imageUrl`.
- `signup` can also take `profileImage` from the form fields through the
  DTO spread. An uploaded URL overrides it only when it is truthy.

## Model

| member | source | states |
|---|---|---|
| Common.UploadUrl | src/file-upload/file-upload.service.ts:34-47 | no file gives no URL, an upload gives its URL, a storage failure raises "Failed to upload file to storage" |
| Common.DecimalRoundTrip | src/paystack/paystack.service.ts:119-123 | the decimal rendering of the timestamp inside a reference reads back to the same number |
| Records.ViewForgetsOnlyPassword | src/client/client.service.ts:80-86 | stripping the password forgets the password and nothing else: two rows have the same view iff they differ at most in the password |
| Records.ClientByEmail | src/auth/auth.service.ts:35-37 | the unique-email lookup finds a row iff the e-mail is registered, and that row is stored under its id |
| Records.AdminByEmail | src/auth/auth.service.ts:54-56 | the same lookup over the admin table |
| Paystack.NewPaystackService | src/paystack/paystack.service.ts:54-59 | the service exists iff the secret key is set and non-empty, otherwise the required-key error |
| Paystack.InitializeTransaction | src/paystack/paystack.service.ts:61-90 | any failure of the initialize call becomes BadRequest "Failed to initialize payment"; otherwise the gateway's reply |
| Paystack.VerifyTransaction | src/paystack/paystack.service.ts:92-108 | any failure of the verify call becomes BadRequest "Failed to verify payment"; otherwise the gateway's reply |
| Paystack.VerifyWebhookSignature | src/paystack/paystack.service.ts:110-117 | true iff the signature header equals the hex HMAC-SHA512 of the payload under the secret key |
| Paystack.SignatureIsUnique | src/paystack/paystack.service.ts:110-117 | for a payload at most one signature is accepted, and a missing header never is |
| Paystack.ReferenceRoundTrip | src/paystack/paystack.service.ts:119-123 | `prefix_timestamp_random` is unambiguous: prefix, timestamp and random token are recovered from the reference whatever the prefix contains |
| Paystack.Round | src/paystack/paystack.service.ts:126 | `Math.round` gives the nearest integer, halves rounded up |
| Paystack.ConvertToKobo | src/paystack/paystack.service.ts:125-127 | the kobo amount is within half a kobo of 100 × the naira amount |
| Paystack.ConvertFromKobo | src/paystack/paystack.service.ts:129-131 | the naira amount times 100 is exactly the kobo amount |
| Paystack.KoboOfWholeNaira | src/paystack/paystack.service.ts:125-127 | whole naira convert to exactly 100 × naira kobo |
| Paystack.KoboRoundTrip | src/paystack/paystack.service.ts:125-131 | every kobo amount survives conversion to naira and back |
| Paystack.NairaRoundTrip | src/paystack/paystack.service.ts:125-131 | whole naira survive conversion to kobo and back |
| Paystack.WebhookActionFor | src/store/store.service.ts:313-327 | a handler verifies iff the event is 'charge.success' with `data.metadata.payment_type` equal to its tag, fails iff a 'charge.success' event has no `data`, and otherwise ignores the event |
| AuthService.ValidateClient | src/auth/auth.service.ts:34-51 | succeeds iff a client with that e-mail has a hash matching the password; the result is that row without password, tagged 'client'; every failure is Unauthorized "Invalid credentials" |
| AuthService.ValidateAdmin | src/auth/auth.service.ts:53-70 | the same rule over admins, tagged 'admin' |
| AuthService.CredentialFailuresIndistinguishable | src/auth/auth.service.ts:39-46 | an unknown e-mail and a wrong password give the identical error |
| AuthService.LoginClient | src/auth/auth.service.ts:72-85 | fails iff validation fails, with its error; otherwise the token is signed over {sub: id, email, type: 'client'} and returned with the validated record |
| AuthService.LoginAdmin | src/auth/auth.service.ts:87-100 | the same for admins with type 'admin' |
| JwtStrategy.Validate | src/auth/strategies/jwt.strategy.ts:22-46 | a 'client' token yields the client row tagged 'client' or Unauthorized "Client not found"; 'admin' likewise; any other type Unauthorized "Invalid user type" |
| JwtStrategy.UserTypeMatchesTable | src/auth/strategies/jwt.strategy.ts:32-42 | an attached user's `userType` is the token's type and names the table the row came from |
| ClientGuard.CanActivate | src/auth/guards/client.guard.ts:5-14 | admits iff a user is present with userType 'client'; otherwise Forbidden "Client access required"; never returns false |
| ClientGuard.ClientRoutesAdmitOnlyClients | src/auth/guards/client.guard.ts:9-13 | behind the token strategy, a client-only route is reached iff the token is a 'client' token of an existing client; a valid admin token is Forbidden |
| StoreService.FindAllStoreItems | src/store/store.service.ts:31-40 | all items when inactive ones are included, otherwise exactly the active ones, rows unchanged |
| StoreService.FindOneStoreItem | src/store/store.service.ts:42-52 | the item, or NotFound "Store item not found" |
| StoreService.UpdateStoreItem | src/store/store.service.ts:54-66 | NotFound for an unknown id, the upload error before any write, otherwise the DTO's fields over the row; the image URL is set iff an image was uploaded, so it is cleared when none is sent; other tables unchanged |
| StoreService.CreateStoreItem | src/store/store.service.ts:20-29 | the new row carries the DTO's fields, `isActive` defaulting to true, and an image URL iff a file was uploaded; an upload failure creates nothing |
| StoreService.LineAcceptedIff | src/store/store.service.ts:107-117 | a requested line passes iff its item exists, is active, and has at least the requested quantity |
| StoreService.FirstLineRejection | src/store/store.service.ts:102-117 | the lines are accepted iff every line passes |
| StoreService.FirstRejectionAt | src/store/store.service.ts:102-117 | the error reported is that of the first refused line, in request order |
| StoreService.Snapshots | src/store/store.service.ts:119-127 | one stored line per requested line, in order, with the item's current price as unit price and price × quantity as line total |
| StoreService.SnapshotTotalIsOrderValue | src/store/store.service.ts:99-128 | the stored total equals Σ price × quantity over the requested lines |
| StoreService.CheckoutRejection | src/store/store.service.ts:85-117 | an accepted checkout names an existing client and only listed items |
| StoreService.ClientGuardsComeFirst | src/store/store.service.ts:85-96 | NotFound for a missing client, then Forbidden for a non-ACTIVE membership, then BadRequest for delivery without an address; these do not depend on the store items |
| StoreService.AcceptedCheckout | src/store/store.service.ts:85-117 | an accepted checkout has an ACTIVE client, an address when delivering, and every line's item listed, active and in stock |
| StoreService.StockCheckedPerLine | src/store/store.service.ts:102-117 | two lines for the same item are each checked against the full stock, so together they may exceed it |
| StoreService.PendingPurchaseShape | src/store/store.service.ts:130-152 | the recorded purchase is PENDING and unverified, its total is the order value, its lines mirror the request at checkout prices, and it is well-formed |
| StoreService.StoreChargeIsTotal | src/store/store.service.ts:155-165 | the gateway is asked for exactly 100 × total kobo under the purchase's reference, with the purchase id in the metadata |
| StoreService.CheckLine | src/store/store.service.ts:103-117 | a line is refused iff its item is missing, inactive or short of stock, with the error of the first failing check; otherwise the item is returned |
| StoreService.PriceLines | src/store/store.service.ts:98-128 | the loop stops with the first refused line's error, or returns the snapshotted lines and their total |
| StoreService.OpenPurchase | src/store/store.service.ts:98-175 | a refused line records nothing and reports the first refusal; otherwise the PENDING purchase is recorded, then the gateway is called; its failure is reported with the purchase kept |
| StoreService.CreatePurchase | src/store/store.service.ts:79-175 | a rejection changes nothing; otherwise the PENDING purchase is recorded before the gateway call, so it stays when the gateway fails; store items are never changed |
| StoreService.PurchaseToVerify | src/store/store.service.ts:178-210 | proceeds iff the charge succeeded and its metadata names an existing, unverified purchase; every failure is one of the listed errors |
| StoreService.VerificationRejections | src/store/store.service.ts:181-210 | BadRequest for an unsuccessful charge, then for a missing purchase id, NotFound for an unknown purchase, BadRequest for one already verified |
| StoreService.ApplyDecrements | src/store/store.service.ts:229-239 | decrementing stock line by line keeps the set of items |
| StoreService.DecrementsExact | src/store/store.service.ts:229-239 | each item's stock drops by exactly the total quantity its lines order, with no floor at zero, and nothing else about it changes |
| StoreService.UnorderedItemsUnchanged | src/store/store.service.ts:229-239 | items no line names keep their row |
| StoreService.VerificationIsOneShot | src/store/store.service.ts:208-227 | after a successful verification, verifying the same reference again is refused as already verified and changes nothing |
| StoreService.DecrementStock | src/store/store.service.ts:229-239 | the loop leaves the stock exactly as the per-line decrements prescribe, and no other table changes |
| StoreService.VerifyPurchase | src/store/store.service.ts:177-259 | any failed check changes nothing; otherwise the purchase becomes COMPLETED and verified, stock is decremented per line, clients are untouched, and the payment amount is returned in naira |
| StoreService.FindOnePurchase | src/store/store.service.ts:286-311 | the purchase, or NotFound "Purchase not found" |
| StoreService.HandleWebhook | src/store/store.service.ts:313-327 | verifies only a 'charge.success' event tagged 'store_purchase', swallowing its errors; fails on an event without `data`; otherwise changes nothing |
| StoreController.IncludeInactiveFlag | src/store/store.controller.ts:79-82 | true iff the query string is exactly 'true' |
| StoreController.InactiveItemsOnlyOnRequest | src/store/store.controller.ts:79-82 | without `includeInactive=true` no inactive item is listed; with it every item is |
| StoreController.WebhookRoute | src/store/store.controller.ts:189-198 | refused iff the signature does not match; delivered iff it matches and the body parses |
| StoreController.SignedStorePaymentReachesVerify | src/store/store.controller.ts:189-198 | a wrongly signed call reaches nothing; a correctly signed 'charge.success' store-purchase event reaches the verification of its reference |
| StoreController.HandleWebhook | src/store/store.controller.ts:185-201 | 'Invalid signature' with no change for a bad signature; otherwise the store handler's effect and 'Webhook processed successfully' unless parsing or the handler failed |
| MembershipService.MembershipChargeMatches | src/membership/membership.service.ts:29-41 | the charge is the fee in kobo to within half a kobo, under the generated reference, with metadata tagged 'membership' naming the client |
| MembershipService.InitializeMembershipPayment | src/membership/membership.service.ts:13-56 | NotFound, or BadRequest for an ACTIVE client (INACTIVE and EXPIRED proceed); a gateway failure changes nothing; on success only the payment reference is recorded, the status untouched |
| MembershipService.PaymentToVerify | src/membership/membership.service.ts:58-70 | proceeds iff the charge succeeded and the metadata carries a client id; otherwise the corresponding BadRequest |
| MembershipService.Activated | src/membership/membership.service.ts:72-83 | the client becomes ACTIVE, paid now and due 30 days later, whatever its status; no other column changes |
| MembershipService.ReverificationResetsDates | src/membership/membership.service.ts:72-83 | verifying again is not refused and restarts the 30 days from the new time |
| MembershipService.VerifyMembershipPayment | src/membership/membership.service.ts:58-104 | a failed check changes nothing; an unknown client fails as a database error; otherwise that client is activated and nothing else changes |
| MembershipService.CeilDiv | src/membership/membership.service.ts:143 | `Math.ceil(n / d)`: the least q with n ≤ q·d |
| MembershipService.DaysRemaining | src/membership/membership.service.ts:142-144 | the day count rounded up to the due date, 0 without a due date, negative once it has passed |
| MembershipService.ExpiryMatchesDaysRemaining | src/membership/membership.service.ts:122-144 | an expired membership has at most 0 days remaining, a running one at least 0 |
| MembershipService.ReportedStatus | src/membership/membership.service.ts:123-135 | the reported status differs from the stored one only by ACTIVE becoming EXPIRED, which happens iff the due date is past |
| MembershipService.FreshMembershipHasThirtyDays | src/membership/membership.service.ts:73-83 | right after verification the membership reads ACTIVE, unexpired, with 30 days remaining |
| MembershipService.ActiveUntilDue | src/membership/membership.service.ts:122-135 | an ACTIVE membership reads ACTIVE up to its due date and EXPIRED from any later time |
| MembershipService.ExpiredFlag | src/membership/membership.service.ts:123 | `isExpired` is null exactly when there is no due date, and true exactly when the due date is past |
| MembershipService.GetMembershipStatus | src/membership/membership.service.ts:106-146 | NotFound, or the report, whose `isExpired` is null without a due date; EXPIRED is written iff an ACTIVE membership is past due, and INACTIVE or EXPIRED rows are never written |
| MembershipService.StatusReadIsIdempotent | src/membership/membership.service.ts:125-135 | a second read at the same time reports the same and writes nothing new |
| MembershipService.HandleWebhook | src/membership/membership.service.ts:148-162 | verifies only a 'charge.success' event tagged 'membership', swallowing its errors; fails on an event without `data`; otherwise changes nothing |
| MembershipController.DispatchFor | src/membership/membership.controller.ts:91-97 | the top-level tag 'membership' goes to the membership handler, 'subscription' to the store handler, anything else to none |
| MembershipController.MembershipVerifiedOnlyWhenBothTagsAgree | src/membership/membership.controller.ts:91-93 | a membership is verified via this endpoint iff both the top-level and the `data` metadata say 'membership' on a successful charge |
| MembershipController.StorePathNeedsMismatchedTags | src/membership/membership.controller.ts:95-96 | a purchase is verified via this endpoint iff the top-level tag is 'subscription' and the `data` tag 'store_purchase'; never when the two metadata agree |
| MembershipController.HandleWebhook | src/membership/membership.controller.ts:79-100 | 'Invalid signature' with no change for a bad signature; otherwise exactly the dispatched handler's effect, and the success message even when no handler applies |
| ClientService.ChosenImage | src/client/client.service.ts:58-60 | a truthy uploaded URL wins; otherwise the form's own value is kept |
| ClientService.Signup | src/client/client.service.ts:27-87 | Conflict for a registered e-mail and an upload failure create nothing; a failed QR code fails with the client already created; success stores the hash, signs {sub, email, 'client'} and returns the row without password |
| ClientService.NewClientShape | src/client/client.service.ts:55-62 | a new client has the hashed password, no membership (INACTIVE, no dates) and the uploaded image when there is one |
| ClientService.FindAll | src/client/client.service.ts:96-141 | an absent page or limit defaults to 1 or 10; both are raised to at least 1; the page is the window at `(page − 1) × limit` of `limit` rows; totalPages is `Math.ceil(total / limit)` |
| ClientService.DefaultQueryIsFirstTen | src/client/client.controller.ts:108 | with no page or limit in the query, the list is the first ten rows and totalPages counts blocks of ten |
| ClientService.TotalPagesBounds | src/client/client.service.ts:138 | the page count is the least t with total ≤ t × limit: the last page is non-empty and every row falls within the pages |
| ClientService.FirstPagesArePrefix | src/client/client.service.ts:98-107 | the first k pages together are exactly the first k × limit rows |
| ClientService.PageAfterLastIsEmpty | src/client/client.service.ts:96-138 | any page number beyond totalPages returns no rows |
| ClientService.PagesCoverAll | src/client/client.service.ts:98-138 | pages 1 to totalPages list every row once in order, and later pages are empty |
| ClientService.PurchasesOf | src/client/client.service.ts:335-347 | exactly the purchases whose clientId is the client |
| ClientService.FindOne | src/client/client.service.ts:216-248 | NotFound, or the profile without password together with the client's purchases |
| ClientService.ClientPurchases | src/client/client.service.ts:325-350 | Forbidden unless an admin or the client itself asks; no existence check |
| ClientService.PurchasesVisibleOnlyToOwnerOrAdmin | src/client/client.service.ts:330-333 | a non-admin only ever sees purchases of its own id |
| ClientService.UpdateTouchesOnlyProfile | src/client/client.service.ts:285-290 | a profile update changes only names and image; without an upload or an image field the image stays |
| ClientService.Update | src/client/client.service.ts:254-307 | NotFound is checked before Forbidden (unless admin or self), then the upload; only then is the row rewritten |
| ClientService.UpdateClientMembershipAsActive | src/client/client.service.ts:143-182 | NotFound, or the client ACTIVE with the given due date, paid date and last paid amount |
| ClientService.UpdateClientMembershipAsInactive | src/client/client.service.ts:184-214 | NotFound, or, as written, the status set to ACTIVE with nothing else changed |
| ClientService.Remove | src/client/client.service.ts:309-323 | NotFound, or the row deleted with every other row and table unchanged |

## Left out

- Persistence: Prisma queries become map operations.
  - `createdAt`/`updatedAt` are not modelled, so result ordering (`orderBy: createdAt desc`) is not modelled either. List results are maps, or a sequence supplied in list order for pagination.
  - `_count`, the joined `include` relations and the column subsets of `select` are represented only where they remove the password or the payment columns.
- Schema defaults are assumed, since the Prisma schema is not part of this model: a new client is INACTIVE with nothing paid, a new purchase is PENDING and unverified, and a new store item is active unless the DTO says otherwise.
- Referential actions on delete are not modelled. Deleting a client does not touch its purchases, and the tables carry no client foreign key.
- `removeStoreItem` is left out. The purchase-line foreign key (part of `Database.Valid()`) would need the schema's delete rule, which is not part of this model.
- `findAllPurchases` is left out: it only lists the purchase table with joins and an ordering.
- Concurrency is left out: the check-then-decrement stock race and concurrent duplicate webhooks cannot occur in this sequential model.
- E-mail sending is left out. Its failures are caught in `verifyPurchase` and never change the outcome.
- QR-code image generation and its storage upload are left out. Only their result (a URL, or the failure) is a parameter.
- The upload service's storage calls are left out.
- Axios transport details are left out (headers, base URL, the callback URL).
- bcrypt, JWT signing and verification, and HMAC-SHA512 are uninterpreted functions. Token expiry and signature checking of incoming tokens are left out.
- Store prices and stock are whole numbers (naira, units), and the membership fee is an exact real.
  - `parseFloat` and IEEE rounding of `amount * 100` and `/ 100` are not modelled.
  - `Math.ceil` returning `-0` is not modelled.
- Time and randomness are parameters:
  - `Date.now()` and `new Date()` are one `now`, although `verifyMembershipPayment` reads the clock twice.
  - 30 days is 30 × 86 400 000 ms, which differs from calendar `setDate` across daylight-saving changes.
  - The random reference token is any string of at most 13 lower-case letters and digits.
- `MembershipService.VerifyMembershipPayment`: the database error for an unknown client id is `Internal("Record to update not found")`, which stands for Prisma's own message.
- `StoreController.HandleWebhook`, `MembershipController.HandleWebhook`: a body that is not JSON fails with `Internal("Unexpected token in JSON")`, which stands for the parser's own message.
- DTO validation decorators become preconditions:
  - purchase quantity ≥ 1;
  - item price > 0 and stock ≥ 0;
  - membership amount > 0.

  The `image` text field that the item DTOs also declare is not modelled.
- `UpdateClientMembershipAsActiveDto` is not part of this model. Its three fields are taken as optional, and an absent field leaves the column as it was.
- `ClientService.FindAll`: page and limit are whole numbers or absent. A query value that is not a whole number (text that parses to `NaN`, or a fraction) reaches Prisma's `skip`/`take`, which reject it with an HTTP 500; that path is not modelled.
- `ClientService.login` and `findMe` are left out: they only forward to `AuthService.LoginClient` and `FindOne`.
- `generateForgotPasswordToken` and `verifyToken` of `auth.service.ts` are left out: no other part of the code calls them.
- HTTP wiring is left out: routing, guard decorators, throttling and the module files.
- The admin dashboard is left out: it returns placeholder constants.
