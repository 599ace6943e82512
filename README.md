# Maintenance requests, star ledger and item updates — a Dafny model

This project models the three route handlers that carry the business logic of
an inventory and asset-maintenance backend:

- `src/app/api/maintenance/request/route.ts`: filing a maintenance request
  (`POST`), routing it to the incharge of the requester's location and
  notifying them, listing requests (`GET`), and moving a request through
  approve / reject / complete / discard (`PUT`);
- `src/app/api/penalty/route.ts`: recording a penalty or an award against a
  user and rewriting the user's `stars` (`POST`), and listing a user's
  penalties (`GET`);
- `src/app/api/qrscanner/update/route.ts`: the role-gated item update
  (`PUT`): an incharge moves an item and sets its condition, an ordinary user
  only sets its temporary location and reports it to an asset-location
  endpoint, an admin changes nothing.

The database is a `Store` object whose fields are the tables: users keyed by
govId, inventory items keyed by itemId, maintenance requests by id (the
request with id `i` is `requests[i]`, so an insert is an append), and
append-only sequences of notifications, penalties and awards. Each handler
is a method of `Store` that returns a status code and a JSON body; its
`modifies` clause names the tables it may write, and its postconditions give
the new tables and the reply for every branch, in the order the handler
checks them. The two `GET` handlers change nothing and are functions.

What the caller's session says, the current time, whether the e-mail to the
incharge went out, and what the asset-location endpoint answered are
parameters of the methods.

Files:

- `schema.dfy` (`Schema`): the rows, roles, sessions, replies, JavaScript
  truthiness of optional strings (`Present`), and `Patch`, which tells a body
  field left out (`undefined`: Prisma keeps the column) from one given
  (possibly `null`).
- `lifecycle.dfy` (`Lifecycle`): the `PUT` action switch as a pure
  `Transition` on one request row, with the table of the columns each
  action writes.
- `ledger.dfy` (`Ledger`): the `newStars` formula, the rating after a
  history of events, and the penalty filter.
- `asset_call.dfy` (`AssetCall`): the call to the asset-location endpoint
  and the reply derived from its outcome.
- `backend.dfy` (`Backend`): the `Store` class and the six handlers.
- `scenarios.dfy` (`Scenarios`): two end-to-end scenarios, verified against
  the handlers' contracts: a request filed, routed to the one incharge at the
  requester's location and completed; and two penalties on a user without a
  rating (the first stores 3, the second leaves it at 3).

The model assumes one thing of the platform: `AssetCall.Fetch` is how
server-side `fetch` is taken to behave. A URL without an `http://` or
`https://` scheme is rejected before any request is sent, and an absolute
URL yields the endpoint's own answer.

Behaviour kept exactly as the code has it, although a reader might expect
otherwise:

- The rating is not bounded to 0..5: a first penalty of more than five stars
  stores a negative rating (`Ledger.PenaltyCanGoNegative`).
- Once a user's `stars` is non-null and non-zero, no penalty or award changes
  it again; a stored `0` behaves like `null` (`Ledger.ReplayKeepsSetRating`,
  `Ledger.ZeroActsAsUnset`).
- `PUT /maintenance/request` has no status guard: terminal statuses can be
  left again (`Lifecycle.NoStatusGuard`).
- The incharge is the first one the query finds among any number at the
  location; nothing demands exactly one.
- `GET /penalty` looks the user up by `govId` equal to the session's `id`
  (`src/app/api/penalty/route.ts:66-70`), not by the session's govId; the
  model does the same.
- The new request's `govId` column is the caller's govId, while its user
  link is the body's `userId`, and the notification's `userId` is the
  caller's govId too.
- A lookup whose key comes from a missing session (`where: { id: undefined }`
  in the item update, `where: { govId: undefined }` in `GET /penalty`) makes
  Prisma throw, and the handler's `catch` replies 500; `POST
  /maintenance/request` without a govId replies `{ message: "no govId" }`
  with the default status 200.
- `PUT /maintenance/request` on a request id that does not exist makes the
  update throw: 500, nothing changes. An unknown action is refused with 400
  before any row is read.
- An incharge's update writes the location stored for the caller (which may
  be `null`); when the caller has no user record (possible when a temporary
  location was sent), the location field is `undefined` and the item keeps
  its location. A `condition` left out of the body keeps the item's
  condition.

## Model

| member | source | states |
|---|---|---|
| `Lifecycle.ParseAction` | src/app/api/maintenance/request/route.ts:154-194 | a recognised action is exactly the one whose name is the string; any other string matches no action and is refused |
| `Lifecycle.ParseActionName` | src/app/api/maintenance/request/route.ts:155-188 | each of approve, reject, complete, discard is recognised as itself |
| `Lifecycle.Transition` | src/app/api/maintenance/request/route.ts:155-188 | the status becomes the action's (APPROVED, REJECTED, COMPLETED, DISCARDED); every column outside the action's write set is untouched; id, description, govId and the user and item links never change; approve stamps approvalDate and complete/discard stamp completionDate with the current time; each written side column takes the body's value (technicianId on approve, discardReason on reject/discard, resolutionDetails on complete, maintenanceCharge on complete/discard), or keeps its value when the body leaves the field out |
| `Lifecycle.NoStatusGuard` | src/app/api/maintenance/request/route.ts:154-188 | the result of an action does not depend on the request's previous status |
| `Lifecycle.TransitionIdempotent` | src/app/api/maintenance/request/route.ts:155-188 | repeating an action with the same body and time gives the same row (re-approving is accepted) |
| `Backend.Store.FindIncharge` | src/app/api/maintenance/request/route.ts:82-85 | returns a stored user with role incharge at the location, and returns none exactly when no such user exists |
| `Backend.Store.CreateRequest` | src/app/api/maintenance/request/route.ts:11-117 | checks in order govId, body fields, requester and location, item, each failure with its status and no table change; then exactly one pending request is appended with the caller's govId and the body's user and item; with no incharge at the requester's location the reply is 404 and the request stays without notification; otherwise exactly one notification from the caller to an incharge at that location is appended and the reply is 201 with the new request (500 if the e-mail failed, both rows kept); the store invariant (no orphan requests) is preserved |
| `Backend.Store.GetRequests` | src/app/api/maintenance/request/route.ts:120-131 | replies 200 with one entry per request, in table order, each joined with its requester's govId and name and its item's category and type |
| `Backend.Store.UpdateRequest` | src/app/api/maintenance/request/route.ts:142-206 | an unknown action replies 400 and changes nothing; a missing request replies 500 and changes nothing; otherwise only the addressed request is replaced by its `Transition` and returned with 200 |
| `Ledger.StarsAfter` | src/app/api/penalty/route.ts:29-44 | the new rating: a non-null, non-zero stored rating is written back unchanged by a penalty or an award; otherwise the baseline 5 − reduced (penalty) or 0 + added (award) |
| `Ledger.ZeroActsAsUnset` | src/app/api/penalty/route.ts:28-44 | a stored 0 gives the same new rating as a missing one: the baseline 5 − reduced or 0 + added |
| `Ledger.PenaltyCanGoNegative` | src/app/api/penalty/route.ts:28-29 | nothing clamps the rating: a first penalty of more than five stars yields a negative rating |
| `Ledger.ReplayKeepsSetRating` | src/app/api/penalty/route.ts:21-51 | once the rating is set, any sequence of later penalties and awards leaves it unchanged |
| `Ledger.FirstEventDecides` | src/app/api/penalty/route.ts:21-51 | for an unrated user, the first event with a non-zero baseline fixes the rating for every history that starts with it |
| `Ledger.PenaltiesOf` | src/app/api/penalty/route.ts:78-80 | a penalty is listed exactly when it is stored and belongs to the given govId; the listing is never longer than the table |
| `Ledger.PenaltiesOfAppend` | src/app/api/penalty/route.ts:78-80 | appending a penalty adds exactly it, at the end, to its owner's listing and leaves every other listing unchanged |
| `Backend.Store.RecordLedgerEvent` | src/app/api/penalty/route.ts:7-61 | an unknown user replies 404 and changes nothing; otherwise exactly one penalty (truthy isPenalty) or one award is appended and not the other, only that user's `stars` is rewritten, to the ledger formula's value, and the reply is 201 with the body minus isPenalty |
| `Backend.Store.GetPenalties` | src/app/api/penalty/route.ts:63-91 | no session replies 500; no user whose govId is the session id replies 404; otherwise 201 with every stored penalty of that user, duplicates included, in table order (the `PenaltiesOf` listing) |
| `Backend.Store.CallerRecord` | src/app/api/qrscanner/update/route.ts:13-16 | none exactly when no user has the id; otherwise the stored location of the one user with that id |
| `AssetCall.AsWrittenNeverReachesEndpoint` | src/app/api/qrscanner/update/route.ts:61 | the URL as written throws whatever the endpoint would answer |
| `AssetCall.AsWrittenUserBranchFails` | src/app/api/qrscanner/update/route.ts:61-82 | as written, the `user` branch's reply is always 500 "Error occurred while creating item location" with the call's error |
| `AssetCall.IntendedUrlReachesEndpoint` | src/app/api/qrscanner/update/route.ts:8 | with the domain interpolated and absolute, the handler sees the endpoint's answer |
| `AssetCall.Reply` | src/app/api/qrscanner/update/route.ts:72-88 | success (200, "Item updated successfully" with the updated item) exactly when the endpoint answered 2xx; a non-2xx answer keeps its status and replies with the endpoint's message when truthy, else "Failed to create item location"; a thrown call gives 500 with "Error occurred while creating item location" and the error |
| `Backend.Store.UpdateItem` | src/app/api/qrscanner/update/route.ts:9-96 | no session 500; no itemId or neither a caller record nor a temporary location 400; unknown item 404; each without change. Incharge: only location (the caller's stored one) and condition change; ordinary user without temporary location 400 and no change, with one only temporaryLocation changes and stays changed whatever the endpoint answers; admin: no change and 200 without an item; every success reply carries "Item updated successfully" |

## Findings

| source | as written | input that shows it | evidently intended | confidence | as-written member | corrected member |
|---|---|---|---|---|---|---|
| src/app/api/qrscanner/update/route.ts:61 | the endpoint URL is the single-quoted literal `'${domain}/api/asset/item-location'`, so `${domain}` is never substituted and the URL has no scheme | any `PUT /qrscanner/update` by a `user`-role caller with a temporary location: `fetch` on the server rejects the URL, so the reply is always 500 "Error occurred while creating item location" while the temporary location is already written | a template literal, so the request goes to the configured `DOMAIN` (line 8) | high (not executed) | `AssetCall.AsWrittenUserBranchFails` | `AssetCall.IntendedUrlReachesEndpoint` (`Backend.Store.UpdateItem` calls `IntendedUrl`) |

## Left out

- Session resolution (`auth()`) is replaced by a `session` parameter; the
  caller's govId, id and role come from it.
- `sendingEmail` is replaced by the `emailSent` parameter of
  `Backend.Store.CreateRequest`: when the send throws, the handler's `catch`
  replies 500 and the request and notification stay. The mail module
  (`@/lib/mail`) is not part of this model.
- The asset-location `fetch` is network I/O: its outcome is the `endpoint`
  parameter (a response status with its message, or an exception). A
  response body that fails to parse as JSON is not modelled.
- `new Date()` is replaced by the `now` parameter; timestamps are natural
  numbers.
- JSON parsing of the request bodies: fields are strings, with `""` standing
  for missing or falsy; `isPenalty` is modelled by its truthiness; values of
  other JSON types are not modelled.
- The `success` flag of the maintenance replies is not modelled: it is
  `false` on every non-2xx reply, `true` on 201/200, and absent from the
  "no govId" reply.
- The generic `catch`-all 500 replies for unexpected persistence errors are
  left out, except the ones named above that inputs alone cause (missing
  request id, lookups keyed on a missing session, a failing e-mail).
- The Prisma schema is not part of this model: the request insert (a `govId`
  column beside the `user` link) and the penalty/award insert (the whole
  `user` row spread into the data) are taken to succeed as the handlers
  intend.
- `Backend.Store.RecordLedgerEvent`: `numberOfStarsReduced` and
  `numberOfStarsAdded` are one field `numberOfStars`, read as the former for
  a penalty and the latter for an award; a body without `userId` (which makes
  the lookup throw) is not modelled.
- Stars and maintenance charges are integers; JavaScript numbers are
  floating point.
- `Backend.Store.GetRequests` lists in table order; the database gives no
  defined order.
- Concurrency and atomicity across requests: each handler runs as one
  sequential step over the store.
- `src/app/page.tsx` and `src/components/form-error.tsx` are UI rendering;
  `next-auth.d.ts` contributes only the role union, modelled as `Role`.
