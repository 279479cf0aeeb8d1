# Parcel pricing and settlement, in Dafny

This project models the core of a parcel-forwarding back office. Customers and partners ("mitra") book international shipments and pay for them from a prepaid wallet. Administrators do the rest:

- they maintain a price catalog per (destination country, item category), either flat or in weight tiers;
- they approve wallet top-ups and adjust balances;
- they hand parcels to carriers, post tracking updates, edit bookings, and cancel pending bookings with a refund.

The model has eight modules:

- `Wrappers` (`wrappers.dfy`) holds the `Option` and `Result` types the handlers answer with.

- `Pricing` (`pricing.dfy`) is the charge calculator. It covers the volume weight (L·W·H / 5000), the effective weight (the larger of actual and volume weight), tier selection, the partner and retail rate columns, and the total (the larger of weight cost and volume cost).
- `Resi` (`resi.dfy`) builds the tracking code `generateResi`: "BE", then the last eight characters of the millisecond clock, then a zero-padded three-digit random number.
- `Pagination` (`pagination.dfy`) holds the page/offset/page-count arithmetic of the transaction listing.
- `ResiDocument` (`resi_document.dfy`) holds `maskPhone` from the printed label.
- `Records` (`records.dfy`) holds:
  - the rows: users, shipments, tracking entries, top-ups;
  - the request bodies;
  - the lookups the handlers' SELECT queries make;
  - the "newest tracking status" of a shipment.
- `Settlement` (`settlement.dfy`) is a `Store` class whose map and sequence fields are the tables. Each state-changing route handler is a method. Each handler either writes nothing or commits all of its writes, in a single statement or in one database transaction, so every method leaves the store exactly as it was when it returns `Err` and applies all its writes when it returns `Ok`. Every method preserves `Valid()`, the keys and foreign keys of the schema. The committed writes of the create, expedition, tracking, cancel and price handlers are spelled out as functions on a `Tables` value (`Inserted`, `Logged`, `Refunded`, `Priced`), and lemmas show that each keeps the keys.
- `Scenarios` (`scenarios.dfy`) chains several handler calls on one store:
  - create then cancel restores the owner's balance;
  - cancelling twice is refused;
  - a cancelled shipment put back to `pending` by hand is refunded a second time;
  - approving a top-up twice credits it twice;
  - an admin subtraction can overdraw an account;
  - editing a booking changes what a later cancellation refunds.

The clock reading and the random draw of `generateResi` are parameters. Money and weights are `real`.

## Model

| member | source | states |
|---|---|---|
| Pricing.VolumetricWeight | backend/server.js:1112 | the volume weight is length·width·height divided by 5000 |
| Pricing.EffectiveWeight | backend/server.js:1115 | the weight used to pick a tier is at least the actual weight and at least the volume weight, and equals one of them |
| Pricing.ChargeFor | backend/server.js:1142-1144 | the total is at least the weight cost and at least the volume cost, and equals one of them (never a sum) |
| Pricing.SelectTier | backend/server.js:1121-1136 | no tier is selected exactly when no tier has min ≤ w ≤ max (an absent max is unbounded); a selected tier is one of the price's tiers, matches w, and no matching tier has a larger minimum |
| Pricing.RateRow | backend/server.js:1119-1156 | a flat price always uses its own row; a tiered price uses the row of a best matching tier and has none exactly when no tier matches |
| Pricing.Quote | backend/server.js:1107-1160 | a flat price always yields a charge; a tiered one fails exactly when no tier matches the effective weight; the charge has the volume weight, a total that is the larger of weight·perKg and volume·perVolume, the partner rates for `mitra` and the retail rates for every other role |
| Pricing.ContiguousTiersCover | backend/server.js:1121-1128 | tiers laid end to end from 0 to an open top tier always find a tier for a non-negative weight |
| Pricing.HalfOpenTierChosen | backend/server.js:1121-1128 | for contiguous tiers with increasing minima, the inclusive query picks the tier whose half-open range [min, max) holds the weight, so a boundary weight gets the upper tier |
| Resi.DecimalRoundTrip | backend/server.js:93 | the decimal string of a number is all digits and reads back as that number |
| Resi.LeadingZerosKeepValue | backend/server.js:93 | zero-padding on the left keeps the number a digit string denotes |
| Resi.GenerateResi | backend/server.js:90-95 | the code is "BE", then the last eight characters of the clock string (all of a shorter one), then three digits that denote the random draw |
| Resi.ResiDeterminesRandom | backend/server.js:90-95 | two codes made at the same clock reading are equal exactly when the random draws are |
| ResiDocument.MaskPhone | src/components/ResiPDFDocument.jsx:86-91 | a missing, empty or "-" phone prints "-"; one of at most five characters prints unchanged; a longer one prints its characters before the last five, then "***", two characters shorter than the input |
| ResiDocument.MaskForgetsLastFive | src/components/ResiPDFDocument.jsx:90 | two phones longer than five characters print alike exactly when they agree on everything before the last five |
| Pagination.OrDefault | backend/server.js:953-954 | `parseInt(x) \|\| d` gives the parsed number unless it is NaN or 0, and then the default |
| Pagination.CeilDiv | backend/server.js:988 | the page count is the least integer c with total ≤ c·limit |
| Pagination.Paginate | backend/server.js:953-988 | the listing answers exactly when limit > 0 and page ≥ 1 after defaults, and then serves the requested page and limit (page 1 and 10 when absent, NaN or 0); its offset is (page−1)·limit ≥ 0 and its page count covers total rows with the last page non-empty |
| Pagination.RowOnItsPage | backend/server.js:953-988 | row i lies in the offset window of page i/limit+1, which is within the page count |
| Records.CreatePriceCheck | backend/server.js:409-421 | a price body is refused exactly when country or category is empty, a flat price has a falsy value for any of its four rates (absent, the number 0 or the empty string; the string "0" passes), or a tiered price has no tiers |
| Records.StoredTiers | backend/server.js:576-587 | the tier rows both price handlers write are the supplied list for a tiered price and none otherwise |
| Records.LookupPrice | backend/server.js:1096-1103 | the price query finds a row with that (country, category) and finds none exactly when no such row exists |
| Records.FindByResi | backend/server.js:1648-1657 | the resi query finds the shipment with that resi and finds none exactly when no shipment has it |
| Records.EntryIndex | backend/server.js:1736-1765 | a tracking id is located in the log exactly when an entry carries it |
| Records.LatestIsLastEntry | backend/server.js:1230-1231 | the newest status of a shipment (newest meaning inserted last, the highest entry id) is that of its last entry in the log |
| Records.LatestAbsentIffNoEntry | backend/server.js:1230-1231 | a shipment has no newest status exactly when the log holds no entry for it |
| Records.LatestAfterAppend | backend/server.js:1667-1668 | appending an entry (as the create, expedition, cancel and tracking handlers do) makes its status the newest of its shipment and leaves every other shipment's newest status as it was |
| Settlement.ChargeForForm | backend/server.js:1096-1160 | "Price not available" exactly when no row has (destination, category); "No pricing tier found" exactly when the row's quote fails; otherwise the quote of that row |
| Settlement.Admission | backend/server.js:1083-1201 | the create checks in order: required fields truthy (a dimension given as the number 0 or an empty string is refused, the string "0" passes), price row, tier, balance at least the total, resi not in use; an admitted charge leaves the balance non-negative |
| Settlement.InsertedConsistent | backend/server.js:1194-1235 | inserting a shipment whose resi is not in use under the next id, debiting its owner and logging it under the next entry id keeps every key and foreign key |
| Settlement.LoggedConsistent | backend/server.js:1285-1303 | rewriting a shipment without changing its owner or resi and appending one entry (the expedition, tracking and cancel handlers) for it keeps the keys, and that entry's status becomes the shipment's newest |
| Settlement.RefundedConsistent | backend/server.js:1484-1508 | the cancel writes keep the keys, and `canceled` becomes the shipment's newest status |
| Settlement.PricedConsistent | backend/server.js:536-566 | writing a price row whose (country, category) no other row holds, with any tier list, keeps the keys |
| Settlement.RefundUndoesDebit | backend/server.js:1495-1497 | cancelling the shipment just inserted gives every account back the balance it had before the insert and leaves `canceled` as its newest status |
| Settlement.Store.CreateTransaction | backend/server.js:1059-1267 | when a check fails, its error and an unchanged store; otherwise one new shipment (caller, resi, volume, unit rates, total, uploads, `pending`), the caller debited exactly the total, one `pending` entry appended, the id, resi and total returned, the balance still non-negative |
| Settlement.Store.Settle | backend/server.js:1188-1253 | the committed writes of a create: insert under the next id, debit the owner by the total, append a `pending` entry; keys preserved |
| Settlement.Store.AssignExpedition | backend/server.js:1270-1325 | a missing or zero carrier id or empty carrier resi is refused, an unknown shipment is "not found", both with no change; otherwise the carrier link is set, status becomes `dikirim` from any status, and one `dikirim` entry is appended, which is then the newest |
| Settlement.Store.SetStatus | backend/server.js:1328-1351 | only `pending`, `dikirim` and `sukses` are accepted, from any status; the shipment's status is overwritten and nothing else changes, the log included |
| Settlement.Store.EditTransaction | backend/server.js:1354-1448 | with all required fields and a known id, the parcel data, volume and total are rewritten at the stored unit rates and new uploads replace old ones; status, owner, resi, carrier link and every balance are unchanged |
| Settlement.Store.Cancel | backend/server.js:1451-1540 | an unknown id is "not found" and a non-`pending` shipment is refused, both with no change; otherwise status becomes `canceled`, the owner is credited exactly the stored total, which is returned, and one `canceled` entry becomes the newest |
| Settlement.Store.AddTracking | backend/server.js:1639-1705 | empty status or description is refused and an unknown resi is "not found", both with no change; otherwise one entry is appended and the shipment's status becomes the entry's, so the newest entry mirrors the status |
| Settlement.Store.EditTrackingEntry | backend/server.js:1728-1751 | an existing entry is rewritten in place; the entry's shipment status is left as it was |
| Settlement.Store.DeleteTrackingEntry | backend/server.js:1754-1767 | an existing entry is removed from the log, and only an unknown id is refused |
| Settlement.Store.SetTopupStatus | backend/server.js:868-947 | only `approved` or `rejected` are accepted; an unknown top-up is "not found" with no change; approval credits the requester exactly the amount whatever the previous status; rejection changes no balance |
| Settlement.Store.AdjustBalance | backend/server.js:288-313 | a falsy amount (absent, the number 0 or the empty string; the string "0" passes) or a kind other than add/subtract is refused; an unknown user is "not found"; otherwise the balance moves by exactly ±amount with no lower bound |
| Settlement.Store.CreatePrice | backend/server.js:396-510 | a body that fails the checks is refused; a taken (country, category) is a duplicate; otherwise a new row under the next id (falsy rates as 0) and the supplied tiers when tiered, none otherwise |
| Settlement.Store.UpdatePrice | backend/server.js:513-626 | empty country or category is refused, an unknown id is "not found", a key held by another row is a duplicate; otherwise the row is overwritten and its tiers replaced by the supplied list or by none |
| Scenarios.CreateThenCancel | backend/server.js:1470-1497 | cancelling a freshly created shipment restores the caller's account, returns the charged total and leaves the shipment `canceled` |
| Scenarios.CancelTwice | backend/server.js:1463-1475 | a second cancellation of the same shipment is always refused |
| Scenarios.RequeueRefundsAgain | backend/server.js:1332-1346 | cancel, a manual `pending`, and cancel again credit the owner twice the total |
| Scenarios.ApproveTwice | backend/server.js:883-913 | approving the same top-up twice credits its amount twice |
| Scenarios.AddThenSubtract | backend/server.js:296-299 | an admin subtraction undoes an addition of the same amount |
| Scenarios.Overdraw | backend/server.js:292-299 | an admin subtraction larger than the balance succeeds and leaves it negative |
| Scenarios.EditThenCancel | backend/server.js:1409-1413 | after an edit, cancelling refunds the recomputed total, not the amount debited at creation |

## Left out

- HTTP routing, JSON Web Token authentication, the admin-only guard, password hashing, file-upload storage and the database connection are left out. Caller id and role are plain inputs, and uploaded files are their stored names.
- Database errors, the "Transaction error" and "Commit error" answers and their rollbacks are left out. Every modelled handler either fails before writing or commits all of its writes.
- The race between the create handler's balance read and its database transaction is left out. Calls are sequential and atomic.
- JavaScript numbers are modelled as exact reals. Rounding, NaN from `Number("abc")`, and string-to-number coercion other than "present or absent" are not modelled. The four parcel dimensions of the create and edit bodies and the rate and amount fields of the price and balance bodies are either JSON numbers or strings (a multipart form or an admin page's input sends the text); presence is JavaScript truthiness, a string's number is the one `Number` or the database reads it as, and a non-numeric string is not modelled.
- Records.LatestStatus takes the newest tracking entry to be the one inserted last. The readers order entries only by `created_at DESC` with no tie-breaker, so two entries written in the same second may be listed in either order.
- Settlement.Store.AssignExpedition: the carrier id is modelled as a JSON number, so 0 is refused; a string "0" from a client is not modelled, because the client that calls this route is not part of this model.
- Settlement.Store.CreateTransaction: the caller must exist. The source reads the first row of the role query without a check.
- Settlement.Store.CreateTransaction: the initial status `pending` is an assumption. The INSERT does not write a status, so it comes from a column default that the source does not show.
- Settlement.Store.CreateTransaction: uniqueness of the resi is an assumption about the schema, which is not shown. A clash is modelled as a failed insert with no writes.
- Settlement.Store.CreateTransaction: the price row's `is_identity` flag is stored but never checked. No identity document is required.
- Settlement.Store.CreateTransaction: dimensions are not checked for being positive, as in the source.
- Pricing.SelectTier: when two matching tiers have the same minimum weight, SQL leaves the order unspecified. The model picks the earlier tier in the list.
- Pricing.SelectTier: both ends of a tier's range are inclusive, as in the query. A half-open [min, max) reading only emerges for contiguous tiers (Pricing.HalfOpenTierChosen).
- Settlement.Store.SetStatus has no transition rules and appends no tracking entry, as in the source.
- Settlement.Store.AdjustBalance has no non-negativity check, as in the source.
- Settlement.Store.SetTopupStatus does not look at the previous status, as in the source.
- Settlement.Store.EditTransaction does not adjust any balance, as in the source.
- Settlement.Store.AssignExpedition does not check that the carrier id names a carrier. The model stores it as given.
- Settlement.Store.SetTopupStatus: an empty note is kept as "" rather than NULL.
- Read-only queries are not modelled: listings, detail views, public tracking, and the role filter of the listing. Nor are the create/update/delete routes for bank accounts, carriers and users, price deletion, top-up requests, registration and login. These are data passthrough.
- The client-side price estimate on the booking page is a preview, not the amount charged.
- The external carrier-tracking lookup is a network call.
- ResiDocument.MaskPhone takes a string. A phone passed as a JavaScript number (converted with `String`) is not modelled.
- Pagination.Paginate answers `None` when the database would refuse a negative LIMIT or OFFSET. The count query and the response body are not modelled.
- Records.LookupPrice and Records.FindByResi compare strings exactly (a binary collation). The schema is not shown; under MySQL's default case-insensitive collations, "malaysia" would find the "Malaysia" row, and the unique key behind the duplicate-price and duplicate-resi refusals would treat case variants as the same key.
- Settlement.Store.CreatePrice and Settlement.Store.CreateTransaction keep `nextPriceId` and `nextTxId` unchanged when the insert is refused as a duplicate. InnoDB consumes an AUTO_INCREMENT value on a failed insert, so the next id may skip one. Ids are opaque, so no modelled property depends on this.
- Tiers are inclusive at both ends. The manual status route has no transition rules. Tracking entries can be edited and deleted. No identity document is checked. The model has all four as the code does.
