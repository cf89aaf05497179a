# Home Horizon offer and purchase workflow in Dafny

This project models the core of the Home Horizon real-estate marketplace backend
(`index.js.js`, an Express server over MongoDB). The core is the offer-to-purchase
workflow and the small rules around it. A buyer wishlists a property and makes an
offer inside a price range. The listing agent accepts or rejects the offer, and
accepting it rejects every other offer on the property. The buyer checks out an
accepted offer with Stripe, and verifying the paid session marks the offer bought
and the property sold. Around that workflow sit the role gate, agents creating,
updating and deleting their own listings, and the admin review, advertising and
fraud routes.

Files:

- `records.dfy` (module `Records`): the documents of the four collections (users,
  properties, wishlist, offers), the request bodies, the Stripe session fields the
  handlers read, and the responses (`Outcome`, `Result`, `Failure`, `BadInput`).
- `rules.dfy` (module `Rules`): the pure rules. These are ObjectId validity, the
  role gate's membership test, the offer range check and the checkout and payment
  arithmetic. It also holds each collection-wide update as a function on the
  collection (`RemoveFirst` for `deleteOne`, `RejectedSiblings` for `updateMany`,
  `WithoutAgent` for `deleteMany`), the store's invariants, and the lemmas about them.
- `store.dfy` (module `Handlers`): class `Store` with the four collections as
  fields and one method per Express handler. Each method runs the role gate its
  route is mounted behind, then the handler's checks in source order, then its
  writes in source order. Two handlers have no role gate: `CreateCheckoutSession`
  sits only behind Firebase token verification, so any signed-in caller may use it,
  and `VerifyPayment` has no authentication at all, so anyone may call
  `/payments/verify`. Its
  `ensures` clauses give the response and the whole new state for every branch. Each
  method also preserves `Valid()`: one wishlist entry per (userId, propertyId), one
  offer per (propertyId, buyerId), and unique user document ids.
- `scenarios.dfy` (module `Scenarios`): small client runs that use only the
  contracts. They cover an offer below and inside the range, a second offer refused,
  an agent refused, the sibling rejection, checkout followed by payment, and a
  session paid after its offer was rejected.

Modelling choices:

- The caller is the uid that Firebase token verification yields. A user document
  is keyed by uid and carries its own `_id` (`docId`), which the fraud route uses.
- Responses: `Failed(BadRequest(..))` is 400, `Forbidden` 403, `NotFound` 404 and
  `ServerError` a 500 from the handler's own `try`/`catch`. `Crash` is an exception
  thrown outside any `try` block: the handler writes no response of its own, and the
  writes made before the throw stay. What the framework then answers is outside the model.
- The model assumes the `bson` library of MongoDB Node driver 5 or later. There,
  `new ObjectId(s)` throws unless `s` is 24 hex digits (`IsObjectId`), and
  `ObjectId.isValid` is the same test.
- JavaScript falsiness in request bodies: an absent or empty string field is `""`,
  and an absent `offerAmount` is `0`. `minPrice`/`maxPrice` are `Option<int>`. A comparison with
  `undefined` is false, so an absent bound never rejects an amount.
- Ids that MongoDB generates on insert are parameters (`newId`). They are required
  to be fresh, well-formed ids.
- The Stripe session is an input record. The checkout handler returns the session
  request it would send (`SessionRequest`), and the payment handler receives the
  retrieved session. The current time is the integer `now`. The session's
  `metadata.offerId` is an `Option`: when it is absent, `new ObjectId(undefined)`
  generates a fresh id, no offer matches, and the answer is 404 with no change.
- Checkout reads `offer.buyerId` before it tests whether the offer was found. A
  missing offer is therefore modelled as `Crash`, not as a 404. The
  'Offer is not accepted' branch can never be reached; the contract of
  `CreateCheckoutSession` states this.
- The wishlist is a sequence of documents, not a set, because `deleteOne` and
  `insertOne` act on documents. Uniqueness per pair is an invariant that the add
  handler keeps.

Where the code departs from what the workflow evidently intends, the model follows
the code:

- The price range of an offer comes from the request body, not from the stored
  property, and nothing checks `minPrice <= maxPrice`.
- The decision handler checks neither that the offer exists nor that the body's
  `propertyId` is the offer's property. `ForeignPropertyIdKeepsRival` shows how this
  leaves two offers holding one property. With the offer's own property id, at most
  one offer holds the property right after that accept (`AcceptLeavesSingleCommitment`).
- Payment verification does not check the offer's status; only checkout checks for
  'accepted'. A session checked out while an offer was accepted can still be paid
  after the agent has accepted a rival offer on the same property. The acceptance
  rejects the first offer, the payment makes it bought, and the rival stays accepted
  (`StaleSessionRevivesRejected`; the scenarios `StaleSessionCheckout`,
  `RivalAcceptedAfterCheckout` and `StaleSessionIsPaid` walk through it).
- Payment verification is not idempotent. A second call with the same session
  rewrites `paidAt` (`PaidTwiceRewritesPaidAt`).
- Offer creation removes the wishlist entry with a plain `deleteOne`. A failure of
  that write is not handled best-effort; it is outside the model.

## Model

| member | source | states |
|---|---|---|
| Handlers.Store.VerifyRole | index.js.js:147-159 | The gate passes iff a user with the caller's uid exists and its role is in the required set; otherwise the answer is 403 |
| Handlers.Store.CreateProperty | index.js.js:347-369 | Only agents and super-admins may create; the new property has verification pending, is not advertised and has no deal, whatever the body said, and no other property changes |
| Handlers.Store.UpdateProperty | index.js.js:410-442 | Gate, then 400 on an invalid id, then 404 unless the property exists and its agentId is the caller; on success only that property changes, by the body's fields; keys never change |
| Handlers.Store.DeleteProperty | index.js.js:444-473 | Gate, then 400 on an invalid id, then 404 unless the caller owns the property; on success exactly that property is removed and every other stays |
| Handlers.Store.ReviewProperty | index.js.js:496-564 | Admins only; 400 on an invalid id, 404 on a missing property; otherwise only that property's verification status becomes verified or rejected |
| Handlers.Store.SetAdvertised | index.js.js:679-718 | Admins only; an invalid id is a 500 with no change; otherwise the property's advertised flag is set if it exists, success is reported even when it does not, and no other property changes |
| Handlers.Store.MarkFraud | index.js.js:593-605 | Admins only; an invalid user id throws with no change; otherwise the matching user becomes 'fraud', every other user is kept, and no property of the named agent remains |
| Handlers.Store.AddToWishlist | index.js.js:753-779 | Users only; 400 on a missing userId or propertyId, 400 when the pair is already listed; otherwise the pair is appended, so each pair stays listed at most once |
| Handlers.Store.RemoveFromWishlist | index.js.js:833-862 | Users only; 400 on a missing field; 404 iff the pair was not listed; afterwards the pair is gone and every other entry is kept |
| Handlers.Store.CreateOffer | index.js.js:946-1025 | Users only; checks the six required fields, then no offer for (propertyId, buyerId), then the amount against the body's range, in that order, any failure leaving offers and wishlist unchanged; success adds exactly one pending offer for the pair, removes that pair's wishlist entry if any, and keeps every other entry and one offer per pair |
| Handlers.Store.DecideOffer | index.js.js:1077-1131 | Agents only; 400 on a status other than accepted/rejected or a missing propertyId, before any write; on success the offer and the named property carry the decision, on 'accepted' every other offer on that property is rejected whatever its status, offers on other properties are unchanged, and on 'rejected' no other offer changes |
| Handlers.Store.RejectOtherOffers | index.js.js:1110-1122 | The loop over the offers ends with exactly the collection `RejectedSiblings` describes |
| Handlers.Store.CreateCheckoutSession | index.js.js:1175-1230 | Changes nothing; 400 without an offer id, a throw when the offer is missing, 403 unless the caller is the buyer, 404 unless the offer is accepted, a session iff all hold; the session is exactly one unit of offerAmount×100 with the offer, buyer and property ids as metadata, and its total records back as offerAmount; the 'not accepted' 400 never occurs |
| Handlers.Store.VerifyPayment | index.js.js:1232-1278 | 400 unless the session is paid; 404 when its metadata has no offer id or names no offer; a throw on a malformed offer id; nothing changes unless the session is paid and names an existing offer; then the offer is paid and bought with amount amountTotal/100 and the session's transaction id, and the offer's property is sold |
| Rules.IsObjectId | index.js.js:418-419 | A valid ObjectId string is never falsy, and a string whose length is not 24 is never valid |
| Rules.Submitted | index.js.js:353-362 | The inserted property is pending verification, not advertised and has no deal, and keeps the body's agent and status |
| Rules.Patched | index.js.js:421-428 | Each field the body carries replaces the stored one and every other field is kept; an empty body changes nothing |
| Rules.Advertised | index.js.js:687-690 | Only the named property's advertised flag changes, and only if the property exists; no property appears or disappears |
| Rules.RemoveFirst | index.js.js:845-848 | `deleteOne` shortens the wishlist by one iff the entry is present and otherwise keeps its length, and adds no entry |
| Rules.MissingOfferField | index.js.js:969-978 | A request that passes the check yields an offer with non-empty property and buyer ids and a non-zero amount |
| Rules.NewOffer | index.js.js:998-1015 | The inserted offer is pending and unpaid with no payment fields, for the request's (propertyId, buyerId) pair, agent, amount and range |
| Rules.WithStatus | index.js.js:1094-1097 | Only the named offer's status changes, and only if it exists; every offer keeps its id and pair |
| Rules.Mirrored | index.js.js:1100-1103 | Only the named property's status becomes the decision, and only if it exists; no property appears or disappears |
| Rules.RejectedSiblings | index.js.js:1111-1122 | Every other offer on the property is rejected whatever its status; the kept offer and offers on other properties are unchanged; ids and pairs are kept |
| Rules.Decided | index.js.js:1094-1122 | After a decision the offer carries it, on acceptance every other offer on the named property is rejected, every other offer is untouched, and no offer appears, disappears or changes its pair |
| Rules.UnitAmount | index.js.js:1213 | The Stripe unit amount of an offer records back, divided by 100, as exactly the offer amount |
| Rules.RecordedAmount | index.js.js:1243 | The recorded amount times 100 is the session total, and a non-negative total records a non-negative amount |
| Rules.MarkedSold | index.js.js:1267-1275 | Only the named property's deal status becomes sold, and only if it exists; no property appears or disappears |
| Rules.Demoted | index.js.js:598-601 | Marking a user document as fraud changes the role of that document only, keeps every uid, and keeps document ids unique |
| Rules.WithoutAgent | index.js.js:602 | After deleting an agent's properties, a property remains iff it existed and belongs to another agent, unchanged |
| Rules.RemoveFirstCount | index.js.js:839-856 | `deleteOne` removes exactly one copy of the entry when there is one and leaves every other entry, as multisets |
| Rules.RemoveFirstRemoves | index.js.js:1017-1021 | On a unique wishlist, deleting a pair removes it, keeps every other pair, shortens the list by one iff the pair was there, and changes nothing iff it was absent |
| Rules.RemoveFirstAbsent | index.js.js:1017-1021 | Deleting a pair that is not listed is not an error and changes nothing |
| Rules.RemoveFirstKeepsUnique | index.js.js:839-856 | Deleting an entry keeps at most one entry per pair |
| Rules.AppendKeepsUnique | index.js.js:765-776 | Inserting a pair that the lookup did not find keeps at most one entry per pair |
| Rules.OutOfRange | index.js.js:991-995 | With both bounds the amount passes iff minPrice <= amount <= maxPrice; a missing bound never rejects |
| Rules.InsertKeepsOnePerPair | index.js.js:980-1014 | Inserting an offer for a pair that has none keeps one offer per (propertyId, buyerId) |
| Rules.SamePairsKeepOnePerPair | index.js.js:1094-1121 | Status and payment updates that keep every offer's pair keep one offer per pair |
| Rules.DecisionOf | index.js.js:1084-1086 | The decision is Accepted iff the status string is 'accepted' and Rejected iff it is 'rejected' |
| Rules.AcceptLeavesSingleCommitment | index.js.js:1094-1121 | Accepting an offer with its own property id leaves it accepted and the only offer on the property that is accepted or bought |
| Rules.ForeignPropertyIdKeepsRival | index.js.js:1083-1121 | Accepting an offer while the body names another property leaves a rival offer that held the same property untouched, so two offers hold it |
| Rules.Paid | index.js.js:1252-1265 | The paid offer is bought and paid, records amountTotal/100 and the transaction id, and keeps its pair and offer amount |
| Rules.StaleSessionRevivesRejected | index.js.js:1245-1265 | When a rival offer on the same property is accepted, the earlier offer becomes rejected; paying a session for that earlier offer afterwards makes it bought while the rival stays accepted, so two offers hold the property |
| Rules.PaidTwiceRewritesPaidAt | index.js.js:1252-1265 | A second commit of the same session changes only paidAt, and does change it when the time differs |

## Left out

- Firebase token verification, `/jwt` issuance and `verifyJWT` are left out: the caller is a given uid.
- Stripe session creation and retrieval are not modelled: the session request is an output and the retrieved session an input. Currency, product name and URLs are not modelled.
- The Cloudinary upload and delete routes are not modelled; they proxy a foreign service and have no logic of their own.
- Seed data and random image generation are not modelled (random values, fixtures).
- The regex location search and the floating-point geographic filter are not modelled.
- Read-only listings and their sort orders are not modelled; they are pass-through queries.
- User registration, profile updates, role promotion, user deletion (with Firebase `deleteUser`) and reviews are outside the workflow; the store's constructor takes the initial collections instead.
- Timestamps (`createdAt`, `updatedAt`) are not modelled; `paidAt` is the opaque integer `now`.
- Fields the workflow never reads (names, emails, images, buying date, reviews array) are not stored.
- Concurrency between requests is not modelled, and neither is the lack of a transaction around multi-document writes: each handler is one sequential method.
- A failing database write (a rejected `insertOne`, a lost connection) is not modelled; writes always succeed.
- A body-supplied `_id` in `POST /properties` is not modelled: the new property's key is always a generated id.
- Several user documents sharing one uid (possible through PUT /users/:uid, which `$set`s the body as it is) are not modelled; the gate reads the single document per uid.
- MongoDB Node driver 4.x, whose `ObjectId` also accepts any 12-character string, is not modelled.
- Case normalisation of ObjectId strings is not modelled: two ids that differ only in letter case are different keys.
- Request body or session metadata values of a type other than the one the model gives them (numbers as strings, `null`, arrays) are not modelled.
- Handlers.Store.VerifyPayment: `amount` is the exact rational amountTotal/100, not the nearest double.
- Handlers.Store.UpdateProperty: the body can only `$set` the five modelled property fields; other fields of the body are not modelled.
