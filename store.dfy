/**
 * The Express handlers of the offer/purchase workflow as methods of one store
 * that holds the four MongoDB collections they share. Each method runs the role
 * gate its route is mounted behind, then the handler's checks in source order,
 * then its writes in source order; each write is one in-place update of a field.
 * The caller's uid is what Firebase token verification would have produced.
 */
module Handlers {
  import opened Records
  import opened Rules

  class Store {
    /** `users`, keyed by Firebase uid. */
    var users: map<string, UserDoc>
    /** `properties`, keyed by `_id`. */
    var properties: map<string, Property>
    /** `wishlist`, in insertion order. */
    var wishlist: seq<WishEntry>
    /** `offers`, keyed by `_id`. */
    var offers: map<string, Offer>

    /**
     * The store's invariant: document ids are well formed and unique, at most one
     * wishlist entry per (userId, propertyId) and at most one offer per
     * (propertyId, buyerId).
     */
    ghost predicate Valid()
      reads this
    {
      && UniqueDocIds(users)
      && WishlistUnique(wishlist)
      && OnePerPair(offers)
    }

    constructor (users: map<string, UserDoc>, properties: map<string, Property>,
                 wishlist: seq<WishEntry>, offers: map<string, Offer>)
      requires UniqueDocIds(users)
      requires WishlistUnique(wishlist) && OnePerPair(offers)
      ensures Valid()
      ensures this.users == users && this.properties == properties
      ensures this.wishlist == wishlist && this.offers == offers
    {
      this.users := users;
      this.properties := properties;
      this.wishlist := wishlist;
      this.offers := offers;
    }

    /** `verifyRole(required)`: the caller passes iff its user document has one of the roles. */
    method VerifyRole(caller: string, required: set<Role>) returns (r: Outcome)
      ensures r == Done <==> caller in users && users[caller].role in required
      ensures r != Done ==> r == Failed(Forbidden)
    {
      if !Allows(users, caller, required) {
        return Failed(Forbidden);
      }
      return Done;
    }

    /** `POST /properties`: insert the body as a new property awaiting verification. */
    method CreateProperty(caller: string, body: Property, newId: string) returns (r: Outcome)
      requires Valid()
      requires IsObjectId(newId) && newId !in properties
      modifies this`properties
      ensures Valid()
      ensures r == Done <==> Allows(users, caller, EditorRoles)
      ensures r != Done ==> r == Failed(Forbidden) && properties == old(properties)
      ensures r == Done ==> properties == old(properties)[newId := Submitted(body)]
      ensures r == Done ==>
        && properties[newId].verification == VerificationPending
        && !properties[newId].isAdvertised
        && properties[newId].dealStatus == NoDeal
        && properties[newId].agentId == body.agentId
        && properties[newId].status == body.status
    {
      r := VerifyRole(caller, EditorRoles);
      if r != Done {
        return;
      }
      properties := properties[newId := Submitted(body)];
    }

    /** `PUT /properties/:id`: `$set` the body on the caller's own property. */
    method UpdateProperty(caller: string, id: string, patch: PropertyPatch) returns (r: Outcome)
      requires Valid()
      modifies this`properties
      ensures Valid()
      ensures !Allows(users, caller, EditorRoles) ==> r == Failed(Forbidden)
      ensures Allows(users, caller, EditorRoles) && !IsObjectId(id) ==> r == Failed(BadRequest(InvalidPropertyId))
      ensures Allows(users, caller, EditorRoles) && IsObjectId(id) ==>
        r == if OwnedBy(old(properties), id, caller) then Done else Failed(NotFound)
      ensures r != Done ==> properties == old(properties)
      ensures r == Done ==> id in old(properties) && properties == old(properties)[id := Patched(old(properties)[id], patch)]
      ensures properties.Keys == old(properties).Keys
      ensures forall k :: k in old(properties) && (k != id || !OwnedBy(old(properties), k, caller)) ==>
        properties[k] == old(properties)[k]
    {
      r := VerifyRole(caller, EditorRoles);
      if r != Done {
        return;
      }
      if !IsObjectId(id) {
        return Failed(BadRequest(InvalidPropertyId));
      }
      // updateOne({_id: id, agentId: caller}); updatedAt always changes, so a match is a modification
      if !OwnedBy(properties, id, caller) {
        return Failed(NotFound);
      }
      properties := properties[id := Patched(properties[id], patch)];
    }

    /** `DELETE /properties/:id`: delete the caller's own property. */
    method DeleteProperty(caller: string, id: string) returns (r: Outcome)
      requires Valid()
      modifies this`properties
      ensures Valid()
      ensures !Allows(users, caller, EditorRoles) ==> r == Failed(Forbidden)
      ensures Allows(users, caller, EditorRoles) && !IsObjectId(id) ==> r == Failed(BadRequest(InvalidPropertyId))
      ensures Allows(users, caller, EditorRoles) && IsObjectId(id) ==>
        r == if OwnedBy(old(properties), id, caller) then Done else Failed(NotFound)
      ensures r != Done ==> properties == old(properties)
      ensures r == Done ==> properties == old(properties) - {id}
      ensures forall k :: k in old(properties) && (k != id || !OwnedBy(old(properties), k, caller)) ==>
        k in properties && properties[k] == old(properties)[k]
    {
      r := VerifyRole(caller, EditorRoles);
      if r != Done {
        return;
      }
      if !IsObjectId(id) {
        return Failed(BadRequest(InvalidPropertyId));
      }
      if !OwnedBy(properties, id, caller) {
        return Failed(NotFound);
      }
      properties := properties - {id};
    }

    /**
     * `PATCH /admin/properties/verify/:id` (verdict `Verified`) and
     * `PATCH /admin/properties/reject/:id` (verdict `VerificationRejected`).
     */
    method ReviewProperty(caller: string, id: string, verdict: Verification) returns (r: Outcome)
      requires Valid()
      requires verdict == Verified || verdict == VerificationRejected
      modifies this`properties
      ensures Valid()
      ensures !Allows(users, caller, AdminRoles) ==> r == Failed(Forbidden)
      ensures Allows(users, caller, AdminRoles) && !IsObjectId(id) ==> r == Failed(BadRequest(InvalidPropertyId))
      ensures Allows(users, caller, AdminRoles) && IsObjectId(id) ==>
        r == if id in old(properties) then Done else Failed(NotFound)
      ensures r != Done ==> properties == old(properties)
      ensures r == Done ==>
        id in old(properties) && properties == old(properties)[id := old(properties)[id].(verification := verdict)]
    {
      r := VerifyRole(caller, AdminRoles);
      if r != Done {
        return;
      }
      if !IsObjectId(id) {
        return Failed(BadRequest(InvalidPropertyId));
      }
      if id !in properties {
        return Failed(NotFound);
      }
      properties := properties[id := properties[id].(verification := verdict)];
    }

    /**
     * `PATCH /admin/advertise-property/:id` (flag true) and
     * `PATCH /admin/unadvertise-property/:id` (flag false). An id that matches no
     * property still answers with success.
     */
    method SetAdvertised(caller: string, id: string, flag: bool) returns (r: Outcome)
      requires Valid()
      modifies this`properties
      ensures Valid()
      ensures !Allows(users, caller, AdminRoles) ==> r == Failed(Forbidden)
      ensures Allows(users, caller, AdminRoles) ==> r == if IsObjectId(id) then Done else Failed(ServerError)
      ensures r != Done ==> properties == old(properties)
      ensures r == Done ==> properties == Advertised(old(properties), id, flag)
      ensures properties.Keys == old(properties).Keys
      ensures r == Done && id in properties ==> properties[id].isAdvertised == flag
      ensures forall k :: k in old(properties) && k != id ==> properties[k] == old(properties)[k]
    {
      r := VerifyRole(caller, AdminRoles);
      if r != Done {
        return;
      }
      if !IsObjectId(id) {
        // new ObjectId(id) throws inside the try block
        return Failed(ServerError);
      }
      properties := Advertised(properties, id, flag);
    }

    /**
     * `PATCH /admin/users/:id/fraud`: set the role of the user document with `_id`
     * `userDocId` to 'fraud', then delete every property whose agentId is the uid
     * given in the body. The two ids are independent inputs.
     */
    method MarkFraud(caller: string, userDocId: string, agentUid: string) returns (r: Outcome)
      requires Valid()
      modifies this`users, this`properties
      ensures Valid()
      ensures !Allows(old(users), caller, AdminRoles) ==> r == Failed(Forbidden)
      ensures Allows(old(users), caller, AdminRoles) ==> r == if IsObjectId(userDocId) then Done else Failed(Crash)
      ensures r != Done ==> users == old(users) && properties == old(properties)
      ensures r == Done ==> users == Demoted(old(users), userDocId)
      ensures r == Done ==> properties == WithoutAgent(old(properties), agentUid)
      ensures r == Done ==> forall k :: k in properties ==> properties[k].agentId != agentUid
    {
      r := VerifyRole(caller, AdminRoles);
      if r != Done {
        return;
      }
      if !IsObjectId(userDocId) {
        // new ObjectId(id) throws and the handler has no try block
        return Failed(Crash);
      }
      users := Demoted(users, userDocId);
      properties := WithoutAgent(properties, agentUid);
    }

    /** `POST /wishlist`: add (userId, propertyId) unless it is already there. */
    method AddToWishlist(caller: string, userId: string, propertyId: string) returns (r: Outcome)
      requires Valid()
      modifies this`wishlist
      ensures Valid()
      ensures !Allows(users, caller, BuyerRoles) ==> r == Failed(Forbidden)
      ensures Allows(users, caller, BuyerRoles) && (!Present(userId) || !Present(propertyId)) ==>
        r == Failed(BadRequest(MissingFields))
      ensures Allows(users, caller, BuyerRoles) && Present(userId) && Present(propertyId) ==>
        r == if WishEntry(userId, propertyId) in old(wishlist) then Failed(BadRequest(AlreadyWishlisted)) else Done
      ensures r != Done ==> wishlist == old(wishlist)
      ensures r == Done ==> wishlist == old(wishlist) + [WishEntry(userId, propertyId)]
    {
      r := VerifyRole(caller, BuyerRoles);
      if r != Done {
        return;
      }
      if !Present(userId) || !Present(propertyId) {
        return Failed(BadRequest(MissingFields));
      }
      var entry := WishEntry(userId, propertyId);
      if entry in wishlist {
        return Failed(BadRequest(AlreadyWishlisted));
      }
      AppendKeepsUnique(wishlist, entry);
      wishlist := wishlist + [entry];
    }

    /** `DELETE /wishlist`: delete the (userId, propertyId) entry; 404 when nothing was deleted. */
    method RemoveFromWishlist(caller: string, userId: string, propertyId: string) returns (r: Outcome)
      requires Valid()
      modifies this`wishlist
      ensures Valid()
      ensures !Allows(users, caller, BuyerRoles) ==> r == Failed(Forbidden)
      ensures Allows(users, caller, BuyerRoles) && (!Present(userId) || !Present(propertyId)) ==>
        r == Failed(BadRequest(MissingFields))
      ensures Allows(users, caller, BuyerRoles) && Present(userId) && Present(propertyId) ==>
        r == if WishEntry(userId, propertyId) in old(wishlist) then Done else Failed(NotFound)
      ensures r != Done ==> wishlist == old(wishlist)
      ensures r == Done ==> wishlist == RemoveFirst(old(wishlist), WishEntry(userId, propertyId))
      ensures WishEntry(userId, propertyId) !in wishlist || wishlist == old(wishlist)
      ensures forall x :: x != WishEntry(userId, propertyId) ==> (x in wishlist <==> x in old(wishlist))
    {
      r := VerifyRole(caller, BuyerRoles);
      if r != Done {
        return;
      }
      if !Present(userId) || !Present(propertyId) {
        return Failed(BadRequest(MissingFields));
      }
      var entry := WishEntry(userId, propertyId);
      var before := |wishlist|;
      RemoveFirstRemoves(wishlist, entry);
      RemoveFirstKeepsUnique(wishlist, entry);
      wishlist := RemoveFirst(wishlist, entry);
      if |wishlist| == before {
        return Failed(NotFound);
      }
    }

    /**
     * `POST /offers`: check the six required fields, then that the buyer has no
     * offer on the property, then the amount against the body's price range;
     * insert the offer as pending and drop the buyer's wishlist entry for the property.
     */
    method CreateOffer(caller: string, req: OfferRequest, newId: string) returns (r: Outcome)
      requires Valid()
      requires IsObjectId(newId) && newId !in offers
      modifies this`offers, this`wishlist
      ensures Valid()
      ensures !Allows(users, caller, BuyerRoles) ==> r == Failed(Forbidden)
      ensures Allows(users, caller, BuyerRoles) && MissingOfferField(req) ==> r == Failed(BadRequest(MissingFields))
      ensures (Allows(users, caller, BuyerRoles) && !MissingOfferField(req) &&
               HasOffer(old(offers), req.propertyId, req.buyerId)) ==> r == Failed(BadRequest(AlreadyOffered))
      ensures (Allows(users, caller, BuyerRoles) && !MissingOfferField(req) &&
               !HasOffer(old(offers), req.propertyId, req.buyerId)) ==>
        r == if OutOfRange(req.offerAmount, req.minPrice, req.maxPrice) then Failed(BadRequest(AmountOutOfRange)) else Done
      ensures r != Done ==> offers == old(offers) && wishlist == old(wishlist)
      ensures r == Done ==> offers == old(offers)[newId := NewOffer(req)]
      ensures r == Done ==> offers[newId].status == Pending && Pair(offers[newId]) == (req.propertyId, req.buyerId)
      ensures r == Done ==> wishlist == RemoveFirst(old(wishlist), WishEntry(req.buyerId, req.propertyId))
      ensures r == Done ==> WishEntry(req.buyerId, req.propertyId) !in wishlist
      ensures forall x :: x != WishEntry(req.buyerId, req.propertyId) ==> (x in wishlist <==> x in old(wishlist))
    {
      r := VerifyRole(caller, BuyerRoles);
      if r != Done {
        return;
      }
      if MissingOfferField(req) {
        return Failed(BadRequest(MissingFields));
      }
      if HasOffer(offers, req.propertyId, req.buyerId) {
        return Failed(BadRequest(AlreadyOffered));
      }
      if OutOfRange(req.offerAmount, req.minPrice, req.maxPrice) {
        return Failed(BadRequest(AmountOutOfRange));
      }
      InsertKeepsOnePerPair(offers, newId, NewOffer(req));
      offers := offers[newId := NewOffer(req)];
      var entry := WishEntry(req.buyerId, req.propertyId);
      RemoveFirstRemoves(wishlist, entry);
      RemoveFirstKeepsUnique(wishlist, entry);
      wishlist := RemoveFirst(wishlist, entry);
    }

    /**
     * `PATCH /agent/offers/:id/status`: set the offer's status, mirror it on the
     * property named in the body, and on 'accepted' reject every other offer on
     * that property. Neither the offer's existence nor the body's property id is
     * checked against the stored offer.
     */
    method DecideOffer(caller: string, id: string, status: string, propertyId: string) returns (r: Outcome)
      requires Valid()
      modifies this`offers, this`properties
      ensures Valid()
      ensures !Allows(users, caller, AgentRoles) ==> r == Failed(Forbidden)
      ensures Allows(users, caller, AgentRoles) && !IsDecision(status) ==> r == Failed(BadRequest(InvalidStatus))
      ensures Allows(users, caller, AgentRoles) && IsDecision(status) && !Present(propertyId) ==>
        r == Failed(BadRequest(MissingPropertyId))
      ensures Allows(users, caller, AgentRoles) && IsDecision(status) && Present(propertyId) ==>
        r == if IsObjectId(id) && IsObjectId(propertyId) then Done else Failed(ServerError)
      ensures !(Allows(users, caller, AgentRoles) && IsDecision(status) && Present(propertyId) && IsObjectId(id)) ==>
        offers == old(offers) && properties == old(properties)
      ensures r == Failed(ServerError) && IsObjectId(id) ==>
        offers == WithStatus(old(offers), id, DecisionOf(status)) && properties == old(properties)
      ensures r == Done ==> properties == Mirrored(old(properties), propertyId, DecisionOf(status))
      ensures r == Done ==> offers == Decided(old(offers), id, DecisionOf(status), propertyId)
      ensures offers.Keys == old(offers).Keys
      ensures r == Done && id in offers ==> offers[id].status == DecisionOf(status)
      ensures r == Done && propertyId in properties ==> properties[propertyId].status == Some(DecisionOf(status))
      ensures r == Done && status == "accepted" ==>
        forall k :: k in offers && k != id && old(offers)[k].propertyId == propertyId ==> offers[k].status == Rejected
      ensures r == Done ==>
        forall k :: k in offers && k != id && (old(offers)[k].propertyId != propertyId || status == "rejected") ==>
          offers[k] == old(offers)[k]
    {
      r := VerifyRole(caller, AgentRoles);
      if r != Done {
        return;
      }
      if !IsDecision(status) {
        return Failed(BadRequest(InvalidStatus));
      }
      if !Present(propertyId) {
        return Failed(BadRequest(MissingPropertyId));
      }
      if !IsObjectId(id) {
        // new ObjectId(id) throws inside the try block
        return Failed(ServerError);
      }
      var decision := DecisionOf(status);
      ghost var before := offers;
      offers := WithStatus(offers, id, decision);
      SamePairsKeepOnePerPair(before, offers);
      if !IsObjectId(propertyId) {
        // new ObjectId(propertyId) throws after the offer was written
        return Failed(ServerError);
      }
      properties := Mirrored(properties, propertyId, decision);
      if decision == Accepted {
        RejectOtherOffers(propertyId, id);
      }
      SamePairsKeepOnePerPair(before, offers);
    }

    /** The `updateMany` of the decision handler, one offer document at a time. */
    method RejectOtherOffers(propertyId: string, keep: string)
      modifies this`offers
      ensures offers == RejectedSiblings(old(offers), propertyId, keep)
    {
      ghost var before := offers;
      var todo := offers.Keys;
      while todo != {}
        invariant todo <= before.Keys && offers.Keys == before.Keys
        invariant forall k :: k in before && k !in todo ==> offers[k] == RejectedSiblings(before, propertyId, keep)[k]
        invariant forall k :: k in todo ==> offers[k] == before[k]
        decreases todo
      {
        var k :| k in todo;
        if k != keep && offers[k].propertyId == propertyId {
          offers := offers[k := offers[k].(status := Rejected)];
        }
        todo := todo - {k};
      }
    }

    /**
     * `POST /create-checkout-session`: the buyer of an accepted offer asks Stripe for
     * a session charging the offer amount. Nothing in the store changes. The handler
     * reads `offer.buyerId` before testing whether the offer was found, so a missing
     * offer throws outside any try block; the later 'Offer is not accepted' branch
     * can never be reached.
     */
    method CreateCheckoutSession(caller: string, offerId: string) returns (r: Result<SessionRequest>)
      ensures !Present(offerId) ==> r == Err(BadRequest(MissingOfferId))
      ensures Present(offerId) && !(IsObjectId(offerId) && offerId in offers) ==> r == Err(Crash)
      ensures IsObjectId(offerId) && offerId in offers && offers[offerId].buyerId != caller ==> r == Err(Forbidden)
      ensures (IsObjectId(offerId) && offerId in offers && offers[offerId].buyerId == caller &&
               offers[offerId].status != Accepted) ==> r == Err(NotFound)
      ensures r.Ok? <==> IsObjectId(offerId) && offerId in offers && offers[offerId].buyerId == caller &&
                         offers[offerId].status == Accepted
      ensures r.Ok? ==> r.value == SessionRequest(UnitAmount(offers[offerId].offerAmount), 1, offerId, caller,
                                                  offers[offerId].propertyId)
      ensures r.Ok? ==> RecordedAmount(r.value.unitAmount * r.value.quantity) == offers[offerId].offerAmount as real
      ensures r != Err(BadRequest(OfferNotAccepted))
    {
      if !Present(offerId) {
        return Err(BadRequest(MissingOfferId));
      }
      if !IsObjectId(offerId) {
        // new ObjectId(offerId) throws; there is no try block
        return Err(Crash);
      }
      if offerId !in offers {
        // findOne returned null and offer.buyerId throws
        return Err(Crash);
      }
      var offer := offers[offerId];
      if offer.buyerId != caller {
        return Err(Forbidden);
      }
      if offer.status != Accepted {
        return Err(NotFound);
      }
      return Ok(SessionRequest(UnitAmount(offer.offerAmount), 1, offerId, offer.buyerId, offer.propertyId));
    }

    /**
     * `POST /payments/verify` with the session Stripe returns and the current time:
     * unless the session is paid nothing happens; otherwise the offer becomes paid
     * and bought and its property sold.
     */
    method VerifyPayment(s: Session, now: int) returns (r: Outcome)
      requires Valid()
      modifies this`offers, this`properties
      ensures Valid()
      ensures s.paymentStatus != "paid" ==> r == Failed(BadRequest(PaymentNotCompleted))
      ensures s.paymentStatus == "paid" && s.offerId.None? ==> r == Failed(NotFound)
      ensures s.paymentStatus == "paid" && s.offerId.Some? && !IsObjectId(s.offerId.value) ==> r == Failed(Crash)
      ensures (s.paymentStatus == "paid" && s.offerId.Some? && IsObjectId(s.offerId.value) &&
               s.offerId.value !in old(offers)) ==> r == Failed(NotFound)
      ensures !CommitsTo(s, old(offers)) ==> offers == old(offers) && properties == old(properties)
      ensures CommitsTo(s, old(offers)) ==>
        var id := s.offerId.value;
        && offers == old(offers)[id := Paid(old(offers)[id], s, now)]
        && r == (if IsObjectId(old(offers)[id].propertyId) then Done else Failed(Crash))
        && properties == (if r == Done then MarkedSold(old(properties), old(offers)[id].propertyId)
                          else old(properties))
      ensures r == Done ==>
        && s.offerId.Some? && s.offerId.value in offers
        && offers[s.offerId.value].status == Bought && offers[s.offerId.value].isPaid
        && offers[s.offerId.value].amount == Some(RecordedAmount(s.amountTotal))
        && (offers[s.offerId.value].propertyId in properties ==>
              properties[offers[s.offerId.value].propertyId].dealStatus == Sold)
    {
      if s.paymentStatus != "paid" {
        return Failed(BadRequest(PaymentNotCompleted));
      }
      if s.offerId.None? {
        // new ObjectId(undefined) generates a fresh id, which no offer has
        return Failed(NotFound);
      }
      var id := s.offerId.value;
      if !IsObjectId(id) {
        // new ObjectId(offerId) throws; there is no try block
        return Failed(Crash);
      }
      if id !in offers {
        return Failed(NotFound);
      }
      var offer := offers[id];
      ghost var before := offers;
      offers := offers[id := Paid(offer, s, now)];
      SamePairsKeepOnePerPair(before, offers);
      if !IsObjectId(offer.propertyId) {
        // new ObjectId(offer.propertyId) throws after the offer was written
        return Failed(Crash);
      }
      properties := MarkedSold(properties, offer.propertyId);
      r := Done;
    }
  }
}
