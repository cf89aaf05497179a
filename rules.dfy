/**
 * The pure rules behind the handlers: identifier validity, the role gate's
 * membership test, the offer range check, the amount arithmetic of checkout and
 * payment verification, the collection-wide updates the handlers issue, the
 * invariants the store keeps, and the lemmas about them.
 */
module Rules {
  import opened Records

  // ---------------------------------------------------------------- identifiers

  predicate IsHexDigit(c: char) {
    '0' <= c <= '9' || 'a' <= c <= 'f' || 'A' <= c <= 'F'
  }

  /**
   * `ObjectId.isValid` on a string, and the strings `new ObjectId(s)` accepts: 24 hex
   * digits. A valid id is never falsy, and no string of another length is valid.
   */
  predicate IsObjectId(s: string): (ok: bool)
    ensures ok ==> Present(s)
    ensures |s| != 24 ==> !ok
  {
    |s| == 24 && forall i :: 0 <= i < |s| ==> IsHexDigit(s[i])
  }

  // ------------------------------------------------------------------ role gate

  /** Roles admitted by `verifyRole(['agent', 'super-admin'])`. */
  const EditorRoles: set<Role> := {Agent, SuperAdmin}
  /** Roles admitted by `verifyRole(['admin', 'super-admin'])`. */
  const AdminRoles: set<Role> := {Admin, SuperAdmin}
  /** Roles admitted by `verifyRole(['user'])`. */
  const BuyerRoles: set<Role> := {User}
  /** Roles admitted by `verifyRole(['agent'])`. */
  const AgentRoles: set<Role> := {Agent}

  /** The role gate's test: a user with this uid exists and its role is one of the required ones. */
  predicate Allows(users: map<string, UserDoc>, uid: string, required: set<Role>) {
    uid in users && users[uid].role in required
  }

  /** No two user documents share an `_id`. */
  ghost predicate UniqueDocIds(users: map<string, UserDoc>) {
    forall u, v :: u in users && v in users && users[u].docId == users[v].docId ==> u == v
  }

  /** The users collection after `updateOne({_id: docId}, {$set: {role: 'fraud'}})`. */
  function Demoted(users: map<string, UserDoc>, docId: string): (r: map<string, UserDoc>)
    requires UniqueDocIds(users)
    ensures r.Keys == users.Keys
    ensures forall u :: u in r && users[u].docId == docId ==> r[u] == users[u].(role := Fraud)
    ensures forall u :: u in r && users[u].docId != docId ==> r[u] == users[u]
    ensures UniqueDocIds(r)
  {
    map u | u in users :: if users[u].docId == docId then users[u].(role := Fraud) else users[u]
  }

  // ----------------------------------------------------------------- properties

  /** Falsiness of a string field in JavaScript: absent or empty. */
  predicate Present(s: string) {
    s != ""
  }

  /** The document `POST /properties` inserts: the body with the three workflow fields reset. */
  function Submitted(body: Property): (p: Property)
    ensures p.verification == VerificationPending && !p.isAdvertised && p.dealStatus == NoDeal
    ensures p.agentId == body.agentId && p.status == body.status
  {
    body.(verification := VerificationPending, isAdvertised := false, dealStatus := NoDeal)
  }

  /** The property exists and belongs to the agent with this uid. */
  predicate OwnedBy(properties: map<string, Property>, id: string, uid: string) {
    id in properties && properties[id].agentId == uid
  }

  /** A property after `$set`ting the fields a `PUT /properties/:id` body carries. */
  function Patched(p: Property, patch: PropertyPatch): (q: Property)
    ensures q.agentId == (if patch.agentId.Some? then patch.agentId.value else p.agentId)
    ensures q.verification == (if patch.verification.Some? then patch.verification.value else p.verification)
    ensures q.isAdvertised == (if patch.isAdvertised.Some? then patch.isAdvertised.value else p.isAdvertised)
    ensures q.dealStatus == (if patch.dealStatus.Some? then patch.dealStatus.value else p.dealStatus)
    ensures q.status == (if patch.status.Some? then patch.status else p.status)
    ensures patch == PropertyPatch(None, None, None, None, None) ==> q == p
  {
    Property(
      if patch.agentId.Some? then patch.agentId.value else p.agentId,
      if patch.verification.Some? then patch.verification.value else p.verification,
      if patch.isAdvertised.Some? then patch.isAdvertised.value else p.isAdvertised,
      if patch.dealStatus.Some? then patch.dealStatus.value else p.dealStatus,
      if patch.status.Some? then patch.status else p.status)
  }

  /** `updateOne({_id: id}, {$set: {isAdvertised}})`. */
  function Advertised(properties: map<string, Property>, id: string, flag: bool): (r: map<string, Property>)
    ensures r.Keys == properties.Keys
    ensures id in r ==> r[id] == properties[id].(isAdvertised := flag)
    ensures forall k :: k in r && k != id ==> r[k] == properties[k]
  {
    if id in properties then properties[id := properties[id].(isAdvertised := flag)] else properties
  }

  /** `updateOne({_id: id}, {$set: {status}})` issued by the offer decision. */
  function Mirrored(properties: map<string, Property>, id: string, d: OfferStatus): (r: map<string, Property>)
    ensures r.Keys == properties.Keys
    ensures id in r ==> r[id] == properties[id].(status := Some(d))
    ensures forall k :: k in r && k != id ==> r[k] == properties[k]
  {
    if id in properties then properties[id := properties[id].(status := Some(d))] else properties
  }

  /** `updateOne({_id: id}, {$set: {dealStatus: 'sold'}})` issued by payment verification. */
  function MarkedSold(properties: map<string, Property>, id: string): (r: map<string, Property>)
    ensures r.Keys == properties.Keys
    ensures id in r ==> r[id] == properties[id].(dealStatus := Sold)
    ensures forall k :: k in r && k != id ==> r[k] == properties[k]
  {
    if id in properties then properties[id := properties[id].(dealStatus := Sold)] else properties
  }

  /** `deleteMany({agentId: uid})`. */
  function WithoutAgent(properties: map<string, Property>, uid: string): (r: map<string, Property>)
    ensures forall k :: k in r <==> k in properties && properties[k].agentId != uid
    ensures forall k :: k in r ==> r[k] == properties[k]
  {
    map k | k in properties && properties[k].agentId != uid :: properties[k]
  }

  // ------------------------------------------------------------------- wishlist

  /** At most one wishlist document per (userId, propertyId) pair. */
  ghost predicate WishlistUnique(w: seq<WishEntry>) {
    forall e :: multiset(w)[e] <= 1
  }

  /** `deleteOne(e)` on the wishlist: removes the first matching document, if any. */
  function RemoveFirst(w: seq<WishEntry>, e: WishEntry): (r: seq<WishEntry>)
    ensures |r| == if e in w then |w| - 1 else |w|
    ensures forall x :: x in r ==> x in w
  {
    if w == [] then []
    else if w[0] == e then w[1..]
    else [w[0]] + RemoveFirst(w[1..], e)
  }

  /** `deleteOne` removes exactly one matching document when there is one, and nothing else. */
  lemma {:induction false} RemoveFirstCount(w: seq<WishEntry>, e: WishEntry)
    ensures multiset(RemoveFirst(w, e)) == multiset(w) - multiset{e}
  {
    if w != [] {
      assert w == [w[0]] + w[1..];
      if w[0] != e {
        RemoveFirstCount(w[1..], e);
      }
    }
  }

  /** Deleting a wishlist entry keeps the entries unique. */
  lemma RemoveFirstKeepsUnique(w: seq<WishEntry>, e: WishEntry)
    requires WishlistUnique(w)
    ensures WishlistUnique(RemoveFirst(w, e))
  {
    RemoveFirstCount(w, e);
  }

  /** On a unique wishlist, deleting `e` removes `e` and keeps every other entry. */
  lemma RemoveFirstRemoves(w: seq<WishEntry>, e: WishEntry)
    requires WishlistUnique(w)
    ensures e !in RemoveFirst(w, e)
    ensures forall x :: x != e ==> (x in RemoveFirst(w, e) <==> x in w)
    ensures e in w <==> |RemoveFirst(w, e)| == |w| - 1
    ensures e !in w <==> RemoveFirst(w, e) == w
  {
    RemoveFirstCount(w, e);
    assert multiset(RemoveFirst(w, e))[e] == 0;
    forall x | x != e
      ensures x in RemoveFirst(w, e) <==> x in w
    {
      assert multiset(RemoveFirst(w, e))[x] == multiset(w)[x];
    }
    assert |multiset(RemoveFirst(w, e))| == |RemoveFirst(w, e)|;
    if e !in w {
      RemoveFirstAbsent(w, e);
    }
  }

  /** Deleting an entry that is not there changes nothing. */
  lemma {:induction false} RemoveFirstAbsent(w: seq<WishEntry>, e: WishEntry)
    requires e !in w
    ensures RemoveFirst(w, e) == w
  {
    if w != [] {
      assert w == [w[0]] + w[1..];
      RemoveFirstAbsent(w[1..], e);
    }
  }

  /** Inserting an entry that is not there yet keeps the entries unique. */
  lemma AppendKeepsUnique(w: seq<WishEntry>, e: WishEntry)
    requires WishlistUnique(w) && e !in w
    ensures WishlistUnique(w + [e])
  {
  }

  // --------------------------------------------------------------------- offers

  /** The (propertyId, buyerId) pair that identifies a buyer's offer on a property. */
  function Pair(o: Offer): (string, string) {
    (o.propertyId, o.buyerId)
  }

  /** At most one offer per (propertyId, buyerId) pair. */
  ghost predicate OnePerPair(offers: map<string, Offer>) {
    forall a, b :: a in offers && b in offers && Pair(offers[a]) == Pair(offers[b]) ==> a == b
  }

  /** `offerCollection.findOne({propertyId, buyerId})` finds a document. */
  predicate HasOffer(offers: map<string, Offer>, propertyId: string, buyerId: string) {
    exists k :: k in offers && offers[k].propertyId == propertyId && offers[k].buyerId == buyerId
  }

  /**
   * One of the six fields `POST /offers` requires is falsy. A request that passes
   * yields an offer with a non-empty (propertyId, buyerId) pair and a non-zero amount.
   */
  predicate MissingOfferField(req: OfferRequest): (missing: bool)
    ensures !missing ==>
      Present(NewOffer(req).propertyId) && Present(NewOffer(req).buyerId) && NewOffer(req).offerAmount != 0
  {
    !Present(req.propertyId) || !Present(req.agentId) || req.offerAmount == 0 ||
    !Present(req.buyerId) || !Present(req.propertyTitle) || !Present(req.propertyLocation)
  }

  /**
   * `offerAmount < minPrice || offerAmount > maxPrice` with the bounds taken from the
   * request body. JavaScript compares a number with `undefined` as false, so an
   * absent bound never rejects.
   */
  function OutOfRange(amount: int, minPrice: Option<int>, maxPrice: Option<int>): (out: bool)
    ensures minPrice.Some? && maxPrice.Some? ==> (!out <==> minPrice.value <= amount <= maxPrice.value)
    ensures minPrice.None? && maxPrice.None? ==> !out
    ensures minPrice.None? && maxPrice.Some? ==> (!out <==> amount <= maxPrice.value)
    ensures minPrice.Some? && maxPrice.None? ==> (!out <==> minPrice.value <= amount)
  {
    (minPrice.Some? && amount < minPrice.value) || (maxPrice.Some? && amount > maxPrice.value)
  }

  /** The document `POST /offers` inserts. */
  function NewOffer(req: OfferRequest): (o: Offer)
    ensures o.status == Pending && !o.isPaid
    ensures o.amount == None && o.transactionId == None && o.sessionId == None && o.paidAt == None
    ensures Pair(o) == (req.propertyId, req.buyerId) && o.agentId == req.agentId
    ensures o.offerAmount == req.offerAmount && o.minPrice == req.minPrice && o.maxPrice == req.maxPrice
  {
    Offer(req.propertyId, req.propertyTitle, req.propertyLocation, req.agentId, req.buyerId,
          req.minPrice, req.maxPrice, req.offerAmount, Pending, false, None, None, None, None)
  }

  /** Inserting an offer for a pair that has none keeps one offer per pair. */
  lemma InsertKeepsOnePerPair(offers: map<string, Offer>, id: string, o: Offer)
    requires OnePerPair(offers) && id !in offers
    requires !HasOffer(offers, o.propertyId, o.buyerId)
    ensures OnePerPair(offers[id := o])
  {
  }

  /** Two offer collections with the same ids and the same pair under each id. */
  ghost predicate SamePairs(a: map<string, Offer>, b: map<string, Offer>) {
    a.Keys == b.Keys && forall k :: k in a ==> Pair(b[k]) == Pair(a[k])
  }

  /** Updates that change no offer's pair keep one offer per pair. */
  lemma SamePairsKeepOnePerPair(a: map<string, Offer>, b: map<string, Offer>)
    requires OnePerPair(a) && SamePairs(a, b)
    ensures OnePerPair(b)
  {
  }

  /** The two statuses the decision handler accepts. */
  predicate IsDecision(status: string) {
    status == "accepted" || status == "rejected"
  }

  function DecisionOf(status: string): (d: OfferStatus)
    requires IsDecision(status)
    ensures d == Accepted <==> status == "accepted"
    ensures d == Rejected <==> status == "rejected"
  {
    if status == "accepted" then Accepted else Rejected
  }

  /** `updateOne({_id: id}, {$set: {status}})` on the offers: no-op when the id matches nothing. */
  function WithStatus(offers: map<string, Offer>, id: string, d: OfferStatus): (r: map<string, Offer>)
    ensures SamePairs(offers, r)
    ensures id in r ==> r[id] == offers[id].(status := d)
    ensures forall k :: k in r && k != id ==> r[k] == offers[k]
  {
    if id in offers then offers[id := offers[id].(status := d)] else offers
  }

  /**
   * `updateMany({propertyId, _id: {$ne: keep}}, {$set: {status: 'rejected'}})`:
   * every other offer on the property is rejected, whatever its status was.
   */
  function RejectedSiblings(offers: map<string, Offer>, propertyId: string, keep: string): (r: map<string, Offer>)
    ensures SamePairs(offers, r)
    ensures forall k :: k in r && k != keep && offers[k].propertyId == propertyId ==>
      r[k] == offers[k].(status := Rejected)
    ensures forall k :: k in r && (k == keep || offers[k].propertyId != propertyId) ==> r[k] == offers[k]
  {
    map k | k in offers ::
      if k != keep && offers[k].propertyId == propertyId then offers[k].(status := Rejected) else offers[k]
  }

  /**
   * The offers after a decision that reached the handler's writes: the decided offer
   * carries the decision; on acceptance every other offer on the named property is
   * rejected; every other offer is untouched, and no offer appears, disappears or
   * changes its pair.
   */
  function Decided(offers: map<string, Offer>, id: string, d: OfferStatus, propertyId: string): (r: map<string, Offer>)
    ensures SamePairs(offers, r)
    ensures id in r ==> r[id] == offers[id].(status := d)
    ensures d == Accepted ==>
      forall k :: k in r && k != id && offers[k].propertyId == propertyId ==> r[k] == offers[k].(status := Rejected)
    ensures forall k :: k in r && k != id && (offers[k].propertyId != propertyId || d != Accepted) ==>
      r[k] == offers[k]
  {
    if d == Accepted then RejectedSiblings(WithStatus(offers, id, Accepted), propertyId, id)
    else WithStatus(offers, id, d)
  }

  /** Accepted or bought: the offer holds the property. */
  predicate Committed(o: Offer) {
    o.status == Accepted || o.status == Bought
  }

  /** At most one offer on the property holds it. */
  ghost predicate SingleCommitted(offers: map<string, Offer>, propertyId: string) {
    forall a, b ::
      (a in offers && b in offers && offers[a].propertyId == propertyId && offers[b].propertyId == propertyId &&
       Committed(offers[a]) && Committed(offers[b])) ==> a == b
  }

  /**
   * Accepting an offer with the offer's own property id leaves that offer as the
   * only one holding the property.
   */
  lemma AcceptLeavesSingleCommitment(offers: map<string, Offer>, id: string, propertyId: string)
    requires id in offers && offers[id].propertyId == propertyId
    ensures var r := RejectedSiblings(WithStatus(offers, id, Accepted), propertyId, id);
      r[id].status == Accepted && SingleCommitted(r, propertyId)
  {
  }

  /**
   * The decision handler takes the property id from the request body. Accepting an
   * offer while naming a different property rejects that other property's offers
   * and leaves an offer that already held the accepted offer's property in place:
   * two offers then hold the same property.
   */
  lemma ForeignPropertyIdKeepsRival(offers: map<string, Offer>, id: string, rival: string, propertyId: string)
    requires id in offers && rival in offers && rival != id
    requires offers[rival].propertyId == offers[id].propertyId && Committed(offers[rival])
    requires propertyId != offers[id].propertyId
    ensures var r := RejectedSiblings(WithStatus(offers, id, Accepted), propertyId, id);
      r[id].status == Accepted && r[rival] == offers[rival] && !SingleCommitted(r, offers[id].propertyId)
  {
  }

  // -------------------------------------------------------------------- payment

  /** `unit_amount: offer.offerAmount * 100`: taka to poisha. */
  function UnitAmount(offerAmount: int): (u: int)
    ensures RecordedAmount(u) == offerAmount as real
  {
    offerAmount * 100
  }

  /** `session.amount_total / 100`: JavaScript division, so the result need not be whole. */
  function RecordedAmount(amountTotal: int): (a: real)
    ensures a * 100.0 == amountTotal as real
    ensures amountTotal >= 0 ==> a >= 0.0
  {
    amountTotal as real / 100.0
  }

  /** A paid session whose metadata names an existing offer: payment verification writes. */
  predicate CommitsTo(s: Session, offers: map<string, Offer>) {
    s.paymentStatus == "paid" && s.offerId.Some? && IsObjectId(s.offerId.value) && s.offerId.value in offers
  }

  /** The offer document after the payment verification's `$set`. */
  function Paid(o: Offer, s: Session, now: int): (p: Offer)
    ensures p.status == Bought && p.isPaid
    ensures p.amount == Some(RecordedAmount(s.amountTotal)) && p.transactionId == Some(s.paymentIntent)
    ensures Pair(p) == Pair(o) && p.offerAmount == o.offerAmount
  {
    o.(isPaid := true, transactionId := Some(s.paymentIntent), amount := Some(RecordedAmount(s.amountTotal)),
       paidAt := Some(now), sessionId := Some(s.id), status := Bought)
  }

  /**
   * Payment verification is not idempotent: a second commit of the same session
   * rewrites `paidAt` and leaves everything else as the first commit set it.
   */
  lemma PaidTwiceRewritesPaidAt(o: Offer, s: Session, first: int, second: int)
    ensures Paid(Paid(o, s, first), s, second) == Paid(o, s, first).(paidAt := Some(second))
    ensures first != second ==> Paid(Paid(o, s, first), s, second) != Paid(o, s, first)
  {
  }

  /**
   * Payment verification does not look at the offer's status. A session checked out
   * while `stale` was accepted can still be paid after the agent has accepted `id`
   * on the same property: the acceptance rejects `stale`, the payment turns it into
   * bought, and two offers then hold the property.
   */
  lemma StaleSessionRevivesRejected(offers: map<string, Offer>, id: string, stale: string, s: Session, now: int)
    requires id in offers && stale in offers && stale != id
    requires offers[stale].propertyId == offers[id].propertyId
    ensures var decided := Decided(offers, id, Accepted, offers[id].propertyId);
      var paid := decided[stale := Paid(decided[stale], s, now)];
      && decided[stale].status == Rejected
      && paid[stale].status == Bought && paid[id].status == Accepted
      && !SingleCommitted(paid, offers[id].propertyId)
  {
    var decided := Decided(offers, id, Accepted, offers[id].propertyId);
    var paid := decided[stale := Paid(decided[stale], s, now)];
    assert Committed(paid[stale]) && Committed(paid[id]);
  }
}
