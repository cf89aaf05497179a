/**
 * Client runs of the store against its contracts alone: the price range, the
 * duplicate offer, the wishlist promotion, the sibling rejection and the
 * checkout-to-payment path of the marketplace's offer workflow.
 */
module Scenarios {
  import opened Records
  import opened Rules
  import opened Handlers

  const BuyerUid := "buyer-b"
  const OtherBuyerUid := "buyer-c"
  const AgentUid := "agent-a"
  const PropertyP := "64b000000000000000000001"
  const OfferO1 := "64c000000000000000000001"
  const OfferO2 := "64c000000000000000000002"
  const OfferO3 := "64c000000000000000000003"

  function People(): map<string, UserDoc> {
    map[BuyerUid := UserDoc("64a000000000000000000001", User),
        OtherBuyerUid := UserDoc("64a000000000000000000002", User),
        AgentUid := UserDoc("64a000000000000000000003", Agent)]
  }

  function Listing(): map<string, Property> {
    map[PropertyP := Property(AgentUid, Verified, false, NoDeal, None)]
  }

  function Bid(buyer: string, amount: int): OfferRequest {
    OfferRequest(PropertyP, AgentUid, "Lake view flat", "Dhaka", buyer, Some(100000), Some(200000), amount)
  }

  lemma IdsWellFormed()
    ensures IsObjectId(PropertyP) && IsObjectId(OfferO1) && IsObjectId(OfferO2) && IsObjectId(OfferO3)
  {
  }

  lemma PeopleWellFormed()
    ensures UniqueDocIds(People())
  {
  }

  /** An offer below the body's price range is refused and changes nothing. */
  method OfferBelowRange() {
    PeopleWellFormed();
    IdsWellFormed();
    var store := new Store(People(), Listing(), [WishEntry(BuyerUid, PropertyP)], map[]);
    var r := store.CreateOffer(BuyerUid, Bid(BuyerUid, 50000), OfferO1);
    assert r == Failed(BadRequest(AmountOutOfRange));
    assert store.offers == map[] && store.wishlist == [WishEntry(BuyerUid, PropertyP)];
  }

  /** An offer inside the range is stored as pending and takes the place of the buyer's wishlist entry. */
  method OfferInRange() {
    PeopleWellFormed();
    IdsWellFormed();
    var store := new Store(People(), Listing(), [WishEntry(BuyerUid, PropertyP)], map[]);
    var r := store.CreateOffer(BuyerUid, Bid(BuyerUid, 150000), OfferO1);
    assert r == Done;
    assert store.offers[OfferO1].status == Pending;
    assert WishEntry(BuyerUid, PropertyP) !in store.wishlist;
  }

  function OneBid(): map<string, Offer> {
    map[OfferO1 := NewOffer(Bid(BuyerUid, 150000))]
  }

  lemma OneBidWellFormed()
    ensures OnePerPair(OneBid())
    ensures HasOffer(OneBid(), PropertyP, BuyerUid) && OfferO2 !in OneBid()
  {
    IdsWellFormed();
    assert OneBid()[OfferO1].propertyId == PropertyP;
  }

  /** A buyer's second offer on the same property is refused. */
  method SecondOfferRefused() {
    PeopleWellFormed();
    OneBidWellFormed();
    IdsWellFormed();
    var store := new Store(People(), Listing(), [], OneBid());
    var r := store.CreateOffer(BuyerUid, Bid(BuyerUid, 160000), OfferO2);
    assert r == Failed(BadRequest(AlreadyOffered));
  }

  /** Offers are made by users with the 'user' role only. */
  method AgentCannotOffer() {
    PeopleWellFormed();
    IdsWellFormed();
    var store := new Store(People(), Listing(), [], map[]);
    var r := store.CreateOffer(AgentUid, Bid(AgentUid, 160000), OfferO1);
    assert r == Failed(Forbidden) && store.offers == map[];
  }

  function ThreeBids(): map<string, Offer> {
    map[OfferO1 := NewOffer(Bid(BuyerUid, 150000)),
        OfferO2 := NewOffer(Bid(OtherBuyerUid, 120000)),
        OfferO3 := NewOffer(Bid("buyer-d", 110000))]
  }

  lemma ThreeBidsWellFormed()
    ensures OnePerPair(ThreeBids())
  {
  }

  /** Accepting one of three pending offers on a property rejects the other two. */
  method AcceptRejectsSiblings() {
    PeopleWellFormed();
    ThreeBidsWellFormed();
    IdsWellFormed();
    var store := new Store(People(), Listing(), [], ThreeBids());
    var r := store.DecideOffer(AgentUid, OfferO1, "accepted", PropertyP);
    assert store.offers[OfferO2].status == Rejected && store.offers[OfferO3].status == Rejected;
  }

  /** The accepted offer and its property both carry the decision. */
  method AcceptIsMirrored() {
    PeopleWellFormed();
    ThreeBidsWellFormed();
    IdsWellFormed();
    var store := new Store(People(), Listing(), [], ThreeBids());
    var r := store.DecideOffer(AgentUid, OfferO1, "accepted", PropertyP);
    assert r == Done;
    assert store.offers[OfferO1].status == Accepted && store.properties[PropertyP].status == Some(Accepted);
  }

  /** The buyer checks out an accepted offer; the paid session records the offer amount and sells the property. */
  method CheckoutAndPay(paidAt: int, again: int) {
    PeopleWellFormed();
    IdsWellFormed();
    var accepted := NewOffer(Bid(BuyerUid, 150000)).(status := Accepted);
    var store := new Store(People(), Listing(), [], map[OfferO1 := accepted]);

    var denied := store.CreateCheckoutSession(OtherBuyerUid, OfferO1);
    assert denied == Err(Forbidden);

    var checkout := store.CreateCheckoutSession(BuyerUid, OfferO1);
    assert checkout.Ok?;
    var request := checkout.value;
    var session := Session("cs_1", "paid", Some(request.offerId), "pi_1", request.unitAmount * request.quantity);

    var r := store.VerifyPayment(session, paidAt);
    assert r == Done;
    assert store.offers[OfferO1].status == Bought && store.offers[OfferO1].isPaid;
    assert store.offers[OfferO1].amount == Some(150000 as real);
    assert store.properties[PropertyP].dealStatus == Sold;

    r := store.VerifyPayment(session, again);
    assert r == Done && store.offers[OfferO1].paidAt == Some(again);
  }

  function AcceptedAndRival(): map<string, Offer> {
    map[OfferO1 := NewOffer(Bid(BuyerUid, 150000)).(status := Accepted),
        OfferO2 := NewOffer(Bid(OtherBuyerUid, 160000))]
  }

  lemma AcceptedAndRivalWellFormed()
    ensures OnePerPair(AcceptedAndRival())
  {
  }

  /** While the buyer's offer is accepted, checkout succeeds and yields a session for it. */
  method StaleSessionCheckout() {
    PeopleWellFormed();
    AcceptedAndRivalWellFormed();
    var store := new Store(People(), Listing(), [], AcceptedAndRival());
    IdsWellFormed();
    var checkout := store.CreateCheckoutSession(BuyerUid, OfferO1);
    assert checkout == Ok(SessionRequest(15000000, 1, OfferO1, BuyerUid, PropertyP));
  }

  /** The agent then accepts the rival offer on the same property, which rejects the buyer's offer. */
  method RivalAcceptedAfterCheckout() {
    PeopleWellFormed();
    AcceptedAndRivalWellFormed();
    IdsWellFormed();
    var store := new Store(People(), Listing(), [], AcceptedAndRival());
    var r := store.DecideOffer(AgentUid, OfferO2, "accepted", PropertyP);
    assert store.offers[OfferO1].status == Rejected && store.offers[OfferO2].status == Accepted;
  }

  function RejectedAndAccepted(): map<string, Offer> {
    map[OfferO1 := NewOffer(Bid(BuyerUid, 150000)).(status := Rejected),
        OfferO2 := NewOffer(Bid(OtherBuyerUid, 160000)).(status := Accepted)]
  }

  lemma RejectedAndAcceptedWellFormed()
    ensures OnePerPair(RejectedAndAccepted())
  {
  }

  /**
   * The session from `StaleSessionCheckout` is still paid after that: the rejected
   * offer becomes bought while the rival stays accepted, so two offers hold the property.
   */
  method StaleSessionIsPaid(now: int) {
    PeopleWellFormed();
    RejectedAndAcceptedWellFormed();
    IdsWellFormed();
    var store := new Store(People(), Listing(), [], RejectedAndAccepted());
    var r := store.VerifyPayment(Session("cs_1", "paid", Some(OfferO1), "pi_1", 15000000), now);
    assert r == Done;
    assert store.offers[OfferO1].status == Bought && store.offers[OfferO2].status == Accepted;
    assert !SingleCommitted(store.offers, PropertyP);
  }
}
