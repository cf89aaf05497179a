/**
 * The documents of the marketplace's MongoDB collections (users, properties,
 * wishlist, offers), the request bodies and payment-session records the
 * offer/purchase handlers read, and the responses they send, as values.
 */
module Records {

  datatype Option<T> = None | Some(value: T)

  /** The `role` field of a `users` document; `NoRole` is a document without one. */
  datatype Role = User | Agent | Admin | SuperAdmin | Fraud | NoRole

  /**
   * A `users` document. The model keys the collection by the Firebase uid, which
   * assumes one document per uid; `docId` is the document's own `_id`, which the
   * admin routes use to address it.
   */
  datatype UserDoc = UserDoc(docId: string, role: Role)

  /** `verificationStatus` of a property: 'pending', 'verified' or 'rejected'. */
  datatype Verification = VerificationPending | Verified | VerificationRejected

  /** `dealStatus` of a property: null until a payment is verified, then 'sold'. */
  datatype DealStatus = NoDeal | Sold

  /** `status` of an offer: 'pending', 'accepted', 'rejected' or 'bought'. */
  datatype OfferStatus = Pending | Accepted | Rejected | Bought

  /**
   * The fields of a `properties` document that the workflow reads or writes.
   * `status` is the field the decision handler mirrors the latest decision into.
   */
  datatype Property = Property(
    agentId: string,
    verification: Verification,
    isAdvertised: bool,
    dealStatus: DealStatus,
    status: Option<OfferStatus>)

  /** The body of `PUT /properties/:id`: each `Some` field is `$set` on the document. */
  datatype PropertyPatch = PropertyPatch(
    agentId: Option<string>,
    verification: Option<Verification>,
    isAdvertised: Option<bool>,
    dealStatus: Option<DealStatus>,
    status: Option<OfferStatus>)

  /** A `wishlist` document. */
  datatype WishEntry = WishEntry(userId: string, propertyId: string)

  /**
   * An `offers` document. `minPrice`/`maxPrice` are copied from the request body
   * (`None` when the body left them out); `isPaid` is false while the field is
   * absent; the payment fields are `None` until a payment is verified.
   */
  datatype Offer = Offer(
    propertyId: string,
    propertyTitle: string,
    propertyLocation: string,
    agentId: string,
    buyerId: string,
    minPrice: Option<int>,
    maxPrice: Option<int>,
    offerAmount: int,
    status: OfferStatus,
    isPaid: bool,
    amount: Option<real>,
    transactionId: Option<string>,
    sessionId: Option<string>,
    paidAt: Option<int>)

  /**
   * The body of `POST /offers`. An absent string field is the empty string and an
   * absent `offerAmount` is 0: JavaScript treats both as falsy.
   */
  datatype OfferRequest = OfferRequest(
    propertyId: string,
    agentId: string,
    propertyTitle: string,
    propertyLocation: string,
    buyerId: string,
    minPrice: Option<int>,
    maxPrice: Option<int>,
    offerAmount: int)

  /**
   * What `POST /create-checkout-session` asks Stripe for: one line item of
   * `unitAmount` minor units (poisha) times `quantity`, with the offer, buyer and
   * property ids as metadata.
   */
  datatype SessionRequest = SessionRequest(
    unitAmount: int,
    quantity: nat,
    offerId: string,
    buyerId: string,
    propertyId: string)

  /**
   * The fields of a retrieved Stripe checkout session that `POST /payments/verify`
   * reads. `offerId` is the session's `metadata.offerId`, `None` when the metadata
   * has none.
   */
  datatype Session = Session(
    id: string,
    paymentStatus: string,
    offerId: Option<string>,
    paymentIntent: string,
    amountTotal: int)

  /** The reasons behind the handlers' 400 responses. */
  datatype BadInput =
    | InvalidPropertyId    // 'Invalid property ID'
    | MissingFields        // 'Missing required fields'
    | AlreadyWishlisted    // 'Item already in wishlist'
    | AlreadyOffered       // 'You already made an offer'
    | AmountOutOfRange     // 'Offer must be between ... BDT'
    | InvalidStatus        // 'Invalid status'
    | MissingPropertyId    // 'Missing propertyId'
    | MissingOfferId       // 'Offer ID is required'
    | OfferNotAccepted     // 'Offer is not accepted'
    | PaymentNotCompleted  // 'Payment not completed'

  datatype Failure =
    | BadRequest(why: BadInput)  // HTTP 400
    | Forbidden                  // HTTP 403
    | NotFound                   // HTTP 404
    | ServerError                // HTTP 500: an exception the handler's try/catch answered
    | Crash                      // an exception outside any try/catch: the handler sends no response of its own

  /** The response of a handler that only reports success or failure. */
  datatype Outcome = Done | Failed(failure: Failure)

  /** The response of a handler that returns a value on success. */
  datatype Result<T> = Ok(value: T) | Err(failure: Failure)
}
