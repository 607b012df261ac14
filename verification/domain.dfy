/**
 * The data the payment service works on: the in-flight processing context,
 * the persisted payment record, and the enumerations they carry.
 */
module PaymentDomain {
  import opened Wrappers

  /** Java `long` range; millisecond time stamps live here. */
  const MinLong: int := -0x8000_0000_0000_0000
  const MaxLong: int := 0x7fff_ffff_ffff_ffff
  const TwoTo64: int := 0x1_0000_0000_0000_0000

  type Long = x: int | MinLong <= x <= MaxLong

  /** Reduces an integer into the `long` range modulo 2^64, as two's-complement arithmetic does. */
  function WrapLong(x: int): (r: Long)
    ensures (r - x) % TwoTo64 == 0
    ensures MinLong <= x <= MaxLong ==> r == x
  {
    var m := (x - MinLong) % TwoTo64;
    m + MinLong
  }

  /** Java's `a - b` on two `long` values. */
  function SubLong(a: Long, b: Long): (r: Long)
    ensures MinLong <= a - b <= MaxLong ==> r == a - b
    ensures (r - (a - b)) % TwoTo64 == 0
  {
    WrapLong(a - b)
  }

  /** Card brand as classified by the card validator; `Unknown` is the explicit "cannot classify" answer. */
  datatype CardType = Unknown | Known(brand: string)

  /** Channel of the transaction; only `Standard` is distinguished by the decision logic. */
  datatype ProcessingMode = Standard | OtherMode(name: string)

  /**
   * The decline codes the pipeline can set. `UnknownCardType` is the
   * source's `UNKNWON_CARD_TYPE` (misspelt there).
   */
  datatype ResponseCode =
    | InactivePos
    | InvalidCardNumber
    | UnknownCardType
    | BlackListedCardNumber
    | AuthorizationDenied
    | AmountExceeded

  /** Identifier the record store assigns on save (a UUID in the source). */
  type PaymentId = nat

  /**
   * The mutable unit of work of one `accept` call, as an immutable value:
   * every step returns an updated copy. `responseCode == None` means approved.
   * On entry `responseTime` holds the start marker; after storing, the latency.
   */
  datatype Context = Context(
    posId: string,
    cardNumber: string,
    expiryDate: string,
    amount: int,
    processingMode: ProcessingMode,
    dateTime: int,
    responseTime: Long,
    cardType: Option<CardType>,
    responseCode: Option<ResponseCode>,
    bankCalled: bool,
    authorized: bool,
    authorId: Option<string>,
    id: Option<PaymentId>)

  /** A context as a caller hands it to `accept`: nothing decided yet. */
  predicate Undecided(ctx: Context)
  {
    && ctx.cardType.None?
    && ctx.responseCode.None?
    && !ctx.bankCalled
    && !ctx.authorized
    && ctx.authorId.None?
    && ctx.id.None?
  }

  /** The request data the caller supplies, which no step of the service rewrites. */
  predicate SameRequest(a: Context, b: Context)
  {
    && a.posId == b.posId
    && a.cardNumber == b.cardNumber
    && a.expiryDate == b.expiryDate
    && a.amount == b.amount
    && a.processingMode == b.processingMode
    && a.dateTime == b.dateTime
  }

  /** The persisted snapshot of a finished transaction. */
  datatype Payment = Payment(
    id: PaymentId,
    amount: int,
    cardNumber: string,
    expiryDate: string,
    responseCode: Option<ResponseCode>,
    processingMode: ProcessingMode,
    cardType: Option<CardType>,
    posId: string,
    dateTime: int,
    responseTime: Long,
    bankCalled: bool,
    authorized: bool,
    authorId: Option<string>)
}
