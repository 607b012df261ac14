/**
 * The authorization pipeline of `PaymentService.process`: an ordered,
 * short-circuiting sequence of checks that sets at most one response code.
 * The collaborators (POS validator, card validator, bank authorizer) are not
 * called here; their answers for this transaction are given as `Oracles`.
 * The outcome records which checks consulted their collaborator, in order,
 * and every write of the response code.
 */
module Authorization {
  import opened Wrappers
  import opened PaymentDomain

  /** What the bank authorizer answers and what it leaves in the context's bank fields. */
  datatype BankReply = BankReply(approved: bool, bankCalled: bool, authorized: bool, authorId: Option<string>)

  /** The collaborators' answers for one transaction. */
  datatype Oracles = Oracles(
    posActive: bool,        // PosValidator.isActive(posId)
    cardNumberValid: bool,  // CardValidator.checkCardNumber(cardNumber)
    cardType: CardType,     // CardValidator.checkCardType(cardNumber)
    blackListed: bool,      // CardValidator.isBlackListed(cardNumber)
    bank: BankReply)        // BankAuthorService.authorize(context)

  /** The checks, one per collaborator question. */
  datatype Check = PosActive | CardNumberValid | CardTypeKnown | NotBlackListed | BankAuthorization

  /** The order in which `process` asks its questions. */
  const Pipeline: seq<Check> := [PosActive, CardNumberValid, CardTypeKnown, NotBlackListed, BankAuthorization]

  /**
   * The processed context, the checks whose collaborator was asked (in the
   * order asked), and the values written to the response code (in order).
   */
  datatype Outcome = Outcome(ctx: Context, consulted: seq<Check>, codeWrites: seq<ResponseCode>)

  /** The decline code for a bank refusal: it depends on the processing mode only. */
  function BankDeclineCode(mode: ProcessingMode): (code: ResponseCode)
    ensures code == AuthorizationDenied <==> mode == Standard
    ensures code == AuthorizationDenied || code == AmountExceeded
  {
    if mode == Standard then AuthorizationDenied else AmountExceeded
  }

  /** The context after the bank authorizer ran: it may have rewritten the three bank fields. */
  function AfterBank(ctx: Context, reply: BankReply): Context
  {
    ctx.(bankCalled := reply.bankCalled, authorized := reply.authorized, authorId := reply.authorId)
  }

  /** The POS, card-number and card-type checks all pass: the card type gets recorded. */
  predicate CardAccepted(o: Oracles)
  {
    o.posActive && o.cardNumberValid && o.cardType != Unknown
  }

  /** True when the pipeline reaches the bank: every card check passed and the amount is strictly above the threshold. */
  predicate NeedsBank(ctx: Context, threshold: int, o: Oracles)
  {
    CardAccepted(o) && !o.blackListed && ctx.amount > threshold
  }

  /** Every check that `process` makes passes. */
  predicate ChecksPass(ctx: Context, threshold: int, o: Oracles)
  {
    CardAccepted(o) && !o.blackListed && (ctx.amount > threshold ==> o.bank.approved)
  }

  /**
   * `process`: the ordered checks, each returning as soon as it fails.
   * The card type is recorded as soon as it is known, before the blacklist
   * question; the bank is asked only for amounts strictly above `threshold`.
   */
  function Process(ctx: Context, threshold: int, o: Oracles): (r: Outcome)
    // the collaborators are asked in pipeline order, stopping at the first failing check
    ensures r.consulted <= Pipeline && |r.consulted| >= 1
    // the response code is written at most once, exactly when some check fails, and holds that value
    ensures |r.codeWrites| <= 1
    ensures r.codeWrites == [] <==> ChecksPass(ctx, threshold, o)
    ensures r.ctx.responseCode == if r.codeWrites == [] then ctx.responseCode else Some(r.codeWrites[0])
    // only the pipeline's own fields move: response code, card type and the bank's three fields
    ensures SameRequest(ctx, r.ctx) && r.ctx.responseTime == ctx.responseTime && r.ctx.id == ctx.id
  {
    if !o.posActive then
      Outcome(ctx.(responseCode := Some(InactivePos)), [PosActive], [InactivePos])
    else if !o.cardNumberValid then
      Outcome(ctx.(responseCode := Some(InvalidCardNumber)), [PosActive, CardNumberValid], [InvalidCardNumber])
    else if o.cardType == Unknown then
      Outcome(ctx.(responseCode := Some(UnknownCardType)),
              [PosActive, CardNumberValid, CardTypeKnown], [UnknownCardType])
    else
      var typed := ctx.(cardType := Some(o.cardType));
      var asked := [PosActive, CardNumberValid, CardTypeKnown, NotBlackListed];
      if o.blackListed then
        Outcome(typed.(responseCode := Some(BlackListedCardNumber)), asked, [BlackListedCardNumber])
      else if ctx.amount > threshold then
        var authorized := AfterBank(typed, o.bank);
        if !o.bank.approved then
          var code := BankDeclineCode(authorized.processingMode);
          Outcome(authorized.(responseCode := Some(code)), asked + [BankAuthorization], [code])
        else
          Outcome(authorized, asked + [BankAuthorization], [])
      else
        Outcome(typed, asked, [])
  }

  /**
   * Short-circuit ordering: the collaborators are asked in pipeline order,
   * each exactly when every earlier check passed; the bank only for amounts
   * strictly above the threshold.
   */
  lemma ProcessConsultsInOrder(ctx: Context, threshold: int, o: Oracles)
    ensures |Process(ctx, threshold, o).consulted| >= 2 <==> o.posActive
    ensures |Process(ctx, threshold, o).consulted| >= 3 <==> o.posActive && o.cardNumberValid
    ensures |Process(ctx, threshold, o).consulted| >= 4 <==> CardAccepted(o)
    ensures |Process(ctx, threshold, o).consulted| == 5 <==> NeedsBank(ctx, threshold, o)
  {
  }

  /** The card type is recorded, with the classified value, exactly when the pipeline got past the card type check. */
  lemma ProcessRecordsCardType(ctx: Context, threshold: int, o: Oracles)
    ensures CardAccepted(o) ==> Process(ctx, threshold, o).ctx.cardType == Some(o.cardType)
    ensures !CardAccepted(o) ==> Process(ctx, threshold, o).ctx.cardType == ctx.cardType
    ensures CardAccepted(o) <==> NotBlackListed in Process(ctx, threshold, o).consulted
  {
  }

  /** The bank fields change only through the bank authorizer. */
  lemma ProcessBankFieldsOnlyFromBank(ctx: Context, threshold: int, o: Oracles)
    ensures BankAuthorization in Process(ctx, threshold, o).consulted <==> NeedsBank(ctx, threshold, o)
    ensures !NeedsBank(ctx, threshold, o) ==>
      var r := Process(ctx, threshold, o).ctx;
      r.bankCalled == ctx.bankCalled && r.authorized == ctx.authorized && r.authorId == ctx.authorId
    ensures NeedsBank(ctx, threshold, o) ==>
      var r := Process(ctx, threshold, o).ctx;
      r.bankCalled == o.bank.bankCalled && r.authorized == o.bank.authorized && r.authorId == o.bank.authorId
  {
  }

  /** An inactive terminal is declined before any card question or bank call. */
  lemma InactivePosDeclines(ctx: Context, threshold: int, o: Oracles)
    requires !o.posActive
    ensures Process(ctx, threshold, o).ctx.responseCode == Some(InactivePos)
    ensures Process(ctx, threshold, o).consulted == [PosActive]
    ensures Process(ctx, threshold, o).ctx.cardType == ctx.cardType
    ensures Process(ctx, threshold, o).ctx.bankCalled == ctx.bankCalled
    ensures Process(ctx, threshold, o).ctx.authorized == ctx.authorized && Process(ctx, threshold, o).ctx.authorId == ctx.authorId
  {
  }

  /** A structurally invalid card number is declined before the type, blacklist and bank questions. */
  lemma InvalidCardNumberDeclines(ctx: Context, threshold: int, o: Oracles)
    requires o.posActive && !o.cardNumberValid
    ensures Process(ctx, threshold, o).ctx.responseCode == Some(InvalidCardNumber)
    ensures Process(ctx, threshold, o).consulted == [PosActive, CardNumberValid]
    ensures Process(ctx, threshold, o).ctx.cardType == ctx.cardType
    ensures Process(ctx, threshold, o).ctx.bankCalled == ctx.bankCalled
  {
  }

  /** An unclassifiable card is declined and its type is not recorded. */
  lemma UnknownCardTypeDeclines(ctx: Context, threshold: int, o: Oracles)
    requires o.posActive && o.cardNumberValid && o.cardType == Unknown
    ensures Process(ctx, threshold, o).ctx.responseCode == Some(UnknownCardType)
    ensures Process(ctx, threshold, o).consulted == [PosActive, CardNumberValid, CardTypeKnown]
    ensures Process(ctx, threshold, o).ctx.cardType == ctx.cardType
    ensures Process(ctx, threshold, o).ctx.bankCalled == ctx.bankCalled
  {
  }

  /** A blacklisted card is declined, keeps its recorded type, and the bank is never asked. */
  lemma BlackListedCardDeclines(ctx: Context, threshold: int, o: Oracles)
    requires CardAccepted(o) && o.blackListed
    ensures Process(ctx, threshold, o).ctx.responseCode == Some(BlackListedCardNumber)
    ensures BankAuthorization !in Process(ctx, threshold, o).consulted
    ensures Process(ctx, threshold, o).ctx.cardType == Some(o.cardType)
    ensures Process(ctx, threshold, o).ctx.bankCalled == ctx.bankCalled
    ensures Process(ctx, threshold, o).ctx.authorized == ctx.authorized
    ensures Process(ctx, threshold, o).ctx.authorId == ctx.authorId
  {
  }

  /**
   * The threshold is strict: an amount up to and including it is approved
   * without the bank, whatever the bank would have answered.
   */
  lemma AmountWithinThresholdSkipsBank(ctx: Context, threshold: int, o: Oracles)
    requires CardAccepted(o) && !o.blackListed
    requires ctx.amount <= threshold
    ensures Process(ctx, threshold, o).ctx.responseCode == ctx.responseCode
    ensures BankAuthorization !in Process(ctx, threshold, o).consulted
    ensures Process(ctx, threshold, o).ctx.bankCalled == ctx.bankCalled
    ensures Process(ctx, threshold, o).ctx.authorized == ctx.authorized
    ensures Process(ctx, threshold, o).ctx.authorId == ctx.authorId
  {
  }

  /**
   * Above the threshold the bank decides: a refusal gives AUTHORIZATION_DENIED
   * in STANDARD mode and AMOUNT_EXCEEDED in every other mode; an approval
   * leaves the code as it was. The bank fields are the authorizer's.
   */
  lemma BankDecides(ctx: Context, threshold: int, o: Oracles)
    requires NeedsBank(ctx, threshold, o)
    ensures o.bank.approved ==> Process(ctx, threshold, o).ctx.responseCode == ctx.responseCode
    ensures !o.bank.approved && ctx.processingMode == Standard ==>
      Process(ctx, threshold, o).ctx.responseCode == Some(AuthorizationDenied)
    ensures !o.bank.approved && ctx.processingMode != Standard ==>
      Process(ctx, threshold, o).ctx.responseCode == Some(AmountExceeded)
    ensures Process(ctx, threshold, o).ctx.bankCalled == o.bank.bankCalled
    ensures Process(ctx, threshold, o).ctx.authorized == o.bank.authorized
    ensures Process(ctx, threshold, o).ctx.authorId == o.bank.authorId
  {
  }
}
