/**
 * The outcome recorder of `PaymentService.store`: it snapshots the processed
 * context into a payment record, turns the context's start marker into the
 * elapsed time, and writes back the identifier the record store assigned.
 * The clock reading `now` and the store's answer are parameters.
 */
module OutcomeRecorder {
  import opened Wrappers
  import opened PaymentDomain

  /** A record is a faithful snapshot of a context: every shared field agrees. */
  predicate Reflects(p: Payment, ctx: Context)
  {
    && p.amount == ctx.amount
    && p.cardNumber == ctx.cardNumber
    && p.expiryDate == ctx.expiryDate
    && p.processingMode == ctx.processingMode
    && p.posId == ctx.posId
    && p.dateTime == ctx.dateTime
    && ctx.id == Some(p.id)
    && p.responseCode == ctx.responseCode
    && p.cardType == ctx.cardType
    && p.responseTime == ctx.responseTime
    && p.bankCalled == ctx.bankCalled
    && p.authorized == ctx.authorized
    && p.authorId == ctx.authorId
  }

  /** What storing leaves behind: the updated context and, when the save went through, the saved record. */
  datatype Stored = Stored(ctx: Context, record: Option<Payment>)

  /**
   * `store`: `saved` is the identifier the record store assigned, or `None`
   * when saving failed; in that case the elapsed time has already been
   * written into the context but no record exists and the id stays unset.
   */
  function Store(ctx: Context, now: Long, saved: Option<PaymentId>): (r: Stored)
    // the start marker becomes the elapsed time, with Java long arithmetic
    ensures MinLong <= now - ctx.responseTime <= MaxLong ==> r.ctx.responseTime == now - ctx.responseTime
    ensures (r.ctx.responseTime - (now - ctx.responseTime)) % TwoTo64 == 0
    // nothing else in the context moves except the id, which is the store's
    ensures r.ctx == ctx.(responseTime := r.ctx.responseTime, id := r.ctx.id)
    ensures saved.Some? ==> r.ctx.id == saved && r.record.Some? && r.record.value.id == saved.value
    ensures saved.None? ==> r.ctx.id == ctx.id && r.record.None?
    // the record is a snapshot of the final context
    ensures r.record.Some? ==> Reflects(r.record.value, r.ctx)
  {
    var elapsed := SubLong(now, ctx.responseTime);
    var timed := ctx.(responseTime := elapsed);
    match saved
    case None => Stored(timed, None)
    case Some(id) =>
      var authorId := if ctx.authorId.Some? then Some(ctx.authorId.value) else None;
      var payment := Payment(id, ctx.amount, ctx.cardNumber, ctx.expiryDate, ctx.responseCode, ctx.processingMode,
                             ctx.cardType, ctx.posId, ctx.dateTime, elapsed, ctx.bankCalled, ctx.authorized, authorId);
      Stored(timed.(id := Some(id)), Some(payment))
  }
}
