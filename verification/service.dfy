/**
 * The payment orchestrator `PaymentService.accept`: count the request, run
 * the authorization pipeline, then record the outcome, all inside one
 * transaction. A failed save rolls the transaction back, so no record becomes
 * visible; the request counter is a metric outside the transaction and still
 * moves. The tracker notification is an observation and is not modelled.
 */
module PaymentService {
  import opened Wrappers
  import opened PaymentDomain
  import opened Authorization
  import opened OutcomeRecorder
  import opened PaymentRecords

  /** The state `accept` acts on: the committed records and the request counter. */
  datatype Service = Service(payments: seq<Payment>, requests: nat)

  /** The result of one `accept` call: the caller's context afterwards, the new state, and whether it committed. */
  datatype Accepted = Accepted(ctx: Context, service: Service, committed: bool)

  /**
   * `accept`: `process`, then `store`. `saved` is the record store's answer to
   * the save: the fresh identifier it assigned, or `None` when it failed.
   */
  function Accept(svc: Service, ctx: Context, threshold: int, o: Oracles, now: Long, saved: Option<PaymentId>): (r: Accepted)
    // exactly one request is counted, whatever happens
    ensures r.service.requests == svc.requests + 1
    // the transaction commits exactly when the save succeeded, adding exactly one record
    ensures r.committed <==> saved.Some?
    ensures r.committed ==> |r.service.payments| == |svc.payments| + 1 && r.service.payments[..|svc.payments|] == svc.payments
    ensures !r.committed ==> r.service.payments == svc.payments && r.ctx.id == ctx.id
    // the committed record is a snapshot of the caller's final context, under the assigned id
    ensures r.committed ==> r.ctx.id == saved && Reflects(r.service.payments[|svc.payments|], r.ctx)
    // the final context is the pipeline's, timed against `now`, with the id the store gave back
    ensures r.ctx == Process(ctx, threshold, o).ctx.(responseTime := SubLong(now, ctx.responseTime), id := r.ctx.id)
    // consequences of the line above with the frame of `Process`: the recorded
    // decision is the pipeline's, and the request data is untouched
    ensures r.ctx.responseCode == Process(ctx, threshold, o).ctx.responseCode
    ensures r.ctx.cardType == Process(ctx, threshold, o).ctx.cardType
    ensures SameRequest(ctx, r.ctx)
  {
    var counted := svc.(requests := svc.requests + 1);
    var processed := Process(ctx, threshold, o).ctx;
    var stored := Store(processed, now, saved);
    match stored.record
    case None => Accepted(stored.ctx, counted, false)
    case Some(p) => Accepted(stored.ctx, counted.(payments := Save(svc.payments, p)), true)
  }

  /**
   * Reading back after a committed `accept`: `findById` with the context's new
   * id returns the record just saved, whose fields are the context's final
   * values; `count` grew by one; earlier records are still found as before.
   */
  lemma AcceptThenFindById(svc: Service, ctx: Context, threshold: int, o: Oracles, now: Long, id: PaymentId, other: PaymentId)
    requires id !in Ids(svc.payments)
    ensures
      var r := Accept(svc, ctx, threshold, o, now, Some(id));
      && r.ctx.id == Some(id)
      && Lookup(r.service.payments, id).Some?
      && Reflects(Lookup(r.service.payments, id).value, r.ctx)
      && |r.service.payments| == |svc.payments| + 1
      && (other != id ==> Lookup(r.service.payments, other) == Lookup(svc.payments, other))
  {
    var r := Accept(svc, ctx, threshold, o, now, Some(id));
    var p := r.service.payments[|svc.payments|];
    assert r.service.payments == Save(svc.payments, p);
    LookupAfterSave(svc.payments, p, id);
    LookupAfterSave(svc.payments, p, other);
  }

  /** Atomicity: a failed save leaves every lookup and the count as they were. */
  lemma FailedSaveLeavesNoRecord(svc: Service, ctx: Context, threshold: int, o: Oracles, now: Long, id: PaymentId)
    ensures
      var r := Accept(svc, ctx, threshold, o, now, None);
      && !r.committed
      && Lookup(r.service.payments, id) == Lookup(svc.payments, id)
      && |r.service.payments| == |svc.payments|
      && r.ctx.id == ctx.id
  {
  }

  /** Repeated `accept` calls keep the record identifiers unique. */
  lemma AcceptKeepsIdsUnique(svc: Service, ctx: Context, threshold: int, o: Oracles, now: Long, saved: Option<PaymentId>)
    requires UniqueIds(svc.payments)
    requires saved.Some? ==> saved.value !in Ids(svc.payments)
    ensures UniqueIds(Accept(svc, ctx, threshold, o, now, saved).service.payments)
  {
  }

  /** An inactive terminal: the decline is still persisted, with no card type and no bank call. */
  lemma InactivePosIsRecorded(svc: Service, ctx: Context, threshold: int, o: Oracles, now: Long, id: PaymentId)
    requires Undecided(ctx) && !o.posActive
    ensures
      var r := Accept(svc, ctx, threshold, o, now, Some(id));
      var p := r.service.payments[|svc.payments|];
      && r.committed
      && p.responseCode == Some(InactivePos)
      && p.cardType.None? && !p.bankCalled && !p.authorized && p.authorId.None?
  {
  }

  /** A valid card for an amount up to the threshold is approved and persisted without a bank call. */
  lemma SmallAmountIsApprovedWithoutBank(svc: Service, ctx: Context, threshold: int, o: Oracles, now: Long, id: PaymentId)
    requires Undecided(ctx)
    requires o.posActive && o.cardNumberValid && o.cardType != Unknown && !o.blackListed
    requires ctx.amount <= threshold
    ensures
      var r := Accept(svc, ctx, threshold, o, now, Some(id));
      var p := r.service.payments[|svc.payments|];
      && r.committed
      && p.responseCode.None?
      && p.cardType == Some(o.cardType)
      && !p.bankCalled && !p.authorized && p.authorId.None?
  {
  }

  /** A bank refusal above the threshold is persisted with the mode's decline code and the bank's fields. */
  lemma BankRefusalIsRecorded(svc: Service, ctx: Context, threshold: int, o: Oracles, now: Long, id: PaymentId)
    requires NeedsBank(ctx, threshold, o) && !o.bank.approved
    ensures
      var r := Accept(svc, ctx, threshold, o, now, Some(id));
      var p := r.service.payments[|svc.payments|];
      && r.committed
      && p.responseCode == Some(if ctx.processingMode == Standard then AuthorizationDenied else AmountExceeded)
      && p.bankCalled == o.bank.bankCalled
      && p.authorized == o.bank.authorized
      && p.authorId == o.bank.authorId
  {
  }
}
