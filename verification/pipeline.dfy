/**
 * A table-driven reading of the authorization pipeline: a list of checks run
 * one after the other, where the first failing check writes its decline code
 * and ends the run. It is defined independently of `Authorization.Process`;
 * `ProcessFollowsPipeline` proves the two agree on the source's check order.
 */
module CheckPipeline {
  import opened Wrappers
  import opened PaymentDomain
  import opened Authorization

  /** The effect of one check: the new context, the collaborator asked (if any), the code written (if any). */
  datatype Step = Step(ctx: Context, consulted: seq<Check>, codeWrites: seq<ResponseCode>)

  /** A check ends the run exactly when it writes a code. */
  predicate Stops(s: Step)
  {
    s.codeWrites != []
  }

  /** One check against the collaborators' answers. */
  function Apply(c: Check, ctx: Context, threshold: int, o: Oracles): (s: Step)
    // a check asks at most its own collaborator, and writes at most one code, which the context then holds
    ensures s.consulted == [] || s.consulted == [c]
    ensures |s.codeWrites| <= 1
    ensures Stops(s) ==> s.consulted == [c] && s.ctx.responseCode == Some(s.codeWrites[0])
    ensures !Stops(s) ==> s.ctx.responseCode == ctx.responseCode
    ensures SameRequest(ctx, s.ctx) && s.ctx.responseTime == ctx.responseTime && s.ctx.id == ctx.id
  {
    match c
    case PosActive =>
      if o.posActive then Step(ctx, [c], [])
      else Step(ctx.(responseCode := Some(InactivePos)), [c], [InactivePos])
    case CardNumberValid =>
      if o.cardNumberValid then Step(ctx, [c], [])
      else Step(ctx.(responseCode := Some(InvalidCardNumber)), [c], [InvalidCardNumber])
    case CardTypeKnown =>
      if o.cardType == Unknown then Step(ctx.(responseCode := Some(UnknownCardType)), [c], [UnknownCardType])
      else Step(ctx.(cardType := Some(o.cardType)), [c], [])
    case NotBlackListed =>
      if o.blackListed then Step(ctx.(responseCode := Some(BlackListedCardNumber)), [c], [BlackListedCardNumber])
      else Step(ctx, [c], [])
    case BankAuthorization =>
      if ctx.amount <= threshold then Step(ctx, [], [])
      else
        var after := AfterBank(ctx, o.bank);
        if o.bank.approved then Step(after, [c], [])
        else
          var code := BankDeclineCode(after.processingMode);
          Step(after.(responseCode := Some(code)), [c], [code])
  }

  /** Runs the checks in order, stopping at the first that fails. */
  function Run(checks: seq<Check>, ctx: Context, threshold: int, o: Oracles): (r: Outcome)
    decreases |checks|
  {
    if checks == [] then Outcome(ctx, [], [])
    else
      var s := Apply(checks[0], ctx, threshold, o);
      if Stops(s) then Outcome(s.ctx, s.consulted, s.codeWrites)
      else
        var rest := Run(checks[1..], s.ctx, threshold, o);
        Outcome(rest.ctx, s.consulted + rest.consulted, rest.codeWrites)
  }

  /**
   * Whatever the list of checks, the response code is written at most once,
   * the context holds the written value, and no more collaborators are asked
   * than there are checks.
   */
  lemma {:induction false} RunWritesCodeAtMostOnce(checks: seq<Check>, ctx: Context, threshold: int, o: Oracles)
    ensures |Run(checks, ctx, threshold, o).codeWrites| <= 1
    ensures
      var r := Run(checks, ctx, threshold, o);
      r.ctx.responseCode == if r.codeWrites == [] then ctx.responseCode else Some(r.codeWrites[0])
    ensures |Run(checks, ctx, threshold, o).consulted| <= |checks|
    decreases |checks|
  {
    if checks != [] {
      var s := Apply(checks[0], ctx, threshold, o);
      if !Stops(s) {
        RunWritesCodeAtMostOnce(checks[1..], s.ctx, threshold, o);
      }
    }
  }

  /** Every collaborator asked is one the list names, and asked no more often than the list names it. */
  lemma {:induction false} RunAsksOnlyListedChecks(checks: seq<Check>, ctx: Context, threshold: int, o: Oracles)
    ensures multiset(Run(checks, ctx, threshold, o).consulted) <= multiset(checks)
    decreases |checks|
  {
    if checks != [] {
      var s := Apply(checks[0], ctx, threshold, o);
      assert checks == [checks[0]] + checks[1..];
      assert multiset(checks) == multiset{checks[0]} + multiset(checks[1..]);
      assert multiset(s.consulted) <= multiset{checks[0]};
      if !Stops(s) {
        var rest := Run(checks[1..], s.ctx, threshold, o);
        RunAsksOnlyListedChecks(checks[1..], s.ctx, threshold, o);
        assert multiset(s.consulted + rest.consulted) == multiset(s.consulted) + multiset(rest.consulted);
      }
    }
  }

  /** Short-circuit: once a prefix of the checks has written a code, checks appended after it are never run. */
  lemma {:induction false} RunStopsAtFirstFailure(checks: seq<Check>, more: seq<Check>, ctx: Context, threshold: int, o: Oracles)
    requires Run(checks, ctx, threshold, o).codeWrites != []
    ensures Run(checks + more, ctx, threshold, o) == Run(checks, ctx, threshold, o)
    decreases |checks|
  {
    assert checks != [];
    assert (checks + more)[0] == checks[0];
    assert (checks + more)[1..] == checks[1..] + more;
    var s := Apply(checks[0], ctx, threshold, o);
    if !Stops(s) {
      RunStopsAtFirstFailure(checks[1..], more, s.ctx, threshold, o);
    }
  }

  /** The first three checks, on a card they accept, record the card type and hand over to the rest. */
  lemma RunAcceptsCard(ctx: Context, threshold: int, o: Oracles)
    requires CardAccepted(o)
    ensures
      var rest := Run(Pipeline[3..], ctx.(cardType := Some(o.cardType)), threshold, o);
      Run(Pipeline, ctx, threshold, o) ==
        Outcome(rest.ctx, [PosActive, CardNumberValid, CardTypeKnown] + rest.consulted, rest.codeWrites)
  {
    var p1, p2, p3 := Pipeline[1..], Pipeline[2..], Pipeline[3..];
    assert p1 == [CardNumberValid, CardTypeKnown, NotBlackListed, BankAuthorization];
    assert p2 == p1[1..] && p3 == p2[1..];
    var rest := Run(p3, ctx.(cardType := Some(o.cardType)), threshold, o);
    assert Run(p2, ctx, threshold, o) == Outcome(rest.ctx, [CardTypeKnown] + rest.consulted, rest.codeWrites);
    assert Run(p1, ctx, threshold, o) == Outcome(rest.ctx, [CardNumberValid] + ([CardTypeKnown] + rest.consulted), rest.codeWrites);
  }

  /** The pipeline on a card accepted by the first three checks and found on the blacklist. */
  lemma PipelineBlackListed(ctx: Context, threshold: int, o: Oracles)
    requires CardAccepted(o) && o.blackListed
    ensures Process(ctx, threshold, o) == Run(Pipeline, ctx, threshold, o)
  {
    var typed := ctx.(cardType := Some(o.cardType));
    var p3 := Pipeline[3..];
    assert p3 == [NotBlackListed, BankAuthorization];
    assert Run(p3, typed, threshold, o) ==
      Outcome(typed.(responseCode := Some(BlackListedCardNumber)), [NotBlackListed], [BlackListedCardNumber]);
    RunAcceptsCard(ctx, threshold, o);
    assert Process(ctx, threshold, o).consulted == [PosActive, CardNumberValid, CardTypeKnown] + [NotBlackListed];
  }

  /** The pipeline on a card that passed every card check, for an amount above the threshold. */
  lemma PipelineAskedBank(ctx: Context, threshold: int, o: Oracles)
    requires NeedsBank(ctx, threshold, o)
    ensures Process(ctx, threshold, o) == Run(Pipeline, ctx, threshold, o)
  {
    var typed := ctx.(cardType := Some(o.cardType));
    var p3 := Pipeline[3..];
    assert p3 == [NotBlackListed, BankAuthorization] && p3[1..] == [BankAuthorization] && p3[1..][1..] == [];
    var s5 := Apply(BankAuthorization, typed, threshold, o);
    assert s5.consulted == [BankAuthorization];
    assert Run(p3[1..], typed, threshold, o) == Outcome(s5.ctx, s5.consulted, s5.codeWrites);
    assert Run(p3, typed, threshold, o) == Outcome(s5.ctx, [NotBlackListed] + [BankAuthorization], s5.codeWrites);
    RunAcceptsCard(ctx, threshold, o);
    assert Process(ctx, threshold, o).consulted ==
      [PosActive, CardNumberValid, CardTypeKnown] + ([NotBlackListed] + [BankAuthorization]);
  }

  /** The pipeline on a card that passed every card check, for an amount within the threshold. */
  lemma PipelineSkippedBank(ctx: Context, threshold: int, o: Oracles)
    requires CardAccepted(o) && !o.blackListed && ctx.amount <= threshold
    ensures Process(ctx, threshold, o) == Run(Pipeline, ctx, threshold, o)
  {
    var typed := ctx.(cardType := Some(o.cardType));
    var p3 := Pipeline[3..];
    assert p3 == [NotBlackListed, BankAuthorization] && p3[1..] == [BankAuthorization] && p3[1..][1..] == [];
    assert Run(p3[1..], typed, threshold, o) == Outcome(typed, [], []);
    assert Run(p3, typed, threshold, o) == Outcome(typed, [NotBlackListed], []);
    RunAcceptsCard(ctx, threshold, o);
    assert Process(ctx, threshold, o) == Outcome(typed, [PosActive, CardNumberValid, CardTypeKnown] + [NotBlackListed], []);
  }

  /** The source's `process` is exactly the five-check pipeline run in its order. */
  lemma ProcessFollowsPipeline(ctx: Context, threshold: int, o: Oracles)
    ensures Process(ctx, threshold, o) == Run(Pipeline, ctx, threshold, o)
  {
    if !CardAccepted(o) {
      var p1, p2 := Pipeline[1..], Pipeline[2..];
      assert p1 == [CardNumberValid, CardTypeKnown, NotBlackListed, BankAuthorization];
      assert p2 == p1[1..];
      if o.posActive && o.cardNumberValid {
        assert Run(p2, ctx, threshold, o) == Outcome(ctx.(responseCode := Some(UnknownCardType)), [CardTypeKnown], [UnknownCardType]);
      }
    } else if o.blackListed {
      PipelineBlackListed(ctx, threshold, o);
    } else if ctx.amount > threshold {
      PipelineAskedBank(ctx, threshold, o);
    } else {
      PipelineSkippedBank(ctx, threshold, o);
    }
  }
}
