/** The price oracle runtime module: one stored `u64` price, two origin-gated
    calls that overwrite it, an offchain worker that proposes the block number
    as a price through an unsigned transaction, and the admission policy for
    such transactions. */
module PriceOracle {
  import opened Runtime

  /** The module's dispatchable calls, each carrying the new price. */
  datatype Call = SetPrices(price: u64) | SubmitPrice(price: u64)

  /** A call together with the origin it is dispatched from. */
  datatype Extrinsic = Extrinsic(origin: Origin, call: Call)

  /** The origin each call demands: root for `set_prices`, no signer for
      `submit_price`. */
  predicate Authorized(origin: Origin, call: Call) {
    match call
    case SetPrices(_) => origin == Root
    case SubmitPrice(_) => origin == None
  }

  /** The stored price after a dispatch, and what the dispatch returned. */
  datatype Applied = Applied(price: u64, result: DispatchResult)

  /** One state transition: the call runs its origin check and, when that
      passes, replaces the price; a failed check returns before any write. */
  function Apply(price: u64, xt: Extrinsic): (r: Applied)
    ensures r.result.Ok? <==> Authorized(xt.origin, xt.call)
    ensures r.result.Ok? ==> r.price == xt.call.price
    ensures r.result.Err? ==> r.result.error == BadOrigin && r.price == price
  {
    var gate := match xt.call
      case SetPrices(_) => EnsureRoot(xt.origin)
      case SubmitPrice(_) => EnsureNone(xt.origin);
    match gate
    case Err(e) => Applied(price, Err(e))
    case Ok(_) => Applied(xt.call.price, Ok(()))
  }

  /** A dispatch is idempotent: repeating the same extrinsic changes nothing
      further, whether it was accepted or rejected. */
  lemma ApplyIdempotent(price: u64, xt: Extrinsic)
    ensures Apply(Apply(price, xt).price, xt) == Apply(price, xt)
  {
  }

  /** The host applies the extrinsics of a block one after another. */
  function Run(price: u64, xts: seq<Extrinsic>): (r: u64)
    decreases xts
  {
    if xts == [] then price else Run(Apply(price, xts[0]).price, xts[1..])
  }

  /** Reference definition: the price carried by the most recent extrinsic
      whose origin check passes, or the starting price when there is none. */
  function LastAccepted(price: u64, xts: seq<Extrinsic>): (r: u64)
  {
    if xts == [] then price
    else
      var last := xts[|xts| - 1];
      if Authorized(last.origin, last.call) then last.call.price
      else LastAccepted(price, xts[..|xts| - 1])
  }

  lemma {:induction false} RunSnoc(price: u64, xts: seq<Extrinsic>, xt: Extrinsic)
    decreases xts
    ensures Run(price, xts + [xt]) == Apply(Run(price, xts), xt).price
  {
    if xts == [] {
      assert [] + [xt] == [xt];
    } else {
      assert (xts + [xt])[1..] == xts[1..] + [xt];
      RunSnoc(Apply(price, xts[0]).price, xts[1..], xt);
    }
  }

  /** The stored price always holds the most recently applied accepted write;
      rejected calls leave no trace. */
  lemma {:induction false} RunIsLastAccepted(price: u64, xts: seq<Extrinsic>)
    ensures Run(price, xts) == LastAccepted(price, xts)
  {
    if xts != [] {
      var init, last := xts[..|xts| - 1], xts[|xts| - 1];
      assert xts == init + [last];
      RunSnoc(price, init, last);
      RunIsLastAccepted(price, init);
    }
  }

  /** A run in which no origin check passes leaves the price unchanged. */
  lemma {:induction false} RunAllRejected(price: u64, xts: seq<Extrinsic>)
    requires forall i :: 0 <= i < |xts| ==> !Authorized(xts[i].origin, xts[i].call)
    decreases xts
    ensures Run(price, xts) == price
  {
    if xts != [] {
      RunAllRejected(Apply(price, xts[0]).price, xts[1..]);
    }
  }

  /** Submitting the same extrinsic twice in a row ends in the same price as
      submitting it once. */
  lemma {:induction false} RunRepeatIdempotent(price: u64, xts: seq<Extrinsic>, xt: Extrinsic)
    ensures Run(price, xts + [xt, xt]) == Run(price, xts + [xt])
  {
    assert xts + [xt, xt] == (xts + [xt]) + [xt];
    RunSnoc(price, xts + [xt], xt);
    RunSnoc(price, xts, xt);
    ApplyIdempotent(Run(price, xts), xt);
  }

  /** From genesis: root sets 50, an unsigned submission sets 100, a signed
      account's `set_prices(7)` is rejected and the price stays 100. */
  lemma GenesisScenario(account: AccountId)
    ensures Run(0, [Extrinsic(Root, SetPrices(50))]) == 50
    ensures Run(0, [Extrinsic(Root, SetPrices(50)), Extrinsic(None, SubmitPrice(100))]) == 100
    ensures Run(0, [Extrinsic(Root, SetPrices(50)), Extrinsic(None, SubmitPrice(100)),
                    Extrinsic(Signed(account), SetPrices(7))]) == 100
    ensures Apply(100, Extrinsic(Signed(account), SetPrices(7))) == Applied(100, Err(BadOrigin))
  {
    var xts := [Extrinsic(Root, SetPrices(50)), Extrinsic(None, SubmitPrice(100)),
                Extrinsic(Signed(account), SetPrices(7))];
    RunIsLastAccepted(0, xts[..1]);
    RunIsLastAccepted(0, xts[..2]);
    RunIsLastAccepted(0, xts);
    assert xts[..1] == [Extrinsic(Root, SetPrices(50))];
    assert xts[..2] == [Extrinsic(Root, SetPrices(50)), Extrinsic(None, SubmitPrice(100))];
  }

  /** `validate_unsigned`: a price submission is admitted with the highest
      priority, no tag dependencies, the longest lifetime and gossip enabled;
      any other call is refused as an invalid call. */
  function ValidateUnsigned(call: Call): (r: TransactionValidity)
    ensures r.Ok? <==> call.SubmitPrice?
    ensures r.Ok? ==>
      && r.value.priority as int == U64_MAX
      && r.value.requiredTags == [] && r.value.providedTags == []
      && r.value.longevity as int == U64_MAX
      && r.value.propagate
    ensures r.Err? ==> r.error == Invalid(InvalidCall)
  {
    match call
    case SubmitPrice(_) =>
      Ok(ValidTransaction(
        priority := U64_MAX as TransactionPriority,
        requiredTags := [],
        providedTags := [],
        longevity := U64_MAX as TransactionLongevity,
        propagate := true))
    case _ => Err(Invalid(InvalidCall))
  }

  /** The admission decision looks only at the call's shape, never at the price. */
  lemma ValidateIgnoresPrice(v: u64, w: u64)
    ensures ValidateUnsigned(SubmitPrice(v)) == ValidateUnsigned(SubmitPrice(w))
  {
  }

  /** The pool admits exactly the calls the runtime accepts from the no-signer
      origin, so an admitted unsigned transaction never fails its origin check. */
  lemma ValidateAgreesWithUnsignedDispatch(price: u64, call: Call)
    ensures ValidateUnsigned(call).Ok? <==> Apply(price, Extrinsic(None, call)).result.Ok?
  {
  }

  /** The call the offchain worker proposes at block `n`. */
  function Candidate(n: BlockNumber): (r: Call)
    ensures r.SubmitPrice?
    ensures r.price as int == if n <= U64_MAX then n else U64_MAX
  {
    SubmitPrice(SaturatedIntoU64(n))
  }

  /** Every candidate is admitted by the validator and, once included, sets the
      price to the saturated block number; from any other origin it is rejected. */
  lemma CandidateLifecycle(price: u64, n: BlockNumber, origin: Origin)
    ensures ValidateUnsigned(Candidate(n)).Ok?
    ensures origin == None ==> Apply(price, Extrinsic(origin, Candidate(n))) == Applied(SaturatedIntoU64(n), Ok(()))
    ensures origin != None ==> Apply(price, Extrinsic(origin, Candidate(n))) == Applied(price, Err(BadOrigin))
    ensures n <= U64_MAX ==> Candidate(n).price as int == n
    ensures n > U64_MAX ==> Candidate(n).price as int == U64_MAX
  {
  }

  /** `get_price`: converts the block number, wraps it in `submit_price` and
      makes exactly one submission attempt, discarding what the submitter
      reports. Only the submitter is in the frame: no storage is touched. */
  method GetPrice(n: BlockNumber, submitter: Submitter<Call>)
    modifies submitter
    ensures submitter.sent == old(submitter.sent) + [Candidate(n)]
  {
    var price := SaturatedIntoU64(n);
    var call := SubmitPrice(price);
    var _ := submitter.SubmitUnsigned(call);
  }

  /** The per-block hook: runs `get_price` for the block just imported. */
  method OffchainWorker(n: BlockNumber, submitter: Submitter<Call>)
    modifies submitter
    ensures submitter.sent == old(submitter.sent) + [Candidate(n)]
  {
    GetPrice(n, submitter);
  }

  /** The module's storage and dispatchable entry points. */
  class Module {
    var price: u64

    /** Genesis: the price starts at its default, 0. */
    constructor ()
      ensures price == 0
    {
      price := 0;
    }

    /** The `price()` getter: reads the stored value, changes nothing. */
    method Price() returns (p: u64)
      ensures p == price
    {
      p := price;
    }

    /** `set_prices`: only root may overwrite the price. */
    method SetPrices(origin: Origin, v: u64) returns (r: DispatchResult)
      modifies this
      ensures r == if origin == Root then Ok(()) else Err(BadOrigin)
      ensures price == if r.Ok? then v else old(price)
    {
      var gate := EnsureRoot(origin);
      if gate.Err? {
        return Err(gate.error);
      }
      price := v;
      r := Ok(());
    }

    /** `submit_price`: only the no-signer origin may overwrite the price. */
    method SubmitPrice(origin: Origin, v: u64) returns (r: DispatchResult)
      modifies this
      ensures r == if origin == None then Ok(()) else Err(BadOrigin)
      ensures price == if r.Ok? then v else old(price)
    {
      var gate := EnsureNone(origin);
      if gate.Err? {
        return Err(gate.error);
      }
      price := v;
      r := Ok(());
    }

    /** Dispatching a call routes it to its entry point; the new state and the
        result are those of one state transition. */
    method Dispatch(xt: Extrinsic) returns (r: DispatchResult)
      modifies this
      ensures Applied(price, r) == Apply(old(price), xt)
    {
      match xt.call
      case SetPrices(v) => r := SetPrices(xt.origin, v);
      case SubmitPrice(v) => r := SubmitPrice(xt.origin, v);
    }
  }

  /** The module's unit test: an unsigned `submit_price(100)` on a fresh
      store succeeds and the getter then reads 100. */
  method ItWorksForDefaultValue() returns (result: DispatchResult, p: u64)
    ensures result.Ok? && p == 100
  {
    var m := new Module();
    result := m.SubmitPrice(None, 100);
    p := m.Price();
  }

  /** From genesis on the store itself: root sets 50, an unsigned submission
      sets 100, and a signed account's `set_prices(7)` fails with `BadOrigin`
      leaving 100. */
  method GenesisScenarioOnStore(account: AccountId) returns (r1: DispatchResult, r2: DispatchResult, r3: DispatchResult, p: u64)
    ensures r1 == Ok(()) && r2 == Ok(()) && r3 == Err(BadOrigin) && p == 100
  {
    var m := new Module();
    r1 := m.SetPrices(Root, 50);
    r2 := m.SubmitPrice(None, 100);
    r3 := m.SetPrices(Signed(account), 7);
    p := m.Price();
  }

  /** At block 5 the worker makes one attempt to submit `submit_price(5)`;
      whatever the submitter reports, the stored price is unaffected. */
  method OffchainScenario(m: Module, submitter: Submitter<Call>)
    modifies submitter
    ensures m.price == old(m.price)
    ensures submitter.sent == old(submitter.sent) + [SubmitPrice(5)]
  {
    OffchainWorker(5, submitter);
  }
}
