/** The pieces of the host runtime that the price oracle module uses: machine
    integers, dispatch origins and their checks, the saturating conversion of
    block numbers, and the transaction-validity types of the unsigned
    transaction admission hook. */
module Runtime {

  const U64_MAX: int := 0xFFFF_FFFF_FFFF_FFFF

  newtype u8 = x: int | 0 <= x < 0x100
  newtype u64 = x: int | 0 <= x <= 0xFFFF_FFFF_FFFF_FFFF

  /** Accounts are `u64` in the runtime configuration the module is tested with. */
  type AccountId = u64

  /** Block numbers are a generic unsigned type of the host; modelled unbounded. */
  type BlockNumber = nat

  datatype Result<T, E> = Ok(value: T) | Err(error: E)

  /** Who dispatched a call: the privileged root, a signed account, or
      nobody (an unsigned transaction admitted by the validation hook). */
  datatype Origin = Root | Signed(who: AccountId) | None

  /** The error `ensure_root` and `ensure_none` return on a mismatched origin. */
  datatype DispatchError = BadOrigin

  type DispatchResult = Result<(), DispatchError>

  function EnsureRoot(origin: Origin): (r: Result<(), DispatchError>)
    ensures r.Ok? <==> origin == Root
    ensures r.Err? ==> r.error == BadOrigin
  {
    match origin
    case Root => Ok(())
    case _ => Err(BadOrigin)
  }

  function EnsureNone(origin: Origin): (r: Result<(), DispatchError>)
    ensures r.Ok? <==> origin == None
    ensures r.Err? ==> r.error == BadOrigin
  {
    match origin
    case None => Ok(())
    case _ => Err(BadOrigin)
  }

  /** `saturated_into::<u64>()`: values above the width clamp to the maximum
      instead of wrapping around. */
  function SaturatedIntoU64(n: BlockNumber): (r: u64)
    ensures r as int <= n
    ensures r as int == n || r as int == U64_MAX
  {
    if n <= U64_MAX then n as u64 else U64_MAX as u64
  }

  /** The saturated value is the greatest `u64` that does not exceed `n`. */
  lemma SaturatedIsGreatestBelow(n: BlockNumber, x: u64)
    requires x as int <= n
    ensures x <= SaturatedIntoU64(n)
  {
  }

  /** A block number that already fits in 64 bits converts unchanged. */
  lemma SaturatedKeepsU64(x: u64)
    ensures SaturatedIntoU64(x as int) == x
  {
  }

  lemma SaturatedIsMonotone(m: BlockNumber, n: BlockNumber)
    requires m <= n
    ensures SaturatedIntoU64(m) <= SaturatedIntoU64(n)
  {
  }

  type TransactionPriority = u64
  type TransactionLongevity = u64
  type TransactionTag = seq<u8>

  /** What the admission hook grants a transaction it accepts: its priority in
      the pool, the tags it depends on and provides, how many blocks it stays
      valid, and whether it is gossiped to other nodes. */
  datatype ValidTransaction = ValidTransaction(
    priority: TransactionPriority,
    requiredTags: seq<TransactionTag>,
    providedTags: seq<TransactionTag>,
    longevity: TransactionLongevity,
    propagate: bool)

  /** Only the reason this module produces: the call is not one it admits. */
  datatype InvalidTransaction = InvalidCall

  datatype TransactionValidityError = Invalid(reason: InvalidTransaction)

  type TransactionValidity = Result<ValidTransaction, TransactionValidityError>

  /** What the unsigned-transaction submitter reports; the module discards it. */
  type SubmitResult = Result<(), ()>

  /** The host's unsigned-transaction submitter. Which calls it was handed is
      recorded in `sent`; whether transport succeeds is up to the host, so its
      report is left unconstrained. */
  class Submitter<C> {
    ghost var sent: seq<C>

    method SubmitUnsigned(call: C) returns (r: SubmitResult)
      modifies this
      ensures sent == old(sent) + [call]
    {
      sent := sent + [call];
      r :| true;
    }
  }
}
