# Price oracle runtime module, in Dafny

A model of a Substrate runtime module that keeps one `u64` price on chain.

- The price is a single storage item, 0 at genesis.
- `set_prices` overwrites it when dispatched from the root origin.
- `submit_price` overwrites it when dispatched from the no-signer origin, that is, as an unsigned transaction.
- Any other origin makes `ensure_root` or `ensure_none` fail with `BadOrigin` before the write, so the price keeps its value.
- On every block the offchain worker converts the block number to `u64`, saturating at the maximum, and hands `submit_price(n)` to the unsigned-transaction submitter. It ignores the submitter's answer.
- `validate_unsigned` is the pool's admission policy. It admits `submit_price(_)` with maximum priority, no required or provided tags, maximum longevity and propagation on. It refuses every other call with `InvalidTransaction::Call`.

Files:

- `runtime.dfy` (module `Runtime`) holds the host types the module uses: `u8`/`u64`, origins, dispatch results, `ensure_root`/`ensure_none`, the saturating conversion, the transaction-validity types and the unsigned-transaction submitter.
- `price_oracle.dfy` (module `PriceOracle`) holds the module itself:
  - the class `Module`, whose `price` field is the storage item, with its dispatchable methods;
  - the pure state transition `Apply` and the block-level fold `Run`, with the reference definition `LastAccepted`;
  - the validator `ValidateUnsigned`;
  - the candidate call `Candidate` and the offchain worker methods `GetPrice` and `OffchainWorker`.

Notes on the code as modelled:

- A rejected origin returns the framework's `BadOrigin` error from `ensure_root` or `ensure_none`.
- `NewPrice` is declared at src/lib.rs:29 but never deposited, so no event is modelled.
- The submitter is the class `Runtime.Submitter`. It records each call it is handed in a ghost log `sent` and leaves its report unconstrained. `GetPrice` and `OffchainWorker` return nothing, as in the code; their contracts say that exactly one call, the candidate, was appended to that log.
- The candidate comes from the block number passed to `offchain_worker` (src/lib.rs:56-64).

## Model

| member | source | states |
|---|---|---|
| `Runtime.EnsureRoot` | src/lib.rs:47 | the root check passes exactly for the root origin and otherwise fails with `BadOrigin` |
| `Runtime.EnsureNone` | src/lib.rs:52 | the no-signer check passes exactly for the no-signer origin and otherwise fails with `BadOrigin` |
| `Runtime.SaturatedIntoU64` | src/lib.rs:64 | the converted block number never exceeds the block number, and it is either the block number itself or `2^64-1`; it never wraps |
| `Runtime.SaturatedIsGreatestBelow` | src/lib.rs:64 | the converted value is the greatest `u64` not exceeding the block number |
| `Runtime.SaturatedKeepsU64` | src/lib.rs:64 | a block number that fits in 64 bits converts unchanged |
| `Runtime.SaturatedIsMonotone` | src/lib.rs:64 | a later block never yields a smaller candidate |
| `PriceOracle.Apply` | src/lib.rs:46-54 | a dispatch succeeds exactly when the origin is root for `set_prices` or none for `submit_price`; on success the price becomes the call's value; on failure the error is `BadOrigin` and the price is unchanged |
| `PriceOracle.ApplyIdempotent` | src/lib.rs:48-53 | writes fully replace the value, so repeating a dispatch gives the same price and result as doing it once |
| `PriceOracle.RunSnoc` | src/lib.rs:46-54 | applying one more extrinsic after a sequence is one more state transition on the sequence's final price |
| `PriceOracle.RunIsLastAccepted` | src/lib.rs:46-54 | after any sequence of dispatches the price is the value of the last one whose origin check passed, or the starting price if none passed |
| `PriceOracle.RunAllRejected` | src/lib.rs:47-53 | a sequence of dispatches that all fail their origin checks leaves the price unchanged |
| `PriceOracle.RunRepeatIdempotent` | src/lib.rs:51-54 | submitting the same extrinsic twice in a row ends in the same price as submitting it once |
| `PriceOracle.GenesisScenario` | src/lib.rs:36-54 | from 0, root `set_prices(50)` gives 50, unsigned `submit_price(100)` gives 100, and a signed `set_prices(7)` fails with `BadOrigin` and leaves 100 |
| `PriceOracle.GenesisScenarioOnStore` | src/lib.rs:36-54 | the same scenario on a fresh store: the first two calls succeed, the signed `set_prices(7)` returns `BadOrigin`, and the getter reads 100 |
| `PriceOracle.ValidateUnsigned` | src/lib.rs:74-87 | a call is admitted exactly when it is `submit_price`, with maximum priority, empty requires and provides, maximum longevity and propagate on; any other call is refused with `InvalidTransaction::Call` |
| `PriceOracle.ValidateIgnoresPrice` | src/lib.rs:76 | the admission decision for `submit_price` does not depend on the price it carries |
| `PriceOracle.ValidateAgreesWithUnsignedDispatch` | src/lib.rs:51-53 | the pool admits exactly the calls that pass the origin check when dispatched with no signer |
| `PriceOracle.CandidateLifecycle` | src/lib.rs:63-87 | the worker's candidate is always admitted; applied with no signer it sets the price to the saturated block number; from any other origin it is rejected and changes nothing |
| `PriceOracle.Candidate` | src/lib.rs:64-65 | the worker's call is `submit_price` carrying the block number when it fits in `u64` and `2^64-1` otherwise |
| `PriceOracle.GetPrice` | src/lib.rs:63-67 | makes exactly one submission attempt, of the candidate for the block, whatever the submitter reports; only the submitter is in its frame, so no storage is touched |
| `PriceOracle.OffchainWorker` | src/lib.rs:56-58 | the per-block hook submits exactly the candidate for that block, once |
| `PriceOracle.OffchainScenario` | src/lib.rs:56-66 | at block 5 the worker submits `submit_price(5)` once and the stored price is unchanged whatever the submitter reports |
| `Runtime.Submitter.SubmitUnsigned` | src/lib.rs:66 | a submission attempt appends the call to the submitter's log; the report is unconstrained |
| `PriceOracle.Module.constructor` | src/lib.rs:36 | the price is 0 at genesis |
| `PriceOracle.Module.Price` | src/lib.rs:36 | the getter returns the stored price and changes nothing |
| `PriceOracle.Module.SetPrices` | src/lib.rs:46-49 | succeeds exactly for the root origin and then stores the value; otherwise returns `BadOrigin` and keeps the old price |
| `PriceOracle.Module.SubmitPrice` | src/lib.rs:51-54 | succeeds exactly for the no-signer origin and then stores the value; otherwise returns `BadOrigin` and keeps the old price |
| `PriceOracle.Module.Dispatch` | src/lib.rs:43-54 | routing a call to its entry point changes the stored price and returns the result exactly as one state transition `Apply` does |
| `PriceOracle.ItWorksForDefaultValue` | src/lib.rs:159-165 | on a fresh store, an unsigned `submit_price(100)` succeeds and the getter then reads 100 |

## Left out

- The transport behind the unsigned-transaction submitter and the transaction pool (src/lib.rs:24, src/lib.rs:66) are foreign code in the host. The submitter only records what it is handed; its report is arbitrary and discarded.
- What the pool does with priority and longevity is host behaviour. Only the literal values returned are modelled.
- Event emission: `NewPrice` (src/lib.rs:29) is never deposited by any code path, so no event is modelled.
- The `decl_module!`, `decl_storage!` and `decl_event!` macro plumbing and the `Trait` associated types (src/lib.rs:15-44). They are framework code. The generated call dispatch is modelled by `Module.Dispatch`.
- The mock runtime of the tests (src/lib.rs:90-157): origins, hashing and test externalities. Only the one test's behaviour is modelled.
- `InvalidTransaction` has only the variant this module produces. The host's other rejection reasons are never returned here.
- Block numbers are unbounded naturals. The host's block-number type is generic.
- Concurrent runs of the offchain worker on different nodes. The model is single-threaded.
