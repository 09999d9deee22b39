# Counter contract: a Dafny model

This project models a small CosmWasm smart contract: a counter state machine. A contract
instance owns one persisted `u32` storage item named `COUNT`:

- `instantiate` writes the starting value;
- `query` with `QueryMsg::Count` reads the value back as a `CountResp`;
- `execute` dispatches the four mutations `Increment`, `Decrement`, `Reset` and `Set`.

Each mutation follows the same protocol. It loads the old value, computes the new one,
builds a response and then saves. The response holds one event named after the operation.
That event carries an `addr` attribute with the caller's address. The response also holds
the flat attributes `action`, `old_count` and `new_count`, in that order, with the numbers
written in base 10.

Files:

- `wrappers.dfy`: `Option` and `Result`.
- `decimal.dfy`: `NatToDecimal`, which stands in for `u32::to_string`. Its inverse is
  `ParseDecimal`, a reader of canonical decimal strings. Round trips are proved in both
  directions.
- `msg.dfy`: the message types of `src/msg.rs`, with `U32` as the range `0 ..= 0xFFFF_FFFF`.
- `contract.dfy`: the storage slot (`Storage = Option<U32>`, where `None` means never saved),
  the response builders, `query` and `query::count` as functions, and one pure step function
  per mutation. The class `Counter` has a mutable field `count`. Its methods `Increment`,
  `Decrement`, `Reset` and `Set` do load, compute, build and save in that order, and each one
  is proved to return and store what its step function says. `Instantiate` saves the starting
  value without loading, and its contract gives the new slot and the empty response directly.
  `Execute` dispatches on the message and is proved to follow `ExecuteStep`. Each mutation adds
  exactly three flat attributes (src/contract.rs:65-67).
- `contract_properties.dfy`: lemmas over the step functions. They cover the effect of each
  operation, the overflow aborts, idempotence of `Reset` and `Set`, `Increment` and
  `Decrement` undoing each other, and what an observer of the response finds in it.
- `contract_tests.dfy`: the unit-test scenarios of `src/contract.rs:130-449`, written as
  clients of `Counter` and proved from the method contracts alone. Two checks go beyond
  those tests: a query and an increment before `instantiate` (both fail with `NotFound`),
  and a query after the increment.

## Overflow

In `src/contract.rs:59` and `src/contract.rs:76`, `old_count + 1` and `old_count - 1` have
no guard. Whether they panic or wrap depends on the build profile, and the source does not
fix it. This model takes one choice. At `U32_MAX`, increment aborts the call with
`Err(OverflowAbort)`, and so does decrement at `0`. The abort happens before the save, so the
slot keeps its old value. `OverflowAbort` is not an error value the source returns; it
records the panic. This matches a build with overflow checks, where the panic
happens before `COUNT.save`. The model does not claim that the code specifies this.

## Model

| member | source | states |
|---|---|---|
| `Decimal.NatToDecimal` | src/contract.rs:66-67 | the rendering of a count is non-empty, all digits, has no leading zero, and starts with '0' exactly when the count is 0 |
| `Decimal.ParseRender` | src/contract.rs:66-67 | reading a rendered count back gives the count itself, so `old_count`/`new_count` lose nothing |
| `Decimal.RenderParse` | src/contract.rs:66-67 | every canonical decimal string is the rendering of the number it denotes (the converse round trip) |
| `Decimal.RenderInjective` | src/contract.rs:66-67 | distinct counts have distinct renderings |
| `Contract.Load` | src/contract.rs:33 | loading the slot succeeds exactly when it was saved, gives the saved value, and fails with NotFound otherwise |
| `Contract.QueryCount` | src/contract.rs:32-36 | the query succeeds exactly when the slot holds a value, answers `CountResp` with exactly that value, fails with NotFound on an empty slot, and (being a function of the slot) changes nothing |
| `Contract.Query` | src/contract.rs:23-27 | `QueryMsg::Count` is answered by `query::count` |
| `Contract.MutationResponse` | src/contract.rs:61-67 | the built response holds exactly one event, of the given type, whose only attribute is `addr` = sender, and exactly the attributes `action`, `old_count`, `new_count` in that order, the counts rendered in base 10 |
| `Contract.ExecuteStep` | src/contract.rs:40-52 | on an empty slot every mutation fails with NotFound and the slot stays empty; a failed mutation leaves the slot unchanged; an initialised slot stays initialised; a successful mutation emits exactly one event, named after the operation, carrying `addr` = sender |
| `Contract.Counter.Instantiate` | src/contract.rs:10-21 | the slot holds `starting_count` afterwards, whatever it held before, and the response has no attributes or events |
| `Contract.Counter.Increment` | src/contract.rs:57-72 | the result and new slot are those of `IncrementStep` on the old slot: loads, then saves old + 1 and returns its response |
| `Contract.Counter.Decrement` | src/contract.rs:74-89 | the result and new slot are those of `DecrementStep` on the old slot: loads, then saves old - 1 and returns its response |
| `Contract.Counter.Reset` | src/contract.rs:90-105 | the result and new slot are those of `ResetStep` on the old slot: loads, then saves 0 and returns its response |
| `Contract.Counter.Set` | src/contract.rs:106-120 | the result and new slot are those of `SetStep` on the old slot: loads, then saves the given value and returns its response |
| `Contract.Counter.Execute` | src/contract.rs:40-52 | running the message's operation gives exactly the result and new slot of `ExecuteStep` |
| `ContractProperties.FindAttribute` | src/contract.rs:224-231 | the first attribute with the key, as the tests' `find` picks it: a found value belongs to an attribute with that key before which no attribute has the key, and nothing is found only when no attribute has the key |
| `ContractProperties.FindEvent` | src/contract.rs:211-216 | the first event of the type: a found event is in the list with that type and no earlier event has that type, and none is found only when no event has it |
| `ContractProperties.IncrementFrom` | src/contract.rs:57-71 | from a stored n below the maximum, increment stores n + 1 and returns attributes action="increment", old_count=dec(n), new_count=dec(n+1) and the single event "incremented" with addr = sender |
| `ContractProperties.IncrementAtMax` | src/contract.rs:59 | increment at U32_MAX aborts with OverflowAbort and leaves the slot at U32_MAX |
| `ContractProperties.DecrementFrom` | src/contract.rs:74-88 | from a stored n > 0, decrement stores n - 1 and returns action="decrement", old_count=dec(n), new_count=dec(n-1) and the single event "decremented" with addr = sender |
| `ContractProperties.DecrementAtZero` | src/contract.rs:76 | decrement at 0 aborts with OverflowAbort and leaves the slot at 0 |
| `ContractProperties.ResetFrom` | src/contract.rs:90-104 | from any stored n, reset stores 0 and returns action="reset", old_count=dec(n), new_count="0" and the single event "reset" with addr = sender |
| `ContractProperties.SetFrom` | src/contract.rs:106-119 | from any stored n and any m, set stores m, with no check against n, and returns action="set", old_count=dec(n), new_count=dec(m) and the single event "set" with addr = sender |
| `ContractProperties.ResetIdempotent` | src/contract.rs:90-104 | resetting twice leaves the same slot as resetting once, namely 0 when the slot was initialised |
| `ContractProperties.SetIdempotent` | src/contract.rs:106-119 | setting m twice leaves the same slot as setting it once, and a query afterwards answers m |
| `ContractProperties.IncrementDecrementInverse` | src/contract.rs:57-89 | decrement after increment restores n when n < U32_MAX; increment after decrement restores n when n > 0 |
| `ContractProperties.InitialisedFailsOnlyAtBounds` | src/contract.rs:46-120 | on an initialised slot a mutation fails exactly for increment at U32_MAX and decrement at 0, and then with OverflowAbort |
| `ContractProperties.EventNamesSender` | src/contract.rs:211-222 | after a successful mutation, the event named after the operation is found, and its `addr` attribute is the sender |
| `ContractProperties.AttributesReportCounts` | src/contract.rs:224-247 | after a successful mutation the attribute keys are action, old_count, new_count in that order; action names the operation; old_count and new_count read back as the slot's value before and after the call |

## Left out

- `src/lib.rs`: the `#[entry_point]` wrappers only delegate to `contract::*`. They are host registration plumbing.
- Serde and schema derivation (`#[cw_serde]`, `QueryResponses`) are not modelled. Neither is the `to_binary` encoding of the query answer: `Query` returns the `CountResp` itself.
- The storage layer behind `COUNT.load` / `COUNT.save` is abstracted as one optional slot. `src/state.rs` is not part of this model.
- A failing `COUNT.save` is not modelled: saving a `u32` always succeeds in the model. A save failure would be an infrastructure error and not part of the contract's logic.
- The `Serialization` error for corrupt stored bytes is not modelled. Only this contract writes the slot, and it always writes a valid `u32`.
- `Env` is unused by the source. Of `MessageInfo` only `sender` is kept, because funds are never read.
- The test harness `cw_multi_test::App` is left out. So are the `wasm-` prefix the host adds to event types and the host's own `wasm` event, which carries the response attributes. The test scenarios check the response the contract itself builds.
- Transactional rollback and serialised execution are guarantees of the host chain, not of this module, and are not modelled.
- Contract.Counter.Increment: the wrap-around of a release build (u32::MAX + 1 == 0) is not modelled. The increment at U32_MAX is modelled as an abort that leaves the slot unchanged (see "Overflow").
- Contract.Counter.Decrement: the wrap-around of a release build (0 - 1 == u32::MAX) is not modelled. The decrement at 0 is modelled as an abort that leaves the slot unchanged (see "Overflow").
