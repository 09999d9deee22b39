/** The messages exchanged with the counter contract (src/msg.rs). */
module Msg {

  /** The largest value of Rust's `u32`. */
  const U32_MAX: nat := 0xFFFF_FFFF

  /** Rust's `u32`. */
  type U32 = n: nat | n <= 0xFFFF_FFFF

  /** Sent once, when the contract instance is created. */
  datatype InstantiateMsg = InstantiateMsg(startingCount: U32)

  /** The four state-changing calls. */
  datatype ExecuteMsg =
    | Increment
    | Decrement
    | Reset
    | Set(newCount: U32)

  /** The read-only calls; there is only one. */
  datatype QueryMsg = Count

  /** The answer to `QueryMsg.Count`. */
  datatype CountResp = CountResp(count: U32)
}
