/** Value types and protocol constants shared by every component
    (firmware/common/qesp_defs.h). */
module Defs {

  type u8 = x: int | 0 <= x < 0x100
  type u16 = x: int | 0 <= x < 0x1_0000
  type u32 = x: int | 0 <= x < 0x1_0000_0000
  type u64 = x: int | 0 <= x < 0x1_0000_0000_0000_0000

  datatype Option<+T> = None | Some(value: T)

  /** A value or an error code; `:-` propagates the error. */
  datatype Result<+T, +E> = Ok(value: T) | Err(error: E) {
    predicate IsFailure() {
      Err?
    }

    function PropagateFailure<U>(): Result<U, E>
      requires Err?
    {
      Err(error)
    }

    function Extract(): T
      requires Ok?
    {
      value
    }
  }

  // Votes; a saved LMS vote of VOTE_UNDEFINED means "never voted".
  const VOTE_UNDEFINED: u8 := 0
  const VOTE_ACK: u8 := 1
  const VOTE_NACK: u8 := 2
  const VOTE_ASK_LATER: u8 := 3
  const VOTE_WAIT_FOR_REPLY: u8 := 4
  const VOTE_NO_CHANGE: u8 := 5

  const TB_LOWEST: u8 := 1
  const TB_HIGHEST: u8 := 2
  const TB_NODE_ID: u8 := 3

  const HEUR_UNDEFINED: u8 := 0
  const HEUR_PASS: u8 := 1
  const HEUR_FAIL: u8 := 2

  const ALGO_FFSPLIT: u16 := 1
  const ALGO_LMS: u16 := 3
}
