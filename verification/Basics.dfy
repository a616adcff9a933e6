/** Small types and functions that several modules share. */
module Basics {

  /** A value that may be missing. */
  datatype Option<T> = None | Some(value: T)

  datatype Side = Buy | Sell

  function Opposite(side: Side): Side {
    if side == Buy then Sell else Buy
  }

  function AbsInt(x: int): nat {
    if x < 0 then -x else x
  }
}
