/** Small datatypes shared by every module of the model. */
module Prelude {
  datatype Option<+T> = None | Some(value: T)

  datatype Result<+T, +E> = Ok(value: T) | Err(error: E)

  function Max(a: int, b: int): int { if a < b then b else a }

  function Min(a: int, b: int): int { if a < b then a else b }

  function MaxR(a: real, b: real): real { if a < b then b else a }

  function MinR(a: real, b: real): real { if a < b then a else b }

  type Byte = x: nat | x < 256
  type Bytes = seq<Byte>
}
