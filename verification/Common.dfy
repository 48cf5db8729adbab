/** What several parts of the model share. */
module Common {
  datatype Option<T> = None | Some(value: T)

  type byte = x: int | 0 <= x < 256

  /** The bytes that `items` items of `size` bytes occupy. */
  function Bytes(items: nat, size: nat): nat {
    items * size
  }
}
