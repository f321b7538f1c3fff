/** Shapes shared by every module of the model. */
module Common {

  datatype Option<+T> = None | Some(value: T)

  type byte = bv8
  type bytes = seq<byte>

  /** The first n elements, or all of them when there are fewer: JavaScript's `slice(0, n)`. */
  function Take<T>(s: seq<T>, n: nat): seq<T> {
    if n <= |s| then s[..n] else s
  }
}
