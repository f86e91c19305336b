/** What several modules share. */
module Common {

  datatype Option<T> = None | Some(value: T)

  type byte = x: nat | x < 256

  type Bytes = seq<byte>
}
