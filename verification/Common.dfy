/** Types that every part of the model uses. */
module Common {

  datatype Option<+T> = None | Some(value: T)

  newtype uint8 = x: int | 0 <= x < 256

  type Bytes = seq<uint8>
}
