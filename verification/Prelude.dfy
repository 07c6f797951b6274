/** Types that every other module shares. */
module Prelude {

  type byte = x: int | 0 <= x < 256

  datatype Option<T> = None | Some(value: T)
}
