/** JavaScript's `null`, as returned by `mat4.inverse3x3` and `mat4.rotate`
    when they give up. */
module Nullable {

  datatype Nullable<+T> = Null | NonNull(value: T)
}
