/** Optional values: the model's stand-in for TypeScript's `T | undefined`
    and for `string | null` state. */
module Wrappers {

  datatype Option<+T> = None | Some(value: T)
}
