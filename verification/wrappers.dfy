/** Optional values. `None` stands for JavaScript's `undefined`: a channel that was never
    written, or an array read past its end. */
module Wrappers {

  datatype Option<+T> = None | Some(value: T)
}
