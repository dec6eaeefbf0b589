/** Optional values: JavaScript's `undefined` for a lookup that found nothing or a field that is absent. */
module Wrappers {
  datatype Option<+T> = None | Some(value: T)
}
