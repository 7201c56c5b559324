/** Optional values: a price that has not arrived yet, a lookup that found nothing. */
module Wrappers {

  datatype Option<+T> = None | Some(value: T)
}
