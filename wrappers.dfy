/** Optional values: the JavaScript `undefined` of an absent query value or an
    unmatched regular expression. */
module Wrappers {

  datatype Option<+T> = None | Some(value: T)

}
