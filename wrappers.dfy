/** The optional value used for results that may be absent: a skipped page has
    no label, a string that is not a decimal numeral has no value. */
module Wrappers {

  datatype Option<+T> = None | Some(value: T)

}
