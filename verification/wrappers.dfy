/** The optional-value datatype used for values the ledger may lack:
    a number that did not parse, an id a stored record does not carry,
    an index that was not found. */
module Wrappers {

  datatype Option<+T> = None | Some(value: T)
}
