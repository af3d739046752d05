/** The optional-value datatype used throughout the model: Go's nil error, a route that
    did not match, a host that could not be split off an address. */
module Wrappers {

  datatype Option<+T> = None | Some(value: T)
}
