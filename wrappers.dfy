/**
 * The optional value: `None` stands for an absent or falsy forecast
 * (`undefined` after a failed request, or `false` when the response was not ok).
 */
module Wrappers {

  datatype Option<+T> = None | Some(value: T)
}
