/** The optional value used wherever the dashboard's code can produce "no value"
    (a topic with no field, a string that is not a number). */
module Wrappers {

  datatype Option<+T> = None | Some(value: T)
}
