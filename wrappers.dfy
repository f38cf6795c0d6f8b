/** The optional value used by the formatter (`Option<usize>`) and by `Arguments::as_str`. */
module Wrappers {

  datatype Option<+T> = None | Some(value: T)
}
