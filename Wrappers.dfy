/** The optional value used for the outcome of parsing a path parameter or a
    request body: `None` stands for a parse or bind error. */
module Wrappers {

  datatype Option<+T> = None | Some(value: T)

}
