/** The optional values the editor's API hands back: `null`/`undefined` in
    JavaScript, `None` here. */
module Wrappers {

  datatype Option<+T> = None | Some(value: T)

}
