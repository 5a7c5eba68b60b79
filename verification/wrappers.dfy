/** The optional-value datatype the model uses for fields that the native
    code leaves uninitialised and for arguments a caller may omit. */
module Wrappers {

  datatype Option<+T> = None | Some(value: T)
}
