/** Option stands for a Java reference that may be null; Result for a Java call
    that either returns a value or throws a NullPointerException. */
module Wrappers {

  datatype Option<+T> = None | Some(value: T)

  datatype Result<+T> = Value(value: T) | NullPointerException
}
