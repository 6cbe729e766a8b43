/** Small value wrappers shared by the model. */
module Wrappers {

  /** A Java reference that may be null: None stands for null. */
  datatype Option<+T> = None | Some(value: T)

  /** What a Java call does: it returns a value or throws an exception,
      identified here by its message. */
  datatype Attempt<+T> = Returned(value: T) | Threw(exception: string)
}
