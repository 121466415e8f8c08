/** Wrappers shared by the model: an optional value, a value or an exception,
    and a normal or exceptional completion of a void method. */
module Wrappers {

  datatype Option<+T> = None | Some(value: T)

  datatype Result<+T, +E> = Success(value: T) | Failure(error: E)

  datatype Outcome<+E> = Pass | Fail(error: E)
}

/** The few Java run-time notions the model needs. */
module Java {

  /** A class as identified at run time: its binary name and its simple name. */
  datatype ClassRef = ClassRef(name: string, simpleName: string)

  /** A Java reference: `null`, or an object identified by its identity. */
  datatype Ref = Null | Obj(id: nat)

  /** The unchecked exceptions the modelled code lets escape. */
  datatype JavaException =
    | IllegalStateException(message: string)
    | IllegalArgumentException
    | NullPointerException
}
