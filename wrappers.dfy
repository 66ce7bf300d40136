/** Option for the values the publisher treats as nullable, and Result for the
    two ways a publish call is aborted. */
module Wrappers {

  /** A .NET reference that may be null. */
  datatype Option<+T> = None | Some(value: T)

  /** The exceptions the publisher raises or provokes that the model covers
      (a null change number or comment is excluded by the string types). */
  datatype Fault =
    /** ApplicationException("Found unexpected Workitem type: ...") from ResolveReference. */
    | UnexpectedWorkitemType(typeName: string)
    /** NullReferenceException from dereferencing a missing integration property. */
    | NullReference(property: string)

  datatype Result<+T> = Ok(value: T) | Err(fault: Fault)
}
