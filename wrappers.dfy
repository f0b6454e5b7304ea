/** Optional values and error-carrying results, used for nullable document
    fields and for the exceptions the documents raise with frappe.throw. */
module Wrappers {

  datatype Option<+T> = None | Some(value: T)

  /** Pass, or the message of the exception that aborted the operation. */
  datatype Outcome<+E> = Pass | Fail(error: E)

  datatype Result<+T, +E> = Ok(value: T) | Err(error: E)
}
