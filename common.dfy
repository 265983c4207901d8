/** Result types shared by the budget store's operations. */
module Common {

  datatype Option<+T> = None | Some(value: T)

  /** Why a request was refused. Every refusal leaves the store unchanged. */
  datatype Failure =
    | NotFound          // no record with that id owned by the acting user
    | Forbidden         // the acting user is not a superuser
    | InvalidForm       // a required field is empty or a choice is not allowed
    | PasswordMismatch  // registration: password and confirmation differ
    | UsernameTaken     // another account already uses that username
    | DuplicateName     // the owner already has a category with that name
    | InvalidAmount     // savings adjustment: amount is not positive
    | InvalidInput      // savings adjustment: amount is not a number
    | SelfDeletion      // an administrator tried to delete their own account

  /** Outcome of a request that creates a record: its new id, or why it was refused. */
  datatype Result<+T> = Ok(value: T) | Err(failure: Failure)

  /** Outcome of a request that changes or removes an existing record. */
  datatype Outcome =
    | Applied            // the POST was carried out
    | NotPost            // the record exists but the request was not a POST
    | Failed(failure: Failure)
}
