/** The error values that flow through the core, one constructor per origin. */
module Errors {

  /** A field of the user record that `Validate` can reject. */
  datatype Field = Email | Password

  datatype Error =
    /** `Validate` rejected the record; `fields` lists every field that failed. */
    | Invalid(fields: set<Field>)
    /** The password hash could not be computed. */
    | HashFault(text: string)
    /** `store.ErrorRecordNotFound`: a lookup found no user. */
    | RecordNotFound
    /** An error value declared by the server with a fixed message. */
    | Sentinel(text: string)
    /** An error raised by a foreign library (JSON decoding, the session store). */
    | Foreign(text: string)

  /** `errorIncorrectEmailOrPassword` */
  const IncorrectEmailOrPassword: Error := Sentinel("incorrect email or password")

  /** `errorNotAuthenticated` */
  const NotAuthenticated: Error := Sentinel("not authenticated")
}
