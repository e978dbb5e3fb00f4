/** The hosted backend the panels talk to, reduced to the outcomes of its calls.
    A call is never made by the model; the caller passes in what it returned. */
module Backend {

  /** What `auth.getUser()` returned: a signed-in user or nobody. */
  datatype Session = SignedIn(userId: string) | SignedOut

  /** What an `insert` or `update` returned: no error, or an error message. */
  datatype Write = Written | WriteFailed(message: string)

  /** What a `select` returned: the rows (`data || []`), or an error message. */
  datatype Read<+T> = Rows(rows: seq<T>) | ReadFailed(message: string)
}
