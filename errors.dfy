/** The errors the pipeline returns, kept as a structure instead of text. */
module Errors {
  import opened Clock

  datatype Error =
    /** `errors.New(text)`, or an error returned by a collaborator. */
    | Message(text: string)
    /** `errors.Wrap(cause, context)` and `fmt.Errorf("context: %w", cause)`. */
    | Wrapped(context: string, cause: Error)
    /** "no bca transactions from <start> to <end>" for an empty statement. */
    | NoTransactions(window: Window)

  /** `%q` of a string, without Go's escaping of special characters. */
  function Quote(s: string): string {
    "\"" + s + "\""
  }
}
