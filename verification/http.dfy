/** What a handler throws with `createError`: an HTTP status and a message. */
module Http {
  datatype HttpError = HttpError(statusCode: int, message: string)

  /** A required text field of a request: present and not empty (`!field` is false). */
  predicate Given(field: Option<string>) {
    field.Some? && field.value != ""
  }

  import opened Wrappers
}
