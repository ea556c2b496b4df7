/** The single error kind raised for every failed request. */
module Errors {
  import opened Wrappers

  /** An error with a message and an optional HTTP status code. */
  datatype SentiraApiError = SentiraApiError(message: string, statusCode: Option<nat>) {
    /** The error's `name` property. */
    const name: string := "SentiraApiError"
  }

  /** Builds the error; the message and the status code are stored exactly as given. */
  function NewSentiraApiError(message: string, statusCode: Option<nat> := None): (e: SentiraApiError)
    ensures e.message == message && e.statusCode == statusCode
    ensures e.name == "SentiraApiError"
  {
    SentiraApiError(message, statusCode)
  }

  /** The plain error raised at construction time, which is not a `SentiraApiError`. */
  datatype ConfigError = MissingCredential {
    const message: string := "Either apiKey or accessToken must be provided"
  }
}
