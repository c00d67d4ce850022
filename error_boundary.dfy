/** The global error-handling middleware (server.js:99-105): every error any
    earlier stage passes on becomes one JSON response. */
module ErrorBoundary {
  import opened Config

  /** The responses the front door itself builds. Responses produced by the
      opaque routers and the static file server are `Delegated`. */
  datatype Body =
    | ErrorJson(error: string, message: string)   // `res.status(500).json({ error, message })`
    | HealthJson(state: string, timestamp: string) // `res.json({ status: 'ok', timestamp })`
    | EntryDocument                                // the contents of build/index.html
    | Text(text: string)                           // `res.status(500).send(text)`
    | Delegated                                    // whatever an opaque stage sends

  datatype Response = Response(status: nat, body: Body)

  const InternalServerError := "Internal server error"
  const RedactedMessage := "Something went wrong"

  /** The error boundary's response for an error whose `message` is `errorMessage`. */
  function ErrorResponse(nodeEnv: Option<string>, errorMessage: string): Response {
    Response(500, ErrorJson(InternalServerError,
                            if IsDevelopment(nodeEnv) then errorMessage else RedactedMessage))
  }

  /** Whatever the mode and the error, the status is 500 and the error kind
      is the generic one; the message is the error's own exactly in
      development, and the fixed text otherwise. */
  lemma ErrorResponseShape(nodeEnv: Option<string>, errorMessage: string)
    ensures ErrorResponse(nodeEnv, errorMessage).status == 500
    ensures ErrorResponse(nodeEnv, errorMessage).body.ErrorJson?
    ensures ErrorResponse(nodeEnv, errorMessage).body.error == "Internal server error"
    ensures IsDevelopment(nodeEnv) ==> ErrorResponse(nodeEnv, errorMessage).body.message == errorMessage
    ensures !IsDevelopment(nodeEnv) ==> ErrorResponse(nodeEnv, errorMessage).body.message == "Something went wrong"
  {
  }

  /** Outside development nothing about the error leaks: two different
      errors give byte-identical responses. */
  lemma RedactionHidesError(nodeEnv: Option<string>, m1: string, m2: string)
    requires nodeEnv != Some("development")
    ensures ErrorResponse(nodeEnv, m1) == ErrorResponse(nodeEnv, m2)
  {
  }

  /** In development the response determines the error message: distinct
      errors are told apart. */
  lemma DevelopmentExposesError(m1: string, m2: string)
    requires m1 != m2
    ensures ErrorResponse(Some("development"), m1) != ErrorResponse(Some("development"), m2)
  {
  }
}
