/**
 * What a request handler sees and answers, and the outcome of a call into an external
 * provider (the language-model and speech APIs, the payment gateway), which the model
 * leaves open: every handler is verified for both outcomes.
 */
module Http {

  /** An HTTP status code with the `msg` field of the JSON body (or the plain-text body). */
  datatype Response = Response(status: nat, msg: string)

  /** An external call either returned or threw an error with a message. */
  datatype Call = Succeeded | Failed(message: string)

  /** `req.session`, carrying the optional `userId` stored at login. */
  datatype Session = Session(userId: string)
}
