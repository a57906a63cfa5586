/** The responses of the route handlers: a 200 with the handler's JSON
    payload, or an error status with the body's `error`, `message` and
    `details` fields (each one present or not). */
module Http {
  import opened Common

  /** `req.protocol` and `req.get('host')`, the two parts of the URLs the handlers return. */
  datatype Origin = Origin(protocol: string, host: string)

  function Url(origin: Origin, path: string): string
  {
    origin.protocol + "://" + origin.host + path
  }

  datatype ErrorBody = ErrorBody(error: Option<string>, message: Option<string>, details: Option<string>)

  datatype Response<P> = Ok(payload: P) | Fail(status: nat, body: ErrorBody)

  /** `res.status(status).json({ error })`. */
  function Error<P>(status: nat, error: string): Response<P>
  {
    Fail(status, ErrorBody(Some(error), None, None))
  }

  /** `res.status(status).json({ error, details })`. */
  function ErrorWith<P>(status: nat, error: string, details: string): Response<P>
  {
    Fail(status, ErrorBody(Some(error), None, Some(details)))
  }

  /** `res.status(409).json({ message: 'Already finalized' })`. */
  function Conflict<P>(): Response<P>
  {
    Fail(409, ErrorBody(None, Some("Already finalized"), None))
  }

  /** `res.status(status).json({ error, message })`. */
  function Refusal<P>(status: nat, error: string, message: string): Response<P>
  {
    Fail(status, ErrorBody(Some(error), Some(message), None))
  }
}
