/** The request and upstream shapes the serverless handlers branch on. */
module Http {
  datatype Method = Get | Post | Options | OtherMethod(name: string)

  /** What a call to an outside service gave: a usable body, a non-ok status, or an exception. */
  datatype Upstream<T> = Ok(body: T) | NotOk(status: nat) | Threw(message: string)
}
