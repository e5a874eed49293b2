/** The responses the API routes hand to `NextResponse.json`. */
module Http {

  /** A 200 response carrying a JSON body, or an error response `{error: message}`
      with its status code. */
  datatype Response<+T> = Success(body: T) | Failure(status: nat, error: string)
  {
    /** The HTTP status the route answers with. */
    function Status(): nat
    {
      if Success? then 200 else status
    }
  }

  /** The message every route returns with status 400. */
  const MissingFields: string := "Missing required fields"
}
