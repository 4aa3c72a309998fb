/** Values exchanged between the report job and the services it calls:
    Go's `error`, the `(value, error)` pairs returned by the Athena SDK,
    the outcome of one run of the job, and the trace of outbound calls. */
module Outcomes {

  /** A Go `error`. `ClientError` is an error handed back by the Athena SDK or
      the HTTP client, opaque to the job and passed on unchanged; `Errorf` is an
      error the job builds itself with `fmt.Errorf`, identified by its message. */
  datatype Error = ClientError(detail: string) | Errorf(message: string)

  datatype Option<T> = None | Some(value: T)

  /** The `(value, err)` pair returned by an SDK call: exactly one of the two is meaningful. */
  datatype Result<T> = Success(value: T) | Failure(error: Error)

  /** What one step of the job comes to. `Ok` and `Err` are the Go return
      values (`nil` error or not); `Unfinished` means the status answers given to
      the model ran out while the query was still queued or running, so the
      poll loop had not returned yet. */
  datatype Run<T> = Ok(value: T) | Err(error: Error) | Unfinished
  {
    /** The same run with its value dropped, for a caller that returns only the error. */
    function Discard(): (r: Run<()>)
      ensures r.Ok? <==> Ok?
      ensures Err? ==> r == Err(error)
      ensures Unfinished? <==> r.Unfinished?
    {
      match this
      case Ok(_) => Ok(())
      case Err(e) => Err(e)
      case Unfinished => Unfinished
    }
  }

  /** One outbound call made by the job, in the order it was made. */
  datatype Call =
    | StartQueryExecution(query: string, outputLocation: string)
    | GetQueryExecution(executionId: string)
    | GetQueryResults(executionId: string)
    | SendMessage(text: string)

  /** The return value of a step together with the calls it made. */
  datatype Outcome<T> = Outcome(run: Run<T>, calls: seq<Call>)

  /** `n` identical calls in a row, as the poll loop makes them. */
  function Repeat(c: Call, n: nat): (r: seq<Call>)
    ensures |r| == n
    ensures forall i :: 0 <= i < n ==> r[i] == c
  {
    seq(n, _ => c)
  }
}
