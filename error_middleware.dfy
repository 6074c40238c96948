/** The two last middlewares of the Express app: `notFound` for an unmatched
    route, and `errorHandler`, which turns any thrown error into a JSON reply. */
module ErrorMiddleware {
  import opened Common

  /** How a handler ends: it sends a reply, or it throws after setting
      `res.statusCode` (still 200 when it set nothing), and the error travels
      to `errorHandler`. */
  datatype Outcome<T> = Reply(status: int, body: T) | Thrown(statusCode: int, message: string)

  /** An `Error` as `errorHandler` reads it; the stack trace is produced by
      the runtime and is an input here. */
  datatype Error = Error(message: string, stack: string)

  datatype ErrorReply = ErrorReply(status: int, message: string, stack: Option<string>)

  /** What `notFound` hands on: the status it set and the error it forwards. */
  datatype Forwarded = Forwarded(statusCode: int, error: Error)

  function NotFound(originalUrl: string, stack: string): (r: Forwarded)
    ensures r.statusCode == 404
    ensures r.error.message == "Not Found - " + originalUrl
  {
    Forwarded(404, Error("Not Found - " + originalUrl, stack))
  }

  /** `res.statusCode === 200 ? 500 : res.statusCode`. */
  function StatusFor(currentStatus: int): (r: int)
    ensures r != 200
    ensures r == 500 <==> currentStatus == 200 || currentStatus == 500
    ensures currentStatus != 200 ==> r == currentStatus
  {
    if currentStatus == 200 then 500 else currentStatus
  }

  function ErrorHandler(currentStatus: int, err: Error, nodeEnv: string): (r: ErrorReply)
    ensures r.status != 200
    ensures currentStatus != 200 ==> r.status == currentStatus
    ensures r.message == err.message
    ensures r.stack.Some? <==> nodeEnv == "development"
    ensures r.stack.Some? ==> r.stack.value == err.stack
  {
    ErrorReply(StatusFor(currentStatus), err.message,
               if nodeEnv == "development" then Some(err.stack) else None)
  }

  /** The reply a client finally receives from a handler. */
  datatype Response<T> = Sent(status: int, body: T) | Failed(reply: ErrorReply)

  function Finish<T>(o: Outcome<T>, stack: string, nodeEnv: string): (r: Response<T>)
    ensures o.Reply? ==> r == Sent(o.status, o.body)
    ensures o.Thrown? ==> r.Failed? && r.reply.message == o.message && r.reply.status != 200
    ensures o.Thrown? && o.statusCode != 200 ==> r.Failed? && r.reply.status == o.statusCode
  {
    match o
    case Reply(status, body) => Sent(status, body)
    case Thrown(statusCode, message) => Failed(ErrorHandler(statusCode, Error(message, stack), nodeEnv))
  }

  /** An unmatched route ends as a 404 whose message names the URL. */
  lemma NotFoundReply(originalUrl: string, stack: string, nodeEnv: string)
    ensures var f := NotFound(originalUrl, stack);
            ErrorHandler(f.statusCode, f.error, nodeEnv).status == 404
            && ErrorHandler(f.statusCode, f.error, nodeEnv).message == "Not Found - " + originalUrl
  {
  }
}
