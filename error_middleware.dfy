/** The Express error handler: the status it answers with, and what its body shows. */
module ErrorMiddleware {
  import opened Base
  import opened Text

  /** A thrown error: its message, its stack trace, and whether it is a `MulterError`. */
  datatype Failure = Failure(message: string, stack: string, isMulterError: bool)

  /** `{ message, stack }` sent with `status`; `stack` is None for JSON null. */
  datatype ErrorReply = ErrorReply(status: nat, message: string, stack: Option<string>)

  /** The upload failures the handler treats as the client's fault. */
  predicate IsUploadRejection(message: string) {
    Contains(message, "Only images are allowed") || Contains(message, "File too large")
  }

  /** `errorHandler(err, req, res, next)` where `current` is `res.statusCode`. */
  method ErrorHandler(current: nat, err: Failure, nodeEnv: string) returns (reply: ErrorReply)
    ensures reply.message == err.message
    ensures reply.stack == if nodeEnv == "production" then None else Some(err.stack)
    // a Multer error is always a bad request
    ensures err.isMulterError ==> reply.status == 400
    // any status already set other than 200 and 500 is kept
    ensures !err.isMulterError && current != 200 && current != 500 ==> reply.status == current
    // 200 means nobody set one: it becomes 500, lowered to 400 for the known upload messages
    ensures !err.isMulterError && (current == 200 || current == 500) ==>
            reply.status == (if IsUploadRejection(err.message) then 400 else 500)
  {
    var statusCode := if current == 200 then 500 else current;
    if err.isMulterError {
      statusCode := 400;
    }
    if err.message != "" && statusCode == 500 {
      if IsUploadRejection(err.message) {
        statusCode := 400;
      }
    }
    reply := ErrorReply(statusCode, err.message, if nodeEnv == "production" then None else Some(err.stack));
  }
}
