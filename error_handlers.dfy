/** handle_error: the JSON error envelope every failing route answers with, and the one
    error-level log event that accompanies an exception. */
module ErrorHandlers {
  import opened Wrappers

  /** An exception handed to the handler: its class name and its `str()`. */
  datatype ErrorValue = ErrorValue(className: string, text: string)

  /** The last frame of the traceback of the exception being handled, when there is one. */
  datatype Frame = Frame(file: string, line: nat, funcName: string)

  /** One call of the application logger at error level: which exception, and where it
      was raised when a traceback is at hand. */
  datatype LogEvent = LogEvent(exception: string, description: string, location: Option<Frame>)

  /** The `details` object added in debug mode; `traceback` is `None` when no traceback
      is at hand. */
  datatype Details = Details(exception: string, description: string, traceback: Option<seq<string>>)

  /** `{"code": ..., "message": ..., "details": ...}`; `details` is absent when `None`. */
  datatype ErrorBody = ErrorBody(code: int, message: string, details: Option<Details>)

  /** `{"success": ..., "error": ...}`. */
  datatype Envelope = Envelope(success: bool, error: ErrorBody)

  /** What one call gives: the JSON body, the HTTP status and the log events emitted. */
  datatype Handled = Handled(response: Envelope, status: int, logs: seq<LogEvent>)

  /** The status codes with a message of their own. */
  const ErrorMessages: map<int, string> :=
    map[400 := "Bad Request", 401 := "Unauthorized", 403 := "Forbidden", 404 := "Not Found", 500 := "Internal Server Error"]

  const UnknownError: string := "Unknown Error"

  /** The message used when the caller gives none. */
  function DefaultMessage(code: int): (m: string)
    ensures code in ErrorMessages ==> m == ErrorMessages[code]
    ensures code !in ErrorMessages ==> m == UnknownError
  {
    if code in ErrorMessages then ErrorMessages[code] else UnknownError
  }

  /** The generic text is given exactly to the codes outside the table. */
  lemma UnknownErrorExactly(code: int)
    ensures DefaultMessage(code) == UnknownError <==> code !in {400, 401, 403, 404, 500}
  {
    if code in ErrorMessages {
      assert ErrorMessages[code] != UnknownError;
    }
  }

  /** handle_error(status_code, error, message) under an application whose debug flag is
      `debug`, while the exception's traceback, if any, ends in `lastFrame` and formats to
      the lines `traceLines` (`traceback.format_exc().split("\n")`). */
  function HandleError(code: int, error: Option<ErrorValue>, message: Option<string>, debug: bool,
                       lastFrame: Option<Frame>, traceLines: seq<string>): (h: Handled)
    ensures h.status == code && !h.response.success && h.response.error.code == code
    ensures message.Some? ==> h.response.error.message == message.value
    ensures message.None? ==> h.response.error.message == DefaultMessage(code)
    ensures h.response.error.details.Some? <==> debug && error.Some?
    ensures h.response.error.details.Some? ==>
      && h.response.error.details.value.exception == error.value.className
      && h.response.error.details.value.description == error.value.text
      && (h.response.error.details.value.traceback.Some? <==> lastFrame.Some?)
      && (lastFrame.Some? ==> h.response.error.details.value.traceback == Some(traceLines))
    ensures |h.logs| == if error.Some? then 1 else 0
    ensures error.Some? ==>
      h.logs[0] == LogEvent(error.value.className, error.value.text, lastFrame)
  {
    var text := if message.Some? then message.value else DefaultMessage(code);
    var logs := if error.Some? then [LogEvent(error.value.className, error.value.text, lastFrame)] else [];
    var trace := if lastFrame.Some? then Some(traceLines) else None;
    var details := if debug && error.Some? then Some(Details(error.value.className, error.value.text, trace)) else None;
    Handled(Envelope(false, ErrorBody(code, text, details)), code, logs)
  }

  /** The debug flag adds the details and changes nothing else: status, message and logs
      are the same in both modes. */
  lemma DebugOnlyAddsDetails(code: int, error: Option<ErrorValue>, message: Option<string>, lastFrame: Option<Frame>, traceLines: seq<string>)
    ensures var plain := HandleError(code, error, message, false, lastFrame, traceLines);
      var debug := HandleError(code, error, message, true, lastFrame, traceLines);
      && plain.status == debug.status
      && plain.logs == debug.logs
      && plain.response.error.message == debug.response.error.message
      && plain.response.error == debug.response.error.(details := None)
  {
  }

  /** The traceback reaches the envelope only through `details.traceback`, which exists
      only in debug mode with an error: outside that case the envelope is the same
      whatever the traceback, and in every case status, message and the presence of the
      details are. */
  lemma TracebackOnlyInDebugDetails(code: int, error: Option<ErrorValue>, message: Option<string>, debug: bool,
                                    f: Option<Frame>, lines: seq<string>, g: Option<Frame>, lines': seq<string>)
    ensures var a := HandleError(code, error, message, debug, f, lines);
      var b := HandleError(code, error, message, debug, g, lines');
      && a.status == b.status
      && a.response.error.message == b.response.error.message
      && a.response.error.details.Some? == b.response.error.details.Some?
      && (!(debug && error.Some?) ==> a.response == b.response)
  {
  }

  /** An exception handled in debug mode while its traceback is at hand: the details name
      it and carry the formatted traceback lines. */
  lemma DebugDetailsWithTraceback(e: ErrorValue, frame: Frame, lines: seq<string>)
    ensures var h := HandleError(500, Some(e), None, true, Some(frame), lines);
      && h.status == 500 && h.response.error.code == 500
      && h.response.error.details == Some(Details(e.className, e.text, Some(lines)))
      && |h.logs| == 1
  {
  }

  /** A status code alone: the table's message for 404, no details, nothing logged. */
  lemma NotFoundWithoutError()
    ensures var h := HandleError(404, None, None, false, None, []);
      && h.status == 404 && h.response.error.message == "Not Found"
      && h.response.error.details.None? && h.logs == []
  {
  }

  /** A code outside the table, such as 599, gets the generic text. */
  lemma UnlistedCode()
    ensures HandleError(599, None, None, false, None, []).response.error.message == UnknownError
  {
  }
}
