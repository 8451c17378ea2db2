/**
 * The server's per-request logging and its error handler: API requests are
 * logged in one line of at most 80 characters, and an error is answered
 * with a status and message that fall back to 500 and a generic text.
 */
module ServerLog {
  import opened Js

  /** The longest log line. */
  const MAX_LINE := 80

  /** `line.length > 80 ? line.slice(0, 79) + "…" : line`. */
  function Truncate(line: string): (r: string)
    ensures |r| <= MAX_LINE
    ensures |line| <= MAX_LINE ==> r == line
    ensures |line| > MAX_LINE ==> |r| == MAX_LINE && r[..MAX_LINE - 1] == line[..MAX_LINE - 1] && r[MAX_LINE - 1] == '…'
  {
    if |line| > MAX_LINE then line[..MAX_LINE - 1] + "…" else line
  }

  /** A truncated line is not truncated again. */
  lemma TruncateIdempotent(line: string)
    ensures Truncate(Truncate(line)) == Truncate(line)
  {
  }

  /** A line is cut exactly when it is longer than 80 characters, and what is kept is its beginning. */
  lemma TruncateKeepsPrefix(line: string)
    ensures Truncate(line) == line <==> |line| <= MAX_LINE
    ensures |line| > MAX_LINE ==> StartsWith(line, Truncate(line)[..MAX_LINE - 1])
  {
  }

  /** A JSON body passed to `res.json`: its serialisation, and whether the value is truthy. */
  datatype JsonBody = JsonBody(text: string, truthy: bool)

  /** "<method> <path> <status> in <duration>ms". */
  function BaseLine(verb: string, path: string, status: int, duration: int): string
  {
    verb + " " + path + " " + IntToString(status) + " in " + IntToString(duration) + "ms"
  }

  /** The line before truncation: the base line, with " :: <json>" when a truthy body was captured. */
  function FullLine(verb: string, path: string, status: int, duration: int, captured: Option<JsonBody>): string
  {
    var base := BaseLine(verb, path, status, duration);
    if captured.Some? && captured.value.truthy then base + " :: " + captured.value.text else base
  }

  /** The line for one finished request. */
  function LogLine(verb: string, path: string, status: int, duration: int, captured: Option<JsonBody>): (r: string)
    ensures |r| <= MAX_LINE
  {
    Truncate(FullLine(verb, path, status, duration, captured))
  }

  /** A line short enough is the whole base line, with the body appended iff a truthy one was captured. */
  lemma ShortLineIsWhole(verb: string, path: string, status: int, duration: int, captured: Option<JsonBody>)
    requires |FullLine(verb, path, status, duration, captured)| <= MAX_LINE
    ensures StartsWith(LogLine(verb, path, status, duration, captured), BaseLine(verb, path, status, duration))
    ensures captured.Some? && captured.value.truthy ==>
      LogLine(verb, path, status, duration, captured) ==
        BaseLine(verb, path, status, duration) + " :: " + captured.value.text
    ensures !(captured.Some? && captured.value.truthy) ==>
      LogLine(verb, path, status, duration, captured) == BaseLine(verb, path, status, duration)
  {
  }

  /** One request as the logging middleware sees it. */
  class RequestLog {
    const verb: string
    const path: string
    /** `Date.now()` when the request arrived. */
    const start: int
    /** The last body passed to `res.json`, if any. */
    var captured: Option<JsonBody>
    /** The lines written to the log. */
    var lines: seq<string>

    constructor(verb: string, path: string, start: int)
      ensures this.verb == verb && this.path == path && this.start == start
      ensures captured == None && lines == []
    {
      this.verb := verb;
      this.path := path;
      this.start := start;
      captured := None;
      lines := [];
    }

    /** The wrapped `res.json`: the body is remembered, each call overwriting the last. */
    method Json(body: JsonBody)
      modifies this
      ensures captured == Some(body) && lines == old(lines)
    {
      captured := Some(body);
    }

    /**
     * The `finish` listener, at time `now` with status `status`: only paths
     * starting with "/api" are logged.
     */
    method Finish(status: int, now: int)
      modifies this
      ensures captured == old(captured)
      ensures lines == old(lines) +
        (if StartsWith(path, "/api") then [LogLine(verb, path, status, now - start, captured)] else [])
    {
      var duration := now - start;
      if StartsWith(path, "/api") {
        var logLine := BaseLine(verb, path, status, duration);
        if captured.Some? && captured.value.truthy {
          logLine := logLine + " :: " + captured.value.text;
        }
        if |logLine| > MAX_LINE {
          logLine := logLine[..MAX_LINE - 1] + "…";
        }
        lines := lines + [logLine];
      } else {
        assert lines + [] == lines;
      }
    }
  }

  // ---------------------------------------------------------------------
  // The error handler
  // ---------------------------------------------------------------------

  /** What an error carries: `status`, `statusCode` and `message` may each be absent. */
  datatype ServerError = ServerError(status: Option<int>, statusCode: Option<int>, message: Option<string>)

  /** A number is truthy when present and not 0. */
  predicate TruthyCode(c: Option<int>) { c.Some? && c.value != 0 }

  /** The response: a status and the JSON body's message. */
  datatype ErrorReply = ErrorReply(status: int, message: string)

  /** `err.status || err.statusCode || 500` and `err.message || "Internal Server Error"`. */
  function ErrorResponse(err: ServerError): (r: ErrorReply)
    ensures TruthyCode(err.status) ==> r.status == err.status.value
    ensures !TruthyCode(err.status) && TruthyCode(err.statusCode) ==> r.status == err.statusCode.value
    ensures !TruthyCode(err.status) && !TruthyCode(err.statusCode) ==> r.status == 500
    ensures err.message.Some? && err.message.value != [] ==> r.message == err.message.value
    ensures err.message.None? || err.message.value == [] ==> r.message == "Internal Server Error"
  {
    var status := if TruthyCode(err.status) then err.status.value
      else if TruthyCode(err.statusCode) then err.statusCode.value
      else 500;
    var message := if err.message.Some? && Truthy(err.message.value) then err.message.value
      else "Internal Server Error";
    ErrorReply(status, message)
  }

  /** The reply never has status 0 or an empty message, and its status is one the error carried or 500. */
  lemma ErrorResponseDefined(err: ServerError)
    ensures ErrorResponse(err).status != 0
    ensures ErrorResponse(err).message != []
    ensures ErrorResponse(err).status == 500 ||
      (err.status.Some? && ErrorResponse(err).status == err.status.value) ||
      (err.statusCode.Some? && ErrorResponse(err).status == err.statusCode.value)
  {
  }
}
