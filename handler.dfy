/**
 * `asyncHandler` (src/asynchandler.js). `AsyncHandler`'s constructor is the
 * call `asyncHandler(fn, options)`, which picks the logger and the
 * formatter; `Invoke` is the middleware it returns, run on a request once
 * the wrapped handler's outcome has settled. The logger, the response and
 * `next` are recording stand-ins for winston and Express.
 */
module Handler {
  import opened Wrappers
  import opened Js
  import Errors

  /** The parts of an Express request the guard reads (`req.method` is `httpMethod`); `rest` is everything else. */
  datatype Request = Request(httpMethod: string, originalUrl: string, rest: seq<Prop>)

  /** How the awaited handler settled. */
  datatype Outcome = Completed | Threw(err: ErrorObject)

  datatype LogEntry = LogEntry(message: string, meta: Value)

  /** One `res.status(status).json(body)`. */
  datatype Write = Write(status: Value, body: Value)

  /** `options.formatError`. */
  type Formatter = (ErrorObject, Request) -> Value

  datatype Options = Options(logger: Option<Logger>, formatError: Option<Formatter>)

  /** One observable call the guard makes, in the order it makes them. */
  datatype Effect = Logged(entry: LogEntry) | Forwarded(err: ErrorObject) | Sent(write: Write)

  /** A winston-style logger reduced to the records passed to `error(message, meta)`. */
  class Logger {
    var entries: seq<LogEntry>

    constructor ()
      ensures entries == []
    {
      entries := [];
    }

    method Error(message: string, meta: Value)
      modifies this
      ensures entries == old(entries) + [LogEntry(message, meta)]
    {
      entries := entries + [LogEntry(message, meta)];
    }
  }

  /** An Express response reduced to whether headers went out and what was written. */
  class Response {
    var headersSent: bool
    var writes: seq<Write>

    constructor (headersSent: bool)
      ensures this.headersSent == headersSent && writes == []
    {
      this.headersSent := headersSent;
      writes := [];
    }

    /** `res.status(status).json(body)`: sending commits the headers. */
    method StatusJson(status: Value, body: Value)
      modifies this
      ensures writes == old(writes) + [Write(status, body)]
      ensures headersSent
    {
      writes := writes + [Write(status, body)];
      headersSent := true;
    }
  }

  /** Express's `next`, reduced to the errors passed to it. */
  class Next {
    var forwarded: seq<ErrorObject>

    constructor ()
      ensures forwarded == []
    {
      forwarded := [];
    }

    method Call(err: ErrorObject)
      modifies this
      ensures forwarded == old(forwarded) + [err]
    {
      forwarded := forwarded + [err];
    }
  }

  /** The fallback status. */
  const InternalStatus: int := 500

  /** The fallback message of the default body. */
  const InternalMessage: string := "Internal Server Error"

  /** `err.status || 500`. */
  function ResolveStatus(err: ErrorObject): (status: Value)
    ensures Truthy(status)
    ensures Truthy(err.Status()) ==> status == err.Status()
    ensures !Truthy(err.Status()) ==> status == Num(InternalStatus)
    ensures err.Status() == Undefined || err.Status() == Null || err.Status() == Num(0) ==> status == Num(InternalStatus)
  {
    Or(err.Status(), Num(InternalStatus))
  }

  /** `{ status: "error", message: err.message || "Internal Server Error" }`. */
  function DefaultBody(err: ErrorObject): (body: Value)
    ensures body.Obj? && DistinctKeys(body.props)
    ensures Keys(body.props) == ["status", "message"]
    ensures Get(body.props, "status") == Str("error")
    ensures err.message != "" ==> Get(body.props, "message") == Str(err.message)
    ensures err.message == "" ==> Get(body.props, "message") == Str(InternalMessage)
  {
    var props := [Prop("status", Str("error")), Prop("message", Or(Str(err.message), Str(InternalMessage)))];
    assert Keys(props) == ["status", "message"];
    GetAt(props, 0); GetAt(props, 1);
    Obj(props)
  }

  /** `[${req.method}] ${req.originalUrl} - ${err.message}`. */
  function LogMessage(req: Request, err: ErrorObject): (line: string)
    ensures |line| == |req.httpMethod| + |req.originalUrl| + |err.message| + 6
    ensures line[..|req.httpMethod| + 3] == "[" + req.httpMethod + "] "
    ensures line[|req.httpMethod| + 3..|req.httpMethod| + 3 + |req.originalUrl|] == req.originalUrl
    ensures line[|req.httpMethod| + 3 + |req.originalUrl|..|line| - |err.message|] == " - "
    ensures line[|line| - |err.message|..] == err.message
  {
    "[" + req.httpMethod + "] " + req.originalUrl + " - " + err.message
  }

  /** `{ stack: err.stack, status: err.status || 500 }`. */
  function LogMeta(err: ErrorObject): (meta: Value)
    ensures meta.Obj? && Keys(meta.props) == ["stack", "status"]
    ensures Get(meta.props, "stack") == err.stack
    ensures Get(meta.props, "status") == ResolveStatus(err)
  {
    var props := [Prop("stack", err.stack), Prop("status", ResolveStatus(err))];
    assert Keys(props) == ["stack", "status"];
    Obj(props)
  }

  /** The records among the effects, in order. */
  function Logs(effects: seq<Effect>): seq<LogEntry> {
    if effects == [] then []
    else (if effects[0].Logged? then [effects[0].entry] else []) + Logs(effects[1..])
  }

  /** The errors passed to `next`, in order. */
  function Forwards(effects: seq<Effect>): seq<ErrorObject> {
    if effects == [] then []
    else (if effects[0].Forwarded? then [effects[0].err] else []) + Forwards(effects[1..])
  }

  /** The JSON writes, in order. */
  function Writes(effects: seq<Effect>): seq<Write> {
    if effects == [] then []
    else (if effects[0].Sent? then [effects[0].write] else []) + Writes(effects[1..])
  }

  /**
   * The calls the middleware makes for one outcome: nothing on success; on a
   * failure one error record first, then either a forward to `next` (headers
   * already sent) or one JSON write.
   */
  function React(outcome: Outcome, req: Request, headersSent: bool, formatError: Option<Formatter>): (effects: seq<Effect>)
    ensures outcome.Completed? <==> effects == []
    ensures outcome.Threw? ==> |effects| == 2 && effects[0].Logged?
    ensures outcome.Threw? ==> Logs(effects) == [effects[0].entry]
    ensures outcome.Threw? ==> effects[0].entry.message == LogMessage(req, outcome.err)
    ensures outcome.Threw? ==> effects[0].entry.meta == LogMeta(outcome.err)
    ensures Forwards(effects) == if outcome.Threw? && headersSent then [outcome.err] else []
    ensures |Writes(effects)| == if outcome.Threw? && !headersSent then 1 else 0
    ensures forall w :: w in Writes(effects) ==>
              && w.status == ResolveStatus(outcome.err)
              && w.status == Get(effects[0].entry.meta.props, "status")
              && (formatError.Some? ==> w.body == formatError.value(outcome.err, req))
              && (formatError.None? ==> w.body == DefaultBody(outcome.err))
  {
    match outcome
    case Completed => []
    case Threw(err) =>
      var logged := Logged(LogEntry(LogMessage(req, err), LogMeta(err)));
      var body := if formatError.Some? then formatError.value(err, req) else DefaultBody(err);
      var last := if headersSent then Forwarded(err) else Sent(Write(ResolveStatus(err), body));
      assert [last][1..] == [];
      assert Logs([last]) == [];
      assert Logs([logged, last]) == [logged.entry] + Logs([last]);
      assert Forwards([logged, last]) == Forwards([last]);
      assert Writes([logged, last]) == Writes([last]);
      [logged, last]
  }

  class AsyncHandler {
    const logger: Logger
    const formatError: Option<Formatter>

    /** `asyncHandler(fn, options)`: `options.logger || defaultLogger`. */
    constructor (options: Options, defaultLogger: Logger)
      ensures logger == if options.logger.Some? then options.logger.value else defaultLogger
      ensures formatError == options.formatError
    {
      logger := if options.logger.Some? then options.logger.value else defaultLogger;
      formatError := options.formatError;
    }

    /** The returned middleware, given how `fn(req, res, next)` settled. */
    method Invoke(outcome: Outcome, req: Request, res: Response, next: Next)
      modifies logger, res, next
      ensures logger.entries == old(logger.entries) + Logs(React(outcome, req, old(res.headersSent), formatError))
      ensures next.forwarded == old(next.forwarded) + Forwards(React(outcome, req, old(res.headersSent), formatError))
      ensures res.writes == old(res.writes) + Writes(React(outcome, req, old(res.headersSent), formatError))
      ensures res.headersSent == (old(res.headersSent) || outcome.Threw?)
    {
      match outcome
      case Completed =>
      case Threw(err) =>
        logger.Error(LogMessage(req, err), LogMeta(err));
        if res.headersSent {
          next.Call(err);
          return;
        }
        var status := ResolveStatus(err);
        var response := if formatError.Some? then formatError.value(err, req) else DefaultBody(err);
        res.StatusJson(status, response);
    }
  }

  /**
   * Throwing an `ApiError` from a guarded handler: since the error has no
   * `status` property, both the log record and the write carry 500,
   * whatever its `statusCode`.
   */
  lemma ApiErrorAnswers500(e: Errors.ApiError, req: Request, headersSent: bool, formatError: Option<Formatter>)
    ensures var effects := React(Threw(e.AsErrorObject()), req, headersSent, formatError);
      && Get(effects[0].entry.meta.props, "status") == Num(InternalStatus)
      && forall w :: w in Writes(effects) ==> w.status == Num(InternalStatus)
  {
    GetAbsent(e.AsErrorObject().props, "status");
  }

  /** A handler throws `new ApiError(404, "Not found")`; the guard answers 500, not 404. */
  method NotFoundScenario(req: Request) returns (log: seq<LogEntry>, writes: seq<Write>)
    ensures |log| == 1 && log[0].meta.Obj? && Get(log[0].meta.props, "status") == Num(InternalStatus)
    ensures writes == [Write(Num(InternalStatus), Obj([Prop("status", Str("error")), Prop("message", Str("Not found"))]))]
  {
    var e := new Errors.ApiError(404, Some("Not found"), None, None, "captured trace");
    var defaultLogger := new Logger();
    var guard := new AsyncHandler(Options(None, None), defaultLogger);
    var res := new Response(false);
    var next := new Next();
    ApiErrorAnswers500(e, req, false, None);
    guard.Invoke(Threw(e.AsErrorObject()), req, res, next);
    log := defaultLogger.entries;
    writes := res.writes;
  }
}
