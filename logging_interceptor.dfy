/**
  LoggingInterceptor: resolves the client's address behind proxies and
  builds the log records of one request: a 'started' record when it comes
  in, then a 'completed' or an 'error' record when the handler finishes.
 */
module LoggingInterceptor {
  import opened Js
  import opened Text
  import opened Numbers

  /**
    The parts of an Express request the interceptor reads. Header names are
    lower-case; `headers[name]` is `Lookup(headers, name)`.
   */
  datatype Request = Request(
    httpMethod: string,
    originalUrl: string,
    ip: Option<string>,
    headers: map<string, string>,
    remoteAddress: Option<string>)

  /** `x-forwarded-for?.split(',')[0]?.trim()`: the nearest client the proxies recorded. */
  function ForwardedFor(req: Request): (v: Option<string>)
    ensures v.Some? <==> "x-forwarded-for" in req.headers
    ensures v.Some? ==> ',' !in v.value
    ensures "x-forwarded-for" in req.headers && ',' !in req.headers["x-forwarded-for"] ==>
      v == Some(Trim(req.headers["x-forwarded-for"]))
  {
    match Lookup(req.headers, "x-forwarded-for")
    case Some(h) =>
      assert ',' !in h ==> Split(h, ',')[0] == h by {
        if ',' !in h {
          assert h[..|h|] == h;
          SplitFirst(h, ',', |h|);
        }
      }
      Some(Trim(Split(h, ',')[0]))
    case None => None
  }

  /**
    For any X-Forwarded-For header, the value is its text up to the first
    ',' (all of it when there is none), trimmed.
   */
  lemma ForwardedFirstEntry(req: Request, k: nat)
    requires "x-forwarded-for" in req.headers
    requires var h := req.headers["x-forwarded-for"];
      k <= |h| && ',' !in h[..k] && (k < |h| ==> h[k] == ',')
    ensures ForwardedFor(req) == Some(Trim(req.headers["x-forwarded-for"][..k]))
  {
    SplitFirst(req.headers["x-forwarded-for"], ',', k);
  }

  /**
    The client IP: the first X-Forwarded-For entry, trimmed; then X-Real-IP,
    `request.ip`, the socket's remote address, each when non-empty; then
    'unknown'.
   */
  function ClientIp(req: Request): (ip: string)
    ensures ip != ""
    ensures Filled(ForwardedFor(req)) ==> ip == ForwardedFor(req).value
    ensures !Filled(ForwardedFor(req)) && Filled(Lookup(req.headers, "x-real-ip")) ==>
      ip == req.headers["x-real-ip"]
    ensures !Filled(ForwardedFor(req)) && !Filled(Lookup(req.headers, "x-real-ip")) && Filled(req.ip) ==>
      ip == req.ip.value
    ensures (!Filled(ForwardedFor(req)) && !Filled(Lookup(req.headers, "x-real-ip")) && !Filled(req.ip) &&
             Filled(req.remoteAddress)) ==> ip == req.remoteAddress.value
    ensures (!Filled(ForwardedFor(req)) && !Filled(Lookup(req.headers, "x-real-ip")) && !Filled(req.ip) &&
             !Filled(req.remoteAddress)) ==> ip == "unknown"
  {
    // `a || b || c || d || 'unknown'`, grouped to the right, which for strings is the same.
    StrOr(ForwardedFor(req), StrOr(Lookup(req.headers, "x-real-ip"), StrOr(req.ip, StrOr(req.remoteAddress, "unknown"))))
  }

  /**
    Behind a proxy chain `first,rest` the client is `first` trimmed, whatever
    follows the first comma and whatever X-Real-IP says.
   */
  lemma ForwardedChain(req: Request, first: string, rest: string)
    requires "x-forwarded-for" in req.headers && req.headers["x-forwarded-for"] == first + "," + rest
    requires ',' !in first && Trim(first) != ""
    ensures ClientIp(req) == Trim(first)
  {
    var h := first + "," + rest;
    assert h[..|first|] == first;
    ForwardedFirstEntry(req, |first|);
  }

  /** With no proxy headers, the Express-reported IP is used when set. */
  lemma DirectClient(req: Request, addr: string)
    requires "x-forwarded-for" !in req.headers && "x-real-ip" !in req.headers
    requires req.ip == Some(addr) && addr != ""
    ensures ClientIp(req) == addr
  {
  }

  /** `headers['user-agent'] || ''` */
  function UserAgent(req: Request): (ua: string)
    ensures "user-agent" in req.headers ==> ua == req.headers["user-agent"]
    ensures "user-agent" !in req.headers ==> ua == ""
  {
    StrOr(Lookup(req.headers, "user-agent"), "")
  }

  /** `${duration}ms` for the elapsed milliseconds between two clock readings. */
  function Duration(startTime: int, endTime: int): (d: string)
    ensures |d| >= 3 && d[|d| - 2..] == "ms"
  {
    ShowInt(endTime - startTime) + "ms"
  }

  /** The rendered duration reads back, with `parseInt`, as end time minus start time. */
  lemma DurationReadsBack(startTime: int, endTime: int)
    ensures ParseInt(Duration(startTime, endTime)) == Int(endTime - startTime)
  {
    var unit := "ms";
    assert unit[0] == 'm';
    ParseShowInt(endTime - startTime, unit);
    assert Duration(startTime, endTime) == ShowInt(endTime - startTime) + unit;
  }

  /** The fields every record of one request repeats. */
  datatype RequestInfo = RequestInfo(httpMethod: string, url: string, ip: string, userAgent: string)

  /** The record objects; `timestamp` is the ISO text of a clock reading. */
  datatype LogRecord =
    | Started(info: RequestInfo, timestamp: string)
    | Completed(info: RequestInfo, sentStatus: Option<int>, duration: string, timestamp: string)
    | Failed(info: RequestInfo, statusCode: int, duration: string, error: Option<string>,
             stack: Option<string>, timestamp: string)
  {
    /** The record's `status` field. */
    function Status(): string
    {
      match this
      case Started(_, _) => "started"
      case Completed(_, _, _, _) => "completed"
      case Failed(_, _, _, _, _, _) => "error"
    }
  }

  /**
    How the handler finished: with the response's `statusCode`; with an
    error value, whose `message` and `stack` may be undefined; or with null
    or undefined (`throw null`, `throw undefined`, `Promise.reject()`).
   */
  datatype Outcome =
    | Succeeded(responseStatus: Option<int>)
    | Errored(responseStatus: Option<int>, message: Option<string>, stack: Option<string>)
    | ErroredNullish(responseStatus: Option<int>)

  /** The fields taken from the request once, before the handler runs. */
  function Describe(req: Request): (info: RequestInfo)
    ensures info.httpMethod == req.httpMethod && info.url == req.originalUrl
    ensures info.ip == ClientIp(req) && info.userAgent == UserAgent(req)
  {
    RequestInfo(req.httpMethod, req.originalUrl, ClientIp(req), UserAgent(req))
  }

  /** `requestLog`: written when the request comes in. */
  function StartRecord(req: Request, timestamp: string): (r: LogRecord)
    ensures r.Status() == "started" && r.info == Describe(req)
  {
    Started(Describe(req), timestamp)
  }

  /**
    `responseLog` or `errorLog`: written when the handler finishes. On the
    error path a response without a status code is recorded as 500. For a
    null or undefined error, reading `error.message` throws a TypeError
    before the record is complete, so there is none.
   */
  function EndRecord(req: Request, startTime: int, endTime: int, timestamp: string, outcome: Outcome): (r: Option<LogRecord>)
    ensures r.None? <==> outcome.ErroredNullish?
    ensures r.Some? ==>
      && r.value.info == Describe(req)
      && !r.value.Started?
      && r.value.duration == Duration(startTime, endTime)
    ensures outcome.Succeeded? ==> r.Some? && r.value.Status() == "completed" && r.value.sentStatus == outcome.responseStatus
    ensures outcome.Errored? ==>
      r.Some? && r.value.Status() == "error" && r.value.error == outcome.message && r.value.stack == outcome.stack
    ensures outcome.Errored? && outcome.responseStatus.Some? && outcome.responseStatus.value != 0 ==>
      r.Some? && r.value.Failed? && r.value.statusCode == outcome.responseStatus.value
    ensures outcome.Errored? && (outcome.responseStatus == None || outcome.responseStatus == Some(0)) ==>
      r.Some? && r.value.Failed? && r.value.statusCode == 500
  {
    var d := Duration(startTime, endTime);
    match outcome
    case Succeeded(status) =>
      var end := Completed(Describe(req), status, d, timestamp);
      assert end.Status() == "completed";
      Some(end)
    case Errored(status, message, stack) =>
      var end := Failed(Describe(req), IntOr(status, 500), d, message, stack, timestamp);
      assert end.Status() == "error";
      Some(end)
    case ErroredNullish(_) => None
  }

  /** One entry handed to winston: level, title, the 'HTTP' context and the record. */
  datatype FileEntry = FileEntry(level: string, title: string, context: string, record: LogRecord)

  /**
    The winston entries of one finished request: none when no winston
    logger is installed, otherwise 'Incoming Request' followed by
    'Request Completed' or 'Request Failed'; a null or undefined error
    leaves only the first.
   */
  function FileEntries(req: Request, winstonPresent: bool, startTime: int, endTime: int,
                       startStamp: string, endStamp: string, outcome: Outcome): (es: seq<FileEntry>)
    ensures !winstonPresent ==> es == []
    ensures winstonPresent ==> |es| == (if outcome.ErroredNullish? then 1 else 2)
    ensures winstonPresent ==> es[0] == FileEntry("info", "Incoming Request", "HTTP", StartRecord(req, startStamp))
    ensures winstonPresent && !outcome.ErroredNullish? ==>
      && es[1].context == "HTTP"
      && Some(es[1].record) == EndRecord(req, startTime, endTime, endStamp, outcome)
      && (outcome.Succeeded? ==> es[1].level == "info" && es[1].title == "Request Completed")
      && (outcome.Errored? ==> es[1].level == "error" && es[1].title == "Request Failed")
  {
    if !winstonPresent then []
    else
      var first := FileEntry("info", "Incoming Request", "HTTP", StartRecord(req, startStamp));
      match EndRecord(req, startTime, endTime, endStamp, outcome)
      case None => [first]
      case Some(end) =>
        [first,
         if outcome.Succeeded? then FileEntry("info", "Request Completed", "HTTP", end)
         else FileEntry("error", "Request Failed", "HTTP", end)]
  }

  /** All records of one request carry the same method, url, ip and user agent: those of the request. */
  lemma {:induction false} RecordsShareRequest(req: Request, winstonPresent: bool, startTime: int, endTime: int,
                                               startStamp: string, endStamp: string, outcome: Outcome)
    ensures var es := FileEntries(req, winstonPresent, startTime, endTime, startStamp, endStamp, outcome);
      forall i :: 0 <= i < |es| ==> es[i].record.info == Describe(req)
  {
    var es := FileEntries(req, winstonPresent, startTime, endTime, startStamp, endStamp, outcome);
    if winstonPresent {
      assert es[0].record == StartRecord(req, startStamp);
      if !outcome.ErroredNullish? {
        assert Some(es[1].record) == EndRecord(req, startTime, endTime, endStamp, outcome);
      }
    }
  }

  /** One line written to the console logger, at level 'log' or 'error'. */
  datatype ConsoleLine = ConsoleLine(level: string, text: string)

  /** A status code in a template literal; an unset one prints as 'undefined'. */
  function ShowStatus(status: Option<int>): string
  {
    match status
    case Some(n) => ShowInt(n)
    case None => "undefined"
  }

  /**
    The console lines of one finished request: the arrival line, then the
    outcome line with the status and the duration the end record holds. A
    null or undefined error throws while the error line is built, leaving
    only the arrival line.
   */
  function ConsoleLines(req: Request, startTime: int, endTime: int, outcome: Outcome): (ls: seq<ConsoleLine>)
    ensures |ls| == (if outcome.ErroredNullish? then 1 else 2)
    ensures var info := Describe(req);
      ls[0] == ConsoleLine("log", "→ " + info.httpMethod + " " + info.url + " - " + info.ip + " - " + info.userAgent)
    ensures var info := Describe(req);
      outcome.Succeeded? ==>
        ls[1] == ConsoleLine("log", "← " + info.httpMethod + " " + info.url + " " + ShowStatus(outcome.responseStatus) +
                             " - " + Duration(startTime, endTime) + " - " + info.ip)
    ensures var info := Describe(req);
      outcome.Errored? ==>
        ls[1] == ConsoleLine("error", "✗ " + info.httpMethod + " " + info.url + " " + ShowInt(IntOr(outcome.responseStatus, 500)) +
                             " - " + Duration(startTime, endTime) + " - " + info.ip + " - " +
                             (if outcome.message.Some? then outcome.message.value else "undefined"))
  {
    var info := Describe(req);
    var arrival := ConsoleLine("log", "→ " + info.httpMethod + " " + info.url + " - " + info.ip + " - " + info.userAgent);
    match outcome
    case Succeeded(status) =>
      [arrival,
       ConsoleLine("log", "← " + info.httpMethod + " " + info.url + " " + ShowStatus(status) +
                   " - " + Duration(startTime, endTime) + " - " + info.ip)]
    case Errored(status, message, _) =>
      [arrival,
       ConsoleLine("error", "✗ " + info.httpMethod + " " + info.url + " " + ShowInt(IntOr(status, 500)) +
                   " - " + Duration(startTime, endTime) + " - " + info.ip + " - " +
                   (if message.Some? then message.value else "undefined"))]
    case ErroredNullish(_) => [arrival]
  }
}
