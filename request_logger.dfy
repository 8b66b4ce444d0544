/**
 * `requestLogger`: the per-request closure that attaches a request id,
 * intercepts `res.send`, and on `finish` emits the three log records.
 */
module RequestLogger {
  import opened Wrappers
  import opened JsValues
  import opened BodyParsing
  import opened Severity
  import opened ClientAddress
  import opened SummaryLine

  /** The `type` key of the context of a detail record. */
  datatype RecordType = Request | Response

  /** The first argument of a logger call: `{ requestId }` or `{ requestId, type }`. */
  datatype Context = Context(requestId: string, recordType: Option<RecordType>)

  /**
   * The second argument of a logger call: the summary line, or the payload
   * that the REQUEST and RESPONSE records serialise.
   */
  datatype Message =
    | Line(text: string)
    | RequestDetail(params: Value, query: Value, headers: map<string, string>,
                    cookies: Value, rawBody: Value, body: Value)
    | ResponseDetail(rawBody: Value, body: Value)

  /** One call `logger[level](context, message)`. */
  datatype LogRecord = LogRecord(level: Level, context: Context, message: Message)

  /** The parts of `req` that the `finish` handler reads, as they are by then. */
  datatype RequestView = RequestView(
    httpMethod: string,
    originalUrl: string,
    protocol: string,
    httpVersion: string,
    headers: map<string, string>,  // header names in lower case, as Node stores them
    ip: Option<string>,
    params: Value,
    query: Value,
    cookies: Value,
    body: Value)

  /** What a call to the intercepted `res.send` does. */
  datatype SendOutcome = Forwarded | SendThrew

  /** What the `finish` handler does. */
  datatype FinishOutcome = Emitted | FinishThrew

  /** `req.header("Content-Type")`: Express looks the name up in lower case. */
  function RequestContentType(req: RequestView): (r: Option<string>)
    ensures r.Some? <==> "content-type" in req.headers
    ensures r.Some? ==> r.value == req.headers["content-type"]
  {
    Lookup(req.headers, "content-type")
  }

  /**
   * `typeof contentType === "string" ? contentType : undefined` on the value
   * of `res.getHeader("Content-Type")`: numbers and lists count as absent.
   */
  function StringContentType(header: Option<HeaderValue>): (r: Option<string>)
    ensures r.Some? <==> header.Some? && header.value.HeaderText?
    ensures r.Some? ==> r.value == header.value.s
  {
    match header
    case Some(HeaderText(s)) => Some(s)
    case _ => None
  }

  /**
   * Exactly one summary, one REQUEST and one RESPONSE record, in that order,
   * all under one request id and one level.
   */
  ghost predicate IsRecordTriple(records: seq<LogRecord>, requestId: string, level: Level) {
    && |records| == 3
    && (forall i | 0 <= i < 3 :: records[i].level == level && records[i].context.requestId == requestId)
    && records[0].context.recordType == None && records[0].message.Line?
    && records[1].context.recordType == Some(Request) && records[1].message.RequestDetail?
    && records[2].context.recordType == Some(Response) && records[2].message.ResponseDetail?
  }

  /**
   * The summary record of a request: no `type` key, the level of the status
   * code, and a line that opens with the resolved client address and closes
   * with the status code.
   */
  function SummaryRecord(requestId: string, req: RequestView, statusCode: int): (r: LogRecord)
    ensures r.level == LoggerLevel(statusCode) && r.context == Context(requestId, None)
    ensures r.message.Line?
    ensures var open := "[" + RequestIp(req.headers, req.ip) + "]";
            |r.message.text| > |open| && r.message.text[..|open|] == open
    ensures var status := " " + DecimalString(statusCode);
            |r.message.text| > |status| && r.message.text[|r.message.text| - |status|..] == status
  {
    var ip := RequestIp(req.headers, req.ip);
    LogRecord(LoggerLevel(statusCode), Context(requestId, None),
              Line(Summary(ip, req.httpMethod, req.originalUrl, req.protocol, req.httpVersion, statusCode)))
  }

  /**
   * The records one `finish` event emits. The request body is parsed after
   * the summary is logged and nothing catches a parser that throws, so then
   * only the summary is emitted.
   */
  function FinishRecords(requestId: string, req: RequestView, statusCode: int,
                         rawResponseBody: Value, responseBody: Value, parsers: Parsers): (records: seq<LogRecord>)
    ensures var parsed := ParseBody(req.body, RequestContentType(req), parsers);
            && (parsed.Returned? ==> IsRecordTriple(records, requestId, LoggerLevel(statusCode)))
            && (parsed.Threw? ==> records == [SummaryRecord(requestId, req, statusCode)])
            && (parsed.Returned? ==>
                  && records[0] == SummaryRecord(requestId, req, statusCode)
                  && records[1].message == RequestDetail(req.params, req.query, req.headers, req.cookies,
                                                         req.body, parsed.value)
                  && records[2].message == ResponseDetail(rawResponseBody, responseBody))
  {
    var level := LoggerLevel(statusCode);
    var summary := SummaryRecord(requestId, req, statusCode);
    match ParseBody(req.body, RequestContentType(req), parsers)
    case Threw => [summary]
    case Returned(requestBody) =>
      [ summary,
        LogRecord(level, Context(requestId, Some(Request)),
                  RequestDetail(req.params, req.query, req.headers, req.cookies, req.body, requestBody)),
        LogRecord(level, Context(requestId, Some(Response)),
                  ResponseDetail(rawResponseBody, responseBody)) ]
  }

  /** The request object, as far as the middleware writes to it. */
  class IncomingRequest {
    var requestId: Option<string>

    constructor ()
      ensures requestId == None
    {
      requestId := None;
    }
  }

  /**
   * The state one invocation of the middleware keeps for its request: the
   * generated id, the two response-body variables the `send` wrapper
   * assigns, and whether `res.send` is currently the wrapper. The bodies
   * handed to the original `send` and the records given to the logger are
   * kept as ghost traces.
   */
  class Interceptor {
    const requestId: string
    const parsers: Parsers
    var rawResponseBody: Value
    var responseBody: Value
    var sendWrapped: bool
    ghost var forwarded: seq<Value>
    ghost var log: seq<LogRecord>

    /**
     * Nothing reaches the original `send` while the wrapper is installed;
     * once it has been restored, the first body the client was sent is the
     * one captured.
     */
    ghost predicate Valid()
      reads this
    {
      && (sendWrapped ==> forwarded == [])
      && (!sendWrapped ==> forwarded != [] && forwarded[0] == rawResponseBody)
    }

    /**
     * The middleware itself: generate the id (`uuid` stands for
     * `randomUUID()`), store it on the request, install the wrapper, then
     * hand over to `next()`.
     */
    constructor (req: IncomingRequest, uuid: string, parsers: Parsers)
      modifies req
      ensures Valid()
      ensures req.requestId == Some(uuid) && requestId == uuid && this.parsers == parsers
      ensures rawResponseBody == Undefined && responseBody == Undefined
      ensures sendWrapped && forwarded == [] && log == []
    {
      requestId := uuid;
      this.parsers := parsers;
      rawResponseBody := Undefined;
      responseBody := Undefined;
      sendWrapped := true;
      forwarded := [];
      log := [];
      new;
      req.requestId := Some(uuid);
    }

    /**
     * A call `res.send(body)` while the response declares
     * `contentTypeHeader`. The wrapper records the body and its parsed
     * view, puts the original `send` back and forwards the body to it once.
     * After that `res.send` is the original and captures nothing. A parser
     * that throws escapes before the original is restored.
     */
    method Send(body: Value, contentTypeHeader: Option<HeaderValue>) returns (outcome: SendOutcome)
      requires Valid()
      modifies this`rawResponseBody, this`responseBody, this`sendWrapped, this`forwarded
      ensures Valid()
      ensures old(sendWrapped) ==> rawResponseBody == body
      ensures old(sendWrapped) ==>
                match ParseBody(body, StringContentType(contentTypeHeader), parsers)
                case Returned(v) =>
                  responseBody == v && !sendWrapped && forwarded == old(forwarded) + [body]
                  && outcome == Forwarded
                case Threw =>
                  responseBody == old(responseBody) && sendWrapped && forwarded == old(forwarded)
                  && outcome == SendThrew
      ensures !old(sendWrapped) ==>
                && rawResponseBody == old(rawResponseBody) && responseBody == old(responseBody)
                && !sendWrapped && forwarded == old(forwarded) + [body] && outcome == Forwarded
    {
      if !sendWrapped {
        forwarded := forwarded + [body];
        return Forwarded;
      }
      var contentType := StringContentType(contentTypeHeader);
      rawResponseBody := body;
      var parsed := ParseBody(body, contentType, parsers);
      if parsed.Threw? {
        return SendThrew;
      }
      responseBody := parsed.value;
      sendWrapped := false;
      forwarded := forwarded + [body];
      outcome := Forwarded;
    }

    /**
     * The `finish` handler: log the summary, then the REQUEST record, then
     * the RESPONSE record, at the level of the final status code. Nothing
     * stops a second `finish` from logging again.
     */
    method Finish(req: RequestView, statusCode: int) returns (outcome: FinishOutcome)
      requires Valid()
      modifies this`log
      ensures Valid()
      ensures log == old(log) + FinishRecords(requestId, req, statusCode, rawResponseBody, responseBody, parsers)
      ensures outcome == Emitted <==> ParseBody(req.body, RequestContentType(req), parsers).Returned?
      ensures outcome == Emitted && !sendWrapped ==> log[|log| - 1].message.rawBody == forwarded[0]
    {
      var level := LoggerLevel(statusCode);
      var ip := RequestIp(req.headers, req.ip);
      log := log + [LogRecord(level, Context(requestId, None),
                              Line(Summary(ip, req.httpMethod, req.originalUrl, req.protocol,
                                           req.httpVersion, statusCode)))];
      var requestBody := ParseBody(req.body, RequestContentType(req), parsers);
      if requestBody.Threw? {
        return FinishThrew;
      }
      log := log + [LogRecord(level, Context(requestId, Some(Request)),
                              RequestDetail(req.params, req.query, req.headers, req.cookies,
                                            req.body, requestBody.value))];
      log := log + [LogRecord(level, Context(requestId, Some(Response)),
                              ResponseDetail(rawResponseBody, responseBody))];
      outcome := Emitted;
    }
  }

  /**
   * The first test's JSON POST, answered 200 through `res.json`: it declares
   * "application/json; charset=utf-8" and sends the serialised reply
   * `jsonText`, a string, which Express's `send` forwards without calling
   * `res.send` again.
   */
  method JsonPostScenario(uuid: string, parsers: Parsers, message: Value, jsonText: string, reply: Value)
    returns (sent: SendOutcome, finished: FinishOutcome, rawResponse: Value, parsedResponse: Value,
             ghost forwarded: seq<Value>, ghost records: seq<LogRecord>)
    requires parsers.json(Text(jsonText)) == Returned(reply)
    ensures sent == Forwarded && finished == Emitted
    ensures rawResponse == Text(jsonText) && parsedResponse == reply
    ensures forwarded == [Text(jsonText)]
    ensures IsRecordTriple(records, uuid, Info)
    ensures records[0].message == Line("[::ffff:127.0.0.1] [POST] /json HTTP 1.1 200")
    ensures records[1].message.rawBody == Record(map["message" := message])
    ensures records[1].message.body == Record(map["message" := message])
    ensures records[2].message == ResponseDetail(Text(jsonText), reply)
  {
    var req := new IncomingRequest();
    var logger := new Interceptor(req, uuid, parsers);
    assert req.requestId == Some(uuid);

    JsonWithParametersGoesToJsonParser(jsonText, "charset=utf-8", parsers);
    sent := logger.Send(Text(jsonText), Some(HeaderText(JsonMediaType + Separator + "charset=utf-8")));

    var body := Record(map["message" := message]);
    var view := RequestView("POST", "/json", "http", "1.1",
                            map["host" := "127.0.0.1", "content-type" := JsonMediaType],
                            Some("::ffff:127.0.0.1"), Record(map[]), Record(map[]), Undefined, body);
    finished := logger.Finish(view, 200);
    JsonPostSummary();
    rawResponse, parsedResponse := logger.rawResponseBody, logger.responseBody;
    forwarded, records := logger.forwarded, logger.log;
  }

  /**
   * `res.send(obj)` with an object: the wrapper captures the object itself
   * (it passes through unparsed) and forwards it once; Express's `send` then
   * serialises it through `res.json`, which calls `res.send` again with the
   * text. That second call reaches the restored original and is not captured.
   */
  method ObjectSendScenario(uuid: string, parsers: Parsers, obj: map<string, Value>, serialised: string)
    returns (first: SendOutcome, second: SendOutcome, rawResponse: Value, parsedResponse: Value,
             ghost forwarded: seq<Value>)
    ensures first == Forwarded && second == Forwarded
    ensures rawResponse == Record(obj) && parsedResponse == Record(obj)
    ensures forwarded == [Record(obj), Text(serialised)]
  {
    var req := new IncomingRequest();
    var logger := new Interceptor(req, uuid, parsers);
    first := logger.Send(Record(obj), None);
    second := logger.Send(Text(serialised), Some(HeaderText(JsonMediaType + Separator + "charset=utf-8")));
    rawResponse, parsedResponse := logger.rawResponseBody, logger.responseBody;
    forwarded := logger.forwarded;
  }
}
