# express-logger, modelled in Dafny

`express-logger` is an Express middleware that logs every request and
response. For each request it does four things:

- it generates a request id and stores it on `req.requestId`;
- it wraps `res.send` so that it can capture the body the handler sends;
- on the response's `finish` event it writes three log records: a summary
  line, a `REQUEST` record and a `RESPONSE` record;
- all three records share the request id and one severity, which comes from
  the final status code.

Bodies are given a structural view by dispatching on their content type:
four XML media types go to an XML parser, `application/json` goes to
`JSON.parse`, and every other body is kept raw.

This project models `src/index.ts` and proves properties of the model.

- `values.dfy` (`JsValues`): the JavaScript values a body can be. `typeof`
  "object" covers null, arrays, objects and Buffers.
- `body.dfy` (`BodyParsing`): `parseBody`. The content type is cut at the
  first `"; "`, and then a fixed table picks the parser. The XML parser and
  `JSON.parse` are function-valued parameters, and each may throw.
- `severity.dfy` (`Severity`): `getLoggerLevel`.
- `address.dfy` (`ClientAddress`): `getRequestIp`. The
  `x-envoy-external-address` header is used first, then `req.ip`, then
  `"0.0.0.0"`. The header is trusted without any validation.
- `summary.dfy` (`SummaryLine`): the summary-line template, including how
  the status code is printed in decimal.
- `request_logger.dfy` (`RequestLogger`): the per-request closure, modelled
  as the class `Interceptor`.
  - Its constructor is the middleware call.
  - `Send` is the `res.send` wrapper. The `sendWrapped` field records
    whether `res.send` is still the wrapper.
  - `Finish` is the `finish` handler.
  - The bodies that reach the original `send` and the records that reach
    the logger are kept as two ghost traces, `forwarded` and `log`.
  - `JsonPostScenario` replays the first JSON test, where `res.json` sends
    a string once. `ObjectSendScenario` shows an object sent with
    `res.send`: Express's `send` re-enters `res.send` with the serialised
    text, and the restored original does not capture that second call.
- `wrappers.dfy` (`Wrappers`): `Option`, used for values that may be
  `undefined`.

Three behaviours of the code are worth stating plainly:

- **A parser that throws is not caught.** There is no `try`/`catch` around
  either parser.
  - If a parser throws inside the `send` wrapper, the raw body has already
    been recorded and nothing else happens. The parsed body is not recorded,
    the original `send` is not put back, and nothing is forwarded
    (`SendThrew`).
  - If the request body's parser throws in the `finish` handler, only the
    summary record has been logged (`FinishThrew`).
- **Nothing stops a second `finish` from logging again.** Each `Finish`
  call appends its records.
- **Only the exact two characters `"; "` end the media type.** So
  `application/json;charset=utf-8` is not treated as JSON.

## Model

| member | source | states |
|---|---|---|
| `BodyParsing.FirstPiece` | src/index.ts:30 | the result is the prefix of the header that ends just before the first `"; "`, or the whole header if it contains none |
| `BodyParsing.FirstPieceUnique` | src/index.ts:30 | only one string has that property, so the cut is determined by it |
| `BodyParsing.MediaType` | src/index.ts:30 | a missing content type stays missing; a present one becomes its first piece |
| `BodyParsing.ParseBody` | src/index.ts:27-48 | object-typed and undefined bodies come back unchanged whatever the content type, and so does any body with no content type; otherwise the four XML types go to the XML parser, `application/json` goes to `JSON.parse`, and any other type returns the body unchanged; an exception can only come from one of the two parsers |
| `BodyParsing.FirstPieceDropsParameters` | src/index.ts:30 | for a type that holds no `"; "`, anything after an appended `"; "` is cut off |
| `BodyParsing.ParametersDoNotAffectRouting` | src/index.ts:30-47 | media-type parameters after `"; "` never change the result of parsing |
| `BodyParsing.JsonPieceGoesToJsonParser` | src/index.ts:44-45 | a string body whose media type is `application/json` is whatever `JSON.parse` makes of it |
| `BodyParsing.JsonWithParametersGoesToJsonParser` | src/index.ts:30-45 | `application/json; charset=utf-8`, the type `res.json` declares, still routes a string body to `JSON.parse` |
| `BodyParsing.SemicolonWithoutSpaceIsKept` | src/index.ts:30 | a `;` that is not followed by a space does not cut the header |
| `BodyParsing.JsonWithoutSpaceIsNotParsed` | src/index.ts:30-47 | so a string body declared `application/json;…` without the space comes back unparsed |
| `Severity.LoggerLevel` | src/index.ts:51-56 | error exactly when status ≥ 500, warn exactly when 400 ≤ status < 500, info exactly when status < 400 |
| `ClientAddress.RequestIp` | src/index.ts:58-59 | the proxy header when present (even if empty), else `req.ip` when present, else `"0.0.0.0"` |
| `SummaryLine.Digits` | src/index.ts:96-98 | a non-empty run of decimal digits, with a leading zero only for 0 |
| `SummaryLine.DigitsRoundTrip` | src/index.ts:96-98 | reading the printed digits back gives the status code |
| `SummaryLine.DecimalString` | src/index.ts:96-98 | a minus sign exactly for negative numbers, followed by the digits of the magnitude |
| `SummaryLine.ToUpperCase` | src/index.ts:98 | the same length, no lower-case ASCII letter left, and every other character kept |
| `SummaryLine.SummaryFrames` | src/index.ts:94-99 | the line starts with `[ip]` and ends with a space and the status digits, which read back as the status code |
| `SummaryLine.Summary` | src/index.ts:96-98 | the template line opens with the bracketed client address and closes with a space and the printed status code |
| `SummaryLine.ProtocolHttpPrintsUpperCase` | src/index.ts:98 | the protocol `http` prints as `HTTP` |
| `SummaryLine.Status200Prints` | src/index.ts:98 | status 200 prints as `200` |
| `SummaryLine.JsonPostSummary` | src/index.test.ts:60-63 | the summary line of the JSON test is `[::ffff:127.0.0.1] [POST] /json HTTP 1.1 200` |
| `RequestLogger.RequestContentType` | src/index.ts:101 | the request's `content-type` header when it is present, absent otherwise |
| `RequestLogger.StringContentType` | src/index.ts:78-84 | the response header counts as a content type only when its value is a string |
| `RequestLogger.FinishRecords` | src/index.ts:90-123 | when the request body parses: exactly summary, REQUEST and RESPONSE, in that order, all at `LoggerLevel(status)` and under one request id. The REQUEST record carries the raw and parsed request body; the RESPONSE record carries the captured raw and parsed response body. When the parser throws: the summary alone |
| `RequestLogger.SummaryRecord` | src/index.ts:91-99 | the first record: level `LoggerLevel(status)`, context `{ requestId }` with no `type`, and a line that opens with `[` + the resolved client address + `]` and ends with the status code |
| `RequestLogger.JsonPostScenario` | src/index.test.ts:46-96 | in the JSON test the reply text is forwarded once and parsed by `JSON.parse`. Three records are emitted at info under the generated id. The summary line is the expected one, the REQUEST raw and parsed bodies are both the object, and the RESPONSE record holds the reply text and its parse |
| `RequestLogger.ObjectSendScenario` | src/index.ts:76-88 | an object sent through the wrapper is captured as is (raw and parsed alike); the re-entrant send of its serialisation reaches the original uncaptured, so the object and then the text are forwarded, once each |
| `RequestLogger.IncomingRequest.constructor` | src/index.ts:5-12 | a request arrives without a request id |
| `RequestLogger.Interceptor.constructor` | src/index.ts:70-77 | the id is stored on the request; the wrapper is installed; both response-body variables start undefined; nothing has been forwarded or logged |
| `RequestLogger.Interceptor.Send` | src/index.ts:76-88 | first call: record the exact body and its parse under the string-only content type, restore the original `send`, and forward the body once. Later calls: forward without capturing anything. On a parser exception: nothing forwarded, wrapper still installed. Throughout, the first forwarded body is the captured one |
| `RequestLogger.Interceptor.Finish` | src/index.ts:90-123 | appends exactly `FinishRecords` of the current state to the log, and reports an exception exactly when the request body's parser throws; once `send` has been restored, the RESPONSE record's raw body is the first body the client was sent |

## Left out

- The XML parser (`fast-xml-parser`) and `JSON.parse` are not modelled inside. They are the parameter `Parsers`: any function that returns a value or throws.
- `randomUUID()` is the constructor parameter `uuid`. Its uniqueness is not modelled.
- The choice between a configured logger and `console` (src/index.ts:64-68) is not modelled. The records logged are the same whichever sink receives them, and the model does not capture a sink that throws.
- `JSON.stringify` of the REQUEST and RESPONSE payloads is not modelled. The payloads are structured `Message` values.
- Express's event wiring is not modelled: `res.on("finish")`, `next()`, and what the original `send` does with the body (status, headers, bytes on the wire). The model only records which bodies reach the original `send`.
- The model has no value types for JavaScript floating-point numbers, `bigint`, symbols or functions. Numbers, status codes included, are integers.
- Request headers are single strings. Node's array-valued `set-cookie` header is not modelled.
- `SummaryLine.ToUpperCase`: only raises ASCII letters, while `toUpperCase` follows Unicode case mapping. With `trust proxy` set, `req.protocol` is the `X-Forwarded-Proto` value and may hold non-ASCII letters, some of which change length when upper-cased (`ß` becomes `SS`). Non-ASCII case mapping is not modelled.
