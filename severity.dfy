/** `getLoggerLevel`: the severity of every record of a request. */
module Severity {

  datatype Level = Info | Warn | Error

  /** Server errors log at error, client errors at warn, everything else at info. */
  function LoggerLevel(statusCode: int): (level: Level)
    ensures level == Error <==> statusCode >= 500
    ensures level == Warn <==> 400 <= statusCode < 500
    ensures level == Info <==> statusCode < 400
  {
    if statusCode >= 500 then Error else if statusCode >= 400 then Warn else Info
  }
}
