/**
 * The summary line of a request, the template
 * `[ip] [METHOD] url PROTOCOL httpVersion status`.
 */
module SummaryLine {

  predicate IsDigit(c: char) {
    '0' <= c <= '9'
  }

  /** The decimal digits of `n`, as a template literal prints a non-negative integer. */
  function Digits(n: nat): (s: string)
    ensures |s| >= 1 && forall i | 0 <= i < |s| :: IsDigit(s[i])
    ensures s[0] == '0' <==> n == 0
    ensures n == 0 ==> s == "0"
    decreases n
  {
    if n < 10 then [(n + '0' as int) as char]
    else Digits(n / 10) + [(n % 10 + '0' as int) as char]
  }

  function DigitValue(c: char): nat
    requires IsDigit(c)
  {
    c as int - '0' as int
  }

  /** The number a string of decimal digits denotes. */
  function DigitsValue(s: string): nat
    requires forall i | 0 <= i < |s| :: IsDigit(s[i])
    decreases |s|
  {
    if s == [] then 0
    else DigitsValue(s[..|s| - 1]) * 10 + DigitValue(s[|s| - 1])
  }

  /** Printing a status code loses nothing: reading the digits back gives it. */
  lemma {:induction false} DigitsRoundTrip(n: nat)
    ensures DigitsValue(Digits(n)) == n
    decreases n
  {
    var s := Digits(n);
    if n >= 10 {
      DigitsRoundTrip(n / 10);
      assert s[..|s| - 1] == Digits(n / 10);
    }
  }

  /** `${n}` for an integer `n`: a minus sign, then the digits of its magnitude. */
  function DecimalString(n: int): (s: string)
    ensures |s| >= 1
    ensures s[0] == '-' <==> n < 0
    ensures n >= 0 ==> s == Digits(n)
    ensures n < 0 ==> s[1..] == Digits(-n)
  {
    if n < 0 then "-" + Digits(-n) else Digits(n)
  }

  /** `c.toUpperCase()` on one ASCII character. */
  function UpperChar(c: char): char {
    if 'a' <= c <= 'z' then (c as int - 'a' as int + 'A' as int) as char else c
  }

  /** `s.toUpperCase()` on ASCII text: letters raised, everything else kept. */
  function ToUpperCase(s: string): (r: string)
    ensures |r| == |s|
    ensures forall i | 0 <= i < |s| :: !('a' <= r[i] <= 'z')
    ensures forall i | 0 <= i < |s| :: r[i] == s[i] || ('a' <= s[i] <= 'z' && r[i] as int == s[i] as int - 32)
  {
    seq(|s|, i requires 0 <= i < |s| => UpperChar(s[i]))
  }

  /**
   * `[${ip}] [${req.method}] ${req.originalUrl} ${PROTOCOL} ${req.httpVersion} ${statusCode}`.
   */
  function Summary(ip: string, httpMethod: string, originalUrl: string, protocol: string,
                   httpVersion: string, statusCode: int): (line: string)
    ensures |line| > |ip| + 2 && line[..|ip| + 2] == "[" + ip + "]"
    ensures var status := " " + DecimalString(statusCode);
            |line| > |status| && line[|line| - |status|..] == status
  {
    "[" + ip + "] [" + httpMethod + "] " + originalUrl + " "
      + ToUpperCase(protocol) + " " + httpVersion + " " + DecimalString(statusCode)
  }

  /**
   * The line opens with the bracketed client address and closes with the
   * status code, which reads back from its last digits.
   */
  lemma SummaryFrames(ip: string, httpMethod: string, originalUrl: string, protocol: string,
                      httpVersion: string, statusCode: nat)
    ensures var line := Summary(ip, httpMethod, originalUrl, protocol, httpVersion, statusCode);
            var d := Digits(statusCode);
            && line[..|ip| + 2] == "[" + ip + "]"
            && |d| < |line| && line[|line| - |d| - 1] == ' '
            && line[|line| - |d|..] == d
            && DigitsValue(line[|line| - |d|..]) == statusCode
  {
    DigitsRoundTrip(statusCode);
  }

  lemma ProtocolHttpPrintsUpperCase()
    ensures ToUpperCase("http") == "HTTP"
  {
  }

  lemma Status200Prints()
    ensures DecimalString(200) == "200"
  {
  }

  /** The summary line the first test expects for a JSON POST answered 200. */
  lemma JsonPostSummary()
    ensures Summary("::ffff:127.0.0.1", "POST", "/json", "http", "1.1", 200)
            == "[::ffff:127.0.0.1] [POST] /json HTTP 1.1 200"
  {
    ProtocolHttpPrintsUpperCase();
    Status200Prints();
  }
}
