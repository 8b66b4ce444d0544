/**
 * `parseBody`: turning a captured body into a structural view by
 * dispatching on its declared content type.
 */
module BodyParsing {
  import opened Wrappers
  import opened JsValues

  /** What a call into a parser library does: return a value or throw. */
  datatype Parsed = Returned(value: Value) | Threw

  /**
   * The two parser libraries the dispatch calls, left uninterpreted:
   * the XML parser (tag values kept as strings, declaration ignored) and
   * `JSON.parse`. Either may throw.
   */
  datatype Parsers = Parsers(xml: Value -> Parsed, json: Value -> Parsed)

  const Separator: string := "; "
  const JsonMediaType: string := "application/json"

  /** The four media types routed to the XML parser. */
  const XmlMediaTypes: set<string> :=
    {"image/svg+xml", "application/xml", "application/atom+xml", "text/xml"}

  /** The two-character separator `"; "` starts at index `i` of `s`. */
  predicate SeparatorAt(s: string, i: int) {
    0 <= i && i + 1 < |s| && s[i] == ';' && s[i + 1] == ' '
  }

  /**
   * `r` is the part of `s` before the first `"; "`, or all of `s` when it
   * holds none: the first element of `s.split("; ")`.
   */
  ghost predicate IsFirstPiece(s: string, r: string) {
    && r <= s
    && (forall i | 0 <= i < |r| :: !SeparatorAt(s, i))
    && (|r| == |s| || SeparatorAt(s, |r|))
  }

  /** `s.split("; ")[0]`. */
  function FirstPiece(s: string): (r: string)
    ensures IsFirstPiece(s, r)
    decreases |s|
  {
    if |s| < 2 then s
    else if SeparatorAt(s, 0) then ""
    else
      var rest := FirstPiece(s[1..]);
      assert forall i | 1 <= i <= |rest| :: SeparatorAt(s, i) == SeparatorAt(s[1..], i - 1);
      [s[0]] + rest
  }

  /** At most one string is the first piece of `s`, so FirstPiece is it. */
  lemma FirstPieceUnique(s: string, r: string)
    requires IsFirstPiece(s, r)
    ensures r == FirstPiece(s)
  {
    var c := FirstPiece(s);
  }

  /**
   * The media type the dispatch looks at: the header cut at the first
   * `"; "`, and still absent when the header is absent.
   */
  function MediaType(contentType: Option<string>): (r: Option<string>)
    ensures r.Some? <==> contentType.Some?
    ensures r.Some? ==> IsFirstPiece(contentType.value, r.value)
  {
    match contentType
    case None => None
    case Some(t) => Some(FirstPiece(t))
  }

  /**
   * `parseBody(body, contentType)`. Structured and absent bodies come back
   * unchanged; otherwise the media type picks the XML parser, `JSON.parse`,
   * or no parser at all, in which case the body comes back unchanged.
   * A parser that throws is not caught.
   */
  function ParseBody(body: Value, contentType: Option<string>, parsers: Parsers): (r: Parsed)
    ensures PassesThrough(body) ==> r == Returned(body)
    ensures contentType.None? ==> r == Returned(body)
    ensures !PassesThrough(body) && contentType.Some? ==>
              var t := FirstPiece(contentType.value);
              r == if t in XmlMediaTypes then parsers.xml(body)
                   else if t == JsonMediaType then parsers.json(body)
                   else Returned(body)
    ensures r.Threw? ==> !PassesThrough(body) && contentType.Some?
  {
    if PassesThrough(body) then Returned(body)
    else
      match MediaType(contentType)
      case Some("image/svg+xml") => parsers.xml(body)
      case Some("application/xml") => parsers.xml(body)
      case Some("application/atom+xml") => parsers.xml(body)
      case Some("text/xml") => parsers.xml(body)
      case Some("application/json") => parsers.json(body)
      case _ => Returned(body)
  }

  /** When `t` holds no `"; "`, whatever follows the `"; "` appended to it is cut off. */
  lemma FirstPieceDropsParameters(t: string, params: string)
    requires forall i | 0 <= i < |t| :: !SeparatorAt(t, i)
    ensures FirstPiece(t + Separator + params) == t
  {
    var header := t + Separator + params;
    forall i | 0 <= i < |t| ensures !SeparatorAt(header, i) {
      assert header[i] == t[i];
      if i + 1 < |t| {
        assert header[i + 1] == t[i + 1];
        assert !SeparatorAt(t, i);
      } else {
        assert header[i + 1] == ';';
      }
    }
    assert IsFirstPiece(header, t);
    FirstPieceUnique(header, t);
  }

  /**
   * Media-type parameters after the first `"; "` never change where a body
   * goes.
   */
  lemma ParametersDoNotAffectRouting(body: Value, t: string, params: string, parsers: Parsers)
    requires forall i | 0 <= i < |t| :: !SeparatorAt(t, i)
    ensures ParseBody(body, Some(t + Separator + params), parsers) == ParseBody(body, Some(t), parsers)
  {
    FirstPieceDropsParameters(t, params);
    assert IsFirstPiece(t, t);
    FirstPieceUnique(t, t);
  }

  /** A string body whose media type is the JSON type goes to `JSON.parse`. */
  lemma JsonPieceGoesToJsonParser(s: string, header: string, parsers: Parsers)
    requires FirstPiece(header) == JsonMediaType
    ensures ParseBody(Text(s), Some(header), parsers) == parsers.json(Text(s))
  {
  }

  /**
   * A JSON header with parameters, such as the "application/json;
   * charset=utf-8" that Express's `res.json` declares, sends a string body
   * to `JSON.parse`.
   */
  lemma JsonWithParametersGoesToJsonParser(s: string, params: string, parsers: Parsers)
    ensures ParseBody(Text(s), Some(JsonMediaType + Separator + params), parsers) == parsers.json(Text(s))
  {
    assert ';' !in JsonMediaType;
    FirstPieceDropsParameters(JsonMediaType, params);
    JsonPieceGoesToJsonParser(s, JsonMediaType + Separator + params, parsers);
  }

  /**
   * Only the exact two-character separator is recognised: a `;` not
   * followed by a space leaves the header whole.
   */
  lemma SemicolonWithoutSpaceIsKept(t: string, params: string)
    requires ';' !in t && ';' !in params
    requires params == [] || params[0] != ' '
    ensures FirstPiece(t + ";" + params) == t + ";" + params
  {
  }

  /**
   * So "application/json;charset=utf-8" is not the JSON media type, and a
   * string body declared with it comes back unparsed.
   */
  lemma JsonWithoutSpaceIsNotParsed(s: string, params: string, parsers: Parsers)
    requires ';' !in params
    requires params == [] || params[0] != ' '
    ensures ParseBody(Text(s), Some(JsonMediaType + ";" + params), parsers) == Returned(Text(s))
  {
    var header := JsonMediaType + ";" + params;
    SemicolonWithoutSpaceIsKept(JsonMediaType, params);
    assert header[12] == 'j';
    assert header != JsonMediaType;
    assert header !in XmlMediaTypes;
  }
}
