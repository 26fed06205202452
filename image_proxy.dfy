/**
 * The request-parameter logic of the image proxy handler: the method check,
 * the width, quality and format derived from the query string, the url checks
 * that keep the proxy from fetching arbitrary hosts, and the Content-Type the
 * chosen format leads to. Fetching the image and re-encoding it are not part
 * of this model; `Transform` is the point where the handler starts them.
 */
module ImageProxy {
  import opened Wrappers
  import opened JsString

  /** One query-string parameter: missing, given once (a string) or given several times (an array of strings). */
  datatype Param = Absent | Single(s: string) | Repeated(items: seq<string>)

  datatype Query = Query(url: Param, w: Param, q: Param, f: Param)

  const DefaultWidth: nat := 900
  const MaxWidth: int := 1600
  const DefaultQuality: nat := 72
  const MaxQuality: int := 90
  const DefaultFormat := "webp"
  const AllowedPrefix := "https://msgsndr-private.storage.googleapis.com/"

  /** What the handler does with one request. */
  datatype Outcome =
      /** it answers at once with a plain-text body */
    | Reply(status: int, text: string)
      /** it fetches `url` and re-encodes the image at this width and quality, sent with this Content-Type */
    | Transform(url: string, width: int, quality: int, contentType: string)
      /** a TypeError escapes the handler before any response is written */
    | Crash

  /** Truthiness of a parameter: a non-empty string, or any array. */
  predicate ParamTruthy(p: Param) {
    match p
    case Absent => false
    case Single(s) => s != ""
    case Repeated(_) => true
  }

  /** `String(p)` for a parameter that is present: an array reads as its items joined by commas. */
  function ParamText(p: Param): (r: string)
    requires !p.Absent?
    ensures p.Single? ==> r == p.s
    ensures p.Repeated? && |p.items| == 1 ==> r == p.items[0]
    ensures p.Repeated? && |p.items| > 1 ==> p.items[0] + "," <= r
  {
    match p
    case Single(s) => s
    case Repeated(items) => Join(items, ",")
  }

  function Min(a: int, b: int): int {
    if a < b then a else b
  }

  /**
   * `Math.min(parseInt(p || "<default>", 10) || default, cap)`: the default
   * stands in for a missing parameter and for one that parses to NaN or 0;
   * the cap bounds the value from above only.
   */
  function Clamped(p: Param, default: nat, cap: int): (r: int)
    requires 0 < default <= cap
    ensures r <= cap && r != 0
    ensures !ParamTruthy(p) ==> r == default
    ensures ParamTruthy(p) && (ParseInt(ParamText(p)).None? || ParseInt(ParamText(p)) == Some(0)) ==> r == default
  {
    var text := if ParamTruthy(p) then ParamText(p) else DecimalString(default);
    var parsed := ParseInt(text);
    var value := if parsed.Some? && parsed.value != 0 then parsed.value else default;
    ParseIntDecimal(default);
    Min(value, cap)
  }

  /** The width passed to the resize step. */
  function Width(query: Query): (r: int)
    ensures r <= MaxWidth && r != 0
    ensures !ParamTruthy(query.w) ==> r == DefaultWidth
  {
    Clamped(query.w, DefaultWidth, MaxWidth)
  }

  /** The encoder quality. */
  function Quality(query: Query): (r: int)
    ensures r <= MaxQuality && r != 0
    ensures !ParamTruthy(query.q) ==> r == DefaultQuality
  {
    Clamped(query.q, DefaultQuality, MaxQuality)
  }

  /** `(f || "webp").toLowerCase()`; None when `f` is an array, which has no `toLowerCase`. */
  function FormatOf(f: Param): (r: Option<string>)
    ensures r.None? <==> f.Repeated?
    ensures !ParamTruthy(f) && !f.Repeated? ==> r == Some("webp")
    ensures f.Single? && f.s != "" ==> r == Some(ToLower(f.s))
  {
    DefaultFormatIsLowerCase();
    match f
    case Absent => Some(ToLower(DefaultFormat))
    case Single(s) => Some(ToLower(if s != "" then s else DefaultFormat))
    case Repeated(_) => None
  }

  lemma DefaultFormatIsLowerCase()
    ensures ToLower(DefaultFormat) == DefaultFormat
  {
    var w := ToLower(DefaultFormat);
    assert |w| == 4 && w[0] == 'w' && w[1] == 'e' && w[2] == 'b' && w[3] == 'p';
  }

  /** The Content-Type set for a (lower-cased) format name. */
  function ContentType(format: string): (r: string)
    ensures r in {"image/jpeg", "image/png", "image/webp"}
    ensures r == "image/webp" <==> format !in {"jpg", "jpeg", "png"}
    ensures r == "image/jpeg" <==> format in {"jpg", "jpeg"}
  {
    if format == "jpg" || format == "jpeg" then "image/jpeg"
    else if format == "png" then "image/png"
    else "image/webp"
  }

  /** The url parameter is usable when it is a single non-empty string. */
  predicate HasUrl(query: Query) {
    query.url.Single? && query.url.s != ""
  }

  /**
   * The handler up to the upstream fetch. The checks run in a fixed order
   * and the first that fails decides: the method, then (while the format is
   * computed) an array-valued `f`, then the url's presence, then its host.
   */
  function Handle(httpMethod: string, query: Query): (r: Outcome)
    ensures httpMethod != "GET" ==> r == Reply(405, "Method not allowed")
    ensures httpMethod == "GET" && query.f.Repeated? ==> r == Crash
    ensures httpMethod == "GET" && !query.f.Repeated? && !HasUrl(query) ==> r == Reply(400, "Missing url")
    ensures httpMethod == "GET" && !query.f.Repeated? && HasUrl(query) && !(AllowedPrefix <= query.url.s)
      ==> r == Reply(400, "Unsupported host")
    ensures r.Transform? <==>
      httpMethod == "GET" && !query.f.Repeated? && HasUrl(query) && AllowedPrefix <= query.url.s
    ensures r.Transform? ==>
      && r.url == query.url.s
      && r.width <= MaxWidth && r.width != 0
      && r.quality <= MaxQuality && r.quality != 0
      && (r.contentType == "image/jpeg" || r.contentType == "image/png" || r.contentType == "image/webp")
    ensures r.Transform? && !ParamTruthy(query.f) ==> r.contentType == "image/webp"
    ensures r.Transform? ==>
      && r.width == Width(query) && r.quality == Quality(query)
      && r.contentType == ContentType(FormatOf(query.f).value)
  {
    if httpMethod != "GET" then Reply(405, "Method not allowed")
    else
      var url := query.url;
      var w := Width(query);
      var q := Quality(query);
      var format := FormatOf(query.f);
      if format.None? then Crash
      else if !HasUrl(query) then Reply(400, "Missing url")
      else if !(AllowedPrefix <= url.s) then Reply(400, "Unsupported host")
      else Transform(url.s, w, q, ContentType(format.value))
  }

  lemma ClampedParsed(p: Param, default: nat, cap: int, v: int)
    requires 0 < default <= cap
    requires ParamTruthy(p) && ParseInt(ParamText(p)) == Some(v) && v != 0
    ensures Clamped(p, default, cap) == Min(v, cap)
  {
  }

  /** A positive numeral is taken as given, up to the cap; a negative one is not raised (there is no lower clamp). */
  lemma ClampedNumeral(sign: string, n: nat, default: nat, cap: int)
    requires 0 < default <= cap
    requires 0 < n
    requires sign == "" || sign == "-"
    ensures Clamped(Single(sign + DecimalString(n)), default, cap) == if sign == "-" then 0 - n else Min(n, cap)
  {
    var text := sign + DecimalString(n);
    ParseIntSigned(sign, n);
    ClampedParsed(Single(text), default, cap, if sign == "-" then 0 - n else n);
  }

  /** A repeated parameter is read from its first value: `String(["5", "6"])` is "5,6", and `parseInt` stops at the comma. */
  lemma ClampedRepeatedNumeral(items: seq<string>, n: nat, default: nat, cap: int)
    requires 0 < default <= cap
    requires 0 < n
    requires |items| > 0 && items[0] == DecimalString(n)
    ensures Clamped(Repeated(items), default, cap) == Min(n, cap)
  {
    RepeatedReadsFirst(items, n);
    ClampedParsed(Repeated(items), default, cap, n);
  }

  lemma RepeatedReadsFirst(items: seq<string>, n: nat)
    requires |items| > 0 && items[0] == DecimalString(n)
    ensures ParseInt(ParamText(Repeated(items))) == Some(n)
  {
    var numeral := DecimalString(n);
    var text := ParamText(Repeated(items));
    var rest := text[|numeral|..];
    assert text == numeral + rest;
    assert rest == [] || rest[0] == ',';
    assert "" + ("" + (numeral + rest)) == text;
    ParseIntReadsNumeral("", "", n, rest);
  }

  /** The format comparison ignores case: a value and its lower-cased form choose the same Content-Type. */
  lemma FormatIgnoresCase(s: string)
    ensures FormatOf(Single(s)) == FormatOf(Single(ToLower(s)))
  {
  }
}
