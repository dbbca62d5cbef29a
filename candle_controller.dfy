/** The `GET /api/candles` controller: normalisation of the query
    parameters symbol, tf, limit and from, the order in which they are
    validated, and the mapping of the outcome to an HTTP status. The
    response plumbing of Express is not modelled; a response is a value. */
module CandleController {
  import opened Common
  import MoexService

  // ---------------------------------------------------------------------
  // ASCII string helpers

  /** The ASCII white space `String.prototype.trim` removes: space, tab,
      line feed, vertical tab, form feed and carriage return. */
  predicate IsSpace(c: char)
  {
    c == ' ' || c == '\t' || c == '\n' || c == '\r' || c as int == 11 || c as int == 12
  }

  /** Leading white space removed: a suffix of `s` starting at its first
      non-space character. */
  function TrimStart(s: string): (r: string)
    ensures |r| <= |s| && r == s[|s| - |r|..]
    ensures r == [] || !IsSpace(r[0])
    ensures forall i :: 0 <= i < |s| - |r| ==> IsSpace(s[i])
  {
    if |s| > 0 && IsSpace(s[0]) then TrimStart(s[1..]) else s
  }

  /** Trailing white space removed: a prefix of `s` ending at its last
      non-space character. */
  function TrimEnd(s: string): (r: string)
    ensures |r| <= |s| && r == s[..|r|]
    ensures r == [] || !IsSpace(r[|r| - 1])
    ensures forall i :: |r| <= i < |s| ==> IsSpace(s[i])
  {
    if |s| > 0 && IsSpace(s[|s| - 1]) then TrimEnd(s[..|s| - 1]) else s
  }

  /** `trim()`: the longest run of `s` that neither starts nor ends with
      white space. */
  function Trim(s: string): (r: string)
    ensures r == [] || (!IsSpace(r[0]) && !IsSpace(r[|r| - 1]))
    ensures (forall i :: 0 <= i < |s| ==> IsSpace(s[i])) ==> r == []
  {
    TrimEnd(TrimStart(s))
  }

  /** A string that neither starts nor ends with white space is its own
      trim. */
  lemma TrimmedIsFixed(s: string)
    requires s == [] || (!IsSpace(s[0]) && !IsSpace(s[|s| - 1]))
    ensures Trim(s) == s
  {
  }

  /** Trimming twice is trimming once. */
  lemma TrimIdempotent(s: string)
    ensures Trim(Trim(s)) == Trim(s)
  {
    TrimmedIsFixed(Trim(s));
  }

  /** `toUpperCase()` on one character, for ASCII: a lower-case letter
      becomes its own capital, anything else is unchanged. */
  function UpperChar(c: char): (d: char)
    ensures 'A' <= d <= 'Z' <==> 'A' <= c <= 'Z' || 'a' <= c <= 'z'
    ensures 'a' <= c <= 'z' ==> d as int - 'A' as int == c as int - 'a' as int
    ensures !('a' <= c <= 'z') ==> d == c
  {
    if 'a' <= c <= 'z' then (c as int - 32) as char else c
  }

  /** `toUpperCase()` restricted to ASCII letters. */
  function Upper(s: string): (r: string)
    ensures |r| == |s|
    ensures forall i :: 0 <= i < |s| ==> r[i] == UpperChar(s[i])
  {
    seq(|s|, i requires 0 <= i < |s| => UpperChar(s[i]))
  }

  /** `raw || fallback`: an absent or empty parameter takes the default. */
  function OrDefault(raw: Option<string>, fallback: string): string
  {
    if raw.None? || raw.value == "" then fallback else raw.value
  }

  // ---------------------------------------------------------------------
  // symbol

  /** `/^[A-Z]{1,10}$/`. */
  predicate ValidSymbol(v: string)
  {
    1 <= |v| <= 10 && forall i :: 0 <= i < |v| ==> 'A' <= v[i] <= 'Z'
  }

  /** The ticker: default SBER, upper-cased and trimmed, accepted only as
      1 to 10 Latin capitals. */
  function NormalizeSymbol(raw: Option<string>): (r: Option<string>)
    ensures r.Some? ==> ValidSymbol(r.value)
  {
    var value := Trim(Upper(OrDefault(raw, "SBER")));
    if value == "" then None
    else if !ValidSymbol(value) then None
    else Some(value)
  }

  /** The normaliser's job: the symbol (SBER when missing or empty) is
      upper-cased and trimmed, and accepted as exactly that text iff the
      result is 1 to 10 Latin capitals; otherwise it is rejected. */
  lemma NormalizeSymbolMeaning(raw: Option<string>)
    ensures NormalizeSymbol(raw).Some? <==> ValidSymbol(Trim(Upper(OrDefault(raw, "SBER"))))
    ensures NormalizeSymbol(raw).Some? ==> NormalizeSymbol(raw).value == Trim(Upper(OrDefault(raw, "SBER")))
  {
  }

  /** A missing or empty symbol becomes SBER. */
  lemma NormalizeSymbolDefault()
    ensures NormalizeSymbol(None) == Some("SBER")
    ensures NormalizeSymbol(Some("")) == Some("SBER")
  {
    assert ValidSymbol("SBER");
    AcceptsValidSymbol("SBER");
    assert OrDefault(None, "SBER") == OrDefault(Some(""), "SBER") == OrDefault(Some("SBER"), "SBER");
  }

  /** A valid symbol is accepted as it is. */
  lemma AcceptsValidSymbol(v: string)
    requires ValidSymbol(v)
    ensures NormalizeSymbol(Some(v)) == Some(v)
  {
    assert Upper(v) == v;
    TrimmedIsFixed(v);
  }

  /** Every valid symbol is accepted unchanged, and so, in particular, is
      every value the normaliser returns: normalising is idempotent. */
  lemma NormalizeSymbolIdempotent(raw: Option<string>)
    ensures forall v :: ValidSymbol(v) ==> NormalizeSymbol(Some(v)) == Some(v)
    ensures NormalizeSymbol(raw).Some? ==> NormalizeSymbol(Some(NormalizeSymbol(raw).value)) == NormalizeSymbol(raw)
  {
    forall v | ValidSymbol(v)
      ensures NormalizeSymbol(Some(v)) == Some(v)
    {
      AcceptsValidSymbol(v);
    }
  }

  // ---------------------------------------------------------------------
  // tf

  /** The timeframe: default 1d, trimmed, accepted only when it is one of
      the allowed keys. */
  function NormalizeTimeframe(raw: Option<string>, allowed: set<string>): (r: Option<string>)
    ensures r.Some? ==> r.value in allowed && Trim(r.value) == r.value
    ensures raw.Some? && raw.value != "" && raw.value in allowed && Trim(raw.value) == raw.value ==> r == Some(raw.value)
    ensures r.Some? ==> r.value == Trim(OrDefault(raw, "1d"))
    ensures Trim(OrDefault(raw, "1d")) !in allowed ==> r.None?
  {
    var value := Trim(OrDefault(raw, "1d"));
    TrimIdempotent(OrDefault(raw, "1d"));
    if value in allowed then Some(value) else None
  }

  /** With the API's keys, a missing or empty tf is the daily timeframe. */
  lemma NormalizeTimeframeDefault()
    ensures NormalizeTimeframe(None, MoexService.AllowedTimeframes) == Some("1d")
    ensures NormalizeTimeframe(Some(""), MoexService.AllowedTimeframes) == Some("1d")
  {
    TrimmedIsFixed("1d");
  }

  /** Every allowed key that is neither empty nor padded is accepted as
      itself. */
  lemma AcceptsAllowedTimeframe(t: string, allowed: set<string>)
    requires t in allowed && t != "" && Trim(t) == t
    ensures NormalizeTimeframe(Some(t), allowed) == Some(t)
  {
  }

  /** When the empty string is not an allowed key, every accepted value is
      normalised to itself. */
  lemma NormalizeTimeframeIdempotent(raw: Option<string>, allowed: set<string>)
    requires "" !in allowed
    ensures NormalizeTimeframe(raw, allowed).Some? ==>
              NormalizeTimeframe(Some(NormalizeTimeframe(raw, allowed).value), allowed) == NormalizeTimeframe(raw, allowed)
  {
  }

  // ---------------------------------------------------------------------
  // limit

  /** The limit parameter: `Blank` is undefined, null or the empty string;
      otherwise `Number(raw)`, None when that is not finite. */
  datatype LimitArg = Blank | Parsed(number: Option<real>)

  const DefaultLimit: int := 500

  /** The limit: 500 when blank, rejected when not finite or below 1 after
      flooring, capped at `max`. */
  function NormalizeLimit(raw: LimitArg, max: int): (r: Option<int>)
    ensures raw.Blank? ==> r == Some(DefaultLimit)
    ensures raw.Parsed? && r.Some? ==>
              raw.number.Some? && r.value <= max && r.value as real <= raw.number.value
              && (r.value == max || raw.number.value < (r.value + 1) as real)
  {
    match raw
    case Blank => Some(DefaultLimit)
    case Parsed(None) => None
    case Parsed(Some(x)) =>
      var n := x.Floor;
      if n < 1 then None
      else if n > max then Some(max)
      else Some(n)
  }

  /** A blank limit is 500 and a non-finite one is rejected. An accepted
      limit lies in [1, max] when max >= 500; for a number it is the largest
      integer that is at most both the number and max, and a number is
      rejected exactly when it is below 1. */
  lemma NormalizeLimitMeaning(raw: LimitArg, max: int)
    requires max >= DefaultLimit
    ensures raw.Blank? ==> NormalizeLimit(raw, max) == Some(DefaultLimit)
    ensures raw == Parsed(None) ==> NormalizeLimit(raw, max) == None
    ensures NormalizeLimit(raw, max).Some? ==> 1 <= NormalizeLimit(raw, max).value <= max
    ensures raw.Parsed? && raw.number.Some? ==>
              (NormalizeLimit(raw, max).None? <==> raw.number.value < 1.0)
    ensures raw.Parsed? && raw.number.Some? && NormalizeLimit(raw, max).Some? ==>
              var l := NormalizeLimit(raw, max).value;
              var x := raw.number.value;
              l as real <= x && l <= max && (l == max || x < (l + 1) as real)
  {
  }

  // ---------------------------------------------------------------------
  // from

  /** The from parameter after normalisation: a YYYY-MM-DD date or none,
      and whether the input was an unparseable date. */
  datatype FromResult = FromResult(value: Option<string>, invalid: bool)

  /** The date: blank or white space only is "no date"; otherwise the
      trimmed text goes to the date parser `parse` (None: not a date;
      Some: the calendar day as YYYY-MM-DD). */
  function NormalizeFromDate(raw: Option<string>, parse: string -> Option<string>): (r: FromResult)
    ensures !(r.invalid && r.value.Some?)
    ensures raw.Some? && Trim(raw.value) != "" ==>
              (r.invalid <==> parse(Trim(raw.value)).None?) && r.value == parse(Trim(raw.value))
  {
    if raw.None? || raw.value == "" then FromResult(None, false)
    else
      var trimmed := Trim(raw.value);
      if trimmed == "" then FromResult(None, false)
      else match parse(trimmed)
        case None => FromResult(None, true)
        case Some(iso) => FromResult(Some(iso), false)
  }

  /** A missing, empty or white-space-only date is "no date" and not
      invalid, whatever the parser would say. */
  lemma NormalizeFromDateBlank(raw: Option<string>, parse: string -> Option<string>)
    requires raw.Some? ==> forall i :: 0 <= i < |raw.value| ==> IsSpace(raw.value[i])
    ensures NormalizeFromDate(raw, parse) == FromResult(None, false)
  {
  }

  // ---------------------------------------------------------------------
  // The request handler

  /** A query parameter as Express's query parser hands it over: absent, a
      string, or a structured value (an array from a repeated key such as
      `?symbol=A&symbol=B`, or an object from bracket syntax). A structured
      value has no `toUpperCase` or `trim`, so calling either throws. */
  datatype QueryArg = Absent | Text(text: string) | Structured

  /** A parameter that is not structured, as an optional string. */
  function TextArg(a: QueryArg): Option<string>
    requires !a.Structured?
  {
    if a.Text? then Some(a.text) else None
  }

  /** The query string. symbol and tf are read with string methods, so they
      keep their structure here; limit is already `Number(raw)`, and from is
      `String(raw)`, which never throws. */
  datatype Query = Query(symbol: QueryArg, tf: QueryArg, limit: LimitArg, from: Option<string>)

  /** The fields in the order they are validated. */
  datatype Field = SymbolField | TimeframeField | LimitField | FromField

  function Rank(f: Field): nat
  {
    match f
    case SymbolField => 0
    case TimeframeField => 1
    case LimitField => 2
    case FromField => 3
  }

  /** What the call to the MOEX service produced: a value (with its length
      when it is an array), or a thrown error with its `source` tag. */
  datatype Fetched = Returned(arrayLength: Option<nat>) | Threw(source: Option<string>)

  /** The response: 400 naming the first bad field, 200 echoing the
      normalised parameters, 502 for errors tagged as MOEX errors, 500 for
      all other errors. */
  datatype Response =
    | BadRequest(field: Field)
    | Ok(symbol: string, timeframe: string, limit: int, from: Option<string>, count: nat)
    | UpstreamError
    | ServerError

  function StatusOf(r: Response): int
  {
    match r
    case BadRequest(_) => 400
    case Ok(_, _, _, _, _) => 200
    case UpstreamError => 502
    case ServerError => 500
  }

  /** The four parameters after their normalisers. */
  datatype Normalized = Normalized(symbol: Option<string>, timeframe: Option<string>, limit: Option<int>, from: FromResult)

  function NormalizeQuery(q: Query, allowed: set<string>, max: int, parse: string -> Option<string>): Normalized
    requires !q.symbol.Structured? && !q.tf.Structured?
  {
    Normalized(NormalizeSymbol(TextArg(q.symbol)), NormalizeTimeframe(TextArg(q.tf), allowed), NormalizeLimit(q.limit, max),
               NormalizeFromDate(q.from, parse))
  }

  /** Whether field `f` is rejected: a null (or empty) normalised value, or
      an invalid date. */
  predicate Fails(n: Normalized, f: Field)
  {
    match f
    case SymbolField => n.symbol.None? || n.symbol.value == ""
    case TimeframeField => n.timeframe.None? || n.timeframe.value == ""
    case LimitField => n.limit.None?
    case FromField => n.from.invalid
  }

  /** The normalised parameters of a query that passed validation. */
  datatype Request = Request(symbol: string, timeframe: string, limit: int, from: Option<string>)

  datatype Validation = Invalid(field: Field) | Valid(request: Request)

  /** The four checks as early returns, in the order symbol, tf, limit,
      from. The normalisers are pure, so evaluating a later one that the
      handler would have skipped changes nothing. */
  function Validate(n: Normalized): (v: Validation)
    ensures v.Invalid? ==> Fails(n, v.field)
  {
    if n.symbol.None? || n.symbol.value == "" then Invalid(SymbolField)
    else if n.timeframe.None? || n.timeframe.value == "" then Invalid(TimeframeField)
    else if n.limit.None? then Invalid(LimitField)
    else if n.from.invalid then Invalid(FromField)
    else Valid(Request(n.symbol.value, n.timeframe.value, n.limit.value, n.from.value))
  }

  /** Validation rejects iff some field fails, and then names the first
      failing field in the order symbol, tf, limit, from, whatever the
      later fields hold; an accepted query carries the normalised values. */
  lemma ValidateFirstFailure(n: Normalized)
    ensures Validate(n).Invalid? <==> exists f :: Fails(n, f)
    ensures Validate(n).Invalid? ==>
              Fails(n, Validate(n).field) && forall g :: Rank(g) < Rank(Validate(n).field) ==> !Fails(n, g)
    ensures Validate(n).Valid? ==>
              Some(Validate(n).request.symbol) == n.symbol && Some(Validate(n).request.timeframe) == n.timeframe
              && Some(Validate(n).request.limit) == n.limit && Validate(n).request.from == n.from.value
  {
    if Validate(n).Valid? {
      forall f ensures !Fails(n, f) {
        match f
        case SymbolField =>
        case TimeframeField =>
        case LimitField =>
        case FromField =>
      }
    } else {
      assert Fails(n, Validate(n).field);
    }
  }

  /** The answer for a valid request, given the service call's outcome. */
  function Respond(req: Request, fetched: Fetched): Response
  {
    match fetched
    case Returned(len) => Ok(req.symbol, req.timeframe, req.limit, req.from, if len.Some? then len.value else 0)
    case Threw(source) => if source == Some("moex") then UpstreamError else ServerError
  }

  /** The handler once the parameters are normalised: validation, then
      the service call. */
  function Handle(n: Normalized, fetched: Fetched): (r: Response)
  {
    match Validate(n)
    case Invalid(f) => BadRequest(f)
    case Valid(req) => Respond(req, fetched)
  }

  /** Whether a normaliser throws before validation is over: a structured
      symbol, or a structured tf once the symbol has been accepted. */
  predicate NormalizerThrows(q: Query)
  {
    q.symbol.Structured? || (NormalizeSymbol(TextArg(q.symbol)).Some? && q.tf.Structured?)
  }

  /** `getCandles` as a decision on the query and the service's outcome:
      the symbol is normalised and checked first, then the tf, and a throw
      from either lands in the catch as a 500. */
  function GetCandles(q: Query, allowed: set<string>, max: int, parse: string -> Option<string>, fetched: Fetched): (r: Response)
    ensures NormalizerThrows(q) ==> r == ServerError
  {
    if q.symbol.Structured? then ServerError
    else if NormalizeSymbol(TextArg(q.symbol)).None? then BadRequest(SymbolField)
    else if q.tf.Structured? then ServerError
    else Handle(NormalizeQuery(q, allowed, max, parse), fetched)
  }

  /** The whole handler: a throwing normaliser answers 500; a rejected
      symbol answers 400 before a structured tf is read; with two string
      parameters the answer is the one `Handle` gives, so the 500s are
      exactly the throws and the untagged service errors. */
  lemma GetCandlesStatus(q: Query, allowed: set<string>, max: int, parse: string -> Option<string>, fetched: Fetched)
    ensures var r := GetCandles(q, allowed, max, parse, fetched);
            && (NormalizerThrows(q) ==> r == ServerError)
            && (!NormalizerThrows(q) && q.tf.Structured? ==> r == BadRequest(SymbolField))
            && (!q.symbol.Structured? && !q.tf.Structured? ==> r == Handle(NormalizeQuery(q, allowed, max, parse), fetched))
            && (StatusOf(r) == 500 <==>
                  NormalizerThrows(q)
                  || (!q.symbol.Structured? && !q.tf.Structured?
                      && Validate(NormalizeQuery(q, allowed, max, parse)).Valid?
                      && fetched.Threw? && fetched.source != Some("moex")))
  {
    GetCandlesServerError(q, allowed, max, parse, fetched);
  }

  /** The 500s of the whole handler, case by case. */
  lemma GetCandlesServerError(q: Query, allowed: set<string>, max: int, parse: string -> Option<string>, fetched: Fetched)
    ensures StatusOf(GetCandles(q, allowed, max, parse, fetched)) == 500 <==>
              NormalizerThrows(q)
              || (!q.symbol.Structured? && !q.tf.Structured?
                  && Validate(NormalizeQuery(q, allowed, max, parse)).Valid?
                  && fetched.Threw? && fetched.source != Some("moex"))
  {
    if q.symbol.Structured? || q.tf.Structured? {
    } else if NormalizeSymbol(TextArg(q.symbol)).None? {
      assert Validate(NormalizeQuery(q, allowed, max, parse)) == Invalid(SymbolField);
    } else {
      HandleServerError(NormalizeQuery(q, allowed, max, parse), fetched);
    }
  }

  /** The 500 of `Handle`: a valid request meeting an untagged error. */
  lemma HandleServerError(n: Normalized, fetched: Fetched)
    ensures StatusOf(Handle(n, fetched)) == 500 <==> Validate(n).Valid? && fetched.Threw? && fetched.source != Some("moex")
  {
  }

  /** The status mapping: 400 exactly when validation fails, naming the
      field it found; otherwise 200 with the normalised values and the
      array length (0 when the service returned no array), 502 exactly for
      an error tagged as a MOEX error, and 500 for every other error. */
  lemma HandleStatus(n: Normalized, fetched: Fetched)
    ensures var r := Handle(n, fetched);
            && (StatusOf(r) == 400 <==> Validate(n).Invalid?)
            && (Validate(n).Invalid? ==> r == BadRequest(Validate(n).field))
            && (StatusOf(r) == 200 <==> Validate(n).Valid? && fetched.Returned?)
            && (StatusOf(r) == 502 <==> Validate(n).Valid? && fetched == Threw(Some("moex")))
            && (StatusOf(r) == 500 <==> Validate(n).Valid? && fetched.Threw? && fetched.source != Some("moex"))
            && (r.Ok? ==> Some(r.symbol) == n.symbol && Some(r.timeframe) == n.timeframe
                          && Some(r.limit) == n.limit && r.from == n.from.value
                          && r.count == (if fetched.arrayLength.Some? then fetched.arrayLength.value else 0))
  {
  }

  /** What the MOEX service hands the controller: its summary is an
      object, not an array, and its errors carry no source tag. */
  function ServiceFetched(o: MoexService.Outcome<MoexService.MoexResult>): Fetched
  {
    match o
    case Success(_) => Returned(None)
    case Failure(_) => Threw(None)
  }

  /** Combined with the service as written, the handler never answers 502,
      and a 200 always reports a count of 0. */
  lemma ServiceOutcomeStatuses(q: Query, allowed: set<string>, max: int, parse: string -> Option<string>,
                               o: MoexService.Outcome<MoexService.MoexResult>)
    ensures StatusOf(GetCandles(q, allowed, max, parse, ServiceFetched(o))) != 502
    ensures GetCandles(q, allowed, max, parse, ServiceFetched(o)).Ok? ==>
              GetCandles(q, allowed, max, parse, ServiceFetched(o)).count == 0
  {
    GetCandlesStatus(q, allowed, max, parse, ServiceFetched(o));
    if !q.symbol.Structured? && !q.tf.Structured? {
      HandleStatus(NormalizeQuery(q, allowed, max, parse), ServiceFetched(o));
    }
  }
}
