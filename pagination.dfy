/**
 * The `Pagination` parameter decorator of the shared library: the query's
 * `page`, `limit`, `sortBy` and `sortOrder`, with defaults for the missing
 * ones, `parseInt(_, 10)` of page and limit, the limit capped at 100 and the
 * offset computed from the uncapped limit. A GraphQL (non-HTTP) context
 * gets fixed values. Numbers that `parseInt` cannot read are `NaN`, which
 * every arithmetic step passes on.
 */
module QueryPagination {
  import opened Wrappers
  import opened JsText

  /** A JavaScript number as far as this computation produces one: an integer or `NaN`. */
  datatype JsNumber = Num(n: int) | NaN

  /** The whitespace `parseInt` skips, ASCII whitespace only. */
  predicate IsJsSpace(c: char) {
    c == ' ' || c == '\t' || c == '\n' || c == '\r' || c == 11 as char || c == 12 as char
  }

  /** The string without its leading whitespace. */
  function SkipSpace(s: string): (r: string)
    ensures |r| <= |s| && r == s[|s| - |r|..]
    ensures r == [] || !IsJsSpace(r[0])
    ensures forall k | 0 <= k < |s| - |r| :: IsJsSpace(s[k])
  {
    if s != [] && IsJsSpace(s[0]) then SkipSpace(s[1..]) else s
  }

  /** The longest run of decimal digits at the start of the string. */
  function DigitRun(s: string): (r: string)
    ensures AllDigits(r) && |r| <= |s| && r == s[..|r|]
    ensures |r| == |s| || !IsDigit(s[|r|])
  {
    if s != [] && IsDigit(s[0]) then [s[0]] + DigitRun(s[1..]) else []
  }

  /** The value of an optionally signed run of digits, the text after it ignored. */
  function ParseSigned(t: string): (r: JsNumber) {
    if t != [] && (t[0] == '-' || t[0] == '+') then
      var d := DigitRun(t[1..]);
      if d == [] then NaN else if t[0] == '-' then Num(-(DigitsValue(d) as int)) else Num(DigitsValue(d))
    else
      var d := DigitRun(t);
      if d == [] then NaN else Num(DigitsValue(d))
  }

  /**
   * `parseInt(s, 10)`: leading whitespace is skipped, one sign is read, then
   * the longest run of digits; with no digit the result is `NaN`. Whatever
   * follows the digits is ignored.
   */
  function ParseInt(s: string): (r: JsNumber) {
    ParseSigned(SkipSpace(s))
  }

  lemma {:induction false} SkipSpacePrefix(ws: string, s: string)
    requires forall k | 0 <= k < |ws| :: IsJsSpace(ws[k])
    requires s == [] || !IsJsSpace(s[0])
    ensures SkipSpace(ws + s) == s
    decreases |ws|
  {
    if ws != [] {
      assert (ws + s)[1..] == ws[1..] + s;
      SkipSpacePrefix(ws[1..], s);
    } else {
      assert ws + s == s;
    }
  }

  lemma {:induction false} DigitRunPrefix(d: string, rest: string)
    requires AllDigits(d)
    requires rest == [] || !IsDigit(rest[0])
    ensures DigitRun(d + rest) == d
    decreases |d|
  {
    if d != [] {
      assert (d + rest)[1..] == d[1..] + rest;
      DigitRunPrefix(d[1..], rest);
    } else {
      assert d + rest == rest;
    }
  }

  /** A run of digits followed by a non-digit reads as the run's value. */
  lemma ParseDigits(d: string, rest: string)
    requires d != [] && AllDigits(d)
    requires rest == [] || !IsDigit(rest[0])
    ensures ParseSigned(d + rest) == Num(DigitsValue(d))
  {
    DigitRunPrefix(d, rest);
    assert (d + rest)[0] == d[0];
  }

  /** A minus sign, a run of digits and a non-digit read as the run's negated value. */
  lemma ParseNegatedDigits(d: string, rest: string)
    requires d != [] && AllDigits(d)
    requires rest == [] || !IsDigit(rest[0])
    ensures ParseSigned(['-'] + (d + rest)) == Num(-(DigitsValue(d) as int))
  {
    var x := d + rest;
    var t := ['-'] + x;
    assert t[0] == '-' && t[1..] == x;
    DigitRunPrefix(d, rest);
  }

  lemma {:induction false} ParseSignedOfPrinted(n: int, rest: string)
    requires rest == [] || !IsDigit(rest[0])
    ensures ParseSigned(IntToString(n) + rest) == Num(n)
  {
    if n < 0 {
      var digits := NatToString(-n);
      calc {
        ParseSigned(IntToString(n) + rest);
        { assert IntToString(n) + rest == ['-'] + (digits + rest); }
        ParseSigned(['-'] + (digits + rest));
        { ParseNegatedDigits(digits, rest); }
        Num(-(DigitsValue(digits) as int));
        { NatToStringRoundTrip(-n); }
        Num(n);
      }
    } else {
      calc {
        ParseSigned(IntToString(n) + rest);
        { ParseDigits(NatToString(n), rest); }
        Num(DigitsValue(NatToString(n)));
        { NatToStringRoundTrip(n); }
        Num(n);
      }
    }
  }

  /** A printed integer starts with a minus sign or a digit, so no whitespace. */
  lemma PrintedStart(n: int)
    ensures IntToString(n) != [] && !IsJsSpace(IntToString(n)[0])
  {
    if n < 0 {
      assert IntToString(n)[0] == '-';
    } else {
      assert IsDigit(NatToString(n)[0]);
    }
  }

  /** `parseInt` reads back a printed integer and ignores the non-digit text after it. */
  lemma ParseIntTrailing(n: int, rest: string)
    requires rest == [] || !IsDigit(rest[0])
    ensures ParseInt(IntToString(n) + rest) == Num(n)
  {
    var x := IntToString(n) + rest;
    PrintedStart(n);
    assert x[0] == IntToString(n)[0];
    assert SkipSpace(x) == x;
    ParseSignedOfPrinted(n, rest);
  }

  /** `parseInt` reads back any integer printed in decimal. */
  lemma ParseIntPrinted(n: int)
    ensures ParseInt(IntToString(n)) == Num(n)
  {
    ParseIntTrailing(n, "");
    assert IntToString(n) + "" == IntToString(n);
  }

  /**
   * `parseInt` reads back any integer printed in decimal, whatever
   * whitespace precedes it and whatever non-digit text follows it.
   */
  lemma {:induction false} ParseIntOfPrinted(ws: string, n: int, rest: string)
    requires forall k | 0 <= k < |ws| :: IsJsSpace(ws[k])
    requires rest == [] || !IsDigit(rest[0])
    ensures ParseInt(ws + IntToString(n) + rest) == Num(n)
  {
    var x := IntToString(n) + rest;
    PrintedStart(n);
    assert x[0] == IntToString(n)[0];
    assert ws + IntToString(n) + rest == ws + x;
    SkipSpacePrefix(ws, x);
    ParseSignedOfPrinted(n, rest);
  }

  /**
   * Text whose first character after the whitespace is neither a digit nor a
   * sign reads as `NaN`, and so does a sign not followed by a digit.
   */
  lemma ParseIntNaN(s: string)
    requires var t := SkipSpace(s);
      || t == []
      || (!IsDigit(t[0]) && t[0] != '-' && t[0] != '+')
      || ((t[0] == '-' || t[0] == '+') && (|t| == 1 || !IsDigit(t[1])))
    ensures ParseInt(s) == NaN
  {
  }

  /** In base 10 a leading `0x` reads as 0, whatever follows. */
  lemma ParseIntHexPrefix(h: string)
    ensures ParseInt("0x" + h) == Num(0)
  {
    assert IntToString(0) == "0";
    assert "0x" + h == IntToString(0) + ("x" + h);
    ParseIntTrailing(0, "x" + h);
  }

  /** A fraction is dropped: the integer part is read. */
  lemma ParseIntFraction(n: int, frac: string)
    ensures ParseInt(IntToString(n) + "." + frac) == Num(n)
  {
    assert IntToString(n) + "." + frac == IntToString(n) + ("." + frac);
    ParseIntTrailing(n, "." + frac);
  }

  /** `Math.min(x, cap)`. */
  function MinNum(x: JsNumber, cap: int): (r: JsNumber)
    ensures r.NaN? <==> x.NaN?
    ensures r.Num? ==> r.n <= cap && (r.n == x.n || r.n == cap) && r.n <= x.n
  {
    if x.NaN? then NaN else if x.n < cap then x else Num(cap)
  }

  /** `(page - 1) * limit`. */
  function OffsetOf(page: JsNumber, limit: JsNumber): (r: JsNumber)
    ensures r.Num? <==> page.Num? && limit.Num?
  {
    if page.Num? && limit.Num? then Num((page.n - 1) * limit.n) else NaN
  }

  /** `request.query`; every value is a string or missing. */
  datatype Query = Query(page: Option<string>, limit: Option<string>, sortBy: Option<string>, sortOrder: Option<string>)

  const EmptyQuery := Query(None, None, None, None)

  /** The execution context: an HTTP request with its query, or anything else (GraphQL). */
  datatype Context = Http(query: Query) | Other

  /** What the decorator returns; `sortBy` is absent from the non-HTTP answer. */
  datatype PageParams = PageParams(page: JsNumber, limit: JsNumber, sortBy: Option<string>, sortOrder: string, offset: JsNumber)

  /** `parseInt(page, 10)` with page defaulting to 1 when missing. */
  function PageOf(q: Query): (r: JsNumber) {
    if q.page.Some? then ParseInt(q.page.value) else Num(1)
  }

  /** `parseInt(limit, 10)` with limit defaulting to 20 when missing, before the cap. */
  function RawLimitOf(q: Query): (r: JsNumber) {
    if q.limit.Some? then ParseInt(q.limit.value) else Num(20)
  }

  /** The `Pagination` decorator's value for a context. */
  function Paginate(c: Context): (r: PageParams) {
    match c
    case Http(q) =>
      PageParams(PageOf(q), MinNum(RawLimitOf(q), 100), q.sortBy, q.sortOrder.GetOr("DESC"),
                 OffsetOf(PageOf(q), RawLimitOf(q)))
    case Other => PageParams(Num(1), Num(20), None, "DESC", Num(0))
  }

  /**
   * The returned limit is never above 100, but nothing stops it from being
   * zero or negative: a printed limit of at most 100 comes back as it is.
   */
  lemma LimitCappedNotFloored(c: Context, l: int)
    ensures Paginate(c).limit.Num? ==> Paginate(c).limit.n <= 100
    ensures l <= 100 ==> Paginate(Http(EmptyQuery.(limit := Some(IntToString(l))))).limit == Num(l)
  {
    ParseIntPrinted(l);
  }

  /** `(p - 1) * l` equals `(p - 1) * min(l, 100)` exactly when the cap does not bite or the page is 1. */
  lemma {:induction false} CappedProduct(p: int, l: int)
    ensures (p - 1) * l == (p - 1) * (if l < 100 then l else 100) <==> l <= 100 || p == 1
  {
    if l > 100 && p != 1 {
      assert (p - 1) * l - (p - 1) * 100 == (p - 1) * (l - 100);
      assert (p - 1) * (l - 100) != 0;
    }
  }

  lemma PrintedQuery(p: int, l: int, sortBy: Option<string>, sortOrder: Option<string>)
    ensures var q := Query(Some(IntToString(p)), Some(IntToString(l)), sortBy, sortOrder);
      PageOf(q) == Num(p) && RawLimitOf(q) == Num(l)
  {
    ParseIntPrinted(p);
    ParseIntPrinted(l);
  }

  /**
   * For printed page and limit numbers the decorator returns them, the limit
   * capped at 100, and the offset computed from the uncapped limit. The
   * offset matches the returned page and limit exactly when the limit is at
   * most 100 or the page is 1.
   */
  lemma {:induction false} PaginateNumbers(p: int, l: int, sortBy: Option<string>, sortOrder: Option<string>)
    ensures var r := Paginate(Http(Query(Some(IntToString(p)), Some(IntToString(l)), sortBy, sortOrder)));
      && r.page == Num(p)
      && r.limit == Num(if l < 100 then l else 100)
      && r.offset == Num((p - 1) * l)
      && (r.offset.n == (r.page.n - 1) * r.limit.n <==> l <= 100 || p == 1)
      && r.sortBy == sortBy
      && r.sortOrder == (if sortOrder.Some? then sortOrder.value else "DESC")
  {
    PrintedQuery(p, l, sortBy, sortOrder);
    CappedProduct(p, l);
  }

  /** A page or limit `parseInt` cannot read makes the offset `NaN`; an unreadable page is returned as `NaN`. */
  lemma UnreadablePropagates(q: Query)
    requires PageOf(q).NaN? || RawLimitOf(q).NaN?
    ensures Paginate(Http(q)).offset.NaN?
    ensures PageOf(q).NaN? ==> Paginate(Http(q)).page.NaN?
    ensures RawLimitOf(q).NaN? ==> Paginate(Http(q)).limit.NaN?
  {
  }

  /** An HTTP request with an empty query gets the same values as a non-HTTP context. */
  lemma EmptyQueryAsOther()
    ensures Paginate(Http(EmptyQuery)) == Paginate(Other) == PageParams(Num(1), Num(20), None, "DESC", Num(0))
  {
  }

  /** Only a missing value takes the default: an empty `page` or `sortOrder` is kept as given. */
  lemma DefaultsOnlyWhenMissing()
    ensures Paginate(Http(EmptyQuery.(page := Some("")))).page == NaN
    ensures Paginate(Http(EmptyQuery.(sortOrder := Some("")))).sortOrder == ""
  {
  }
}
