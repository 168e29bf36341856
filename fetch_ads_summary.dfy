/**
 * The `fetch_ads_summary` action: open the ads centre, pick the date range,
 * and read five summary metrics, each parsed from its displayed text.  As
 * in module UpdateTitle, each step is a function of what the page answers,
 * and a method performing it through the controller is proved to agree
 * with it.
 */
module AdsCenter {
  import opened Python
  import opened Locators
  import opened BrowserControl
  import opened ActionBase

  const ActionName := "fetch_ads_summary"

  // ------------------------------------------------------------ _parse_number

  /** The first index holding a character of cs, or |s|. */
  function FirstOf(s: string, cs: set<char>): (k: nat)
    ensures k <= |s| && (k < |s| ==> s[k] in cs)
    ensures forall i :: 0 <= i < k ==> s[i] !in cs
  {
    if s == [] || s[0] in cs then 0 else 1 + FirstOf(s[1..], cs)
  }

  /** `re.sub(token + r'\s*', '', s)`: each occurrence of the token, scanning
      from the left, is cut together with the whitespace after it. */
  function DropToken(s: string, token: string): (r: string)
    requires token != []
    ensures |r| <= |s|
    decreases |s|
  {
    if s == [] then []
    else if StartsWith(s, token) then
      var rest := s[|token|..];
      DropToken(rest[SkipSpace(rest, 0)..], token)
    else [s[0]] + DropToken(s[1..], token)
  }

  /** A string without the token's first character has nothing to cut. */
  lemma {:induction false} DropTokenAbsent(s: string, token: string)
    requires token != [] && forall i :: 0 <= i < |s| ==> s[i] != token[0]
    ensures DropToken(s, token) == s
    decreases |s|
  {
    if s != [] {
      assert !StartsWith(s, token) by { assert s[0] != token[0]; }
      DropTokenAbsent(s[1..], token);
      assert s == [s[0]] + s[1..];
    }
  }

  /** A token met after text free of its first character is cut together
      with the whitespace after it, and the text before it is kept. */
  lemma {:induction false} DropTokenCutsFirst(u: string, token: string, w: string, v: string)
    requires token != []
    requires forall i :: 0 <= i < |u| ==> u[i] != token[0]
    requires forall i :: 0 <= i < |w| ==> IsSpace(w[i])
    requires v == [] || !IsSpace(v[0])
    ensures DropToken(u + token + w + v, token) == u + DropToken(v, token)
    decreases |u|
  {
    var s := u + token + w + v;
    if u == [] {
      assert s == token + w + v;
      DropTokenAtStart(token, w, v);
    } else {
      var t := u[1..] + token + w + v;
      assert s == [u[0]] + t;
      assert !StartsWith(s, token) by {
        assert s[..|token|][0] == s[0] == u[0];
      }
      assert s[1..] == t;
      assert DropToken(s, token) == [u[0]] + DropToken(t, token);
      DropTokenCutsFirst(u[1..], token, w, v);
      assert u == [u[0]] + u[1..];
    }
  }

  /** A token at the start is cut with the whole run of whitespace after it. */
  lemma DropTokenAtStart(token: string, w: string, v: string)
    requires token != []
    requires forall i :: 0 <= i < |w| ==> IsSpace(w[i])
    requires v == [] || !IsSpace(v[0])
    ensures DropToken(token + w + v, token) == DropToken(v, token)
  {
    var s := token + w + v;
    assert s == token + (w + v);
    assert StartsWith(s, token);
    assert s[|token|..] == w + v;
    SkipsSpaceRun(w, v);
  }

  /** The whitespace skipped after a token is the whole run of it. */
  lemma SkipsSpaceRun(w: string, v: string)
    requires forall i :: 0 <= i < |w| ==> IsSpace(w[i])
    requires v == [] || !IsSpace(v[0])
    ensures SkipSpace(w + v, 0) == |w| && (w + v)[|w|..] == v
  {
    var rest := w + v;
    assert forall m :: 0 <= m < |w| ==> rest[m] == w[m];
    assert |w| < |rest| ==> rest[|w|] == v[0];
  }

  /** `s.replace(a, b)` for single characters. */
  function ReplaceChar(s: string, a: char, b: char): (r: string)
    ensures |r| == |s|
    ensures forall i :: 0 <= i < |s| ==> r[i] == if s[i] == a then b else s[i]
  {
    if s == [] then [] else [if s[0] == a then b else s[0]] + ReplaceChar(s[1..], a, b)
  }

  predicate AllDigits(s: string)
  {
    forall i :: 0 <= i < |s| ==> IsDigit(s[i])
  }

  /** ASCII lower case, the case-blind comparison `float()` makes with
      inf, infinity and nan: no capital A to Z is left, and each character
      is either kept or is a capital moved to its small letter. */
  function Lower(s: string): (r: string)
    ensures |r| == |s|
    ensures forall i :: 0 <= i < |r| ==> !('A' <= r[i] <= 'Z')
    ensures forall i :: 0 <= i < |s| ==> r[i] == s[i] || ('A' <= s[i] <= 'Z' && r[i] as int == s[i] as int + 32)
  {
    if s == [] then []
    else [if 'A' <= s[0] <= 'Z' then (s[0] as int + 32) as char else s[0]] + Lower(s[1..])
  }

  /** A run of digits, with single underscores between digits, or nothing. */
  predicate OptionalDigitRun(s: string)
  {
    s == [] || DigitRun(s)
  }

  /** Digit runs around at most one decimal point, with at least one digit:
      "12", "1_000.5", ".5", "5.". */
  predicate Mantissa(m: string)
  {
    var i := FirstOf(m, {'.'});
    if i == |m| then DigitRun(m)
    else OptionalDigitRun(m[..i]) && OptionalDigitRun(m[i + 1..]) && |m| > 1
  }

  /** A mantissa with an optional exponent: e or E, an optional sign, and
      a digit run. */
  predicate DecimalLiteral(s: string)
  {
    var e := FirstOf(s, {'e', 'E'});
    if e == |s| then Mantissa(s)
    else
      var x := s[e + 1..];
      Mantissa(s[..e]) && x != []
      && (if x[0] == '+' || x[0] == '-' then DigitRun(x[1..]) else DigitRun(x))
  }

  /** What `float(s)` accepts of a text whose digits are ASCII: whitespace
      around an optional sign and a decimal literal or one of inf, infinity
      and nan in any case. */
  predicate FloatLiteral(s: string)
  {
    var t := Strip(s);
    var u := if t != [] && (t[0] == '+' || t[0] == '-') then t[1..] else t;
    DecimalLiteral(u) || Lower(u) in {"inf", "infinity", "nan"}
  }

  /** `re.match(r'^[\d.]+$', s)`: digits and dots only, and at least one;
      `$` also matches before a final newline. */
  predicate DotGrouped(s: string)
  {
    var u := if s != [] && s[|s| - 1] == '\n' then s[..|s| - 1] else s;
    u != [] && forall i :: 0 <= i < |u| ==> IsDigit(u[i]) || u[i] == '.'
  }

  /** `text[:-1]` when text ends with one of the two letters. */
  predicate EndsWithEither(s: string, a: char, b: char)
  {
    s != [] && (s[|s| - 1] == a || s[|s| - 1] == b)
  }

  /** The text the last steps of `_parse_number` read: the dots grouping
      thousands dropped when there are two or more, then every comma. */
  function Plain(s: string): (u: string)
    ensures !Contains(u, ',')
  {
    var grouped := if DotGrouped(s) && CountChar(s, '.') > 1 then RemoveChar(s, '.') else s;
    RemoveChar(grouped, ',')
  }

  /** The text once trimmed and cut of its currency marks. */
  function Cleaned(text: string): string
  {
    DropToken(DropToken(Strip(text), "Rp"), "$")
  }

  /** The last steps of `_parse_number`, once no suffix applied: dots
      grouping thousands are dropped when there are two or more, commas
      always, and what is left is read as a float when it has a dot and as
      an int otherwise; text neither accepts is returned as it now is. */
  function ParsePlain(s: string): (r: Number)
    ensures r.Float? ==> FloatLiteral(r.literal) && r.scale == 1
    ensures !r.NoNumber?
  {
    var plain := Plain(s);
    if Contains(plain, '.') then (if FloatLiteral(plain) then Float(plain, 1) else Number.Text(plain))
    else
      var i := ParseInt(plain);
      if i.Some? then Int(i.value) else Number.Text(plain)
  }

  /** `_parse_number(text)`: after trimming and cutting the currency marks,
      a K or M suffix scales the float before it (a suffix that does not
      leave a float is dropped and parsing goes on), a % suffix gives the
      float before it or, failing that, the text before it. */
  function ParseNumber(text: string): (r: Number)
    ensures r.NoNumber? <==> text == ""
    ensures r.Float? ==> FloatLiteral(r.literal) && r.scale in {1, 1000, 1000000}
  {
    if text == "" then NoNumber
    else
      var t0 := Cleaned(text);
      var kilo := EndsWithEither(t0, 'K', 'k');
      var t1 := if kilo then t0[..|t0| - 1] else t0;
      if kilo && FloatLiteral(ReplaceChar(t1, ',', '.')) then Float(ReplaceChar(t1, ',', '.'), 1000)
      else
        var mega := EndsWithEither(t1, 'M', 'm');
        var t2 := if mega then t1[..|t1| - 1] else t1;
        if mega && FloatLiteral(ReplaceChar(t2, ',', '.')) then Float(ReplaceChar(t2, ',', '.'), 1000000)
        else if t2 != [] && t2[|t2| - 1] == '%' then
          var t3 := t2[..|t2| - 1];
          if FloatLiteral(ReplaceChar(t3, ',', '.')) then Float(ReplaceChar(t3, ',', '.'), 1) else Number.Text(t3)
        else ParsePlain(t2)
  }

  /** A string of digits reaches ParsePlain unchanged. */
  lemma DigitsPassThrough(s: string)
    requires s != [] && AllDigits(s)
    ensures Strip(s) == s
    ensures DropToken(DropToken(s, "Rp"), "$") == s
    ensures !EndsWithEither(s, 'K', 'k') && !EndsWithEither(s, 'M', 'm') && s[|s| - 1] != '%'
  {
    assert !IsSpace(s[0]) && !IsSpace(s[|s| - 1]);
    StripTrimmed(s);
    assert "Rp"[0] == 'R' && "$"[0] == '$';
    DropTokenAbsent(s, "Rp");
    DropTokenAbsent(s, "$");
    assert IsDigit(s[|s| - 1]);
  }

  /** A plain decimal number reads as that integer. */
  lemma ParsesNaturals(n: nat)
    ensures ParseNumber(NatToString(n)) == Int(n)
  {
    var s := NatToString(n);
    assert AllDigits(s);
    DigitsPassThrough(s);
    assert CountChar(s, '.') == 0 by { CountAbsent(s, '.'); }
    assert RemoveChar(s, ',') == s;
    assert !Contains(s, '.');
    NatToStringParses(n);
  }

  lemma {:induction false} CountAbsent(s: string, c: char)
    requires forall i :: 0 <= i < |s| ==> s[i] != c
    ensures CountChar(s, c) == 0
  {
    if s != [] {
      CountAbsent(s[1..], c);
    }
  }

  /** A rupiah amount ("Rp " before the digits) reads as its integer. */
  lemma ParsesRupiah(n: nat)
    ensures ParseNumber("Rp " + NatToString(n)) == Int(n)
  {
    var d := NatToString(n);
    var s := "Rp " + d;
    assert AllDigits(d);
    assert !IsSpace(s[0]) && !IsSpace(s[|s| - 1]);
    StripTrimmed(s);
    assert StartsWith(s, "Rp");
    var rest := s[2..];
    assert rest == " " + d;
    assert SkipSpace(rest, 0) == 1 by {
      assert IsSpace(rest[0]) && !IsSpace(rest[1]);
    }
    assert rest[1..] == d;
    DropTokenAbsent(d, "Rp");
    assert DropToken(s, "Rp") == d;
    DigitsPassThrough(d);
    ParsesNaturals(n);
  }

  /** A digit string is read by int() as the number it writes. */
  lemma DigitsParse(s: string)
    requires s != [] && AllDigits(s)
    ensures ParseInt(s) == Some(DigitsValue(s) as int)
  {
    assert !IsSpace(s[0]) && !IsSpace(s[|s| - 1]);
    StripTrimmed(s);
    assert s[0] != '-' && s[0] != '+';
    assert DigitRun(s) by {
      assert IsDigit(s[0]) && IsDigit(s[|s| - 1]);
    }
    assert RemoveChar(s, '_') == s;
    assert DigitRunValue(s) == DigitsValue(s);
  }

  /** Digits with separators sep among them, and at least one digit. */
  predicate GroupedDigits(s: string, sep: char)
  {
    && !IsDigit(sep)
    && (forall i :: 0 <= i < |s| ==> IsDigit(s[i]) || s[i] == sep)
    && exists i :: 0 <= i < |s| && IsDigit(s[i])
  }

  lemma {:induction false} RemoveCharKeepsOther(s: string, c: char, i: nat)
    requires i < |s| && s[i] != c
    ensures RemoveChar(s, c) != []
  {
    if s[0] == c {
      RemoveCharKeepsOther(s[1..], c, i - 1);
    }
  }

  /** The digits of a grouped number, its separators dropped. */
  function Ungrouped(s: string, sep: char): (d: string)
    requires GroupedDigits(s, sep)
    ensures d != [] && AllDigits(d)
  {
    RemoveCharKeeps(s, sep, c => IsDigit(c) || c == sep);
    var i :| 0 <= i < |s| && IsDigit(s[i]);
    RemoveCharKeepsOther(s, sep, i);
    RemoveChar(s, sep)
  }

  /** The last character is not one of the suffixes K, M and %. */
  predicate Unsuffixed(t: string)
  {
    t == [] || t[|t| - 1] !in {'K', 'k', 'M', 'm', '%'}
  }

  /** Text with no suffix once cleaned goes straight to the last steps. */
  lemma ReachesParsePlain(text: string)
    requires text != "" && Unsuffixed(Cleaned(text))
    ensures ParseNumber(text) == ParsePlain(Cleaned(text))
  {
    var t0 := Cleaned(text);
    assert !EndsWithEither(t0, 'K', 'k');
    assert !EndsWithEither(t0, 'M', 'm');
    assert t0 == [] || t0[|t0| - 1] != '%';
  }

  /** Text with no whitespace at its ends and no R or $ in it is left as
      it is by the cleaning steps, with or without "Rp " before it. */
  lemma CleanedRupiah(s: string)
    requires s != [] && !IsSpace(s[0]) && !IsSpace(s[|s| - 1])
    requires forall i :: 0 <= i < |s| ==> s[i] != 'R' && s[i] != '$'
    ensures Cleaned(s) == s && Cleaned("Rp " + s) == s
  {
    assert "Rp"[0] == 'R' && "$"[0] == '$';
    StripTrimmed(s);
    DropTokenAbsent(s, "Rp");
    DropTokenAbsent(s, "$");
    var r := "Rp " + s;
    assert !IsSpace(r[0]) && r[|r| - 1] == s[|s| - 1];
    StripTrimmed(r);
    assert r == [] + "Rp" + " " + s;
    DropTokenCutsFirst([], "Rp", " ", s);
  }

  /** Indonesian grouping: digits with two or more dots among them read as
      the number the digits write, with or without "Rp " in front. */
  lemma ParsesDotGrouped(s: string)
    requires GroupedDigits(s, '.') && CountChar(s, '.') > 1
    ensures ParseNumber(s) == Int(DigitsValue(Ungrouped(s, '.')))
    ensures ParseNumber("Rp " + s) == Int(DigitsValue(Ungrouped(s, '.')))
  {
    assert s[0] == '.' || IsDigit(s[0]);
    assert s[|s| - 1] == '.' || IsDigit(s[|s| - 1]);
    CleanedRupiah(s);
    ReachesParsePlain(s);
    ReachesParsePlain("Rp " + s);
    var d := Ungrouped(s, '.');
    assert DotGrouped(s);
    assert Plain(s) == d;
    assert !Contains(d, '.');
    DigitsParse(d);
  }

  /** English grouping: digits with commas among them read as the number
      the digits write, with or without "Rp " in front. */
  lemma ParsesCommaGrouped(s: string)
    requires GroupedDigits(s, ',')
    ensures ParseNumber(s) == Int(DigitsValue(Ungrouped(s, ',')))
    ensures ParseNumber("Rp " + s) == Int(DigitsValue(Ungrouped(s, ',')))
  {
    assert s[0] == ',' || IsDigit(s[0]);
    assert s[|s| - 1] == ',' || IsDigit(s[|s| - 1]);
    CleanedRupiah(s);
    ReachesParsePlain(s);
    ReachesParsePlain("Rp " + s);
    CountAbsent(s, '.');
    var d := Ungrouped(s, ',');
    assert Plain(s) == d;
    assert !Contains(d, '.');
    DigitsParse(d);
  }

  /** Exactly one dot in a + "." + b when neither part has one. */
  lemma {:induction false} OneDot(a: string, b: string)
    requires forall i :: 0 <= i < |a| ==> a[i] != '.'
    requires forall i :: 0 <= i < |b| ==> b[i] != '.'
    ensures CountChar(a + "." + b, '.') == 1
  {
    if a == [] {
      assert (a + "." + b)[1..] == b;
      CountAbsent(b, '.');
    } else {
      assert (a + "." + b)[1..] == a[1..] + "." + b;
      OneDot(a[1..], b);
    }
  }

  /** Two digit runs around a dot make a decimal literal with no exponent. */
  lemma DecimalLiteralOf(a: string, b: string)
    requires DigitRun(a) && DigitRun(b)
    ensures DecimalLiteral(a + "." + b)
  {
    var s := a + "." + b;
    assert s[|a|] in {'.'};
    assert forall i :: 0 <= i < |a| ==> s[i] !in {'.'} by {
      assert forall i :: 0 <= i < |a| ==> s[i] == a[i];
    }
    var k := FirstOf(s, {'.'});
    assert k == |a|;
    assert s[..k] == a && s[k + 1..] == b;
    assert forall i :: 0 <= i < |s| ==> s[i] !in {'e', 'E'} by {
      assert forall i :: 0 <= i < |s| ==> IsDigit(s[i]) || s[i] == '_' || s[i] == '.';
    }
    assert FirstOf(s, {'e', 'E'}) == |s|;
  }

  /** Two digit runs around a dot make a float literal. */
  lemma FloatLiteralOf(a: string, b: string)
    requires DigitRun(a) && DigitRun(b)
    ensures FloatLiteral(a + "." + b)
  {
    var s := a + "." + b;
    assert IsDigit(s[0]) && IsDigit(s[|s| - 1]);
    StripTrimmed(s);
    DecimalLiteralOf(a, b);
  }

  /** The last steps read two digit runs around a dot as a float. */
  lemma DecimalPlain(a: string, b: string)
    requires DigitRun(a) && DigitRun(b)
    ensures ParsePlain(a + "." + b) == Float(a + "." + b, 1)
  {
    var s := a + "." + b;
    OneDot(a, b);
    assert forall i :: 0 <= i < |s| ==> s[i] != ',' by {
      assert forall i :: 0 <= i < |s| ==> IsDigit(s[i]) || s[i] == '_' || s[i] == '.';
    }
    assert Plain(s) == s;
    assert s[|a|] == '.';
    FloatLiteralOf(a, b);
  }

  /** A decimal number, its digit runs possibly grouped by underscores,
      reads as a float, with or without "Rp " in front: "12.5", "1_0.5". */
  lemma ParsesDecimal(a: string, b: string)
    requires DigitRun(a) && DigitRun(b)
    ensures ParseNumber(a + "." + b) == Float(a + "." + b, 1)
    ensures ParseNumber("Rp " + (a + "." + b)) == Float(a + "." + b, 1)
  {
    var s := a + "." + b;
    assert forall i :: 0 <= i < |s| ==> IsDigit(s[i]) || s[i] == '_' || s[i] == '.';
    assert IsDigit(s[0]) && IsDigit(s[|s| - 1]);
    CleanedRupiah(s);
    ReachesParsePlain(s);
    ReachesParsePlain("Rp " + s);
    DecimalPlain(a, b);
  }

  /** Text that neither int() nor, when it has a dot, float() reads comes
      back as the text the cleaning left: trimmed, currency marks cut,
      grouping dots and every comma dropped. */
  lemma UnreadableKeptAsText(text: string)
    requires text != "" && Unsuffixed(Cleaned(text))
    ensures var u := Plain(Cleaned(text));
            ParseNumber(text).Text? <==> ParseInt(u).None? && (Contains(u, '.') ==> !FloatLiteral(u))
    ensures ParseNumber(text).Text? ==> ParseNumber(text).s == Plain(Cleaned(text))
  {
    ReachesParsePlain(text);
    var u := Plain(Cleaned(text));
    if Contains(u, '.') {
      ParseIntRejectsDot(u);
    }
  }

  // ------------------------------------------------------ _select_date_range

  /** The locator key of a date range; an unhashable value (a list or a
      dict) cannot be looked up and raises. */
  function RangeKey(dateRange: Value): (r: Except<string>)
    ensures r.Thrown? <==> dateRange.VList? || dateRange.VDict?
    ensures r.Normal? ==> r.value in {"date_today", "date_7days", "date_30days"}
    ensures dateRange == VStr("7days") ==> r == Normal("date_7days")
    ensures dateRange == VStr("30days") ==> r == Normal("date_30days")
    ensures r == Normal("date_today") <==> !dateRange.VList? && !dateRange.VDict?
                                           && dateRange != VStr("7days") && dateRange != VStr("30days")
  {
    match dateRange
    case VList(_) => Thrown("unhashable type: 'list'")
    case VDict(_) => Thrown("unhashable type: 'dict'")
    case VStr(s) => Normal(if s == "7days" then "date_7days" else if s == "30days" then "date_30days" else "date_today")
    case _ => Normal("date_today")
  }

  /** The locator of the range's button, if the table has one. */
  function RangeLoc(t: Table, dateRange: Value): (r: Except<Option<Locator>>)
    ensures r.Thrown? <==> RangeKey(dateRange).Thrown?
    ensures r.Normal? ==> r.value == LocAt(t, "ads_center", RangeKey(dateRange).value)
  {
    var key := RangeKey(dateRange);
    if key.Thrown? then Thrown(key.msg) else Normal(LocAt(t, "ads_center", key.value))
  }

  /** `_select_date_range`: open the date picker and click the range's
      button.  The value is the message of an exception that escapes: the
      range is looked up only once the picker opened. */
  function SelectOutcome(p: Page, picker: Option<Locator>, range: Except<Option<Locator>>)
    : (r: Traced<Option<string>>)
    ensures r.value.Some? <==> picker.Some? && p.clickable(picker.value) && range.Thrown?
    ensures picker.None? <==> r.calls == []
    ensures picker.Some? ==> r.calls[0] == Clicked(picker.value)
    ensures |r.calls| == 2 <==> picker.Some? && p.clickable(picker.value) && range.Normal? && range.value.Some?
  {
    if picker.None? then Traced(None, [])
    else if !p.clickable(picker.value) then Traced(None, [Clicked(picker.value)])
    else if range.Thrown? then Traced(Some(range.msg), [Clicked(picker.value)])
    else if range.value.None? then Traced(None, [Clicked(picker.value)])
    else Traced(None, [Clicked(picker.value), Clicked(range.value.value)])
  }

  method SelectDateRange(b: BrowserController, t: Table, dateRange: Value) returns (raised: Option<string>)
    requires ActionTable(t)
    modifies b`calls
    ensures var s := SelectOutcome(b.View(), LocAt(t, "ads_center", "date_picker"), RangeLoc(t, dateRange));
            raised == s.value && b.calls == old(b.calls) + s.calls
  {
    var picker := LocIn(t, "ads_center", "date_picker");
    if picker.None? {
      return None;
    }
    var opened' := b.WaitAndClick(picker.value);
    if !opened' {
      return None;
    }
    var key := RangeKey(dateRange);
    if key.Thrown? {
      return Some(key.msg);
    }
    var range := LocIn(t, "ads_center", key.value);
    if range.Some? {
      var _ := b.WaitAndClick(range.value);
    }
    raised := None;
  }

  // --------------------------------------------------- _extract_summary_data

  /** The metrics read, each with the key of its locator. */
  const Fields: seq<(string, string)> := [
    ("spend", "total_spend"),
    ("impressions", "total_impressions"),
    ("clicks", "total_clicks"),
    ("orders", "total_orders"),
    ("roas", "roas")
  ]

  /** One metric's text: read when the table has its locator, and kept when
      it is not empty. */
  function Metric(p: Page, loc: Option<Locator>): (r: Traced<Option<string>>)
    ensures r.value.Some? <==> loc.Some? && p.text(loc.value).Some? && p.text(loc.value).value != ""
    ensures r.value.Some? ==> r.value == p.text(loc.value)
    ensures r.calls == if loc.Some? then [ReadText(loc.value)] else []
  {
    if loc.None? then Traced(None, [])
    else
      var text := p.text(loc.value);
      Traced(if text.Some? && text.value != "" then text else None, [ReadText(loc.value)])
  }

  /** What reading field f gives. */
  function Reading(p: Page, t: Table, f: nat): Traced<Option<string>>
    requires f < |Fields|
  {
    Metric(p, LocAt(t, "ads_center", Fields[f].1))
  }

  /** The texts of the first n fields, in field order, each under its
      field's name. */
  function Texts(p: Page, t: Table, n: nat): (r: Traced<seq<(string, string)>>)
    requires n <= |Fields|
    ensures |r.value| <= n
  {
    if n == 0 then Traced([], [])
    else
      var init := Texts(p, t, n - 1);
      var m := Reading(p, t, n - 1);
      Traced(if m.value.Some? then init.value + [(Fields[n - 1].0, m.value.value)] else init.value,
             init.calls + m.calls)
  }

  /** Each text parsed, under the same name. */
  function Parsed(ts: seq<(string, string)>): (ms: seq<(string, Number)>)
    ensures |ms| == |ts| && forall k :: 0 <= k < |ts| ==> ms[k].0 == ts[k].0
  {
    seq(|ts|, k requires 0 <= k < |ts| => (ts[k].0, ParseNumber(ts[k].1)))
  }

  /** The k-th metric is the k-th text parsed. */
  lemma ParsedAt(ts: seq<(string, string)>, k: nat)
    requires k < |ts|
    ensures Parsed(ts)[k] == (ts[k].0, ParseNumber(ts[k].1))
  {
  }

  /** Reading one more text parses it onto the end. */
  lemma ParsedAppend(ts: seq<(string, string)>, name: string, text: string)
    ensures Parsed(ts + [(name, text)]) == Parsed(ts) + [(name, ParseNumber(text))]
  {
    assert Parsed(ts + [(name, text)])[|ts|] == (name, ParseNumber(text));
  }

  /** The `metrics` dict, one entry per field whose text was read, and the
      calls reading them. */
  function Metrics(p: Page, t: Table): Traced<seq<(string, Number)>>
  {
    var ts := Texts(p, t, |Fields|);
    Traced(Parsed(ts.value), ts.calls)
  }

  /** Each text comes from a field that was read, under that field's
      name. */
  lemma {:induction false} TextSource(p: Page, t: Table, n: nat, k: nat) returns (f: nat)
    requires n <= |Fields| && k < |Texts(p, t, n).value|
    ensures f < n && Fields[f].0 == Texts(p, t, n).value[k].0
    ensures Reading(p, t, f).value == Some(Texts(p, t, n).value[k].1)
  {
    var init := Texts(p, t, n - 1).value;
    if k < |init| {
      f := TextSource(p, t, n - 1, k);
      assert Texts(p, t, n).value[k] == init[k];
    } else {
      f := n - 1;
    }
  }

  /** Each field read has its text. */
  lemma {:induction false} TextPresent(p: Page, t: Table, n: nat, f: nat)
    requires f < n <= |Fields| && Reading(p, t, f).value.Some?
    ensures (Fields[f].0, Reading(p, t, f).value.value) in Texts(p, t, n).value
  {
    if f < n - 1 {
      TextPresent(p, t, n - 1, f);
    }
  }

  /** The fields have distinct names. */
  lemma FieldNamesDistinct()
    ensures forall f, g :: 0 <= f < g < |Fields| ==> Fields[f].0 != Fields[g].0
  {
  }

  /** No name is read twice. */
  lemma {:induction false} TextNamesDistinct(p: Page, t: Table, n: nat)
    requires n <= |Fields|
    ensures forall k, l :: 0 <= k < l < |Texts(p, t, n).value| ==>
              Texts(p, t, n).value[k].0 != Texts(p, t, n).value[l].0
  {
    if n > 0 {
      TextNamesDistinct(p, t, n - 1);
      var init := Texts(p, t, n - 1).value;
      FieldNamesDistinct();
      forall k | 0 <= k < |init| ensures init[k].0 != Fields[n - 1].0 {
        var f := TextSource(p, t, n - 1, k);
      }
    }
  }

  /** Reading field i's text through the controller. */
  method ReadField(b: BrowserController, t: Table, i: nat) returns (text: Option<string>)
    requires ActionTable(t) && i < |Fields|
    modifies b`calls
    ensures text == Reading(b.View(), t, i).value
    ensures b.calls == old(b.calls) + Reading(b.View(), t, i).calls
  {
    var loc := LocIn(t, "ads_center", Fields[i].1);
    text := None;
    if loc.Some? {
      var read := b.GetText(loc.value);
      if read.Some? && read.value != "" {
        text := read;
      }
    }
  }

  /** `_extract_summary_data`: each field's text parsed into the dict. */
  method ExtractSummary(b: BrowserController, t: Table) returns (metrics: seq<(string, Number)>)
    requires ActionTable(t)
    modifies b`calls
    ensures metrics == Metrics(b.View(), t).value
    ensures b.calls == old(b.calls) + Metrics(b.View(), t).calls
  {
    ghost var before := b.calls;
    metrics := [];
    for i := 0 to |Fields|
      invariant metrics == Parsed(Texts(b.View(), t, i).value)
      invariant b.calls == before + Texts(b.View(), t, i).calls
    {
      ghost var ts := Texts(b.View(), t, i).value;
      var text := ReadField(b, t, i);
      if text.Some? {
        ParsedAppend(ts, Fields[i].0, text.value);
        metrics := metrics + [(Fields[i].0, ParseNumber(text.value))];
      }
      Regroup(before, Texts(b.View(), t, i).calls, Reading(b.View(), t, i).calls);
    }
  }

  // ------------------------------------------------------------- _do_action

  /** Everything the action does: the URL must be a non-empty string; an
      exception of the range lookup escapes; no metrics is an extraction
      failure (the fallback extraction never finds any). */
  function AdsStage(url: Option<string>, loaded: bool, select: Traced<Option<string>>,
                    metrics: Traced<seq<(string, Number)>>, dateRange: Value)
    : (r: Traced<Except<ActionResult>>)
    ensures (url.None? || url.value == "") <==> r.calls == []
    ensures r.calls != [] ==> r.calls[0] == Navigated(url)
    ensures r.value.Normal? && r.value.value.ok
            <==> url.Some? && url.value != "" && loaded && select.value.None? && metrics.value != []
    ensures r.value.Normal? && r.value.value.ok ==>
              r.value.value == Success(ActionName, AdsSummary(dateRange, metrics.value))
    ensures r.value.Normal? && !r.value.value.ok ==>
              r.value.value.errorMessage.Some? && r.value.value.errorCode.Some?
              && r.value.value.errorCode.value in {"CONFIG_ERROR", "NAVIGATION_ERROR", "DATA_EXTRACTION_ERROR"}
  {
    if url.None? || url.value == "" then
      Traced(Normal(Failure(ActionName, "CONFIG_ERROR", "广告中心 URL 未配置")), [])
    else
      var navigated := [Navigated(url)];
      if !loaded then
        Traced(Normal(Failure(ActionName, "NAVIGATION_ERROR", "无法导航到: " + url.value)), navigated)
      else if select.value.Some? then Traced(Thrown(select.value.value), navigated + select.calls)
      else if metrics.value != [] then
        Traced(Normal(Success(ActionName, AdsSummary(dateRange, metrics.value))),
               navigated + select.calls + metrics.calls)
      else
        Traced(Normal(Failure(ActionName, "DATA_EXTRACTION_ERROR", "无法提取广告数据，可能页面结构已变化")),
               navigated + select.calls + metrics.calls)
  }

  /** `FetchAdsSummaryAction._do_action` on a page; `date_range` defaults to
      "today".  It does not read the context. */
  function AdsOutcome(t: Table, p: Page, payload: Payload): Traced<Except<ActionResult>>
    requires ActionTable(t)
  {
    var dateRange := Get(payload, "date_range", VStr("today"));
    var url := EntryUrl(t, "ads_center");
    AdsStage(url, p.loads(url), SelectOutcome(p, LocAt(t, "ads_center", "date_picker"), RangeLoc(t, dateRange)),
             Metrics(p, t), dateRange)
  }

  /** AdsStage once the page is open. */
  lemma AdsStageCases(url: Option<string>, loaded: bool, select: Traced<Option<string>>,
                      metrics: Traced<seq<(string, Number)>>, dateRange: Value)
    requires url.Some? && url.value != "" && loaded
    ensures var r := AdsStage(url, loaded, select, metrics, dateRange);
            && (select.value.Some? ==> r == Traced(Thrown(select.value.value), [Navigated(url)] + select.calls))
            && (select.value.None? ==> r.calls == ([Navigated(url)] + select.calls) + metrics.calls)
  {
  }

  /** `FetchAdsSummaryAction._do_action` through the controller. */
  method DoAction(b: BrowserController, t: Table, payload: Payload) returns (r: Except<ActionResult>)
    requires ActionTable(t)
    modifies b`calls
    ensures r == AdsOutcome(t, b.View(), payload).value
    ensures b.calls == old(b.calls) + AdsOutcome(t, b.View(), payload).calls
  {
    ghost var before := b.calls;
    ghost var p := b.View();
    var dateRange := Get(payload, "date_range", VStr("today"));
    var url := EntryUrl(t, "ads_center");
    if url.None? || url.value == "" {
      return Normal(Failure(ActionName, "CONFIG_ERROR", "广告中心 URL 未配置"));
    }
    var loaded := b.Navigate(url);
    if !loaded {
      return Normal(Failure(ActionName, "NAVIGATION_ERROR", "无法导航到: " + url.value));
    }
    ghost var select := SelectOutcome(p, LocAt(t, "ads_center", "date_picker"), RangeLoc(t, dateRange));
    ghost var metrics := Metrics(p, t);
    AdsStageCases(url, loaded, select, metrics, dateRange);
    var raised := SelectDateRange(b, t, dateRange);
    Regroup(before, [Navigated(url)], select.calls);
    if raised.Some? {
      return Thrown(raised.value);
    }
    var data := ExtractSummary(b, t);
    Regroup(before, [Navigated(url)] + select.calls, metrics.calls);
    if data != [] {
      r := Normal(Success(ActionName, AdsSummary(dateRange, data)));
    } else {
      r := Normal(Failure(ActionName, "DATA_EXTRACTION_ERROR", "无法提取广告数据，可能页面结构已变化"));
    }
  }

  // ---------------------------------------------------------------- properties

  /** Metric m is field f's text, parsed, under the field's name. */
  predicate ReadAs(p: Page, t: Table, f: nat, m: (string, Number))
    requires f < |Fields|
  {
    Reading(p, t, f).value.Some? && m == (Fields[f].0, ParseNumber(Reading(p, t, f).value.value))
  }

  /** Each field whose text was read has its metric. */
  lemma MetricsComplete(p: Page, t: Table, f: nat)
    requires f < |Fields| && Reading(p, t, f).value.Some?
    ensures exists k :: 0 <= k < |Metrics(p, t).value| && ReadAs(p, t, f, Metrics(p, t).value[k])
  {
    var ts := Texts(p, t, |Fields|).value;
    TextPresent(p, t, |Fields|, f);
    var k :| 0 <= k < |ts| && ts[k] == (Fields[f].0, Reading(p, t, f).value.value);
    ParsedAt(ts, k);
    assert ReadAs(p, t, f, Metrics(p, t).value[k]);
  }

  /** Each metric is the text of a field that was read. */
  lemma MetricsSound(p: Page, t: Table, k: nat)
    requires k < |Metrics(p, t).value|
    ensures exists f :: 0 <= f < |Fields| && ReadAs(p, t, f, Metrics(p, t).value[k])
  {
    var f := TextSource(p, t, |Fields|, k);
    ParsedAt(Texts(p, t, |Fields|).value, k);
    assert ReadAs(p, t, f, Metrics(p, t).value[k]);
  }

  /** No metric name appears twice. */
  lemma MetricNamesDistinct(p: Page, t: Table)
    ensures forall k, l :: 0 <= k < l < |Metrics(p, t).value| ==>
              Metrics(p, t).value[k].0 != Metrics(p, t).value[l].0
  {
    TextNamesDistinct(p, t, |Fields|);
  }

  /** A summary that succeeds carries the date range asked for and the
      metrics read, at least one. */
  lemma SummaryFaithful(t: Table, p: Page, payload: Payload)
    requires ActionTable(t)
    requires AdsOutcome(t, p, payload).value.Normal? && AdsOutcome(t, p, payload).value.value.ok
    ensures AdsOutcome(t, p, payload).value.value.data
              == Some(AdsSummary(Get(payload, "date_range", VStr("today")), Metrics(p, t).value))
    ensures Metrics(p, t).value != []
  {
  }

  /** On a site without an ads centre URL the action fails with
      CONFIG_ERROR before touching the browser. */
  lemma OtherSitesNeedConfig(site: string, p: Page, payload: Payload)
    requires site in {"my", "th", "vn", "ph", "sg"}
    ensures ActionTable(GetLocators(site))
    ensures AdsOutcome(GetLocators(site), p, payload)
            == Traced(Normal(Failure(ActionName, "CONFIG_ERROR", "广告中心 URL 未配置")), [])
  {
    OtherSitesLackActionLocators(site, "ads_center", "entry_url");
  }
}
