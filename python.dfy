/**
 * Python values and the handful of builtins the agent leans on: truthiness,
 * str(), repr(), str.strip(), str.split(c)[0], str.replace(c, ""), int() and
 * dict.get().  Everything the other modules say about payloads, provider
 * replies and messages is stated in these terms.
 */
module Python {

  datatype Option<+T> = None | Some(value: T)

  /** The outcome of a Python call that may raise: its value, or the text
      str(e) of the exception it raised. */
  datatype Except<+T> = Normal(value: T) | Thrown(msg: string)

  /** A JSON-shaped Python value, as found in task payloads and in the replies
      of the session provider.  A dict keeps its insertion order. */
  datatype Value =
    | VNone
    | VBool(b: bool)
    | VInt(i: int)
    | VStr(s: string)
    | VList(items: seq<Value>)
    | VDict(entries: seq<(string, Value)>)

  /** A task payload: a JSON object. */
  type Payload = map<string, Value>

  /** Python's truth value of a value (`if v:`). */
  predicate Truthy(v: Value)
  {
    match v
    case VNone => false
    case VBool(b) => b
    case VInt(i) => i != 0
    case VStr(s) => s != ""
    case VList(xs) => xs != []
    case VDict(es) => es != []
  }

  /** `p.get(key, default)` */
  function Get(p: Payload, key: string, default: Value): (v: Value)
    ensures key in p ==> v == p[key]
    ensures key !in p ==> v == default
  {
    if key in p then p[key] else default
  }

  /** `d.get(key)` on a dict value; the first entry with the key wins (a
      Python dict holds one entry per key). */
  function DictGet(entries: seq<(string, Value)>, key: string): (r: Option<Value>)
    ensures r.None? <==> forall i :: 0 <= i < |entries| ==> entries[i].0 != key
    ensures r.Some? ==> exists i :: 0 <= i < |entries| && entries[i] == (key, r.value)
  {
    if entries == [] then None
    else if entries[0].0 == key then Some(entries[0].1)
    else
      var r := DictGet(entries[1..], key);
      assert forall i :: 1 <= i < |entries| ==> entries[i] == entries[1..][i - 1];
      r
  }

  // ---------------------------------------------------------------- digits

  predicate IsDigit(c: char) { '0' <= c <= '9' }

  function DigitChar(d: nat): (c: char)
    requires d < 10
    ensures IsDigit(c)
  {
    "0123456789"[d]
  }

  function DigitValue(c: char): nat
    requires IsDigit(c)
  {
    (c as int - '0' as int) as nat
  }

  /** The number written by a string of decimal digits. */
  function DigitsValue(s: string): nat
    requires forall i :: 0 <= i < |s| ==> IsDigit(s[i])
  {
    if s == [] then 0 else DigitsValue(s[..|s| - 1]) * 10 + DigitValue(s[|s| - 1])
  }

  /** The decimal text of a natural number, without leading zeros. */
  function NatToString(n: nat): (s: string)
    ensures |s| >= 1
    ensures forall i :: 0 <= i < |s| ==> IsDigit(s[i])
    ensures |s| > 1 ==> s[0] != '0'
  {
    if n < 10 then [DigitChar(n)] else NatToString(n / 10) + [DigitChar(n % 10)]
  }

  /** Reading back the digits NatToString writes gives the number again. */
  lemma {:induction false} NatToStringRoundTrip(n: nat)
    ensures DigitsValue(NatToString(n)) == n
  {
    var s := NatToString(n);
    if n >= 10 {
      NatToStringRoundTrip(n / 10);
      assert s[..|s| - 1] == NatToString(n / 10);
    }
    assert DigitValue(DigitChar(n % 10)) == n % 10 by {
      var d := n % 10;
      assert "0123456789"[d] as int - '0' as int == d;
    }
  }

  /** `str(i)` for an int. */
  function IntToString(i: int): string
  {
    if i < 0 then "-" + NatToString(-i) else NatToString(i)
  }

  // ------------------------------------------------------------- str, repr

  function Join(sep: string, parts: seq<string>): string
  {
    if parts == [] then ""
    else if |parts| == 1 then parts[0]
    else parts[0] + sep + Join(sep, parts[1..])
  }

  /** `type(v).__name__` */
  function TypeName(v: Value): string
  {
    match v
    case VNone => "NoneType"
    case VBool(_) => "bool"
    case VInt(_) => "int"
    case VStr(_) => "str"
    case VList(_) => "list"
    case VDict(_) => "dict"
  }

  /** `repr(v)`.  Strings are quoted with single quotes; the escaping of
      quotes and control characters inside them is not modelled. */
  function Repr(v: Value): string
    decreases v
  {
    match v
    case VNone => "None"
    case VBool(b) => if b then "True" else "False"
    case VInt(i) => IntToString(i)
    case VStr(s) => "'" + s + "'"
    case VList(xs) =>
      "[" + Join(", ", seq(|xs|, k requires 0 <= k < |xs| => Repr(xs[k]))) + "]"
    case VDict(es) =>
      "{" + Join(", ", seq(|es|, k requires 0 <= k < |es| => "'" + es[k].0 + "': " + Repr(es[k].1))) + "}"
  }

  /** `str(v)`: a string is itself, everything else is its repr. */
  function Str(v: Value): string
  {
    if v.VStr? then v.s else Repr(v)
  }

  /** `str(x)` of an optional string (`None` prints as "None"). */
  function StrOpt(x: Option<string>): string
  {
    if x.Some? then x.value else "None"
  }

  // --------------------------------------------------------------- strings

  /** What `str.isspace()` holds for: the whitespace `str.strip()` removes,
      `\s` matches in a text pattern and `int()` and `float()` ignore around
      their argument.  Besides the ASCII space, tab, line feed, vertical tab,
      form feed and carriage return, these are the four information
      separators U+001C to U+001F, NEL, the no-break space, the Ogham space
      mark, the spaces U+2000 to U+200A, the line and paragraph separators,
      the narrow no-break space, the medium mathematical space and the
      ideographic space. */
  predicate IsSpace(c: char)
  {
    || c == ' ' || '\t' <= c <= '\r' || '\U{1C}' <= c <= '\U{1F}'
    || c == '\U{85}' || c == '\U{A0}' || c == '\U{1680}' || '\U{2000}' <= c <= '\U{200A}'
    || c == '\U{2028}' || c == '\U{2029}' || c == '\U{202F}' || c == '\U{205F}' || c == '\U{3000}'
  }

  predicate StartsWith(s: string, prefix: string)
  {
    |prefix| <= |s| && s[..|prefix|] == prefix
  }

  predicate EndsWith(s: string, suffix: string)
  {
    |suffix| <= |s| && s[|s| - |suffix|..] == suffix
  }

  /** The first index at or after i that holds no whitespace, or |s|. */
  function SkipSpace(s: string, i: nat): (k: nat)
    requires i <= |s|
    ensures i <= k <= |s| && (k == |s| || !IsSpace(s[k]))
    ensures forall m :: i <= m < k ==> IsSpace(s[m])
    decreases |s| - i
  {
    if i < |s| && IsSpace(s[i]) then SkipSpace(s, i + 1) else i
  }

  /** The end of s[a..j] once its trailing whitespace is dropped. */
  function DropSpace(s: string, a: nat, j: nat): (k: nat)
    requires a <= j <= |s|
    ensures a <= k <= j && (k == a || !IsSpace(s[k - 1]))
    ensures forall m :: k <= m < j ==> IsSpace(s[m])
    decreases j
  {
    if a < j && IsSpace(s[j - 1]) then DropSpace(s, a, j - 1) else j
  }

  /** `s.strip()`: s without the whitespace at either end. */
  function Strip(s: string): (r: string)
    ensures r == [] || (!IsSpace(r[0]) && !IsSpace(r[|r| - 1]))
    ensures |r| <= |s|
  {
    var a := SkipSpace(s, 0);
    s[a..DropSpace(s, a, |s|)]
  }

  /** What strip cuts away is whitespace at the two ends, and only that. */
  lemma StripKeepsMiddle(s: string)
    ensures exists a, b :: 0 <= a <= b <= |s| && Strip(s) == s[a..b]
                           && (forall i :: 0 <= i < a ==> IsSpace(s[i]))
                           && (forall i :: b <= i < |s| ==> IsSpace(s[i]))
  {
    var a := SkipSpace(s, 0);
    var b := DropSpace(s, a, |s|);
    assert Strip(s) == s[a..b];
  }

  /** A string with no whitespace at either end is its own strip. */
  lemma StripTrimmed(s: string)
    requires s == [] || (!IsSpace(s[0]) && !IsSpace(s[|s| - 1]))
    ensures Strip(s) == s
  {
    if s != [] {
      assert SkipSpace(s, 0) == 0;
      assert DropSpace(s, 0, |s|) == |s|;
    }
  }

  /** `s.split(c)[0]`: the text before the first c, or all of s. */
  function BeforeFirst(s: string, c: char): (r: string)
    ensures StartsWith(s, r)
    ensures forall i :: 0 <= i < |r| ==> r[i] != c
    ensures |r| < |s| ==> s[|r|] == c
  {
    if s == [] || s[0] == c then [] else [s[0]] + BeforeFirst(s[1..], c)
  }

  /** `s.replace(c, "")` for a single character c. */
  function RemoveChar(s: string, c: char): (r: string)
    ensures forall i :: 0 <= i < |r| ==> r[i] != c
    ensures |r| <= |s|
    ensures (forall i :: 0 <= i < |s| ==> s[i] != c) ==> r == s
  {
    if s == [] then []
    else if s[0] == c then RemoveChar(s[1..], c)
    else [s[0]] + RemoveChar(s[1..], c)
  }

  /** `s.count(c)` for a single character c. */
  function CountChar(s: string, c: char): nat
  {
    if s == [] then 0 else (if s[0] == c then 1 else 0) + CountChar(s[1..], c)
  }

  /** `c in s` */
  predicate Contains(s: string, c: char)
  {
    exists i :: 0 <= i < |s| && s[i] == c
  }

  // ------------------------------------------------------------------ int()

  /** The body of an int literal: digits, with single underscores allowed
      between two digits ("1_000"). */
  predicate DigitRun(s: string)
  {
    && s != []
    && IsDigit(s[0]) && IsDigit(s[|s| - 1])
    && (forall i :: 0 <= i < |s| ==> IsDigit(s[i]) || s[i] == '_')
    && (forall i :: 0 <= i < |s| - 1 ==> !(s[i] == '_' && s[i + 1] == '_'))
  }

  function DigitRunValue(s: string): nat
    requires DigitRun(s)
  {
    var d := RemoveChar(s, '_');
    assert forall i :: 0 <= i < |d| ==> IsDigit(d[i]) by {
      RemoveCharKeeps(s, '_', c => IsDigit(c) || c == '_');
    }
    DigitsValue(d)
  }

  /** What RemoveChar keeps satisfies whatever every kept character of the
      input satisfied. */
  lemma {:induction false} RemoveCharKeeps(s: string, c: char, P: char -> bool)
    requires forall i :: 0 <= i < |s| ==> P(s[i])
    ensures forall i :: 0 <= i < |RemoveChar(s, c)| ==> P(RemoveChar(s, c)[i])
  {
    if s != [] {
      RemoveCharKeeps(s[1..], c, P);
    }
  }

  /** `int(s)` for a str s (ASCII digits; base 10): surrounding whitespace,
      an optional sign, then a digit run.  None when int() raises. */
  function ParseInt(s: string): Option<int>
  {
    var t := Strip(s);
    if t != [] && (t[0] == '-' || t[0] == '+') then
      (if DigitRun(t[1..]) then
         Some(if t[0] == '-' then -(DigitRunValue(t[1..]) as int) else DigitRunValue(t[1..]) as int)
       else None)
    else if DigitRun(t) then Some(DigitRunValue(t) as int)
    else None
  }

  /** The decimal text of a natural number is read back by int(). */
  lemma NatToStringParses(n: nat)
    ensures ParseInt(NatToString(n)) == Some(n as int)
  {
    var s := NatToString(n);
    assert !IsSpace(s[0]) && !IsSpace(s[|s| - 1]);
    assert Strip(s) == s;
    assert DigitRun(s);
    NatToStringRoundTrip(n);
  }

  /** A digit run holds no dot. */
  lemma DotBreaksDigitRun(t: string, j: nat)
    requires j < |t| && t[j] == '.'
    ensures !DigitRun(t)
  {
    assert !IsDigit(t[j]);
  }

  /** int() rejects any text with a dot in it. */
  lemma ParseIntRejectsDot(u: string)
    requires Contains(u, '.')
    ensures ParseInt(u).None?
  {
    var i :| 0 <= i < |u| && u[i] == '.';
    var a := SkipSpace(u, 0);
    var b := DropSpace(u, a, |u|);
    var t := Strip(u);
    assert t == u[a..b];
    assert !IsSpace(u[i]);
    assert a <= i < b;
    assert t[i - a] == '.';
    if t != [] && (t[0] == '-' || t[0] == '+') {
      assert t[1..][i - a - 1] == '.';
      DotBreaksDigitRun(t[1..], i - a - 1);
    } else {
      DotBreaksDigitRun(t, i - a);
    }
  }

  /** `int(v)` for any value: bools count as 0 and 1, strings are parsed,
      everything else raises TypeError. */
  function IntOf(v: Value): (r: Except<int>)
    ensures v.VInt? ==> r == Normal(v.i)
    ensures v.VNone? || v.VList? || v.VDict? ==> r.Thrown?
  {
    match v
    case VInt(i) => Normal(i)
    case VBool(b) => Normal(if b then 1 else 0)
    case VStr(s) =>
      (match ParseInt(s)
       case Some(i) => Normal(i)
       case None => Thrown("invalid literal for int() with base 10: " + Repr(v)))
    case _ =>
      Thrown("int() argument must be a string, a bytes-like object or a real number, not '"
             + TypeName(v) + "'")
  }
}

/** The wall clock (`time.time()`, `datetime.now()`): readings never go back. */
module PyTime {

  class WallClock {
    /** The latest reading, in milliseconds. */
    var ms: int

    constructor (start: int)
      ensures ms == start
    {
      ms := start;
    }

    /** `time.time()`, in milliseconds: some moment no earlier than the last. */
    method Now() returns (t: int)
      modifies this
      ensures old(ms) <= t && ms == t
    {
      var elapsed :| elapsed >= 0;
      ms := ms + elapsed;
      t := ms;
    }

    /** `datetime.now().strftime("%Y%m%d_%H%M%S")`: a reading of the clock
        rendered as text.  The calendar formatting itself is not modelled. */
    method Stamp() returns (s: string)
      modifies this
      ensures old(ms) <= ms
    {
      var elapsed :| elapsed >= 0;
      ms := ms + elapsed;
      s := *;
    }
  }
}
