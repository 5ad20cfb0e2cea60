/** The JavaScript values the script reads from and writes to Web Storage:
    a `getItem` result (a string or `null`), the number `parseInt(s, 10)`
    makes of a string, and the strings `String(v)` makes of a number or a
    boolean. Numbers are mathematical integers: `parseInt` never yields a
    fraction, and precision above 2^53 is not modelled. */
module JsValues {

  /** A `getItem` result: `None` is JavaScript's `null`. */
  datatype Option<+T> = None | Some(value: T)

  /** A `parseInt` result: NaN or a whole number (`-0` is `Num(0)`). */
  datatype JsNumber = NaN | Num(value: int)

  /** `String(v)` of a stored value: `null` turns into the text "null". */
  function ToJsString(v: Option<string>): string
  {
    match v
    case None => "null"
    case Some(s) => s
  }

  /** The characters `parseInt` skips before the number: the WhiteSpace and
      LineTerminator characters of ECMAScript (tab, vertical tab, form feed,
      no-break space, byte order mark, every space separator, LF, CR, line
      separator and paragraph separator). */
  predicate IsJsWhiteSpace(c: char)
  {
    || c == '\t' || c == '\n' || c == '\U{B}' || c == '\U{C}' || c == '\r'
    || c == ' ' || c == '\U{A0}' || c == '\U{1680}'
    || ('\U{2000}' <= c <= '\U{200A}')
    || c == '\U{2028}' || c == '\U{2029}' || c == '\U{202F}' || c == '\U{205F}'
    || c == '\U{3000}' || c == '\U{FEFF}'
  }

  predicate IsDigit(c: char)
  {
    '0' <= c <= '9'
  }

  predicate AllDigits(s: string)
  {
    forall i :: 0 <= i < |s| ==> IsDigit(s[i])
  }

  function DigitValue(c: char): (d: nat)
    requires IsDigit(c)
    ensures d < 10
  {
    c as int - '0' as int
  }

  function DigitChar(d: nat): (c: char)
    requires d < 10
    ensures IsDigit(c) && DigitValue(c) == d
  {
    ('0' as int + d) as char
  }

  /** What is left of `s` once the leading white space is skipped. */
  function TrimStart(s: string): string
  {
    if s != [] && IsJsWhiteSpace(s[0]) then TrimStart(s[1..]) else s
  }

  /** `TrimStart` removes a prefix made only of white space, and what it
      leaves does not start with white space. */
  lemma {:induction false} TrimStartSkipsWhiteSpace(s: string)
    ensures var t := TrimStart(s);
            && |t| <= |s| && t == s[|s| - |t|..]
            && (t == [] || !IsJsWhiteSpace(t[0]))
            && (forall i :: 0 <= i < |s| - |t| ==> IsJsWhiteSpace(s[i]))
    decreases |s|
  {
    if s != [] && IsJsWhiteSpace(s[0]) {
      TrimStartSkipsWhiteSpace(s[1..]);
    }
  }

  /** The longest prefix of `s` made of decimal digits. */
  function DigitPrefix(s: string): (ds: string)
    ensures AllDigits(ds)
  {
    if s != [] && IsDigit(s[0]) then [s[0]] + DigitPrefix(s[1..]) else []
  }

  /** `DigitPrefix` is a prefix of its argument, and the character after it,
      if any, is not a digit. */
  lemma {:induction false} DigitPrefixIsLongest(s: string)
    ensures DigitPrefix(s) <= s
    ensures |DigitPrefix(s)| < |s| ==> !IsDigit(s[|DigitPrefix(s)|])
    decreases |s|
  {
    if s != [] && IsDigit(s[0]) {
      DigitPrefixIsLongest(s[1..]);
    }
  }

  /** The value of a string of decimal digits, most significant first. */
  function DigitsValue(ds: string): nat
    requires AllDigits(ds)
  {
    if ds == [] then 0 else DigitsValue(ds[..|ds| - 1]) * 10 + DigitValue(ds[|ds| - 1])
  }

  /** `parseInt(s, 10)`: skip leading white space, take an optional sign,
      then as many decimal digits as follow; NaN when there are none.
      With radix 10 a "0x" prefix is not special: "0x1" reads as 0. */
  function ParseInt(s: string): JsNumber
  {
    ParseIntTrimmed(TrimStart(s))
  }

  /** `parseInt` on text that starts with no white space. */
  function ParseIntTrimmed(t: string): JsNumber
  {
    var ds := DigitPrefix(Unsigned(t));
    if ds == [] then NaN
    else if t != [] && t[0] == '-' then Num(-(DigitsValue(ds) as int))
    else Num(DigitsValue(ds))
  }

  /** The text after an optional leading sign. */
  function Unsigned(t: string): string
  {
    if t != [] && (t[0] == '-' || t[0] == '+') then t[1..] else t
  }

  /** The decimal digits of a natural number, without leading zeros. */
  function NatToDecimal(n: nat): (s: string)
    ensures s != [] && AllDigits(s)
    decreases n
  {
    if n < 10 then [DigitChar(n)] else NatToDecimal(n / 10) + [DigitChar(n % 10)]
  }

  /** `String(n)` of a whole number. */
  function NumberToString(n: int): string
  {
    if n < 0 then "-" + NatToDecimal(-n) else NatToDecimal(n)
  }

  /** `String(b)` of a boolean. */
  function BoolToString(b: bool): string
  {
    if b then "true" else "false"
  }

  lemma {:induction false} DecimalValue(n: nat)
    ensures DigitsValue(NatToDecimal(n)) == n
    decreases n
  {
    if n >= 10 {
      var s := NatToDecimal(n);
      assert s[..|s| - 1] == NatToDecimal(n / 10);
      DecimalValue(n / 10);
    }
  }

  lemma {:induction false} DigitPrefixOfDigits(ds: string, rest: string)
    requires AllDigits(ds)
    requires rest == [] || !IsDigit(rest[0])
    ensures DigitPrefix(ds + rest) == ds
    decreases |ds|
  {
    if ds == [] {
      assert ds + rest == rest;
    } else {
      assert (ds + rest)[1..] == ds[1..] + rest;
      DigitPrefixOfDigits(ds[1..], rest);
    }
  }

  lemma {:induction false} TrimStartOfPadded(ws: string, t: string)
    requires forall i :: 0 <= i < |ws| ==> IsJsWhiteSpace(ws[i])
    requires t == [] || !IsJsWhiteSpace(t[0])
    ensures TrimStart(ws + t) == t
    decreases |ws|
  {
    if ws == [] {
      assert ws + t == t;
    } else {
      assert (ws + t)[1..] == ws[1..] + t;
      TrimStartOfPadded(ws[1..], t);
    }
  }

  /** On text with no leading white space, `parseInt` takes an optional
      sign and the digits after it. */
  lemma ParseIntTrimmedSigned(sign: string, ds: string, rest: string)
    requires sign == "" || sign == "+" || sign == "-"
    requires ds != [] && AllDigits(ds)
    requires rest == [] || !IsDigit(rest[0])
    ensures ParseIntTrimmed(sign + ds + rest) == Num(if sign == "-" then -(DigitsValue(ds) as int) else DigitsValue(ds))
  {
    var u := ds + rest;
    assert u[0] == ds[0];
    assert sign + ds + rest == sign + u;
    UnsignedOfSigned(sign, u);
    DigitPrefixOfDigits(ds, rest);
    assert DigitPrefix(Unsigned(sign + u)) == ds;
  }

  /** The sign is taken off and remembered: a text that starts with a
      digit has no sign to take off. */
  lemma UnsignedOfSigned(sign: string, u: string)
    requires sign == "" || sign == "+" || sign == "-"
    requires u != [] && IsDigit(u[0])
    ensures Unsigned(sign + u) == u
    ensures (sign + u)[0] == '-' <==> sign == "-"
  {
    if sign == "" {
      assert sign + u == u;
    } else {
      assert (sign + u)[1..] == u;
    }
  }

  /** `parseInt` reads white space, an optional sign, and the digits that
      follow, and ignores whatever comes after the digits. */
  lemma ParseIntReadsSignedDigits(ws: string, sign: string, ds: string, rest: string)
    requires forall i :: 0 <= i < |ws| ==> IsJsWhiteSpace(ws[i])
    requires sign == "" || sign == "+" || sign == "-"
    requires ds != [] && AllDigits(ds)
    requires rest == [] || !IsDigit(rest[0])
    ensures ParseInt(ws + sign + ds + rest) == Num(if sign == "-" then -(DigitsValue(ds) as int) else DigitsValue(ds))
  {
    var t := sign + ds + rest;
    assert ws + sign + ds + rest == ws + t;
    assert t[0] == if sign == "" then ds[0] else sign[0];
    TrimStartOfPadded(ws, t);
    ParseIntTrimmedSigned(sign, ds, rest);
  }

  /** `parseInt` gives NaN when, after the white space and an optional
      sign, no digit follows. */
  lemma ParseIntWithoutDigits(ws: string, sign: string, rest: string)
    requires forall i :: 0 <= i < |ws| ==> IsJsWhiteSpace(ws[i])
    requires sign == "" || sign == "+" || sign == "-"
    requires rest == [] || !IsDigit(rest[0])
    requires sign == "" && rest != [] ==> !IsJsWhiteSpace(rest[0]) && rest[0] != '+' && rest[0] != '-'
    ensures ParseInt(ws + sign + rest) == NaN
  {
    var t := sign + rest;
    assert ws + sign + rest == ws + t;
    TrimStartOfPadded(ws, t);
    if sign == "" {
      assert t == rest;
    } else {
      assert t[1..] == rest;
    }
    if rest != [] {
      assert !IsDigit(rest[0]);
    }
  }

  /** A missing item reads as "null", which is not a number. */
  lemma ParseIntOfNull()
    ensures ParseInt(ToJsString(None)) == NaN
  {
    ParseIntWithoutDigits("", "", "null");
  }

  /** Writing a whole number with `String` and reading it back with
      `parseInt` gives the number again. */
  lemma ParseIntRoundTrip(n: int)
    ensures ParseInt(NumberToString(n)) == Num(n)
  {
    var m: nat := if n < 0 then -n else n;
    var d := NatToDecimal(m);
    DecimalValue(m);
    var sign := if n < 0 then "-" else "";
    var s := NumberToString(n);
    assert s == sign + d + "";
    assert !IsJsWhiteSpace(s[0]) by {
      assert s[0] == if n < 0 then '-' else d[0];
    }
    assert TrimStart(s) == s;
    ParseIntTrimmedSigned(sign, d, "");
  }
}
