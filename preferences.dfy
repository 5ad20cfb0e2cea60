/** Loading and saving the preferences: the wide-mode flag in local storage
    (kept across browser restarts) and the four row bounds in session
    storage. A storage area is a map from key to string; a missing key reads
    as `null`. */
module Preferences {
  import opened JsValues
  import opened RowBounds

  const WideModeKey := "geminiWideModeEnabled"

  const DefaultMaxRowsWide := 12
  const DefaultMinRowsWide := 6
  const DefaultMinRowsNormal := 3
  const DefaultMaxRowsNormal := 8

  /** `getItem(key)`. */
  function GetItem(store: map<string, string>, key: string): Option<string>
  {
    if key in store then Some(store[key]) else None
  }

  /** The session storage key of each bound: the bound's own variable name. */
  function KeyOf(t: Target): string
  {
    match t
    case MaxWide => "maxRowsWide"
    case MinWide => "minRowsWide"
    case MinNormal => "minRowsNormal"
    case MaxNormal => "maxRowsNormal"
  }

  function DefaultOf(t: Target): int
  {
    match t
    case MaxWide => DefaultMaxRowsWide
    case MinWide => DefaultMinRowsWide
    case MinNormal => DefaultMinRowsNormal
    case MaxNormal => DefaultMaxRowsNormal
  }

  /** Distinct bounds are stored under distinct keys. */
  lemma KeysDistinct(t: Target, u: Target)
    requires t != u
    ensures KeyOf(t) != KeyOf(u)
  {
    assert KeyOf(t)[1] != KeyOf(u)[1] || KeyOf(t)[3] != KeyOf(u)[3] || |KeyOf(t)| != |KeyOf(u)|;
  }

  /** `getItem(...) === 'true'`: only the exact text "true" turns wide mode
      on; a missing item, "false", "TRUE" or " true" all leave it off. */
  function LoadWideMode(stored: Option<string>): bool
  {
    stored.Some? && stored.value == "true"
  }

  /** The flag is on exactly when the stored text is "true". */
  lemma WideModeOnlyForTrue(stored: Option<string>)
    ensures LoadWideMode(stored) <==> stored == Some("true")
  {
  }

  /** `String(b)` is what `setItem` stores for the flag. */
  function SaveWideMode(store: map<string, string>, enabled: bool): (store': map<string, string>)
    ensures GetItem(store', WideModeKey) == Some(if enabled then "true" else "false")
    ensures forall k :: k != WideModeKey ==> GetItem(store', k) == GetItem(store, k)
  {
    store[WideModeKey := BoolToString(enabled)]
  }

  /** Loading after saving gives back the flag that was saved. */
  lemma WideModeRoundTrip(store: map<string, string>, enabled: bool)
    ensures LoadWideMode(GetItem(SaveWideMode(store, enabled), WideModeKey)) == enabled
  {
  }

  /** `x || d` on a `parseInt` result: NaN and 0 are falsy, so both give
      the default; every other number, negative ones included, is kept. */
  function OrDefault(x: JsNumber, d: int): (v: int)
    ensures x.NaN? ==> v == d
    ensures x.Num? && x.value == 0 ==> v == d
    ensures x.Num? && x.value != 0 ==> v == x.value
  {
    match x
    case NaN => d
    case Num(n) => if n == 0 then d else n
  }

  /** `parseInt(getItem(key), 10) || d`. */
  function LoadRowBound(stored: Option<string>, d: int): int
  {
    OrDefault(ParseInt(ToJsString(stored)), d)
  }

  /** A missing bound loads as its default. */
  lemma LoadMissingBound(d: int)
    ensures LoadRowBound(None, d) == d
  {
    ParseIntOfNull();
  }

  /** A stored non-zero number loads as itself; a stored 0 loads as the
      default. */
  lemma LoadStoredBound(n: int, d: int)
    ensures LoadRowBound(Some(NumberToString(n)), d) == if n == 0 then d else n
  {
    ParseIntRoundTrip(n);
  }

  /** A stored text with digits after white space and a sign loads as the
      number those digits spell, whatever follows them ("7rows" loads as 7,
      "  -2" as -2), unless that number is 0. */
  lemma LoadBoundPrefix(ws: string, sign: string, ds: string, rest: string, d: int)
    requires forall i :: 0 <= i < |ws| ==> IsJsWhiteSpace(ws[i])
    requires sign == "" || sign == "+" || sign == "-"
    requires ds != [] && AllDigits(ds)
    requires rest == [] || !IsDigit(rest[0])
    ensures var n := if sign == "-" then -(DigitsValue(ds) as int) else DigitsValue(ds);
            LoadRowBound(Some(ws + sign + ds + rest), d) == if n == 0 then d else n
  {
    ParseIntReadsSignedDigits(ws, sign, ds, rest);
  }

  /** A stored text without digits loads as the default. */
  lemma LoadBoundWithoutDigits(ws: string, sign: string, rest: string, d: int)
    requires forall i :: 0 <= i < |ws| ==> IsJsWhiteSpace(ws[i])
    requires sign == "" || sign == "+" || sign == "-"
    requires rest == [] || !IsDigit(rest[0])
    requires sign == "" && rest != [] ==> !IsJsWhiteSpace(rest[0]) && rest[0] != '+' && rest[0] != '-'
    ensures LoadRowBound(Some(ws + sign + rest), d) == d
  {
    ParseIntWithoutDigits(ws, sign, rest);
  }

  /** The bounds as the script reads them from session storage at start. */
  function LoadRows(session: map<string, string>): Rows
  {
    Rows(
      LoadRowBound(GetItem(session, KeyOf(MaxWide)), DefaultMaxRowsWide),
      LoadRowBound(GetItem(session, KeyOf(MinWide)), DefaultMinRowsWide),
      LoadRowBound(GetItem(session, KeyOf(MinNormal)), DefaultMinRowsNormal),
      LoadRowBound(GetItem(session, KeyOf(MaxNormal)), DefaultMaxRowsNormal))
  }

  /** Each bound is loaded from its own key with its own default. */
  lemma LoadRowsPerBound(session: map<string, string>, t: Target)
    ensures Get(LoadRows(session), t) == LoadRowBound(GetItem(session, KeyOf(t)), DefaultOf(t))
  {
  }

  /** A fresh session starts from 12, 6, 3 and 8. */
  lemma FreshSessionDefaults()
    ensures LoadRows(map[]) == Rows(12, 6, 3, 8)
  {
    LoadMissingBound(DefaultMaxRowsWide);
    LoadMissingBound(DefaultMinRowsWide);
    LoadMissingBound(DefaultMinRowsNormal);
    LoadMissingBound(DefaultMaxRowsNormal);
  }

  /** `setItem(key, n)` for a bound: what a size button press writes. */
  function SaveRowBound(session: map<string, string>, t: Target, n: int): map<string, string>
  {
    session[KeyOf(t) := NumberToString(n)]
  }

  /** Saving a non-zero bound and loading the session again gives that
      bound back and leaves the other three as they loaded before. */
  lemma SaveThenLoad(session: map<string, string>, t: Target, n: int)
    requires n != 0
    ensures Get(LoadRows(SaveRowBound(session, t, n)), t) == n
    ensures forall u :: u != t ==> Get(LoadRows(SaveRowBound(session, t, n)), u) == Get(LoadRows(session), u)
  {
    var s' := SaveRowBound(session, t, n);
    LoadRowsPerBound(s', t);
    assert GetItem(s', KeyOf(t)) == Some(NumberToString(n));
    LoadStoredBound(n, DefaultOf(t));
    forall u | u != t
      ensures Get(LoadRows(s'), u) == Get(LoadRows(session), u)
    {
      SaveKeepsOtherKey(session, t, n, u);
      LoadRowsPerBound(s', u);
      LoadRowsPerBound(session, u);
    }
  }

  lemma SaveKeepsOtherKey(session: map<string, string>, t: Target, n: int, u: Target)
    requires u != t
    ensures GetItem(SaveRowBound(session, t, n), KeyOf(u)) == GetItem(session, KeyOf(u))
  {
    KeysDistinct(t, u);
  }
}
