/**
 * String primitives shared by the Python scripts and the Kotlin app:
 * substring search, ASCII case folding, decimal integers (Python `str(int)`,
 * Kotlin `Int.toString`, `toIntOrNull`), `joinToString(",")` / `split(",")`
 * and `trim`.
 *
 * Case folding, white space and decimal digits are modelled on ASCII only; the Unicode
 * tables of Python and the JVM are not part of this model.
 */
module Text {
  import opened Wrappers

  // ---------------------------------------------------------------------
  // Substrings

  /** `sub` occurs in `s` starting at index `k`. */
  predicate OccursAt(s: string, sub: string, k: int) {
    0 <= k <= |s| - |sub| && s[k..k + |sub|] == sub
  }

  /** Python's `sub in s`, Kotlin's `s.contains(sub)`. */
  predicate Contains(s: string, sub: string) {
    exists k | 0 <= k <= |s| - |sub| :: OccursAt(s, sub, k)
  }

  /** A string cannot contain a pattern one of whose characters it lacks. */
  lemma NotContainsMissingChar(s: string, sub: string, i: nat)
    requires i < |sub| && sub[i] !in s
    ensures !Contains(s, sub)
  {
    forall k | 0 <= k <= |s| - |sub| ensures !OccursAt(s, sub, k) {
      assert s[k + i] in s;
    }
  }

  /** The empty string contains no non-empty pattern. */
  lemma NotContainsInEmpty(sub: string)
    requires sub != ""
    ensures !Contains("", sub)
  {
  }

  /** Some pattern of `subs` occurs in `s` (Python's `any(kw in s for kw in subs)`). */
  predicate ContainsAny(s: string, subs: seq<string>) {
    exists i | 0 <= i < |subs| :: Contains(s, subs[i])
  }

  // ---------------------------------------------------------------------
  // ASCII case folding

  predicate IsUpper(c: char) { 'A' <= c <= 'Z' }
  predicate IsLower(c: char) { 'a' <= c <= 'z' }

  function LowerChar(c: char): char {
    if IsUpper(c) then (c as int + 32) as char else c
  }

  function UpperChar(c: char): char {
    if IsLower(c) then (c as int - 32) as char else c
  }

  /** Python's `str.lower()` and Kotlin's `lowercase()` on ASCII text. */
  function Lower(s: string): (r: string)
    ensures |r| == |s|
    ensures forall i | 0 <= i < |s| :: r[i] == LowerChar(s[i])
  {
    seq(|s|, i requires 0 <= i < |s| => LowerChar(s[i]))
  }

  /** Kotlin's `contains(query, ignoreCase = true)`. */
  predicate ContainsIgnoreCase(s: string, query: string) {
    Contains(Lower(s), Lower(query))
  }

  // ---------------------------------------------------------------------
  // Decimal integers

  predicate IsDigit(c: char) { '0' <= c <= '9' }

  predicate AllDigits(s: string) {
    forall i | 0 <= i < |s| :: IsDigit(s[i])
  }

  function DigitChar(d: nat): (c: char)
    requires d < 10
    ensures IsDigit(c)
  {
    ('0' as int + d) as char
  }

  function DigitValue(c: char): nat
    requires IsDigit(c)
  {
    c as int - '0' as int
  }

  /** The decimal digits of `n`, most significant first, no leading zero. */
  function NatToString(n: nat): (r: string)
    ensures |r| > 0 && AllDigits(r)
  {
    if n < 10 then [DigitChar(n)] else NatToString(n / 10) + [DigitChar(n % 10)]
  }

  /** The value of a run of decimal digits. */
  function DigitsValue(s: string): nat
    requires AllDigits(s)
  {
    if s == [] then 0 else 10 * DigitsValue(s[..|s| - 1]) + DigitValue(s[|s| - 1])
  }

  lemma {:induction false} DigitsValueOfNatToString(n: nat)
    ensures DigitsValue(NatToString(n)) == n
  {
    if n >= 10 {
      var s := NatToString(n);
      assert s[..|s| - 1] == NatToString(n / 10);
      DigitsValueOfNatToString(n / 10);
    }
  }

  /** Python's `str(i)` and Kotlin's `Int.toString()`. */
  function IntToString(i: int): (r: string)
    ensures |r| > 0
    ensures forall k | 0 <= k < |r| :: IsDigit(r[k]) || r[k] == '-'
  {
    if i < 0 then "-" + NatToString(-i) else NatToString(i)
  }

  const INT_MIN: int := -0x8000_0000
  const INT_MAX: int := 0x7FFF_FFFF

  /** The range of Kotlin's 32-bit `Int`. */
  predicate IsInt32(n: int) { INT_MIN <= n <= INT_MAX }

  /** Kotlin's `Int` division by a positive divisor, which truncates toward zero. */
  function TruncDiv(a: int, b: int): (q: int)
    requires b > 0
    ensures a >= 0 ==> q == a / b
    ensures a < 0 ==> -q == (-a) / b
  {
    if a >= 0 then a / b else -((-a) / b)
  }

  /** Two's-complement wrap-around of Kotlin `Int` arithmetic. */
  function WrapInt32(n: int): (r: int)
    ensures IsInt32(r)
    ensures (r - n) % 0x1_0000_0000 == 0
    ensures IsInt32(n) ==> r == n
  {
    (n - INT_MIN) % 0x1_0000_0000 + INT_MIN
  }

  /**
   * Kotlin's `String.toIntOrNull()` restricted to ASCII: an optional `+` or
   * `-` sign followed by at least one digit '0'..'9', whose value fits in an
   * `Int`; anything else (including the empty string, out-of-range values
   * and non-ASCII decimal digits, which Kotlin accepts) gives null.
   */
  function ToIntOrNull(s: string): (r: Option<int>)
    ensures r.Some? ==> IsInt32(r.value)
    ensures r.Some? ==> s != "" && (AllDigits(s) || ((s[0] == '-' || s[0] == '+') && AllDigits(s[1..])))
  {
    if s == [] then None
    else
      var signed := s[0] == '-' || s[0] == '+';
      var body := if signed then s[1..] else s;
      if body == [] || !AllDigits(body) then None
      else
        var v: int := if s[0] == '-' then -(DigitsValue(body) as int) else DigitsValue(body);
        if IsInt32(v) then Some(v) else None
  }

  /** Printing an `Int` and parsing it back gives the same `Int`. */
  lemma IntToStringRoundTrip(n: int)
    requires IsInt32(n)
    ensures ToIntOrNull(IntToString(n)) == Some(n)
  {
    if n < 0 {
      var s := IntToString(n);
      assert s[1..] == NatToString(-n);
      DigitsValueOfNatToString(-n);
    } else {
      DigitsValueOfNatToString(n);
    }
  }

  /** Distinct integers have distinct decimal strings. */
  lemma IntToStringInjective(a: int, b: int)
    requires IntToString(a) == IntToString(b)
    ensures a == b
  {
    var s := IntToString(a);
    if a < 0 {
      assert s[0] == '-';
      assert b < 0;
      assert s[1..] == NatToString(-a) && s[1..] == NatToString(-b);
      DigitsValueOfNatToString(-a);
      DigitsValueOfNatToString(-b);
    } else {
      assert IsDigit(s[0]);
      assert b >= 0;
      DigitsValueOfNatToString(a);
      DigitsValueOfNatToString(b);
    }
  }

  // ---------------------------------------------------------------------
  // joinToString / split

  /** Kotlin's `joinToString(sep)` and Python's `sep.join(parts)`. */
  function Join(parts: seq<string>, sep: char): string {
    if |parts| == 0 then ""
    else if |parts| == 1 then parts[0]
    else parts[0] + [sep] + Join(parts[1..], sep)
  }

  /** Kotlin's `split(sep)`: always at least one piece; empty pieces are kept. */
  function Split(s: string, sep: char): (r: seq<string>)
    ensures |r| > 0
  {
    if s == [] then [""]
    else
      var rest := Split(s[1..], sep);
      if s[0] == sep then [""] + rest else [[s[0]] + rest[0]] + rest[1..]
  }

  lemma {:induction false} SplitPrefix(p: string, t: string, sep: char)
    requires sep !in p
    ensures Split(p + t, sep) == [p + Split(t, sep)[0]] + Split(t, sep)[1..]
  {
    if p == [] {
      assert p + t == t;
      assert p + Split(t, sep)[0] == Split(t, sep)[0];
      assert [Split(t, sep)[0]] + Split(t, sep)[1..] == Split(t, sep);
    } else {
      assert (p + t)[1..] == p[1..] + t;
      SplitPrefix(p[1..], t, sep);
      assert [p[0]] + (p[1..] + Split(t, sep)[0]) == p + Split(t, sep)[0];
    }
  }

  /** Splitting a joined list gives the list back when no piece holds the separator. */
  lemma {:induction false} SplitJoin(parts: seq<string>, sep: char)
    requires |parts| > 0
    requires forall i | 0 <= i < |parts| :: sep !in parts[i]
    ensures Split(Join(parts, sep), sep) == parts
  {
    if |parts| == 1 {
      SplitPrefix(parts[0], "", sep);
      assert parts[0] + "" == parts[0];
    } else {
      var rest := parts[1..];
      SplitJoin(rest, sep);
      assert Join(parts, sep) == parts[0] + ([sep] + Join(rest, sep));
      SplitPrefix(parts[0], [sep] + Join(rest, sep), sep);
      assert ([sep] + Join(rest, sep))[1..] == Join(rest, sep);
      assert parts[0] + "" == parts[0];
      assert parts == [parts[0]] + rest;
    }
  }

  /** Pieces of a split never contain the separator. */
  lemma {:induction false} SplitPiecesLackSeparator(s: string, sep: char)
    ensures forall i | 0 <= i < |Split(s, sep)| :: sep !in Split(s, sep)[i]
  {
    if s != [] {
      SplitPiecesLackSeparator(s[1..], sep);
    }
  }

  // ---------------------------------------------------------------------
  // trim

  /** Kotlin's `Char.isWhitespace()` restricted to ASCII. */
  predicate IsWhitespace(c: char) {
    c == ' ' || c == '\t' || c == '\n' || c == '\r' || c == '\U{B}' || c == '\U{C}'
    || ('\U{1C}' <= c <= '\U{1F}')
  }

  function TrimStart(s: string): string {
    if s != [] && IsWhitespace(s[0]) then TrimStart(s[1..]) else s
  }

  function TrimEnd(s: string): string {
    if s != [] && IsWhitespace(s[|s| - 1]) then TrimEnd(s[..|s| - 1]) else s
  }

  /** Kotlin's `trim()`: drop leading and trailing white space. */
  function Trim(s: string): string {
    TrimEnd(TrimStart(s))
  }

  /** A printed `Int` has no white space to trim. */
  lemma TrimIntToString(n: int)
    ensures Trim(IntToString(n)) == IntToString(n)
  {
    var s := IntToString(n);
    assert !IsWhitespace(s[0]) && !IsWhitespace(s[|s| - 1]);
  }

  // ---------------------------------------------------------------------
  // Comma-separated id lists

  /** `ids.map { it.toString() }`. */
  function IntStrings(ids: seq<int>): (r: seq<string>)
    ensures |r| == |ids|
    ensures forall i | 0 <= i < |ids| :: r[i] == IntToString(ids[i])
  {
    seq(|ids|, i requires 0 <= i < |ids| => IntToString(ids[i]))
  }

  /** `ids.joinToString(",")`. */
  function JoinInts(ids: seq<int>): string {
    Join(IntStrings(ids), ',')
  }

  /** `mapNotNull { it.toIntOrNull() }`: keep the pieces that are `Int`s, in order. */
  function MapToIntOrNull(pieces: seq<string>): (ids: seq<int>)
    ensures |ids| <= |pieces|
    ensures forall i | 0 <= i < |ids| :: IsInt32(ids[i])
  {
    if pieces == [] then []
    else
      var rest := MapToIntOrNull(pieces[1..]);
      match ToIntOrNull(pieces[0])
      case Some(n) => [n] + rest
      case None => rest
  }

  /** `map { it.trim() }`. */
  function TrimAll(pieces: seq<string>): (r: seq<string>)
    ensures |r| == |pieces|
    ensures forall i | 0 <= i < |pieces| :: r[i] == Trim(pieces[i])
  {
    seq(|pieces|, i requires 0 <= i < |pieces| => Trim(pieces[i]))
  }

  /** A joined id list splits back into its printed ids. */
  lemma SplitJoinInts(ids: seq<int>)
    requires |ids| > 0
    ensures Split(JoinInts(ids), ',') == IntStrings(ids)
  {
    forall i | 0 <= i < |ids| ensures ',' !in IntStrings(ids)[i] {
      var s := IntToString(ids[i]);
      assert forall k | 0 <= k < |s| :: s[k] != ',';
    }
    SplitJoin(IntStrings(ids), ',');
  }

  /** Printed `Int`s all parse back, in order. */
  lemma {:induction false} MapToIntOrNullOfIntStrings(ids: seq<int>)
    requires forall i | 0 <= i < |ids| :: IsInt32(ids[i])
    ensures MapToIntOrNull(IntStrings(ids)) == ids
  {
    if ids != [] {
      assert IntStrings(ids)[1..] == IntStrings(ids[1..]);
      MapToIntOrNullOfIntStrings(ids[1..]);
      IntToStringRoundTrip(ids[0]);
    }
  }

  /** Printed `Int`s are unchanged by trimming. */
  lemma TrimAllOfIntStrings(ids: seq<int>)
    ensures TrimAll(IntStrings(ids)) == IntStrings(ids)
  {
    forall i | 0 <= i < |ids| ensures Trim(IntToString(ids[i])) == IntToString(ids[i]) {
      TrimIntToString(ids[i]);
    }
  }

  /** The empty id text: `"".split(",")` is `[""]`, which holds no id. */
  lemma EmptyIdText()
    ensures Split("", ',') == [""]
    ensures MapToIntOrNull([""]) == []
    ensures JoinInts([]) == ""
  {
    assert ToIntOrNull("") == None;
  }
}
