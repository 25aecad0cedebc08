/**
 * String operations the sources rely on, over `seq<char>`: ASCII case folding for
 * `new RegExp(v, 'i')`, `String.prototype.trim` and `Number.parseInt`.
 */
module Text {
  import opened Wrappers

  function LowerChar(c: char): char {
    if 'A' <= c <= 'Z' then (c as int + 32) as char else c
  }

  /** ASCII lower-casing, character by character. */
  function ToLower(s: string): (r: string)
    ensures |r| == |s|
    ensures forall i :: 0 <= i < |s| ==> r[i] == LowerChar(s[i])
  {
    seq(|s|, i requires 0 <= i < |s| => LowerChar(s[i]))
  }

  /** Lower-casing twice is lower-casing once. */
  lemma ToLowerIdempotent(s: string)
    ensures ToLower(ToLower(s)) == ToLower(s)
  {
  }

  /** `p` occurs in `s` at some position. */
  ghost predicate OccursAt(p: string, s: string, i: int) {
    0 <= i && i + |p| <= |s| && s[i..i + |p|] == p
  }

  predicate Contains(s: string, p: string)
    decreases |s|
  {
    if |p| > |s| then false
    else if s[..|p|] == p then true
    else Contains(s[1..], p)
  }

  /** `Contains` is substring search: it holds exactly when `p` occurs somewhere in `s`. */
  lemma {:induction false} ContainsMeaning(s: string, p: string)
    ensures Contains(s, p) <==> exists i :: OccursAt(p, s, i)
    decreases |s|
  {
    if |p| > |s| {
    } else if s[..|p|] == p {
      assert OccursAt(p, s, 0);
    } else {
      ContainsMeaning(s[1..], p);
      if exists i :: OccursAt(p, s[1..], i) {
        var i :| OccursAt(p, s[1..], i);
        assert s[i + 1..i + 1 + |p|] == s[1..][i..i + |p|];
        assert OccursAt(p, s, i + 1);
      }
      if exists i :: OccursAt(p, s, i) {
        var i :| OccursAt(p, s, i);
        assert i != 0;
        assert s[1..][i - 1..i - 1 + |p|] == s[i..i + |p|];
        assert OccursAt(p, s[1..], i - 1);
      }
    }
  }

  /** `new RegExp(pattern, 'i').test(field)` for a pattern without metacharacters:
      the pattern occurs in the field when both are case-folded. */
  predicate MatchesIgnoringCase(field: string, pattern: string) {
    Contains(ToLower(field), ToLower(pattern))
  }

  /** The empty pattern matches every field, as `new RegExp('', 'i')` does. */
  lemma EmptyPatternMatchesAll(field: string)
    ensures MatchesIgnoringCase(field, "")
  {
    ContainsMeaning(ToLower(field), "");
    assert OccursAt("", ToLower(field), 0);
  }

  /** Matching ignores the case of the field's letters. */
  lemma MatchIgnoresFieldCase(field: string, pattern: string)
    ensures MatchesIgnoringCase(ToLower(field), pattern) == MatchesIgnoringCase(field, pattern)
  {
    ToLowerIdempotent(field);
  }

  /** The white space `trim` and `parseInt` skip: the WhiteSpace and LineTerminator
      characters of ECMAScript (tab, line feed, vertical tab, form feed, carriage return,
      space, no-break space, the byte order mark, the Unicode space separators, and the
      line and paragraph separators). */
  const Spaces: set<char> := {
    '\t', '\n', '\U{000B}', '\U{000C}', '\r', ' ', '\U{00A0}', '\U{1680}',
    '\U{2000}', '\U{2001}', '\U{2002}', '\U{2003}', '\U{2004}', '\U{2005}', '\U{2006}',
    '\U{2007}', '\U{2008}', '\U{2009}', '\U{200A}',
    '\U{2028}', '\U{2029}', '\U{202F}', '\U{205F}', '\U{3000}', '\U{FEFF}'
  }

  predicate IsSpace(c: char) {
    c in Spaces
  }

  /** `trimStart`: exactly the leading white space is dropped. */
  function TrimStart(s: string): (r: string)
    ensures |r| <= |s|
    ensures r == [] || !IsSpace(r[0])
    ensures r == s[|s| - |r|..]
    ensures forall j :: 0 <= j < |s| - |r| ==> IsSpace(s[j])
  {
    if s != [] && IsSpace(s[0]) then TrimStart(s[1..]) else s
  }

  /** `trimEnd`: exactly the trailing white space is dropped. */
  function TrimEnd(s: string): (r: string)
    ensures |r| <= |s|
    ensures r == [] || !IsSpace(r[|r| - 1])
    ensures r == s[..|r|]
    ensures forall j :: |r| <= j < |s| ==> IsSpace(s[j])
  {
    if s != [] && IsSpace(s[|s| - 1]) then TrimEnd(s[..|s| - 1]) else s
  }

  /** `r` is `s` with white space, and only white space, removed from both ends: it sits at
      position `i` of `s`, everything before it and everything after it is white space. */
  ghost predicate StripsTo(s: string, i: int, r: string) {
    OccursAt(r, s, i)
    && (forall j :: 0 <= j < i ==> IsSpace(s[j]))
    && (forall j :: i + |r| <= j < |s| ==> IsSpace(s[j]))
  }

  /** Neither end of `s` is white space. */
  predicate NoOuterSpace(s: string) {
    s == [] || (!IsSpace(s[0]) && !IsSpace(s[|s| - 1]))
  }

  /** `String.prototype.trim`: the result is the input with white space, and only white
      space, removed from both ends, and no white space remains at either end. */
  function Trim(s: string): (r: string)
    ensures NoOuterSpace(r)
    ensures exists i :: StripsTo(s, i, r)
  {
    var t := TrimStart(s);
    StripsBetween(s, t, TrimEnd(t));
    TrimEnd(t)
  }

  /** Dropping leading white space from `s` and then trailing white space from what is left
      strips `s`. */
  lemma StripsBetween(s: string, t: string, r: string)
    requires |t| <= |s| && t == s[|s| - |t|..] && forall j :: 0 <= j < |s| - |t| ==> IsSpace(s[j])
    requires |r| <= |t| && r == t[..|r|] && forall j :: |r| <= j < |t| ==> IsSpace(t[j])
    ensures StripsTo(s, |s| - |t|, r)
  {
    var i := |s| - |t|;
    PrefixOfSuffix(s, i, |r|);
    forall j | i + |r| <= j < |s|
      ensures IsSpace(s[j])
    {
      assert s[j] == t[j - i];
    }
  }

  lemma PrefixOfSuffix(s: string, i: nat, n: nat)
    requires i + n <= |s|
    ensures s[i..][..n] == s[i..i + n]
  {
  }

  /** `trim` leaves a string unchanged exactly when neither end of it is white space. */
  lemma TrimFixesUnspaced(s: string)
    ensures Trim(s) == s <==> NoOuterSpace(s)
  {
  }

  /** Trimming a trimmed string changes nothing. */
  lemma TrimIdempotent(s: string)
    ensures Trim(Trim(s)) == Trim(s)
  {
  }

  predicate IsDigit(c: char) { '0' <= c <= '9' }

  function DigitOf(c: char): int {
    c as int - '0' as int
  }

  /** The number a string of decimal digits denotes: the last digit counts ones, the digits
      before it count tens. */
  function DigitsValue(d: string): int {
    if d == [] then 0 else DigitsValue(d[..|d| - 1]) * 10 + DigitOf(d[|d| - 1])
  }

  /** The value of the leading decimal digits of `s` and how many there are. */
  function Digits(s: string, acc: int): (r: (int, nat))
    ensures r.1 <= |s|
    ensures forall i :: 0 <= i < r.1 ==> IsDigit(s[i])
    ensures r.1 < |s| ==> !IsDigit(s[r.1])
  {
    if s != [] && IsDigit(s[0]) then
      var d := Digits(s[1..], acc * 10 + DigitOf(s[0]));
      (d.0, d.1 + 1)
    else (acc, 0)
  }

  /** Reading the digits `d` up to the first non-digit, after the digits `p` were read, yields
      the value of `p + d`. */
  lemma {:induction false} DigitsReadsValue(p: string, d: string, rest: string)
    requires forall j :: 0 <= j < |d| ==> IsDigit(d[j])
    requires rest == [] || !IsDigit(rest[0])
    ensures Digits(d + rest, DigitsValue(p)) == (DigitsValue(p + d), |d|)
    decreases |d|
  {
    if d == [] {
      assert d + rest == rest;
      assert p + d == p;
    } else {
      var q := p + [d[0]];
      assert q[..|q| - 1] == p;
      assert DigitsValue(q) == DigitsValue(p) * 10 + DigitOf(d[0]);
      assert (d + rest)[1..] == d[1..] + rest;
      assert q + d[1..] == p + d;
      DigitsReadsValue(q, d[1..], rest);
    }
  }

  /** What `parseInt` reads once the white space is skipped: an optional sign and the longest
      run of decimal digits after it; `None` when there is no digit. */
  function ReadSigned(t: string): (r: Option<int>)
    ensures r.Some? ==> exists i :: 0 <= i < |t| && IsDigit(t[i])
  {
    var negative := t != [] && t[0] == '-';
    var body := if t != [] && (t[0] == '-' || t[0] == '+') then t[1..] else t;
    var d := Digits(body, 0);
    if d.1 == 0 then None
    else
      assert body[0] == t[|t| - |body|];
      Some(if negative then -d.0 else d.0)
  }

  /** `Number.parseInt(s)` in base ten: skip leading white space, then read an optional sign
      and the longest run of decimal digits; `None` stands for `NaN` (no digit). */
  function ParseInt(s: string): (r: Option<int>)
    ensures r.Some? ==> exists i :: 0 <= i < |s| && IsDigit(s[i])
  {
    var t := TrimStart(s);
    assert forall i :: 0 <= i < |t| ==> t[i] == s[|s| - |t| + i];
    ReadSigned(t)
  }

  /** The leading digits of `d + rest`, when `rest` does not continue them, are `d`. */
  lemma LeadingDigits(d: string, rest: string)
    requires forall j :: 0 <= j < |d| ==> IsDigit(d[j])
    requires rest == [] || !IsDigit(rest[0])
    ensures Digits(d + rest, 0) == (DigitsValue(d), |d|)
  {
    DigitsReadsValue([], d, rest);
    assert [] + d == d;
  }

  /** `ReadSigned` on a string whose sign takes `k` characters and whose digits after the sign
      read as `d`. */
  lemma ReadSignedOf(x: string, k: nat, negative: bool, d: string)
    requires k <= 1 && k <= |x|
    requires k == 1 <==> x != [] && (x[0] == '-' || x[0] == '+')
    requires negative <==> k == 1 && x[0] == '-'
    requires Digits(x[k..], 0) == (DigitsValue(d), |d|)
    ensures d == [] ==> ReadSigned(x) == None
    ensures d != [] ==> ReadSigned(x) == Some(if negative then -DigitsValue(d) else DigitsValue(d))
  {
  }

  /** The sign and the digits after it, and `NaN` exactly when no digit follows the sign. */
  lemma ReadSignedMeaning(sign: string, d: string, rest: string)
    requires sign == "" || sign == "-" || sign == "+"
    requires forall j :: 0 <= j < |d| ==> IsDigit(d[j])
    requires rest == [] || !IsDigit(rest[0])
    requires sign == "" && d == [] && rest != [] ==> rest[0] != '-' && rest[0] != '+'
    ensures ReadSigned(sign + d + rest) == if d == [] then None else Some(if sign == "-" then -DigitsValue(d) else DigitsValue(d))
  {
    var x := sign + d + rest;
    LeadingDigits(d, rest);
    SignSplit(sign, d, rest);
    ReadSignedOf(x, |sign|, sign == "-", d);
  }

  lemma SignSplit(sign: string, d: string, rest: string)
    requires |sign| <= 1
    ensures (sign + d + rest)[|sign|..] == d + rest
    ensures sign != [] ==> (sign + d + rest)[0] == sign[0]
    ensures sign == [] ==> sign + d + rest == d + rest
  {
  }

  /** Dropping leading white space from `ws + x` leaves `x` when `x` does not itself start with
      white space. */
  lemma TrimStartSkips(ws: string, x: string)
    requires forall j :: 0 <= j < |ws| ==> IsSpace(ws[j])
    requires x == [] || !IsSpace(x[0])
    ensures TrimStart(ws + x) == x
  {
    var s := ws + x;
    assert forall k :: 0 <= k < |ws| ==> s[k] == ws[k];
    assert x != [] ==> s[|ws|] == x[0];
  }

  /** `parseInt` reads past the leading white space `ws` when what follows is no more of it. */
  lemma ParseIntSkipsSpace(ws: string, x: string, s: string)
    requires forall j :: 0 <= j < |ws| ==> IsSpace(ws[j])
    requires x == [] || !IsSpace(x[0])
    requires s == ws + x
    ensures ParseInt(s) == ReadSigned(x)
  {
    TrimStartSkips(ws, x);
  }

  /** What `parseInt` reads from a string made of white space `ws`, a sign (`-`, `+` or none),
      the digits `d` and a `rest` that does not continue them: the value of `d`, negated after
      `-`, and `NaN` exactly when there is no digit. */
  lemma ParseIntMeaning(ws: string, sign: string, d: string, rest: string)
    requires forall j :: 0 <= j < |ws| ==> IsSpace(ws[j])
    requires sign == "" || sign == "-" || sign == "+"
    requires forall j :: 0 <= j < |d| ==> IsDigit(d[j])
    requires rest == [] || !IsDigit(rest[0])
    requires sign == "" && d == [] && rest != [] ==> !IsSpace(rest[0]) && rest[0] != '-' && rest[0] != '+'
    ensures ParseInt(ws + sign + d + rest) == if d == [] then None else Some(if sign == "-" then -DigitsValue(d) else DigitsValue(d))
  {
    var x := sign + d + rest;
    NoSpaceAfterSign(sign, d, rest);
    AppendAssociates(ws, sign, d, rest);
    ParseIntSkipsSpace(ws, x, ws + sign + d + rest);
    ReadSignedMeaning(sign, d, rest);
  }

  lemma AppendAssociates(a: string, b: string, c: string, d: string)
    ensures a + b + c + d == a + (b + c + d)
  {
  }

  /** A sign, a digit, or what the caller promises is no white space. */
  lemma NoSpaceAfterSign(sign: string, d: string, rest: string)
    requires sign == "" || sign == "-" || sign == "+"
    requires forall j :: 0 <= j < |d| ==> IsDigit(d[j])
    requires sign == "" && d == [] && rest != [] ==> !IsSpace(rest[0])
    ensures sign + d + rest == [] || !IsSpace((sign + d + rest)[0])
  {
  }
}
