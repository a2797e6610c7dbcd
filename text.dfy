/**
 * String helpers with the behaviour of the JavaScript built-ins the source
 * uses: Array.prototype.join, String.prototype.split with a one-character
 * separator, String.prototype.trim, ASCII case mapping, decimal rendering
 * of integers and parseInt(s, 10).
 */
module Text {
  import opened Wrappers

  // ---------------------------------------------------------------------
  // Join and containment

  /** `parts` with `sep` between consecutive elements (Array.prototype.join). */
  function Join(parts: seq<string>, sep: string): string
    decreases |parts|
  {
    if |parts| == 0 then ""
    else if |parts| == 1 then parts[0]
    else parts[0] + sep + Join(parts[1..], sep)
  }

  /** `t` occurs in `s` starting at index `i`. */
  predicate IsAt(s: string, t: string, i: int) {
    0 <= i && i + |t| <= |s| && s[i..i + |t|] == t
  }

  /** `t` is a substring of `s` (String.prototype.includes). */
  ghost predicate Contains(s: string, t: string) {
    exists i :: IsAt(s, t, i)
  }

  predicate StartsWith(s: string, t: string) {
    |t| <= |s| && s[..|t|] == t
  }

  predicate EndsWith(s: string, t: string) {
    |t| <= |s| && s[|s| - |t|..] == t
  }

  lemma ContainsSelf(t: string)
    ensures Contains(t, t)
  {
    assert t[0..|t|] == t;
    assert IsAt(t, t, 0);
  }

  /** Text contained in `s` is contained in any string that has `s` inside it. */
  lemma ContainsExtend(a: string, s: string, b: string, t: string)
    requires Contains(s, t)
    ensures Contains(a + s + b, t)
  {
    var i :| IsAt(s, t, i);
    var w := a + s + b;
    assert w[|a| + i..|a| + i + |t|] == s[i..i + |t|];
    assert IsAt(w, t, |a| + i);
  }

  lemma ContainsWithin(a: string, t: string, b: string)
    ensures Contains(a + t + b, t)
  {
    ContainsSelf(t);
    ContainsExtend(a, t, b, t);
  }

  /** Containment survives appending on the right. */
  lemma ContainsLeft(s: string, b: string, t: string)
    requires Contains(s, t)
    ensures Contains(s + b, t)
  {
    ContainsExtend("", s, b, t);
    assert "" + s + b == s + b;
  }

  /** Containment survives prepending on the left. */
  lemma ContainsRight(a: string, s: string, t: string)
    requires Contains(s, t)
    ensures Contains(a + s, t)
  {
    ContainsExtend(a, s, "", t);
    assert a + s + "" == a + s;
  }

  lemma ContainsTransitive(s: string, t: string, u: string)
    requires Contains(s, t) && Contains(t, u)
    ensures Contains(s, u)
  {
    var i :| IsAt(s, t, i);
    var j :| IsAt(t, u, j);
    assert t == s[i..i + |t|];
    var x, y := s[i + j..i + j + |u|], t[j..j + |u|];
    forall k | 0 <= k < |u| ensures x[k] == y[k] {
      assert y[k] == t[j + k] == s[i + j + k];
    }
    assert x == y;
    assert IsAt(s, u, i + j);
  }

  /** Every element of a joined list occurs in the joined string. */
  lemma {:induction false} JoinContainsPart(parts: seq<string>, sep: string, k: nat)
    requires k < |parts|
    ensures Contains(Join(parts, sep), parts[k])
    decreases |parts|
  {
    if |parts| == 1 {
      assert Join(parts, sep) == "" + parts[0] + "";
      ContainsWithin("", parts[0], "");
    } else if k == 0 {
      assert Join(parts, sep) == "" + parts[0] + (sep + Join(parts[1..], sep));
      ContainsWithin("", parts[0], sep + Join(parts[1..], sep));
    } else {
      JoinContainsPart(parts[1..], sep, k - 1);
      assert Join(parts, sep) == parts[0] + sep + Join(parts[1..], sep) + "";
      ContainsExtend(parts[0] + sep, Join(parts[1..], sep), "", parts[k]);
    }
  }

  /** Two consecutive elements of a joined list occur in the joined string with the separator
      between them. */
  lemma {:induction false} JoinContainsPair(parts: seq<string>, sep: string, k: nat)
    requires k + 1 < |parts|
    ensures Contains(Join(parts, sep), parts[k] + sep + parts[k + 1])
    decreases |parts|
  {
    if k == 0 {
      var rest := if |parts| == 2 then "" else sep + Join(parts[2..], sep);
      assert parts[1..][1..] == parts[2..];
      assert Join(parts[1..], sep) == parts[1] + rest;
      assert Join(parts, sep) == "" + (parts[0] + sep + parts[1]) + rest;
      ContainsWithin("", parts[0] + sep + parts[1], rest);
    } else {
      JoinContainsPair(parts[1..], sep, k - 1);
      assert Join(parts, sep) == parts[0] + sep + Join(parts[1..], sep) + "";
      ContainsExtend(parts[0] + sep, Join(parts[1..], sep), "", parts[k] + sep + parts[k + 1]);
    }
  }

  /** A string that contains part `k` of a joined list contains nothing less than it. */
  lemma JoinContains(parts: seq<string>, sep: string, k: nat, t: string)
    requires k < |parts| && Contains(parts[k], t)
    ensures Contains(Join(parts, sep), t)
  {
    JoinContainsPart(parts, sep, k);
    ContainsTransitive(Join(parts, sep), parts[k], t);
  }

  /** A joined non-empty list ends with its last element, after a separator when there are several. */
  lemma {:induction false} JoinLast(parts: seq<string>, sep: string)
    requires |parts| >= 2
    ensures Join(parts, sep) == Join(parts[..|parts| - 1], sep) + sep + parts[|parts| - 1]
    decreases |parts|
  {
    if |parts| > 2 {
      JoinLast(parts[1..], sep);
      assert parts[1..][..|parts| - 2] == parts[..|parts| - 1][1..];
    }
  }

  /** A joined list of two or more elements ends with a separator and its last element. */
  lemma JoinEndsWith(parts: seq<string>, sep: string)
    requires |parts| >= 2
    ensures EndsWith(Join(parts, sep), sep + parts[|parts| - 1])
  {
    JoinLast(parts, sep);
    var front := Join(parts[..|parts| - 1], sep);
    var tail := sep + parts[|parts| - 1];
    assert front + sep + parts[|parts| - 1] == front + tail;
    assert (front + tail)[|front|..] == tail;
  }

  /** The empty string is what joining yields exactly when every element is empty and no separator shows. */
  lemma {:induction false} JoinEmpty(parts: seq<string>, sep: string)
    requires |sep| > 0
    ensures Join(parts, sep) == "" <==> (|parts| == 0 || (|parts| == 1 && parts[0] == ""))
    decreases |parts|
  {
    if |parts| >= 2 {
      assert |Join(parts, sep)| >= |sep|;
    }
  }

  // ---------------------------------------------------------------------
  // Split on a one-character separator

  /** String.prototype.split(c): the pieces between occurrences of `c`. */
  function Split(s: string, c: char): (r: seq<string>)
    ensures |r| >= 1
    ensures forall i :: 0 <= i < |r| ==> c !in r[i]
    decreases |s|
  {
    if |s| == 0 then [""]
    else
      var rest := Split(s[1..], c);
      if s[0] == c then
        assert ([""] + rest)[1..] == rest;
        [""] + rest
      else
        var r := [[s[0]] + rest[0]] + rest[1..];
        assert r[1..] == rest[1..];
        r
  }

  /** Joining the pieces with the separator gives back the string. */
  lemma {:induction false} SplitJoinsBack(s: string, c: char)
    ensures Join(Split(s, c), [c]) == s
    decreases |s|
  {
    if |s| > 0 {
      SplitJoinsBack(s[1..], c);
      var rest := Split(s[1..], c);
      if s[0] == c {
        assert ([""] + rest)[1..] == rest;
      } else {
        var r := [[s[0]] + rest[0]] + rest[1..];
        assert r[1..] == rest[1..];
        assert |rest| >= 2 ==> Join(rest, [c]) == rest[0] + [c] + Join(rest[1..], [c]);
        assert [s[0]] + s[1..] == s;
      }
    }
  }

  /** A piece without the separator splits into itself. */
  lemma {:induction false} SplitWhole(p: string, c: char)
    requires c !in p
    ensures Split(p, c) == [p]
    decreases |p|
  {
    if |p| > 0 {
      SplitWhole(p[1..], c);
      assert [p[0]] + p[1..] == p;
    }
  }

  /** A separator-free piece followed by the separator splits off as the first piece. */
  lemma {:induction false} SplitPiece(p: string, c: char, tail: string)
    requires c !in p
    ensures Split(p + [c] + tail, c) == [p] + Split(tail, c)
    decreases |p|
  {
    if |p| > 0 {
      SplitPiece(p[1..], c, tail);
      assert (p + [c] + tail)[1..] == p[1..] + [c] + tail;
      assert [p[0]] + p[1..] == p;
    } else {
      assert ([c] + tail)[1..] == tail;
    }
  }

  /** Splitting undoes joining, when no piece contains the separator. */
  lemma {:induction false} SplitJoin(parts: seq<string>, c: char)
    requires |parts| >= 1
    requires forall i :: 0 <= i < |parts| ==> c !in parts[i]
    ensures Split(Join(parts, [c]), c) == parts
    decreases |parts|
  {
    if |parts| == 1 {
      SplitWhole(parts[0], c);
    } else {
      SplitJoin(parts[1..], c);
      SplitPiece(parts[0], c, Join(parts[1..], [c]));
      assert [parts[0]] + parts[1..] == parts;
    }
  }

  /** Appending a separator and a separator-free piece appends that piece to the split. */
  lemma {:induction false} SplitAppend(s: string, c: char, t: string)
    requires c !in t
    ensures Split(s + [c] + t, c) == Split(s, c) + [t]
  {
    var ps := Split(s, c);
    SplitJoinsBack(s, c);
    var qs := ps + [t];
    assert qs[..|qs| - 1] == ps;
    JoinLast(qs, [c]);
    SplitJoin(qs, c);
  }

  // ---------------------------------------------------------------------
  // Trimming

  /** The characters String.prototype.trim removes: WhiteSpace and LineTerminator of ECMAScript. */
  predicate IsWhitespace(ch: char) {
    ch == '\t' || ch == '\n' || ch == '\U{B}' || ch == '\U{C}' || ch == '\r' || ch == ' '
    || ch == '\U{A0}' || ch == '\U{1680}' || ('\U{2000}' <= ch <= '\U{200A}')
    || ch == '\U{2028}' || ch == '\U{2029}' || ch == '\U{202F}' || ch == '\U{205F}'
    || ch == '\U{3000}' || ch == '\U{FEFF}'
  }

  /** Neither end of `s` is whitespace. */
  predicate IsTrimmed(s: string) {
    |s| == 0 || (!IsWhitespace(s[0]) && !IsWhitespace(s[|s| - 1]))
  }

  /** `s` without its leading whitespace. */
  function TrimStart(s: string): (r: string)
    ensures |r| <= |s| && r == s[|s| - |r|..]
    ensures forall i :: 0 <= i < |s| - |r| ==> IsWhitespace(s[i])
    ensures |r| == 0 || !IsWhitespace(r[0])
    decreases |s|
  {
    if |s| > 0 && IsWhitespace(s[0]) then TrimStart(s[1..]) else s
  }

  /** `s` without its trailing whitespace. */
  function TrimEnd(s: string): (r: string)
    ensures |r| <= |s| && r == s[..|r|]
    ensures forall i :: |r| <= i < |s| ==> IsWhitespace(s[i])
    ensures |r| == 0 || !IsWhitespace(r[|r| - 1])
    decreases |s|
  {
    if |s| > 0 && IsWhitespace(s[|s| - 1]) then TrimEnd(s[..|s| - 1]) else s
  }

  /** String.prototype.trim. */
  function Trim(s: string): (r: string)
    ensures IsTrimmed(r)
  {
    var t := TrimStart(s);
    var r := TrimEnd(t);
    assert |r| > 0 ==> r[0] == t[0];
    r
  }

  /** Trimming leaves a string whose ends are not whitespace unchanged. */
  lemma TrimIdentity(s: string)
    requires IsTrimmed(s)
    ensures Trim(s) == s
  {
    assert TrimStart(s) == s;
  }

  /** Trimming removes leading whitespace placed before an already trimmed string. */
  lemma {:induction false} TrimLeading(w: string, s: string)
    requires forall i :: 0 <= i < |w| ==> IsWhitespace(w[i])
    requires IsTrimmed(s)
    ensures Trim(w + s) == s
    decreases |w|
  {
    if |w| == 0 {
      assert w + s == s;
      TrimIdentity(s);
    } else {
      assert (w + s)[1..] == w[1..] + s;
      TrimLeading(w[1..], s);
    }
  }

  // ---------------------------------------------------------------------
  // Pieces of a comma list

  /** The trimmed, non-empty pieces of `s` split on `c`, in order
      (`split(c).map(trim).filter(Boolean)`). */
  function TrimmedTokens(s: string, c: char): seq<string> {
    NonEmpty(TrimAll(Split(s, c)))
  }

  function TrimAll(xs: seq<string>): (r: seq<string>)
    ensures |r| == |xs|
    ensures forall i :: 0 <= i < |xs| ==> r[i] == Trim(xs[i])
  {
    seq(|xs|, i requires 0 <= i < |xs| => Trim(xs[i]))
  }

  /** The non-empty elements of `xs`, in order. */
  function NonEmpty(xs: seq<string>): (r: seq<string>)
    ensures |r| <= |xs|
    ensures forall i :: 0 <= i < |r| ==> r[i] != "" && r[i] in xs
    ensures forall i :: 0 <= i < |xs| && xs[i] != "" ==> xs[i] in r
    decreases |xs|
  {
    if |xs| == 0 then []
    else if xs[0] == "" then NonEmpty(xs[1..])
    else [xs[0]] + NonEmpty(xs[1..])
  }

  /** Trimming only removes characters. */
  lemma TrimKeeps(p: string, c: char)
    requires c !in p
    ensures c !in Trim(p)
  {
    var t := TrimStart(p);
    forall k | 0 <= k < |t| ensures t[k] != c {
      assert t[k] == p[|p| - |t| + k];
    }
    var r := TrimEnd(t);
    forall k | 0 <= k < |r| ensures r[k] != c {
      assert r[k] == t[k];
    }
  }

  /** Every token is non-empty, trimmed and free of the separator. */
  lemma TokensWellFormed(s: string, c: char)
    ensures forall t :: t in TrimmedTokens(s, c) ==> t != "" && IsTrimmed(t) && c !in t
  {
    var pieces := Split(s, c);
    var trimmed := TrimAll(pieces);
    var tokens := NonEmpty(trimmed);
    forall t | t in tokens ensures t != "" && IsTrimmed(t) && c !in t {
      var i :| 0 <= i < |tokens| && tokens[i] == t;
      var j :| 0 <= j < |trimmed| && trimmed[j] == t;
      TrimKeeps(pieces[j], c);
    }
  }

  /** A list of non-empty trimmed separator-free tokens survives joining and re-tokenising. */
  lemma TokensRoundTrip(ks: seq<string>, c: char)
    requires |ks| >= 1
    requires forall i :: 0 <= i < |ks| ==> ks[i] != "" && IsTrimmed(ks[i]) && c !in ks[i]
    ensures TrimmedTokens(Join(ks, [c]), c) == ks
  {
    SplitJoin(ks, c);
    forall i | 0 <= i < |ks| ensures Trim(ks[i]) == ks[i] {
      TrimIdentity(ks[i]);
    }
    assert TrimAll(ks) == ks;
    NonEmptyIdentity(ks);
  }

  lemma {:induction false} NonEmptyIdentity(xs: seq<string>)
    requires forall i :: 0 <= i < |xs| ==> xs[i] != ""
    ensures NonEmpty(xs) == xs
    decreases |xs|
  {
    if |xs| > 0 {
      NonEmptyIdentity(xs[1..]);
      assert [xs[0]] + xs[1..] == xs;
    }
  }

  // ---------------------------------------------------------------------
  // ASCII case mapping (the only letters the source ever maps are ASCII)

  function UpperChar(ch: char): char {
    if 'a' <= ch <= 'z' then (ch as int - 32) as char else ch
  }

  function LowerChar(ch: char): char {
    if 'A' <= ch <= 'Z' then (ch as int + 32) as char else ch
  }

  function ToUpper(s: string): (r: string)
    ensures |r| == |s| && forall i :: 0 <= i < |s| ==> r[i] == UpperChar(s[i])
  {
    seq(|s|, i requires 0 <= i < |s| => UpperChar(s[i]))
  }

  function ToLower(s: string): (r: string)
    ensures |r| == |s| && forall i :: 0 <= i < |s| ==> r[i] == LowerChar(s[i])
  {
    seq(|s|, i requires 0 <= i < |s| => LowerChar(s[i]))
  }

  // ---------------------------------------------------------------------
  // Decimal and hexadecimal digits

  predicate IsDigit(ch: char) {
    '0' <= ch <= '9'
  }

  predicate IsHexDigit(ch: char) {
    IsDigit(ch) || 'a' <= ch <= 'f' || 'A' <= ch <= 'F'
  }

  /** A hexadecimal digit in the form toUpperCase leaves it in. */
  predicate IsUpperHexDigit(ch: char) {
    IsDigit(ch) || 'A' <= ch <= 'F'
  }

  predicate AllDigits(s: string) {
    forall i :: 0 <= i < |s| ==> IsDigit(s[i])
  }

  function DigitChar(d: nat): (ch: char)
    requires d < 10
    ensures IsDigit(ch) && ch as int - '0' as int == d
  {
    ('0' as int + d) as char
  }

  function DigitValue(ch: char): nat
    requires IsDigit(ch)
  {
    ch as int - '0' as int
  }

  /** The value of a string of decimal digits, most significant first. */
  function DigitsValue(s: string): nat
    requires AllDigits(s)
    decreases |s|
  {
    if |s| == 0 then 0 else DigitsValue(s[..|s| - 1]) * 10 + DigitValue(s[|s| - 1])
  }

  /** Decimal rendering of a natural number, as Number.prototype.toString does for integers. */
  function NatToString(n: nat): (r: string)
    ensures |r| >= 1 && AllDigits(r)
    ensures r[0] == '0' ==> n == 0
    decreases n
  {
    if n < 10 then [DigitChar(n)] else NatToString(n / 10) + [DigitChar(n % 10)]
  }

  /** Decimal rendering of an integer, with a leading '-' when negative. */
  function IntToString(n: int): string {
    if n < 0 then "-" + NatToString(-n) else NatToString(n)
  }

  /** Reading the digits back gives the number that was rendered. */
  lemma {:induction false} NatToStringValue(n: nat)
    ensures DigitsValue(NatToString(n)) == n
    decreases n
  {
    if n >= 10 {
      NatToStringValue(n / 10);
      var s := NatToString(n);
      assert s[..|s| - 1] == NatToString(n / 10);
    }
  }

  /** Different numbers are rendered differently. */
  lemma IntToStringInjective(m: int, n: int)
    requires IntToString(m) == IntToString(n)
    ensures m == n
  {
    if m < 0 && n < 0 {
      assert NatToString(-m) == IntToString(m)[1..] == NatToString(-n);
      NatToStringValue(-m);
      NatToStringValue(-n);
    } else if m >= 0 && n >= 0 {
      NatToStringValue(m);
      NatToStringValue(n);
    } else {
      assert false;
    }
  }

  /** The longest prefix of `s` made of decimal digits. */
  function DigitPrefix(s: string): (r: string)
    ensures StartsWith(s, r) && AllDigits(r)
    ensures |r| < |s| ==> !IsDigit(s[|r|])
    decreases |s|
  {
    if |s| > 0 && IsDigit(s[0]) then [s[0]] + DigitPrefix(s[1..]) else ""
  }

  lemma {:induction false} DigitPrefixAll(s: string)
    requires AllDigits(s)
    ensures DigitPrefix(s) == s
    decreases |s|
  {
    if |s| > 0 {
      DigitPrefixAll(s[1..]);
    }
  }

  /** Number.parseInt(s, 10): leading whitespace, an optional sign, then the longest
      run of decimal digits; None where JavaScript gives NaN. */
  function ParseInt(s: string): (r: Option<int>)
    ensures r.None? <==> DigitPrefix(Unsigned(TrimStart(s))) == ""
  {
    var t := TrimStart(s);
    var digits := DigitPrefix(Unsigned(t));
    if digits == "" then None
    else if |t| > 0 && t[0] == '-' then Some(0 - DigitsValue(digits))
    else Some(DigitsValue(digits))
  }

  /** `t` without one leading sign character. */
  function Unsigned(t: string): string {
    if |t| > 0 && (t[0] == '-' || t[0] == '+') then t[1..] else t
  }

  /** parseInt reads back exactly the integer IntToString renders. */
  lemma ParseIntRendered(n: int)
    ensures ParseInt(IntToString(n)) == Some(n)
  {
    var s := IntToString(n);
    var m: nat := if n < 0 then -n else n;
    var digits := NatToString(m);
    assert !IsWhitespace(s[0]);
    assert TrimStart(s) == s;
    if n < 0 {
      assert s == "-" + digits;
      assert Unsigned(s) == digits;
    } else {
      assert s == digits;
      assert Unsigned(s) == digits;
    }
    DigitPrefixAll(digits);
    NatToStringValue(m);
  }
}
