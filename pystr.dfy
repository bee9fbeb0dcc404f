/**
 * The handful of Python `str` operations the core relies on: `lower`, `upper`,
 * `capitalize` (ASCII letters only), `strip` (Python's whitespace set),
 * `split()` on whitespace, `split(sep)` and `sep.join(...)`, the `in`
 * substring test, `startswith`, and `str()` of an integer.
 */
module PyStr {

  import opened Wrappers

  /** The characters for which Python's `str.isspace` holds. */
  predicate IsSpace(c: char) {
    ('\t' <= c <= '\r') || ('\U{1C}' <= c <= '\U{1F}') || c == ' ' || c == '\U{85}' || c == '\U{A0}'
    || c == '\U{1680}' || ('\U{2000}' <= c <= '\U{200A}') || c == '\U{2028}' || c == '\U{2029}'
    || c == '\U{202F}' || c == '\U{205F}' || c == '\U{3000}'
  }

  predicate AllSpace(s: string) {
    forall i :: 0 <= i < |s| ==> IsSpace(s[i])
  }

  function LowerChar(c: char): char {
    if 'A' <= c <= 'Z' then (c as int + 32) as char else c
  }

  function UpperChar(c: char): char {
    if 'a' <= c <= 'z' then (c as int - 32) as char else c
  }

  /** `s.lower()` on ASCII letters. */
  function Lower(s: string): (r: string)
    ensures |r| == |s|
    ensures forall i :: 0 <= i < |s| ==> r[i] == LowerChar(s[i])
  {
    seq(|s|, i requires 0 <= i < |s| => LowerChar(s[i]))
  }

  /** `s.upper()` on ASCII letters. */
  function Upper(s: string): (r: string)
    ensures |r| == |s|
    ensures forall i :: 0 <= i < |s| ==> r[i] == UpperChar(s[i])
  {
    seq(|s|, i requires 0 <= i < |s| => UpperChar(s[i]))
  }

  /** `s.capitalize()`: first character upper-cased, every other one lower-cased. */
  function Capitalize(s: string): (r: string)
    ensures |r| == |s|
  {
    if s == [] then [] else [UpperChar(s[0])] + Lower(s[1..])
  }

  /** Lower-casing twice is lower-casing once. */
  lemma LowerIdempotent(s: string)
    ensures Lower(Lower(s)) == Lower(s)
  {
  }

  /** `s.replace(a, b)` for single characters. */
  function ReplaceChar(s: string, a: char, b: char): (r: string)
    ensures |r| == |s|
    ensures forall i :: 0 <= i < |s| ==> r[i] == (if s[i] == a then b else s[i])
  {
    seq(|s|, i requires 0 <= i < |s| => if s[i] == a then b else s[i])
  }

  lemma AllSpaceCons(c: char, t: string)
    requires IsSpace(c) && AllSpace(t)
    ensures AllSpace([c] + t)
  {
    forall i | 0 <= i < |t| + 1 ensures IsSpace(([c] + t)[i]) {
      if i > 0 {
        assert ([c] + t)[i] == t[i - 1];
      }
    }
  }

  lemma LStripCons(s: string, r: string)
    requires s != [] && IsSpace(s[0])
    requires |r| <= |s| - 1 && r == s[1..][|s| - 1 - |r|..] && AllSpace(s[1..][..|s| - 1 - |r|])
    ensures r == s[|s| - |r|..] && AllSpace(s[..|s| - |r|])
  {
    var t := s[1..];
    assert t[|t| - |r|..] == s[|s| - |r|..];
    assert s[..|s| - |r|] == [s[0]] + t[..|t| - |r|];
    AllSpaceCons(s[0], t[..|t| - |r|]);
  }

  /** `s.lstrip()`: `s` with its leading whitespace dropped. */
  function LStrip(s: string): string {
    if s != [] && IsSpace(s[0]) then LStrip(s[1..]) else s
  }

  /** What `lstrip` keeps is a suffix that starts with a non-space, and what
      it drops is whitespace. */
  lemma {:induction false} LStripShape(s: string)
    ensures var r := LStrip(s);
      |r| <= |s| && r == s[|s| - |r|..] && (r == [] || !IsSpace(r[0])) && AllSpace(s[..|s| - |r|])
  {
    if s != [] && IsSpace(s[0]) {
      LStripShape(s[1..]);
      LStripCons(s, LStrip(s[1..]));
    }
  }

  /** `s.rstrip()`: `s` with its trailing whitespace dropped. */
  function RStrip(s: string): string {
    if s != [] && IsSpace(s[|s| - 1]) then RStrip(s[..|s| - 1]) else s
  }

  /** What `rstrip` keeps is a prefix that ends with a non-space, and what it
      drops is whitespace. */
  lemma {:induction false} RStripShape(s: string)
    ensures var r := RStrip(s);
      |r| <= |s| && r == s[..|r|] && (r == [] || !IsSpace(r[|r| - 1])) && AllSpace(s[|r|..])
  {
    if s != [] && IsSpace(s[|s| - 1]) {
      RStripShape(s[..|s| - 1]);
      var r := RStrip(s[..|s| - 1]);
      assert s[..|s| - 1][|r|..] + [s[|s| - 1]] == s[|r|..];
    }
  }

  /** `s.strip()`. */
  function Strip(s: string): (r: string)
  {
    RStrip(LStrip(s))
  }

  /** `s.strip() == ""` exactly when `s` is empty or all whitespace. */
  lemma StripEmptyIffAllSpace(s: string)
    ensures Strip(s) == [] <==> AllSpace(s)
  {
    if AllSpace(s) {
      AllSpaceStrips(s);
    } else {
      NonSpaceSurvives(s);
    }
  }

  lemma AllSpaceStrips(s: string)
    requires AllSpace(s)
    ensures Strip(s) == []
  {
    LStripShape(s);
  }

  lemma NonSpaceSurvives(s: string)
    requires !AllSpace(s)
    ensures Strip(s) != []
  {
    LStripShape(s);
    var l := LStrip(s);
    var d := |s| - |l|;
    assert forall j :: 0 <= j < d ==> IsSpace(s[j]) by {
      forall j | 0 <= j < d ensures IsSpace(s[j]) {
        assert s[..d][j] == s[j];
      }
    }
    var k :| 0 <= k < |s| && !IsSpace(s[k]);
    assert l[k - d] == s[k];
    RStripShape(l);
    var r := RStrip(l);
    assert forall j :: |r| <= j < |l| ==> IsSpace(l[j]) by {
      forall j | |r| <= j < |l| ensures IsSpace(l[j]) {
        assert l[|r|..][j - |r|] == l[j];
      }
    }
  }

  /** `s.index(c)`: the position of the first `c` in `s`, None where Python raises. */
  function IndexOf(s: string, c: char): (r: Option<nat>)
    ensures r.Some? ==> r.value < |s| && s[r.value] == c && c !in s[..r.value]
    ensures r.None? ==> c !in s
  {
    if s == [] then None
    else if s[0] == c then Some(0)
    else
      match IndexOf(s[1..], c)
      case None => None
      case Some(k) =>
        assert s[..k + 1] == [s[0]] + s[1..][..k];
        Some(k + 1)
  }

  /** The first `c` in `a + [c] + b` is the one right after `a` when `a` holds none. */
  lemma IndexOfAfter(a: string, c: char, b: string)
    requires c !in a
    ensures IndexOf(a + [c] + b, c) == Some(|a|)
  {
    var s := a + [c] + b;
    assert s[|a|] == c;
  }

  /** Splitting `a + [c] + b` at its first `c` gives back `a` and `b`. */
  lemma SplitAtFirst(a: string, c: char, b: string)
    requires c !in a
    ensures IndexOf(a + [c] + b, c) == Some(|a|)
    ensures (a + [c] + b)[..|a|] == a && (a + [c] + b)[|a| + 1..] == b
  {
    IndexOfAfter(a, c, b);
  }

  /** `s.startswith(p)`. */
  predicate StartsWith(s: string, p: string) {
    |p| <= |s| && s[..|p|] == p
  }

  /** Python's `p in s` for strings: `p` is a prefix of some suffix of `s`. */
  predicate Contains(s: string, p: string)
    decreases |s|
  {
    StartsWith(s, p) || (s != [] && Contains(s[1..], p))
  }

  /** What occurs in a suffix of `s` occurs in `s`. */
  lemma {:induction false} ContainsInSuffix(s: string, k: nat, p: string)
    requires k <= |s| && Contains(s[k..], p)
    ensures Contains(s, p)
    decreases k
  {
    if k > 0 {
      assert s[1..][k - 1..] == s[k..];
      ContainsInSuffix(s[1..], k - 1, p);
    }
  }

  /** A prefix of something that occurs in `s` occurs in `s`. */
  lemma {:induction false} ContainsPrefix(s: string, q: string, p: string)
    requires Contains(s, q) && StartsWith(q, p)
    ensures Contains(s, p)
    decreases |s|
  {
    if StartsWith(s, q) {
      assert s[..|p|] == q[..|p|];
    } else {
      ContainsPrefix(s[1..], q, p);
    }
  }

  /** Length of the leading run of non-whitespace characters. */
  function WordLen(s: string): (n: nat)
    ensures n <= |s|
    ensures forall i :: 0 <= i < n ==> !IsSpace(s[i])
    ensures n == |s| || IsSpace(s[n])
  {
    if s == [] || IsSpace(s[0]) then 0 else 1 + WordLen(s[1..])
  }

  /** `s.split()`: the maximal runs of non-whitespace characters, in order. */
  function SplitWs(s: string): (parts: seq<string>)
    decreases |s|
  {
    if s == [] then []
    else if IsSpace(s[0]) then SplitWs(s[1..])
    else
      var n := WordLen(s);
      [s[..n]] + SplitWs(s[n..])
  }

  /** Every part of `s.split()` is non-empty, free of whitespace and occurs in `s`. */
  lemma {:induction false} SplitWsParts(s: string)
    ensures forall p :: p in SplitWs(s) ==> p != [] && Contains(s, p)
    ensures forall p, i :: p in SplitWs(s) && 0 <= i < |p| ==> !IsSpace(p[i])
    decreases |s|
  {
    if s == [] {
    } else if IsSpace(s[0]) {
      SplitWsParts(s[1..]);
      assert s[1..] == s[1..][0..];
    } else {
      var n := WordLen(s);
      SplitWsParts(s[n..]);
      assert StartsWith(s, s[..n]);
      forall p | p in SplitWs(s[n..]) ensures Contains(s, p) {
        ContainsInSuffix(s, n, p);
      }
    }
  }

  /** `s.split(sep)` for a non-empty separator: cut at each leftmost occurrence. */
  function Split(s: string, sep: string): (parts: seq<string>)
    requires sep != []
    ensures |parts| >= 1
    decreases |s|
  {
    if |s| < |sep| then [s]
    else if StartsWith(s, sep) then [[]] + Split(s[|sep|..], sep)
    else
      var r := Split(s[1..], sep);
      [[s[0]] + r[0]] + r[1..]
  }

  /** `sep.join(parts)`. */
  function Join(parts: seq<string>, sep: string): string
  {
    if parts == [] then []
    else if |parts| == 1 then parts[0]
    else parts[0] + sep + Join(parts[1..], sep)
  }

  lemma JoinCons(a: string, tail: seq<string>, sep: string)
    requires |tail| >= 1
    ensures Join([a] + tail, sep) == a + sep + Join(tail, sep)
  {
    assert ([a] + tail)[1..] == tail;
  }

  /** Putting one more character in front of the first part puts it in front of the join. */
  lemma JoinPushFront(c: char, parts: seq<string>, sep: string)
    requires |parts| >= 1
    ensures Join([[c] + parts[0]] + parts[1..], sep) == [c] + Join(parts, sep)
  {
    if |parts| > 1 {
      JoinCons([c] + parts[0], parts[1..], sep);
      JoinCons(parts[0], parts[1..], sep);
      assert [parts[0]] + parts[1..] == parts;
    }
  }

  /** Joining the pieces of a split with the same separator gives back the string. */
  lemma {:induction false} JoinSplit(s: string, sep: string)
    requires sep != []
    ensures Join(Split(s, sep), sep) == s
    decreases |s|
  {
    if |s| < |sep| {
    } else if StartsWith(s, sep) {
      var rest := Split(s[|sep|..], sep);
      assert Split(s, sep) == [[]] + rest;
      JoinSplit(s[|sep|..], sep);
      JoinCons([], rest, sep);
      assert s[..|sep|] == sep;
      assert s == s[..|sep|] + s[|sep|..];
    } else {
      var r := Split(s[1..], sep);
      assert Split(s, sep) == [[s[0]] + r[0]] + r[1..];
      JoinSplit(s[1..], sep);
      JoinPushFront(s[0], r, sep);
      assert s == [s[0]] + s[1..];
    }
  }

  function DigitChar(d: nat): char
    requires d < 10
  {
    ('0' as int + d) as char
  }

  predicate IsDigit(c: char) {
    '0' <= c <= '9'
  }

  predicate AllDigits(s: string) {
    forall i :: 0 <= i < |s| ==> IsDigit(s[i])
  }

  /** `str(n)` for a natural number: decimal digits, no leading zero. */
  function NatToString(n: nat): (r: string)
    ensures |r| >= 1 && AllDigits(r)
    ensures r[0] == '0' ==> n == 0
    decreases n
  {
    if n < 10 then [DigitChar(n)] else NatToString(n / 10) + [DigitChar(n % 10)]
  }

  /** The number a string of decimal digits denotes. */
  function DigitsValue(s: string): nat
    requires AllDigits(s)
  {
    if s == [] then 0 else DigitsValue(s[..|s| - 1]) * 10 + (s[|s| - 1] as int - '0' as int)
  }

  /** Reading back what `NatToString` wrote gives the number. */
  lemma {:induction false} NatToStringValue(n: nat)
    ensures DigitsValue(NatToString(n)) == n
    decreases n
  {
    if n >= 10 {
      NatToStringValue(n / 10);
      var r := NatToString(n);
      assert r[..|r| - 1] == NatToString(n / 10);
    }
  }

  /** `str(i)` for an integer. */
  function IntToString(i: int): (r: string)
    ensures |r| >= 1
    ensures AllDigits(r) <==> i >= 0
    ensures forall k :: 0 <= k < |r| ==> IsDigit(r[k]) || r[k] == '-'
  {
    if i < 0 then
      var r := "-" + NatToString(-i);
      assert !IsDigit(r[0]);
      r
    else NatToString(i)
  }

  /** `int(s)` on an optional minus sign followed by digits; None where Python raises. */
  function ParseInt(s: string): (r: Option<int>)
  {
    if s == [] then None
    else if s[0] == '-' then
      (if |s| > 1 && AllDigits(s[1..]) then Some(-(DigitsValue(s[1..]) as int)) else None)
    else if AllDigits(s) then Some(DigitsValue(s) as int)
    else None
  }

  /** `s` with its underscores dropped. */
  function DropUnderscores(s: string): (r: string)
    ensures (forall k :: 0 <= k < |s| ==> IsDigit(s[k]) || s[k] == '_') ==> AllDigits(r)
    ensures AllDigits(s) ==> r == s
  {
    if s == [] then []
    else (if s[0] == '_' then [] else [s[0]]) + DropUnderscores(s[1..])
  }

  /** Decimal digits with single underscores between them. */
  predicate Grouped(b: string) {
    b != [] && IsDigit(b[0]) && IsDigit(b[|b| - 1])
    && forall k :: 0 <= k < |b| ==> IsDigit(b[k]) || (b[k] == '_' && k + 1 < |b| && IsDigit(b[k + 1]))
  }

  lemma GroupedDigits(b: string)
    requires Grouped(b)
    ensures AllDigits(DropUnderscores(b))
  {
    forall k | 0 <= k < |b|
      ensures IsDigit(b[k]) || b[k] == '_'
    {
      assert IsDigit(b[k]) || (b[k] == '_' && k + 1 < |b| && IsDigit(b[k + 1]));
    }
  }

  /** Python's `int(s)` on a string: surrounding whitespace, an optional `+`
      or `-`, then grouped decimal digits; None where Python raises. */
  function PyInt(s: string): (r: Option<int>)
    ensures r.Some? ==> Strip(s) != []
    ensures r.Some? && r.value < 0 ==> Strip(s)[0] == '-'
  {
    var t := Strip(s);
    if t != [] && (t[0] == '+' || t[0] == '-') then
      if Grouped(t[1..]) then Some(if t[0] == '-' then -(GroupedValue(t[1..]) as int) else GroupedValue(t[1..]))
      else None
    else if Grouped(t) then Some(GroupedValue(t))
    else None
  }

  /** The number grouped digits denote, underscores ignored. */
  function GroupedValue(b: string): nat
    requires Grouped(b)
  {
    GroupedDigits(b);
    DigitsValue(DropUnderscores(b))
  }

  /** `int()` reads every string `ParseInt` reads, to the same number. */
  lemma PyIntExtendsParseInt(s: string)
    requires ParseInt(Strip(s)).Some?
    ensures PyInt(s) == ParseInt(Strip(s))
  {
    var t := Strip(s);
    if t[0] == '-' {
      assert Grouped(t[1..]);
    } else {
      assert Grouped(t);
    }
  }

  /** A string that starts and ends with a non-space is its own `strip()`. */
  lemma StripUntouched(s: string)
    requires s != [] && !IsSpace(s[0]) && !IsSpace(s[|s| - 1])
    ensures Strip(s) == s
  {
    assert LStrip(s) == s;
  }

  /** `int()` reads grouped digits with or without a leading `+`, and with a
      leading `-` as the negated number. */
  lemma PyIntSignAndUnderscores(b: string)
    requires Grouped(b)
    ensures PyInt("+" + b) == PyInt(b) == Some(GroupedValue(b))
    ensures PyInt("-" + b) == Some(-(GroupedValue(b) as int))
  {
    PyIntGrouped(b);
    PyIntSigned(b, '+');
    PyIntSigned(b, '-');
  }

  lemma PyIntGrouped(b: string)
    requires Grouped(b)
    ensures PyInt(b) == Some(GroupedValue(b))
  {
    StripUntouched(b);
  }

  lemma PyIntSigned(b: string, sign: char)
    requires Grouped(b) && (sign == '+' || sign == '-')
    ensures PyInt([sign] + b) == Some(if sign == '-' then -(GroupedValue(b) as int) else GroupedValue(b))
  {
    var t := [sign] + b;
    assert t[0] == sign && t[|t| - 1] == b[|b| - 1];
    StripUntouched(t);
    assert t[1..] == b;
  }

  /** `int()` refuses any text with two underscores in a row. */
  lemma PyIntDoubleUnderscore(s: string, k: int)
    requires 0 <= k && k + 1 < |Strip(s)| && Strip(s)[k] == '_' && Strip(s)[k + 1] == '_'
    ensures PyInt(s) == None
  {
    var t := Strip(s);
    if t[0] == '+' || t[0] == '-' {
      var b := t[1..];
      assert !Grouped(b) by {
        assert b[k - 1] == '_' && b[k] == '_';
      }
    } else {
      assert !Grouped(t) by {
        assert t[k] == '_' && t[k + 1] == '_';
      }
    }
  }

  /** `int(str(i)) == i`. */
  lemma IntToStringRoundTrip(i: int)
    ensures ParseInt(IntToString(i)) == Some(i)
  {
    if i < 0 {
      var t := NatToString(-i);
      NatToStringValue(-i);
      var r := IntToString(i);
      assert r == "-" + t;
      assert r[0] == '-' && r[1..] == t;
    } else {
      NatToStringValue(i);
    }
  }
}
