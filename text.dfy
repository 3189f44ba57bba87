/**
 * The string operations the console applies: lower-casing for search, `includes`, `trim`,
 * `split(" ")`, prefix tests, first-occurrence `replace`, and decimal rendering of numbers.
 */
module Text {

  /** ASCII lower-casing of one character; other characters are kept. */
  function LowerChar(c: char): char {
    if 'A' <= c <= 'Z' then (c as int + 32) as char else c
  }

  function Lower(s: string): (r: string)
    ensures |r| == |s|
    ensures forall i :: 0 <= i < |s| ==> r[i] == LowerChar(s[i])
  {
    if s == [] then [] else [LowerChar(s[0])] + Lower(s[1..])
  }

  /** t occurs in s starting at position i. */
  predicate OccursAt(s: string, t: string, i: int) {
    0 <= i && i + |t| <= |s| && s[i..i + |t|] == t
  }

  /** String.prototype.includes. */
  function Contains(s: string, t: string): bool
    decreases |s|
  {
    if t <= s then true
    else if s == [] then false
    else Contains(s[1..], t)
  }

  /** An occurrence past the first position is an occurrence in the tail, one position earlier. */
  lemma OccursInTail(s: string, t: string, i: int)
    requires 0 < i && OccursAt(s, t, i)
    ensures OccursAt(s[1..], t, i - 1)
  {
    assert s[1..][i - 1..i - 1 + |t|] == s[i..i + |t|];
  }

  /** An occurrence in the tail is an occurrence in the whole, one position later. */
  lemma OccursFromTail(s: string, t: string, i: int)
    requires s != [] && OccursAt(s[1..], t, i)
    ensures OccursAt(s, t, i + 1)
  {
    assert s[1..][i..i + |t|] == s[i + 1..i + 1 + |t|];
  }

  /** `includes` holds exactly when the term occurs at some position. */
  lemma {:induction false} ContainsIffOccurs(s: string, t: string)
    ensures Contains(s, t) <==> exists i :: OccursAt(s, t, i)
    decreases |s|
  {
    if t <= s {
      assert OccursAt(s, t, 0);
    } else if s == [] {
      assert forall i :: !OccursAt(s, t, i);
    } else {
      ContainsIffOccurs(s[1..], t);
      if exists i :: OccursAt(s, t, i) {
        var i :| OccursAt(s, t, i);
        assert i != 0;
        OccursInTail(s, t, i);
      }
      if exists i :: OccursAt(s[1..], t, i) {
        var i :| OccursAt(s[1..], t, i);
        OccursFromTail(s, t, i);
      }
    }
  }

  /** The search rule of every section: `field.toLowerCase().includes(term.toLowerCase())`. */
  predicate Matches(field: string, term: string) {
    Contains(Lower(field), Lower(term))
  }

  /** An empty search term matches every field. */
  lemma EmptyTermMatches(field: string)
    ensures Matches(field, "")
  {
  }

  /** A term matches when its lower-cased form appears in the lower-cased field. */
  lemma MatchesIff(field: string, term: string)
    ensures Matches(field, term) <==> exists i :: OccursAt(Lower(field), Lower(term), i)
  {
    ContainsIffOccurs(Lower(field), Lower(term));
    assert Matches(field, term) <==> Contains(Lower(field), Lower(term));
    assert Contains(Lower(field), Lower(term)) <==> exists i :: OccursAt(Lower(field), Lower(term), i);
  }

  /** The WhiteSpace and LineTerminator code points that String.prototype.trim removes. */
  predicate IsSpace(c: char) {
    c == ' ' || c == '\t' || c == '\n' || c == '\r' || c == '\U{B}' || c == '\U{C}'
    || c == '\U{A0}' || c == '\U{1680}' || ('\U{2000}' <= c <= '\U{200A}')
    || c == '\U{2028}' || c == '\U{2029}' || c == '\U{202F}' || c == '\U{205F}'
    || c == '\U{3000}' || c == '\U{FEFF}'
  }

  function TrimStart(s: string): (r: string)
    ensures |r| <= |s| && r == s[|s| - |r|..]
    ensures forall i :: 0 <= i < |s| - |r| ==> IsSpace(s[i])
    ensures r != [] ==> !IsSpace(r[0])
  {
    if s != [] && IsSpace(s[0]) then
      var r := TrimStart(s[1..]);
      assert s[1..][|s| - 1 - |r|..] == s[|s| - |r|..];
      assert forall i :: 1 <= i < |s| - |r| ==> s[i] == s[1..][i - 1];
      r
    else s
  }

  function TrimEnd(s: string): (r: string)
    ensures |r| <= |s| && r == s[..|r|]
    ensures forall i :: |r| <= i < |s| ==> IsSpace(s[i])
    ensures r != [] ==> !IsSpace(r[|r| - 1])
  {
    if s != [] && IsSpace(s[|s| - 1]) then
      var r := TrimEnd(s[..|s| - 1]);
      assert s[..|s| - 1][..|r|] == s[..|r|];
      assert forall i :: |r| <= i < |s| - 1 ==> s[i] == s[..|s| - 1][i];
      r
    else s
  }

  /** Trimming both ends leaves a contiguous part of the text. */
  lemma TrimOccurs(s: string)
    ensures OccursAt(s, TrimEnd(TrimStart(s)), |s| - |TrimStart(s)|)
  {
    var a := TrimStart(s);
    var r := TrimEnd(a);
    assert s[|s| - |a|..|s| - |a| + |r|] == a[..|r|];
  }

  /** Trimming both ends leaves nothing exactly when the text is all white space. */
  lemma TrimEmptyIffBlank(s: string)
    ensures TrimEnd(TrimStart(s)) == [] <==> forall i :: 0 <= i < |s| ==> IsSpace(s[i])
  {
    var a := TrimStart(s);
    if a != [] {
      assert a[0] == s[|s| - |a|];
    }
  }

  /** String.prototype.trim: the text between the leading and trailing white space. */
  function Trim(s: string): (r: string)
    ensures exists k :: OccursAt(s, r, k)
    ensures r == [] <==> forall i :: 0 <= i < |s| ==> IsSpace(s[i])
    ensures r != [] ==> !IsSpace(r[0]) && !IsSpace(r[|r| - 1])
  {
    var a := TrimStart(s);
    var r := TrimEnd(a);
    TrimOccurs(s);
    TrimEmptyIffBlank(s);
    assert r != [] ==> r[0] == a[0];
    r
  }

  /** The text holds only white space, so `s.trim() === ""` (see BlankIffTrimEmpty). */
  predicate IsBlank(s: string) {
    forall i :: 0 <= i < |s| ==> IsSpace(s[i])
  }

  lemma BlankIffTrimEmpty(s: string)
    ensures IsBlank(s) <==> Trim(s) == []
  {
  }

  /** String.prototype.split with a one-character separator. */
  function Split(s: string, sep: char): (r: seq<string>)
    ensures |r| >= 1
    ensures forall k :: 0 <= k < |r| ==> sep !in r[k]
  {
    if s == [] then [""]
    else
      var rest := Split(s[1..], sep);
      if s[0] == sep then [""] + rest else [[s[0]] + rest[0]] + rest[1..]
  }

  /** Array.prototype.join with a one-character separator. */
  function Join(parts: seq<string>, sep: char): string
    requires |parts| >= 1
  {
    if |parts| == 1 then parts[0] else parts[0] + [sep] + Join(parts[1..], sep)
  }

  /** Array.prototype.join with a separator of any length; an empty list joins to "". */
  function JoinWith(parts: seq<string>, sep: string): (r: string)
    ensures parts == [] ==> r == ""
    ensures |parts| == 1 ==> r == parts[0]
    ensures |parts| >= 1 ==> parts[0] <= r
  {
    if parts == [] then ""
    else if |parts| == 1 then parts[0]
    else parts[0] + sep + JoinWith(parts[1..], sep)
  }

  /** An occurrence in the tail of a concatenation is an occurrence in the whole, shifted by the head. */
  lemma OccursAfter(a: string, b: string, t: string, k: int)
    requires OccursAt(b, t, k)
    ensures OccursAt(a + b, t, |a| + k)
  {
    assert (a + b)[|a| + k..|a| + k + |t|] == b[k..k + |t|];
  }

  /** Every part of a join occurs in the joined text. */
  lemma {:induction false} JoinWithHoldsParts(parts: seq<string>, sep: string, i: int)
    requires 0 <= i < |parts|
    ensures exists k :: OccursAt(JoinWith(parts, sep), parts[i], k)
  {
    var j := JoinWith(parts, sep);
    if i == 0 {
      assert OccursAt(j, parts[0], 0);
    } else {
      JoinWithHoldsParts(parts[1..], sep, i - 1);
      var k :| OccursAt(JoinWith(parts[1..], sep), parts[1..][i - 1], k);
      OccursAfter(parts[0] + sep, JoinWith(parts[1..], sep), parts[i], k);
    }
  }

  /** Splitting and joining back with the same separator gives the original text. */
  lemma {:induction false} JoinSplit(s: string, sep: char)
    ensures Join(Split(s, sep), sep) == s
  {
    if s != [] {
      JoinSplit(s[1..], sep);
      var rest := Split(s[1..], sep);
      if s[0] == sep {
        assert Split(s, sep)[1..] == rest;
      } else {
        var r := Split(s, sep);
        assert r[0] == [s[0]] + rest[0];
        if |rest| == 1 {
          assert s == [s[0]] + s[1..];
        } else {
          assert r[1..] == rest[1..];
          assert s == [s[0]] + s[1..];
        }
      }
    }
  }

  /** Splitting a join of separator-free parts recovers the parts. */
  lemma {:induction false} SplitJoin(parts: seq<string>, sep: char)
    requires |parts| >= 1
    requires forall k :: 0 <= k < |parts| ==> sep !in parts[k]
    ensures Split(Join(parts, sep), sep) == parts
    decreases |parts|, |parts[0]|
  {
    var p := parts[0];
    if p == [] {
      if |parts| > 1 {
        SplitJoin(parts[1..], sep);
        assert Join(parts, sep) == [sep] + Join(parts[1..], sep);
        assert (Join(parts, sep))[1..] == Join(parts[1..], sep);
      }
    } else {
      var parts' := [p[1..]] + parts[1..];
      assert parts'[1..] == parts[1..];
      SplitJoin(parts', sep);
      assert Join(parts, sep) == [p[0]] + Join(parts', sep);
      assert (Join(parts, sep))[1..] == Join(parts', sep);
      assert p == [p[0]] + p[1..];
    }
  }

  /** The first position at which pat occurs in s, if any (String.prototype.indexOf). */
  function IndexOf(s: string, pat: string): (r: int)
    ensures r == -1 || OccursAt(s, pat, r)
    ensures r == -1 ==> forall i :: !OccursAt(s, pat, i)
    ensures r != -1 ==> forall i :: 0 <= i < r ==> !OccursAt(s, pat, i)
    decreases |s|
  {
    if pat <= s then 0
    else if s == [] then -1
    else
      var j := IndexOf(s[1..], pat);
      assert forall i :: 1 <= i && OccursAt(s, pat, i) ==> OccursAt(s[1..], pat, i - 1) by {
        forall i | 1 <= i && OccursAt(s, pat, i) ensures OccursAt(s[1..], pat, i - 1) {
          assert s[1..][i - 1..i - 1 + |pat|] == s[i..i + |pat|];
        }
      }
      if j == -1 then -1
      else
        assert s[1..][j..j + |pat|] == s[j + 1..j + 1 + |pat|];
        j + 1
  }

  /** `s.replace(pat, rep)` with a string pattern: only the first occurrence is replaced. */
  function ReplaceFirst(s: string, pat: string, rep: string): (r: string)
    ensures IndexOf(s, pat) == -1 ==> r == s
    ensures IndexOf(s, pat) != -1 ==>
      var i := IndexOf(s, pat); r == s[..i] + rep + s[i + |pat|..]
  {
    var i := IndexOf(s, pat);
    if i == -1 then s else s[..i] + rep + s[i + |pat|..]
  }

  predicate IsDigit(c: char) {
    '0' <= c <= '9'
  }

  function DigitChar(d: int): (c: char)
    requires 0 <= d < 10
    ensures IsDigit(c) && c as int - '0' as int == d
  {
    ('0' as int + d) as char
  }

  /** Decimal digits of n, as Number.prototype.toString writes a non-negative integer. */
  function NatToString(n: nat): (r: string)
    ensures |r| >= 1
    ensures forall i :: 0 <= i < |r| ==> IsDigit(r[i])
    ensures |r| > 1 ==> r[0] != '0'
    decreases n
  {
    if n < 10 then [DigitChar(n)] else NatToString(n / 10) + [DigitChar(n % 10)]
  }

  /** Decimal rendering of an integer, with a leading '-' when negative (template literal `${n}`). */
  function IntToString(n: int): string {
    if n < 0 then "-" + NatToString(-n) else NatToString(n)
  }

  /** The value of a string of decimal digits. */
  function ParseDigits(s: string): nat
    requires forall i :: 0 <= i < |s| ==> IsDigit(s[i])
  {
    if s == [] then 0
    else
      assert IsDigit(s[|s| - 1]);
      ParseDigits(s[..|s| - 1]) * 10 + (s[|s| - 1] as int - '0' as int)
  }

  /** Reading back the digits NatToString writes gives the number. */
  lemma {:induction false} NatToStringRoundTrip(n: nat)
    ensures ParseDigits(NatToString(n)) == n
    decreases n
  {
    if n >= 10 {
      NatToStringRoundTrip(n / 10);
      var s := NatToString(n);
      assert s[..|s| - 1] == NatToString(n / 10);
    }
  }

  /** The reading of IntToString: an optional '-' followed by digits. */
  function ParseInt(s: string): int
    requires s != [] && (s[0] == '-' ==> |s| > 1)
    requires forall i :: (if s[0] == '-' then 1 else 0) <= i < |s| ==> IsDigit(s[i])
  {
    if s[0] == '-' then -(ParseDigits(s[1..]) as int) else ParseDigits(s)
  }

  /** Integers render to distinct strings, and each string reads back as the integer. */
  lemma IntToStringRoundTrip(n: int)
    ensures (var s := IntToString(n);
      s != [] && (s[0] == '-' ==> |s| > 1)
      && (forall i :: (if s[0] == '-' then 1 else 0) <= i < |s| ==> IsDigit(s[i]))
      && ParseInt(s) == n)
  {
    var s := IntToString(n);
    if n < 0 {
      NatToStringRoundTrip(-n);
      assert s[1..] == NatToString(-n);
    } else {
      NatToStringRoundTrip(n);
      assert s[0] != '-';
    }
  }

  lemma IntToStringInjective(a: int, b: int)
    ensures IntToString(a) == IntToString(b) ==> a == b
  {
    IntToStringRoundTrip(a);
    IntToStringRoundTrip(b);
  }
}
