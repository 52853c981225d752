/** The Python string operations the renderers are built from:
    `lstrip`/`strip`, `replace("-->", "->")`, `sep.join`, `str.split` on a
    one-character separator, and `str` of a natural number. */
module Text {

  /** Python's `str.isspace` for a single character. */
  predicate IsSpace(c: char) {
    || ('\t' <= c <= '\r')
    || ('\U{1C}' <= c <= ' ')
    || c == '\U{85}' || c == '\U{A0}' || c == '\U{1680}'
    || ('\U{2000}' <= c <= '\U{200A}')
    || c == '\U{2028}' || c == '\U{2029}' || c == '\U{202F}' || c == '\U{205F}' || c == '\U{3000}'
  }

  predicate AllSpace(s: string) {
    forall i :: 0 <= i < |s| ==> IsSpace(s[i])
  }

  /** The number of whitespace characters `s` starts with. */
  function LeadingSpaces(s: string): (k: nat)
    ensures k <= |s|
  {
    if |s| > 0 && IsSpace(s[0]) then 1 + LeadingSpaces(s[1..]) else 0
  }

  /** The number of whitespace characters `s` ends with. */
  function TrailingSpaces(s: string): (k: nat)
    ensures k <= |s|
  {
    if |s| > 0 && IsSpace(s[|s| - 1]) then 1 + TrailingSpaces(s[..|s| - 1]) else 0
  }

  /** `LeadingSpaces` counts the longest whitespace prefix. */
  lemma {:induction false} LeadingSpacesSpec(s: string)
    ensures AllSpace(s[..LeadingSpaces(s)])
    ensures LeadingSpaces(s) < |s| ==> !IsSpace(s[LeadingSpaces(s)])
    decreases |s|
  {
    if |s| > 0 && IsSpace(s[0]) {
      LeadingSpacesSpec(s[1..]);
      assert s[..LeadingSpaces(s)] == [s[0]] + s[1..][..LeadingSpaces(s[1..])];
    }
  }

  /** `TrailingSpaces` counts the longest whitespace suffix. */
  lemma {:induction false} TrailingSpacesSpec(s: string)
    ensures AllSpace(s[|s| - TrailingSpaces(s)..])
    ensures TrailingSpaces(s) < |s| ==> !IsSpace(s[|s| - TrailingSpaces(s) - 1])
    decreases |s|
  {
    if |s| > 0 && IsSpace(s[|s| - 1]) {
      var t := s[..|s| - 1];
      TrailingSpacesSpec(t);
      assert s[|s| - TrailingSpaces(s)..] == t[|t| - TrailingSpaces(t)..] + [s[|s| - 1]];
    }
  }

  /** `s.lstrip()` */
  function LStrip(s: string): string {
    s[LeadingSpaces(s)..]
  }

  /** `s.rstrip()` */
  function RStrip(s: string): string {
    s[..|s| - TrailingSpaces(s)]
  }

  /** `s.strip()` */
  function Strip(s: string): string {
    RStrip(LStrip(s))
  }

  /** `lstrip` removes exactly the longest whitespace prefix. */
  lemma {:induction false} LStripSpec(s: string)
    ensures var r := LStrip(s);
      && |r| <= |s| && r == s[|s| - |r|..]
      && AllSpace(s[..|s| - |r|])
      && (|r| > 0 ==> !IsSpace(r[0]))
  {
    LeadingSpacesSpec(s);
  }

  /** `rstrip` removes exactly the longest whitespace suffix. */
  lemma {:induction false} RStripSpec(s: string)
    ensures var r := RStrip(s);
      && |r| <= |s| && r == s[..|r|]
      && AllSpace(s[|r|..])
      && (|r| > 0 ==> !IsSpace(r[|r| - 1]))
  {
    TrailingSpacesSpec(s);
  }

  /** `strip` keeps the slice of `s` after its leading whitespace that
      neither starts nor ends with whitespace and is followed only by
      whitespace. */
  lemma {:induction false} StripSpec(s: string)
    ensures var r := Strip(s); var k := LeadingSpaces(s);
      && (|r| == 0 || (!IsSpace(r[0]) && !IsSpace(r[|r| - 1])))
      && k + |r| <= |s|
      && r == s[k..k + |r|]
      && AllSpace(s[..k])
      && AllSpace(s[k + |r|..])
  {
    var l := LStrip(s);
    var r := RStrip(l);
    var k := LeadingSpaces(s);
    LeadingSpacesSpec(s);
    RStripSpec(l);
    assert l == s[k..];
    assert r == s[k..k + |r|];
    assert s[k + |r|..] == l[|r|..];
    if |r| > 0 {
      assert r[0] == l[0];
    }
  }

  /** Stripping is idempotent. */
  lemma {:induction false} StripIdempotent(s: string)
    ensures Strip(Strip(s)) == Strip(s)
  {
    var t := Strip(s);
    StripSpec(s);
    assert LeadingSpaces(t) == 0;
    assert TrailingSpaces(t) == 0;
  }

  // ---------------------------------------------------------------------
  // s.replace("-->", "->")

  /** An arrow `-->` starts at position `i` of `s`. */
  predicate ArrowAt(s: string, i: int) {
    0 <= i && i + 3 <= |s| && s[i] == '-' && s[i + 1] == '-' && s[i + 2] == '>'
  }

  /** `"-->" not in s`. */
  predicate ArrowFree(s: string) {
    forall i :: 0 <= i < |s| ==> !ArrowAt(s, i)
  }

  /** A long arrow `--->` starts at position `i` of `s`. */
  predicate LongArrowAt(s: string, i: int) {
    0 <= i < |s| && s[i] == '-' && ArrowAt(s, i + 1)
  }

  /** `"--->" not in s`. */
  predicate LongArrowFree(s: string) {
    forall i :: 0 <= i < |s| ==> !LongArrowAt(s, i)
  }

  /** `s.replace("-->", "->")`: occurrences are found left to right and do
      not overlap, exactly as Python's `str.replace` scans. */
  function EscapeArrows(s: string): (r: string)
    ensures |r| <= |s|
    decreases |s|
  {
    if ArrowAt(s, 0) then "->" + EscapeArrows(s[3..])
    else if |s| == 0 then ""
    else [s[0]] + EscapeArrows(s[1..])
  }

  /** Escaping never changes the first character. */
  lemma {:induction false} EscapeFirst(s: string)
    requires |s| > 0
    ensures |EscapeArrows(s)| > 0 && EscapeArrows(s)[0] == s[0]
  {
  }

  /** Text without an arrow is left untouched. */
  lemma {:induction false} EscapeIdentity(s: string)
    requires ArrowFree(s)
    ensures EscapeArrows(s) == s
    decreases |s|
  {
    if |s| > 0 {
      assert !ArrowAt(s, 0);
      forall i | 0 <= i < |s| - 1
        ensures !ArrowAt(s[1..], i)
      {
        assert !ArrowAt(s, i + 1);
      }
      EscapeIdentity(s[1..]);
    }
  }

  /** An escaped text starting with `->` came from one starting with `->`
      or with `-->`. */
  lemma {:induction false} EscapeHead(t: string)
    ensures |EscapeArrows(t)| >= 2 && EscapeArrows(t)[0] == '-' && EscapeArrows(t)[1] == '>'
            ==> ArrowAt(t, 0) || (|t| >= 2 && t[0] == '-' && t[1] == '>')
  {
    if !ArrowAt(t, 0) && |t| > 1 {
      EscapeFirst(t[1..]);
      assert EscapeArrows(t) == [t[0]] + EscapeArrows(t[1..]);
    }
  }

  /** The escape is a complete guard when the text has no `--->`:
      then no `-->` survives in the result. */
  lemma {:induction false} EscapeGuard(s: string)
    requires LongArrowFree(s)
    ensures ArrowFree(EscapeArrows(s))
    decreases |s|
  {
    var r := EscapeArrows(s);
    if ArrowAt(s, 0) {
      var t := s[3..];
      forall i | 0 <= i < |t|
        ensures !LongArrowAt(t, i)
      {
        assert !LongArrowAt(s, i + 3);
      }
      EscapeGuard(t);
      var e := EscapeArrows(t);
      assert r == "->" + e;
      forall i | 0 <= i < |r|
        ensures !ArrowAt(r, i)
      {
        if i >= 2 {
          assert !ArrowAt(e, i - 2);
        }
      }
    } else if |s| > 0 {
      var t := s[1..];
      forall i | 0 <= i < |t|
        ensures !LongArrowAt(t, i)
      {
        assert !LongArrowAt(s, i + 1);
      }
      EscapeGuard(t);
      var e := EscapeArrows(t);
      assert r == [s[0]] + e;
      EscapeHead(t);
      assert !LongArrowAt(s, 0);
      forall i | 0 <= i < |r|
        ensures !ArrowAt(r, i)
      {
        if i >= 1 {
          assert !ArrowAt(e, i - 1);
        }
      }
    }
  }

  /** A `--->` anywhere survives as a `-->`: the scan cannot consume its
      first dash as part of an earlier arrow, so it copies that dash and then
      turns the following `-->` into `->`. */
  lemma {:induction false} LongArrowSurvives(s: string, i: int)
    requires LongArrowAt(s, i)
    ensures exists j :: ArrowAt(EscapeArrows(s), j)
    decreases |s|
  {
    var r := EscapeArrows(s);
    if i == 0 {
      assert !ArrowAt(s, 0);
      assert ArrowAt(s[1..], 0);
      assert r == [s[0]] + ("->" + EscapeArrows(s[1..][3..]));
      assert ArrowAt(r, 0);
    } else if ArrowAt(s, 0) {
      assert i >= 3;
      var t := s[3..];
      assert LongArrowAt(t, i - 3);
      LongArrowSurvives(t, i - 3);
      var j :| ArrowAt(EscapeArrows(t), j);
      assert r == "->" + EscapeArrows(t);
      assert ArrowAt(r, j + 2);
    } else {
      var t := s[1..];
      assert LongArrowAt(t, i - 1);
      LongArrowSurvives(t, i - 1);
      var j :| ArrowAt(EscapeArrows(t), j);
      assert r == [s[0]] + EscapeArrows(t);
      assert ArrowAt(r, j + 1);
    }
  }

  /** The escape removes every `-->` exactly when the text has no `--->`. */
  lemma {:induction false} EscapeGuardIff(s: string)
    ensures ArrowFree(EscapeArrows(s)) <==> LongArrowFree(s)
  {
    if LongArrowFree(s) {
      EscapeGuard(s);
    } else {
      var i :| 0 <= i < |s| && LongArrowAt(s, i);
      LongArrowSurvives(s, i);
    }
  }

  /** `--->` is where the guard is incomplete: it escapes to `-->`. */
  lemma {:induction false} EscapeKeepsArrowOfLongArrow()
    ensures EscapeArrows("--->") == "-->"
    ensures !ArrowFree(EscapeArrows("--->"))
  {
    assert ArrowAt("-->", 0);
  }

  // ---------------------------------------------------------------------
  // sep.join(items) and s.split(sep) for a one-character separator

  /** `c.join(xs)` for a one-character separator `c`. */
  function Join(xs: seq<string>, c: char): (r: string)
    decreases |xs|
  {
    if |xs| == 0 then ""
    else if |xs| == 1 then xs[0]
    else xs[0] + [c] + Join(xs[1..], c)
  }

  /** The first position of `c` in `s`. */
  function IndexOf(s: string, c: char): (i: nat)
    requires c in s
    ensures i < |s| && s[i] == c && c !in s[..i]
  {
    if s[0] == c then 0 else 1 + IndexOf(s[1..], c)
  }

  /** `s.split(c)` for a one-character separator `c`: never empty, and no
      piece contains the separator. */
  function Split(s: string, c: char): (r: seq<string>)
    ensures |r| > 0
    ensures forall j :: 0 <= j < |r| ==> c !in r[j]
    decreases |s|
  {
    if c !in s then [s]
    else
      var i := IndexOf(s, c);
      [s[..i]] + Split(s[i + 1..], c)
  }

  /** Joining the pieces of a split gives the text back. */
  lemma {:induction false} JoinSplit(s: string, c: char)
    ensures Join(Split(s, c), c) == s
    decreases |s|
  {
    if c in s {
      var i := IndexOf(s, c);
      var rest := Split(s[i + 1..], c);
      JoinSplit(s[i + 1..], c);
      assert Split(s, c) == [s[..i]] + rest;
      assert s == s[..i] + [c] + s[i + 1..];
    }
  }

  /** The first separator of `a + [c] + b` is the one after `a` when `a`
      has none. */
  lemma {:induction false} IndexOfAfter(a: string, b: string, c: char)
    requires c !in a
    ensures IndexOf(a + [c] + b, c) == |a|
    decreases |a|
  {
    if |a| > 0 {
      IndexOfAfter(a[1..], b, c);
      assert (a + [c] + b)[1..] == a[1..] + [c] + b;
    }
  }

  /** Splitting a join of separator-free pieces gives the pieces back. */
  lemma {:induction false} SplitJoin(xs: seq<string>, c: char)
    requires |xs| > 0
    requires forall j :: 0 <= j < |xs| ==> c !in xs[j]
    ensures Split(Join(xs, c), c) == xs
    decreases |xs|
  {
    if |xs| > 1 {
      var head, tail := xs[0], Join(xs[1..], c);
      SplitJoin(xs[1..], c);
      SplitAfterFirst(head, tail, c);
      assert xs == [head] + xs[1..];
    }
  }

  /** Splitting `a + [c] + b` where `a` has no separator peels off `a`. */
  lemma {:induction false} SplitAfterFirst(a: string, b: string, c: char)
    requires c !in a
    ensures Split(a + [c] + b, c) == [a] + Split(b, c)
  {
    var s := a + [c] + b;
    IndexOfAfter(a, b, c);
    assert s[..|a|] == a;
    assert s[|a| + 1..] == b;
  }

  /** Joining the same pieces with two separators gives texts of equal
      length that differ only where one has `c` and the other `d`. */
  lemma {:induction false} JoinSeparatorSwap(xs: seq<string>, c: char, d: char)
    ensures |Join(xs, c)| == |Join(xs, d)|
    ensures forall i :: 0 <= i < |Join(xs, c)| ==>
              Join(xs, c)[i] == Join(xs, d)[i] || (Join(xs, c)[i] == c && Join(xs, d)[i] == d)
    decreases |xs|
  {
    if |xs| > 1 {
      JoinSeparatorSwap(xs[1..], c, d);
      var a := Join(xs, c);
      var b := Join(xs, d);
      var n := |xs[0]|;
      forall i | 0 <= i < |a|
        ensures a[i] == b[i] || (a[i] == c && b[i] == d)
      {
        if i > n {
          assert a[i] == Join(xs[1..], c)[i - n - 1];
          assert b[i] == Join(xs[1..], d)[i - n - 1];
        }
      }
    }
  }

  // ---------------------------------------------------------------------
  // str(n) for a natural number

  predicate IsDigit(c: char) {
    '0' <= c <= '9'
  }

  function DigitChar(d: nat): (c: char)
    requires d < 10
    ensures IsDigit(c)
  {
    ('0' as int + d) as char
  }

  function DigitValue(c: char): (d: nat)
    requires IsDigit(c)
    ensures d < 10
  {
    (c as int - '0' as int) as nat
  }

  /** `str(n)`: the shortest decimal numeral of `n`. */
  function NatToString(n: nat): (r: string)
    ensures |r| > 0
    ensures forall i :: 0 <= i < |r| ==> IsDigit(r[i])
    ensures |r| > 1 ==> r[0] != '0'
  {
    if n < 10 then [DigitChar(n)] else NatToString(n / 10) + [DigitChar(n % 10)]
  }

  /** The value of a decimal numeral (Python's `int` of a digit string). */
  function ParseDecimal(s: string): nat
    requires forall i :: 0 <= i < |s| ==> IsDigit(s[i])
  {
    if |s| == 0 then 0 else ParseDecimal(s[..|s| - 1]) * 10 + DigitValue(s[|s| - 1])
  }

  /** Reading back `str(n)` gives `n`. */
  lemma {:induction false} ParseNatToString(n: nat)
    ensures ParseDecimal(NatToString(n)) == n
  {
    var s := NatToString(n);
    if n >= 10 {
      ParseNatToString(n / 10);
      assert s[..|s| - 1] == NatToString(n / 10);
    } else {
      assert s[..0] == [];
    }
  }

  /** Distinct numbers have distinct numerals. */
  lemma {:induction false} NatToStringInjective(m: nat, n: nat)
    requires NatToString(m) == NatToString(n)
    ensures m == n
  {
    ParseNatToString(m);
    ParseNatToString(n);
  }
}
