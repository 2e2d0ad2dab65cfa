/**
 * The string operations the pages use: `toLowerCase`, `includes`, `indexOf`,
 * `split(sep)[0]`, `replace` with a string and with a global regular expression, and
 * the decimal rendering of numbers in template literals.
 */
module Text {
  import opened Wrappers

  /** `toLowerCase` on one character; only the ASCII letters A-Z are mapped. */
  function LowerChar(c: char): char {
    if 'A' <= c <= 'Z' then (c as int + 32) as char else c
  }

  function Lower(s: string): (r: string)
    ensures |r| == |s|
    ensures forall i :: 0 <= i < |s| ==> r[i] == LowerChar(s[i])
  {
    seq(|s|, i requires 0 <= i < |s| => LowerChar(s[i]))
  }

  /** Lowering twice is lowering once. */
  lemma LowerIdempotent(s: string)
    ensures Lower(Lower(s)) == Lower(s)
  {
  }

  /** `p` occurs in `s` starting at index `i`. */
  predicate OccursAt(s: string, i: nat, p: string) {
    i + |p| <= |s| && s[i..i + |p|] == p
  }

  /** `s.includes(p)`; every string includes the empty string. */
  predicate Contains(s: string, p: string) {
    exists i: nat | i <= |s| :: OccursAt(s, i, p)
  }

  /** A string contains each of its prefixes. */
  lemma ContainsPrefix(a: string, b: string)
    ensures Contains(a + b, a)
  {
    assert (a + b)[0..|a|] == a;
    assert OccursAt(a + b, 0, a);
  }

  /** A string that contains `p` still does with anything put in front. */
  lemma ContainsSuffix(a: string, b: string, p: string)
    requires Contains(b, p)
    ensures Contains(a + b, p)
  {
    var i: nat :| i <= |b| && OccursAt(b, i, p);
    assert (a + b)[|a| + i..|a| + i + |p|] == b[i..i + |p|];
    assert OccursAt(a + b, |a| + i, p);
  }

  /** `s.indexOf(p, from)`: the first occurrence of `p` at or after `from`. */
  function IndexOf(s: string, p: string, from: nat): (r: Option<nat>)
    ensures r.Some? ==> from <= r.value && OccursAt(s, r.value, p)
    ensures r.Some? ==> forall j: nat :: from <= j < r.value ==> !OccursAt(s, j, p)
    ensures r.None? ==> forall j: nat :: from <= j ==> !OccursAt(s, j, p)
    decreases |s| - from
  {
    if from + |p| > |s| then None
    else if OccursAt(s, from, p) then Some(from)
    else IndexOf(s, p, from + 1)
  }

  lemma ContainsIffIndexOf(s: string, p: string)
    ensures Contains(s, p) <==> IndexOf(s, p, 0).Some?
  {
    var r := IndexOf(s, p, 0);
    if r.Some? {
      assert OccursAt(s, r.value, p);
    }
  }

  lemma OccursInPrefix(s: string, k: nat, j: nat, p: string)
    requires k <= |s| && OccursAt(s[..k], j, p)
    ensures OccursAt(s, j, p)
  {
    assert s[..k][j..j + |p|] == s[j..j + |p|];
  }

  /** No occurrence starts before `i`, so the prefix `s[..i]` contains none. */
  lemma PrefixBeforeFirst(s: string, i: nat, p: string)
    requires i <= |s|
    requires forall j: nat :: j < i ==> !OccursAt(s, j, p)
    requires |p| > 0
    ensures !Contains(s[..i], p)
  {
    forall j: nat | j <= i ensures !OccursAt(s[..i], j, p) {
      if OccursAt(s[..i], j, p) { OccursInPrefix(s, i, j, p); }
    }
  }

  /**
   * `s.split(sep)[0]`: the longest prefix of `s` before the first `sep`, so it never
   * contains `sep`, and `sep` follows it whenever `s` contains `sep` at all.
   */
  function SplitFirst(s: string, sep: string): (r: string)
    requires |sep| > 0
    ensures r <= s
    ensures !Contains(r, sep)
    ensures Contains(s, sep) ==> OccursAt(s, |r|, sep)
    ensures !Contains(s, sep) ==> r == s
  {
    ContainsIffIndexOf(s, sep);
    match IndexOf(s, sep, 0)
    case Some(i) => PrefixBeforeFirst(s, i, sep); s[..i]
    case None => s
  }

  /** Lowering never creates or removes a space, so the spaces stay where they were. */
  lemma {:induction false} LowerKeepsSpaces(s: string, from: nat)
    ensures IndexOf(Lower(s), " ", from) == IndexOf(s, " ", from)
    decreases |s| - from
  {
    if from + 1 <= |s| {
      assert Lower(s)[from..from + 1] == [LowerChar(s[from])];
      assert s[from..from + 1] == [s[from]];
      assert OccursAt(Lower(s), from, " ") <==> OccursAt(s, from, " ");
      LowerKeepsSpaces(s, from + 1);
    }
  }

  /** The first word of the lowered text is the lowered first word. */
  lemma LowerFirstWord(s: string)
    ensures SplitFirst(Lower(s), " ") == Lower(SplitFirst(s, " "))
  {
    LowerKeepsSpaces(s, 0);
    ContainsIffIndexOf(s, " ");
    ContainsIffIndexOf(Lower(s), " ");
    match IndexOf(s, " ", 0)
    case Some(i) =>
      PrefixBeforeFirst(s, i, " ");
      PrefixBeforeFirst(Lower(s), i, " ");
      assert SplitFirst(s, " ") == s[..i];
      assert SplitFirst(Lower(s), " ") == Lower(s)[..i];
    case None =>
  }

  /**
   * `s.replace(p, rep)` with a string pattern: only the first occurrence is replaced.
   * (`rep` is taken literally; every replacement text the source passes here is free
   * of `$`.)
   */
  function ReplaceFirst(s: string, p: string, rep: string): (r: string)
    ensures !Contains(s, p) ==> r == s
  {
    ContainsIffIndexOf(s, p);
    match IndexOf(s, p, 0)
    case Some(i) => s[..i] + rep + s[i + |p|..]
    case None => s
  }

  /**
   * Every occurrence of `p`, scanning from the left and resuming after each match, is
   * replaced by the text `r` taken literally.
   */
  function ReplaceAll(s: string, p: string, r: string): string
    requires |p| > 0
    decreases |s|
  {
    if |s| < |p| then s
    else if OccursAt(s, 0, p) then r + ReplaceAll(s[|p|..], p, r)
    else [s[0]] + ReplaceAll(s[1..], p, r)
  }

  /** A prefix in which no occurrence of `p` starts is passed through unchanged. */
  lemma {:induction false} ReplaceAllSkip(a: string, b: string, p: string, r: string)
    requires |p| > 0
    requires forall k: nat :: k < |a| ==> !OccursAt(a + b, k, p)
    ensures ReplaceAll(a + b, p, r) == a + ReplaceAll(b, p, r)
    decreases |a|
  {
    if |a| == 0 {
      assert a + b == b;
    } else {
      var s := a + b;
      if |s| < |p| {
        assert ReplaceAll(b, p, r) == b;
      } else {
        assert !OccursAt(s, 0, p);
        assert s[1..] == a[1..] + b;
        forall k: nat | k < |a[1..]| ensures !OccursAt(a[1..] + b, k, p) {
          assert !OccursAt(s, k + 1, p);
          if k + |p| <= |s[1..]| {
            assert s[1..][k..k + |p|] == s[k + 1..k + 1 + |p|];
          }
        }
        calc {
          ReplaceAll(s, p, r);
          [s[0]] + ReplaceAll(s[1..], p, r);
          { ReplaceAllSkip(a[1..], b, p, r); }
          [a[0]] + (a[1..] + ReplaceAll(b, p, r));
          { assert a == [a[0]] + a[1..]; }
          a + ReplaceAll(b, p, r);
        }
      }
    }
  }

  /** A string without the first character of `p` contains no occurrence of `p` to replace. */
  lemma ReplaceAllSkipText(a: string, b: string, p: string, r: string)
    requires |p| > 0 && p[0] !in a
    ensures ReplaceAll(a + b, p, r) == a + ReplaceAll(b, p, r)
  {
    forall k: nat | k < |a| ensures !OccursAt(a + b, k, p) {
      if k + |p| <= |a + b| {
        assert (a + b)[k..k + |p|][0] == a[k];
      }
    }
    ReplaceAllSkip(a, b, p, r);
  }

  /** An occurrence of `p` at the front is replaced and the scan resumes after it. */
  lemma ReplaceAllMatch(b: string, p: string, r: string)
    requires |p| > 0
    ensures ReplaceAll(p + b, p, r) == r + ReplaceAll(b, p, r)
  {
    assert (p + b)[..|p|] == p;
    assert (p + b)[|p|..] == b;
  }

  /**
   * The ECMAScript replacement-pattern expansion (GetSubstitution) for a pattern with
   * no capture groups: `$$` gives `$`, `$&` the matched text, `` $` `` the text before
   * the match and `$'` the text after it; every other `$` stands for itself.
   */
  function Expand(r: string, matched: string, before: string, after: string): string
    decreases |r|
  {
    if |r| == 0 then ""
    else if r[0] == '$' && |r| >= 2 && r[1] in "$&`'" then
      (if r[1] == '$' then "$"
       else if r[1] == '&' then matched
       else if r[1] == '`' then before
       else after)
      + Expand(r[2..], matched, before, after)
    else [r[0]] + Expand(r[1..], matched, before, after)
  }

  /** A text with no `$` is inserted as it is. */
  lemma {:induction false} ExpandPlain(r: string, matched: string, before: string, after: string)
    requires '$' !in r
    ensures Expand(r, matched, before, after) == r
    decreases |r|
  {
    if |r| > 0 {
      assert r[0] != '$';
      assert r[1..] + [] == r[1..];
      ExpandPlain(r[1..], matched, before, after);
    }
  }

  /**
   * `s.replace(/p/g, r)` as ECMAScript defines it: like `ReplaceAll`, except that the
   * replacement text is expanded at every match by `Expand`.
   */
  function ReplaceAllJsFrom(s: string, i: nat, p: string, r: string): string
    requires |p| > 0 && i <= |s|
    decreases |s| - i
  {
    if i + |p| > |s| then s[i..]
    else if OccursAt(s, i, p) then
      Expand(r, p, s[..i], s[i + |p|..]) + ReplaceAllJsFrom(s, i + |p|, p, r)
    else [s[i]] + ReplaceAllJsFrom(s, i + 1, p, r)
  }

  function ReplaceAllJs(s: string, p: string, r: string): string
    requires |p| > 0
  {
    ReplaceAllJsFrom(s, 0, p, r)
  }

  lemma {:induction false} ReplaceAllJsFromPlain(s: string, i: nat, p: string, r: string)
    requires |p| > 0 && i <= |s| && '$' !in r
    ensures ReplaceAllJsFrom(s, i, p, r) == ReplaceAll(s[i..], p, r)
    decreases |s| - i
  {
    if i + |p| <= |s| {
      assert s[i..][..|p|] == s[i..i + |p|];
      if OccursAt(s, i, p) {
        ReplaceAllJsFromPlain(s, i + |p|, p, r);
        PlainMatchStep(s, i, p, r);
      } else {
        ReplaceAllJsFromPlain(s, i + 1, p, r);
        PlainSkipStep(s, i, p, r);
      }
    }
  }

  lemma PlainMatchStep(s: string, i: nat, p: string, r: string)
    requires |p| > 0 && i + |p| <= |s| && '$' !in r && OccursAt(s, i, p)
    requires ReplaceAllJsFrom(s, i + |p|, p, r) == ReplaceAll(s[i + |p|..], p, r)
    ensures ReplaceAllJsFrom(s, i, p, r) == ReplaceAll(s[i..], p, r)
  {
    ExpandPlain(r, p, s[..i], s[i + |p|..]);
    assert s[i..][..|p|] == s[i..i + |p|];
    assert s[i..][|p|..] == s[i + |p|..];
  }

  lemma PlainSkipStep(s: string, i: nat, p: string, r: string)
    requires |p| > 0 && i + |p| <= |s| && !OccursAt(s, i, p)
    requires ReplaceAllJsFrom(s, i + 1, p, r) == ReplaceAll(s[i + 1..], p, r)
    ensures ReplaceAllJsFrom(s, i, p, r) == ReplaceAll(s[i..], p, r)
  {
    assert s[i..][..|p|] == s[i..i + |p|];
    assert s[i..][1..] == s[i + 1..];
  }

  /**
   * With a replacement text free of `$`, the ECMAScript replacement is the literal one
   * of `ReplaceAll`.
   */
  lemma ReplaceAllJsPlain(s: string, p: string, r: string)
    requires |p| > 0 && '$' !in r
    ensures ReplaceAllJs(s, p, r) == ReplaceAll(s, p, r)
  {
    ReplaceAllJsFromPlain(s, 0, p, r);
    assert s[0..] == s;
  }

  /** `$&` puts back what was matched, so replacing with it changes nothing. */
  lemma {:induction false} ReplaceAllJsFromMatchedText(s: string, i: nat, p: string)
    requires |p| > 0 && i <= |s|
    ensures ReplaceAllJsFrom(s, i, p, "$&") == s[i..]
    decreases |s| - i
  {
    if i + |p| <= |s| {
      if OccursAt(s, i, p) {
        ReplaceAllJsFromMatchedText(s, i + |p|, p);
        assert Expand("$&", p, s[..i], s[i + |p|..]) == p + Expand("", p, s[..i], s[i + |p|..]);
        assert s[i..] == s[i..i + |p|] + s[i + |p|..];
      } else {
        ReplaceAllJsFromMatchedText(s, i + 1, p);
        assert s[i..] == [s[i]] + s[i + 1..];
      }
    }
  }

  lemma ReplaceAllJsMatchedText(s: string, p: string)
    requires |p| > 0
    ensures ReplaceAllJs(s, p, "$&") == s
  {
    ReplaceAllJsFromMatchedText(s, 0, p);
  }

  /** The decimal digit `d`: `'0'` to `'9'`. */
  function DigitChar(d: nat): (c: char)
    requires d < 10
    ensures '0' <= c <= '9'
  {
    ('0' as int + d) as char
  }

  /** The decimal digits of `n`, without leading zeros. */
  function NatToString(n: nat): (r: string)
    ensures |r| > 0
    ensures forall i :: 0 <= i < |r| ==> '0' <= r[i] <= '9'
    decreases n
  {
    if n < 10 then [DigitChar(n)] else NatToString(n / 10) + [DigitChar(n % 10)]
  }

  /** Different numbers have different digits. */
  lemma {:induction false} NatToStringInjective(a: nat, b: nat)
    requires NatToString(a) == NatToString(b)
    ensures a == b
    decreases a
  {
    var sa, sb := NatToString(a), NatToString(b);
    assert a >= 10 ==> |sa| == |NatToString(a / 10)| + 1 > 1;
    assert b >= 10 ==> |sb| == |NatToString(b / 10)| + 1 > 1;
    if a >= 10 && b >= 10 {
      assert sa[..|sa| - 1] == NatToString(a / 10);
      assert sb[..|sb| - 1] == NatToString(b / 10);
      NatToStringInjective(a / 10, b / 10);
      assert sa[|sa| - 1] == DigitChar(a % 10);
    }
  }

  /** A number in a template literal: `${n}`. */
  function IntToString(n: int): (r: string)
    ensures |r| > 0
  {
    if n < 0 then "-" + NatToString(-n) else NatToString(n)
  }

  /** Different numbers print differently. */
  lemma IntToStringInjective(a: int, b: int)
    requires IntToString(a) == IntToString(b)
    ensures a == b
  {
    assert a < 0 <==> IntToString(a)[0] == '-';
    assert b < 0 <==> IntToString(b)[0] == '-';
    if a < 0 && b < 0 {
      assert IntToString(a)[1..] == NatToString(-a);
      assert IntToString(b)[1..] == NatToString(-b);
      NatToStringInjective(-a, -b);
    } else if a >= 0 && b >= 0 {
      NatToStringInjective(a, b);
    }
  }

  /** Only zero is written with a leading `0`. */
  lemma {:induction false} NoLeadingZero(n: nat)
    requires |NatToString(n)| > 1
    ensures NatToString(n)[0] != '0'
    decreases n
  {
    assert n >= 10;
    assert NatToString(n) == NatToString(n / 10) + [DigitChar(n % 10)];
    if n / 10 >= 10 {
      NoLeadingZero(n / 10);
    }
  }

  /** A number below 1000 has at most three digits. */
  lemma ShortNumber(n: nat)
    requires n < 1000
    ensures |NatToString(n)| <= 3
  {
    if n >= 10 {
      assert NatToString(n) == NatToString(n / 10) + [DigitChar(n % 10)];
      if n / 10 >= 10 {
        assert NatToString(n / 10) == NatToString(n / 100) + [DigitChar(n / 10 % 10)];
      }
    }
  }

  /** `s.padStart(width, '0')`. */
  function PadStart(s: string, width: nat): (r: string)
    ensures |r| == if |s| < width then width else |s|
    decreases width - |s|
  {
    if |s| < width then PadStart("0" + s, width) else s
  }

  /**
   * The padded text is `s` itself when it is long enough, and otherwise `s` after as many
   * zeros as make up the width.
   */
  lemma {:induction false} PaddedShape(s: string, width: nat)
    ensures var r := PadStart(s, width);
      r[|r| - |s|..] == s && forall i :: 0 <= i < |r| - |s| ==> r[i] == '0'
    decreases width - |s|
  {
    if |s| < width {
      PaddedShape("0" + s, width);
      var r := PadStart("0" + s, width);
      assert r[|r| - |s|..] == r[|r| - |s| - 1..][1..];
    }
  }

  /** A padded text after a fixed head: the head, then the zeros, then the text. */
  lemma PaddedAfter(head: string, s: string, width: nat)
    requires |s| <= width
    ensures var r := head + PadStart(s, width);
      && |r| == |head| + width && r[..|head|] == head
      && r[|r| - |s|..] == s
      && forall i :: |r| - width <= i < |r| - |s| ==> r[i] == '0'
  {
    var t := PadStart(s, width);
    var r := head + t;
    PaddedShape(s, width);
    assert |t| == width;
    assert r[..|head|] == head;
    assert r[|r| - |s|..] == t[|t| - |s|..];
    forall i | |r| - width <= i < |r| - |s|
      ensures r[i] == '0'
    {
      assert r[i] == t[i - |head|];
    }
  }

  /** Padding keeps numbers apart: two numbers padded to the same width differ when they do. */
  lemma PaddedNumbersDiffer(a: nat, b: nat, width: nat)
    requires PadStart(NatToString(a), width) == PadStart(NatToString(b), width)
    ensures a == b
  {
    var sa, sb := NatToString(a), NatToString(b);
    var r := PadStart(sa, width);
    PaddedShape(sa, width);
    PaddedShape(sb, width);
    if |sa| == |sb| {
      assert sa == r[|r| - |sa|..] == sb;
      NatToStringInjective(a, b);
    } else if |sa| < |sb| {
      assert r[|r| - |sb|] == sb[0] == '0';
      NoLeadingZero(b);
    } else {
      assert r[|r| - |sa|] == sa[0] == '0';
      NoLeadingZero(a);
    }
  }

  /** Three digits with leading zeros, for the groups of `toLocaleString`. */
  function Group3(n: nat): string
    requires n < 1000
  {
    PadStart(NatToString(n), 3)
  }

  /** `n.toLocaleString()` for an integer amount: digits in groups of three, comma separated. */
  function LocaleAmount(n: int): string
    decreases if n < 0 then -n else n, if n < 0 then 1 else 0
  {
    if n < 0 then "-" + LocaleAmount(-n)
    else if n < 1000 then NatToString(n)
    else LocaleAmount(n / 1000) + "," + Group3(n % 1000)
  }
}
