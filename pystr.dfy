/**
 * The parts of Python's `str` that the tool relies on, with Python's own
 * semantics: `isspace`, `lstrip`/`rstrip`/`strip` without arguments,
 * `split(sep)`, `sep.join`, `splitlines`, `startswith`/`endswith`, `in`,
 * code-point ordering (`<` on `str`) and `str()` of an integer.
 */
module PyStr {

  /** `c.isspace()`: the characters Python treats as whitespace. */
  predicate IsSpace(c: char) {
    var n := c as int;
    (0x09 <= n <= 0x0d) || (0x1c <= n <= 0x20) || n == 0x85 || n == 0xa0
    || n == 0x1680 || (0x2000 <= n <= 0x200a) || n == 0x2028 || n == 0x2029
    || n == 0x202f || n == 0x205f || n == 0x3000
  }

  /** The characters at which `str.splitlines` breaks a line. */
  predicate IsLineBreak(c: char) {
    var n := c as int;
    (0x0a <= n <= 0x0d) || (0x1c <= n <= 0x1e) || n == 0x85 || n == 0x2028 || n == 0x2029
  }

  /** A string with no whitespace at either end: what `strip()` returns. */
  predicate IsStripped(s: string) {
    s == [] || (!IsSpace(s[0]) && !IsSpace(s[|s| - 1]))
  }

  /** `s.lstrip()`. */
  function LStrip(s: string): string {
    if |s| > 0 && IsSpace(s[0]) then LStrip(s[1..]) else s
  }

  /** `s.rstrip()`. */
  function RStrip(s: string): string {
    if |s| > 0 && IsSpace(s[|s| - 1]) then RStrip(s[..|s| - 1]) else s
  }

  /** `s.strip()`, which Python computes as `s.lstrip().rstrip()`. */
  function Strip(s: string): string {
    RStrip(LStrip(s))
  }

  /**
   * `lstrip` removes exactly the whitespace run at the front: what is left
   * is a suffix of `s` that does not start with whitespace, and everything
   * removed was whitespace.
   */
  lemma {:induction false} LStripShape(s: string)
    ensures |LStrip(s)| <= |s| && LStrip(s) == s[|s| - |LStrip(s)|..]
    ensures forall i :: 0 <= i < |s| - |LStrip(s)| ==> IsSpace(s[i])
    ensures LStrip(s) == [] || !IsSpace(LStrip(s)[0])
    decreases |s|
  {
    if |s| > 0 && IsSpace(s[0]) {
      LStripShape(s[1..]);
    }
  }

  /** `rstrip` removes exactly the whitespace run at the back. */
  lemma {:induction false} RStripShape(s: string)
    ensures |RStrip(s)| <= |s| && RStrip(s) == s[..|RStrip(s)|]
    ensures forall i :: |RStrip(s)| <= i < |s| ==> IsSpace(s[i])
    ensures RStrip(s) == [] || !IsSpace(RStrip(s)[|RStrip(s)| - 1])
    decreases |s|
  {
    if |s| > 0 && IsSpace(s[|s| - 1]) {
      RStripShape(s[..|s| - 1]);
    }
  }

  /** `s.strip()` has no whitespace at either end. */
  lemma StripShape(s: string)
    ensures IsStripped(Strip(s))
  {
    LStripShape(s);
    RStripShape(LStrip(s));
  }

  /** Stripping a string that is already stripped changes nothing. */
  lemma StripNoop(s: string)
    requires IsStripped(s)
    ensures Strip(s) == s
  {
    if s != [] {
      assert LStrip(s) == s;
      assert RStrip(s) == s;
    }
  }

  /** `s[lo..lo + |r|] == r`. */
  predicate IsSliceAt(r: string, s: string, lo: int) {
    0 <= lo && lo + |r| <= |s| && s[lo..lo + |r|] == r
  }

  /** `s.strip()` is the slice of `s` that starts where `lstrip` starts. */
  lemma StripSlice(s: string)
    ensures IsSliceAt(Strip(s), s, |s| - |LStrip(s)|)
  {
    LStripShape(s);
    RStripShape(LStrip(s));
    var t := LStrip(s);
    assert s[|s| - |t|..] == t;
  }

  /** `sub` occurs in `s` at index `i`. */
  predicate OccursAt(s: string, sub: string, i: int) {
    0 <= i && i + |sub| <= |s| && s[i..i + |sub|] == sub
  }

  /** `sub in s` for a substring `sub`. */
  predicate Contains(s: string, sub: string) {
    exists i | 0 <= i <= |s| - |sub| :: OccursAt(s, sub, i)
  }

  predicate StartsWith(s: string, prefix: string) {
    |prefix| <= |s| && s[..|prefix|] == prefix
  }

  predicate EndsWith(s: string, suffix: string) {
    |suffix| <= |s| && s[|s| - |suffix|..] == suffix
  }

  /**
   * `s.split(sep)` for a non-empty separator: occurrences are found left to
   * right without overlap, and an empty `s` gives `[""]`.
   */
  function Split(s: string, sep: string): (r: seq<string>)
    requires |sep| > 0
    ensures |r| >= 1
    ensures |r[0]| <= |s| && r[0] == s[..|r[0]|]
    decreases |s|
  {
    if |s| < |sep| then [s]
    else if s[..|sep|] == sep then [""] + Split(s[|sep|..], sep)
    else
      var rest := Split(s[1..], sep);
      [[s[0]] + rest[0]] + rest[1..]
  }

  /** `sep.join(xs)`. */
  function Join(xs: seq<string>, sep: string): string {
    if |xs| == 0 then ""
    else if |xs| == 1 then xs[0]
    else xs[0] + sep + Join(xs[1..], sep)
  }

  /** Prefixing the first piece with one character prefixes the join. */
  lemma JoinConsHead(ch: char, xs: seq<string>, sep: string)
    requires |xs| >= 1
    ensures Join([[ch] + xs[0]] + xs[1..], sep) == [ch] + Join(xs, sep)
  {
    var ys := [[ch] + xs[0]] + xs[1..];
    if |xs| > 1 {
      assert ys[1..] == xs[1..];
    }
  }

  /** Joining the pieces of a split with the same separator gives the string back. */
  lemma {:induction false} JoinSplit(s: string, sep: string)
    requires |sep| > 0
    ensures Join(Split(s, sep), sep) == s
    decreases |s|
  {
    if |s| < |sep| {
    } else if s[..|sep|] == sep {
      var tail := Split(s[|sep|..], sep);
      JoinSplit(s[|sep|..], sep);
      assert Split(s, sep) == [""] + tail;
      assert ([""] + tail)[1..] == tail;
      assert s == sep + s[|sep|..];
    } else {
      var rest := Split(s[1..], sep);
      JoinSplit(s[1..], sep);
      assert Split(s, sep) == [[s[0]] + rest[0]] + rest[1..];
      JoinConsHead(s[0], rest, sep);
      assert [s[0]] + s[1..] == s;
    }
  }

  /** No piece of `s.split(sep)` contains `sep`. */
  lemma {:induction false} SplitPiecesLackSep(s: string, sep: string)
    requires |sep| > 0
    ensures forall p :: p in Split(s, sep) ==> !Contains(p, sep)
    decreases |s|
  {
    if |s| < |sep| {
    } else if s[..|sep|] == sep {
      SplitPiecesLackSep(s[|sep|..], sep);
      assert !OccursAt("", sep, 0);
    } else {
      var rest := Split(s[1..], sep);
      SplitPiecesLackSep(s[1..], sep);
      var head := [s[0]] + rest[0];
      assert head == s[..|head|];
      assert rest[0] in rest;
      forall i | OccursAt(head, sep, i) ensures false {
        if i != 0 {
          assert head[i..i + |sep|] == rest[0][i - 1..i - 1 + |sep|];
          assert OccursAt(rest[0], sep, i - 1);
        }
      }
      assert Split(s, sep) == [head] + rest[1..];
    }
  }

  /** A string without the separator is split into itself alone. */
  lemma {:induction false} SplitWithoutSep(s: string, sep: string)
    requires |sep| > 0 && !Contains(s, sep)
    ensures Split(s, sep) == [s]
    decreases |s|
  {
    if |s| < |sep| {
    } else {
      assert !OccursAt(s, sep, 0);
      forall i | OccursAt(s[1..], sep, i) ensures false {
        assert s[1..][i..i + |sep|] == s[i + 1..i + 1 + |sep|];
        assert OccursAt(s, sep, i + 1);
      }
      SplitWithoutSep(s[1..], sep);
      assert [s[0]] + s[1..] == s;
    }
  }

  /** A string lacking one of the characters of `sub` does not contain `sub`. */
  lemma MissingCharLacks(s: string, sub: string, k: nat)
    requires k < |sub| && sub[k] !in s
    ensures !Contains(s, sub)
  {
    forall i | 0 <= i <= |s| - |sub| ensures !OccursAt(s, sub, i) {
      assert s[i..i + |sub|][k] == s[i + k];
    }
  }

  /** A slice of a string that lacks `sub` lacks `sub` too. */
  lemma SliceLacksSub(r: string, s: string, lo: int, sub: string)
    requires IsSliceAt(r, s, lo) && !Contains(s, sub)
    ensures !Contains(r, sub)
  {
    assert r == s[lo..lo + |r|];
    forall i | OccursAt(r, sub, i) ensures false {
      assert forall k :: 0 <= k < |sub| ==> sub[k] == r[i + k] == s[lo + i + k];
      assert sub == s[lo + i..lo + i + |sub|];
      assert OccursAt(s, sub, lo + i);
    }
  }

  /** Splitting on one character `c` with `c` present yields at least two pieces. */
  lemma {:induction false} SplitOnPresentChar(s: string, c: char)
    requires c in s
    ensures |Split(s, [c])| >= 2
    decreases |s|
  {
    if s[..1] == [c] {
      var tail := Split(s[1..], [c]);
      assert Split(s, [c]) == [""] + tail;
    } else {
      assert s[0] != c;
      SplitOnPresentChar(s[1..], c);
    }
  }

  /**
   * Splitting a join of pieces that lack the one-character separator gives
   * the pieces back.
   */
  lemma {:induction false} SplitJoinChar(xs: seq<string>, c: char)
    requires |xs| > 0
    requires forall i :: 0 <= i < |xs| ==> c !in xs[i]
    ensures Split(Join(xs, [c]), [c]) == xs
    decreases |xs|
  {
    if |xs| == 1 {
      MissingCharLacks(xs[0], [c], 0);
      SplitWithoutSep(xs[0], [c]);
    } else {
      var tail := xs[1..];
      assert forall i :: 0 <= i < |tail| ==> c !in tail[i] by {
        forall i | 0 <= i < |tail| ensures c !in tail[i] { assert tail[i] == xs[i + 1]; }
      }
      SplitJoinChar(tail, c);
      assert Join(xs, [c]) == xs[0] + [c] + Join(tail, [c]);
      SplitAfterCharFree(xs[0], Join(tail, [c]), c);
      assert xs == [xs[0]] + tail;
    }
  }

  /** A separator-free prefix before the separator becomes the first piece. */
  lemma {:induction false} SplitAfterCharFree(x: string, tail: string, c: char)
    requires c !in x
    ensures Split(x + [c] + tail, [c]) == [x] + Split(tail, [c])
    decreases |x|
  {
    var s := x + [c] + tail;
    if x == [] {
      assert s[..1] == [c];
      assert s[1..] == tail;
    } else {
      assert x[0] in x;
      SplitAfterCharFree(x[1..], tail, c);
      assert s[1..] == x[1..] + [c] + tail;
      assert s[..1] == [x[0]];
      var rest := Split(s[1..], [c]);
      assert rest == [x[1..]] + Split(tail, [c]);
      assert Split(s, [c]) == [[s[0]] + rest[0]] + rest[1..];
      assert [x[0]] + x[1..] == x;
    }
  }

  /**
   * Index of the first line break in `s`, or `|s|` when there is none.
   */
  function FirstBreak(s: string): (i: nat)
    ensures i <= |s|
    ensures i < |s| ==> IsLineBreak(s[i])
    ensures forall k :: 0 <= k < i ==> !IsLineBreak(s[k])
  {
    if s == [] then 0
    else if IsLineBreak(s[0]) then 0
    else 1 + FirstBreak(s[1..])
  }

  /**
   * `s.splitlines()`: lines end at any line-break character, `\r\n` counts
   * as one break, and a final break does not start an empty last line.
   */
  function SplitLines(s: string): (lines: seq<string>)
    ensures forall i, k :: 0 <= i < |lines| && 0 <= k < |lines[i]| ==> !IsLineBreak(lines[i][k])
    ensures s == [] <==> lines == []
    decreases |s|
  {
    if s == [] then []
    else
      var i := FirstBreak(s);
      if i == |s| then [s]
      else
        var width := if s[i] == '\r' && i + 1 < |s| && s[i + 1] == '\n' then 2 else 1;
        [s[..i]] + SplitLines(s[i + width..])
  }

  /**
   * For a text whose only line breaks are `\n`, the lines joined with `\n`
   * give the text back, less one final `\n`: `splitlines` cuts at every
   * break and loses nothing else.
   */
  lemma {:induction false} JoinSplitLines(s: string)
    requires forall k :: 0 <= k < |s| && IsLineBreak(s[k]) ==> s[k] == '\n'
    ensures Join(SplitLines(s), "\n") == if s != [] && s[|s| - 1] == '\n' then s[..|s| - 1] else s
    decreases |s|
  {
    if s != [] {
      var i := FirstBreak(s);
      if i == |s| {
        assert !IsLineBreak(s[|s| - 1]);
      } else {
        var rest := s[i + 1..];
        SplitLinesAtNewline(s, i);
        if rest != [] {
          forall k | 0 <= k < |rest| && IsLineBreak(rest[k]) ensures rest[k] == '\n' {
            assert rest[k] == s[i + 1 + k];
          }
          JoinSplitLines(rest);
          JoinCons(s[..i], SplitLines(rest), "\n");
          DropLastAfterBreak(s, i);
        }
      }
    }
  }

  /** Cutting `s` at a `\n` in position `i`, and dropping its last character. */
  lemma DropLastAfterBreak(s: string, i: nat)
    requires i + 1 < |s| && s[i] == '\n'
    ensures s == s[..i] + "\n" + s[i + 1..]
    ensures s[|s| - 1] == s[i + 1..][|s| - i - 2]
    ensures s[..|s| - 1] == s[..i] + "\n" + s[i + 1..][..|s| - i - 2]
  {
  }

  /** `splitlines` at a first break that is `\n`. */
  lemma SplitLinesAtNewline(s: string, i: nat)
    requires i == FirstBreak(s) < |s| && s[i] == '\n'
    ensures SplitLines(s) == [s[..i]] + SplitLines(s[i + 1..])
  {
  }

  /** Joining a list with a given first element. */
  lemma JoinCons(x: string, xs: seq<string>, sep: string)
    requires xs != []
    ensures Join([x] + xs, sep) == x + sep + Join(xs, sep)
  {
    assert ([x] + xs)[1..] == xs;
  }

  /**
   * Python's `<` on `str`: lexicographic by code point, a proper prefix
   * being smaller.
   */
  predicate Less(a: string, b: string)
    decreases |a|
  {
    if a == [] then b != []
    else if b == [] then false
    else if a[0] != b[0] then a[0] < b[0]
    else Less(a[1..], b[1..])
  }

  lemma {:induction false} LessIrreflexive(a: string)
    ensures !Less(a, a)
    decreases |a|
  {
    if a != [] { LessIrreflexive(a[1..]); }
  }

  lemma {:induction false} LessAsymmetric(a: string, b: string)
    ensures Less(a, b) ==> !Less(b, a)
    decreases |a|
  {
    if a != [] && b != [] && a[0] == b[0] { LessAsymmetric(a[1..], b[1..]); }
  }

  lemma {:induction false} LessTransitive(a: string, b: string, c: string)
    requires Less(a, b) && Less(b, c)
    ensures Less(a, c)
    decreases |a|
  {
    if a != [] && a[0] == b[0] && b[0] == c[0] {
      LessTransitive(a[1..], b[1..], c[1..]);
    }
  }

  lemma {:induction false} LessTotal(a: string, b: string)
    ensures a == b || Less(a, b) || Less(b, a)
    decreases |a|
  {
    if a != [] && b != [] && a[0] == b[0] {
      LessTotal(a[1..], b[1..]);
      if a[1..] == b[1..] {
        assert a == [a[0]] + a[1..] && b == [b[0]] + b[1..];
      }
    }
  }

  function DigitChar(d: nat): (c: char)
    requires d < 10
    ensures '0' <= c <= '9' && (c as int) - ('0' as int) == d
  {
    (('0' as int) + d) as char
  }

  /** Decimal value of a string of digits. */
  function DecimalValue(s: string): nat
    requires forall k :: 0 <= k < |s| ==> '0' <= s[k] <= '9'
  {
    if s == [] then 0
    else 10 * DecimalValue(s[..|s| - 1]) + ((s[|s| - 1] as int) - ('0' as int))
  }

  /** `str(n)` for a non-negative integer. */
  function NatToString(n: nat): (r: string)
    ensures |r| >= 1
    ensures forall k :: 0 <= k < |r| ==> '0' <= r[k] <= '9'
    ensures n > 0 ==> r[0] != '0'
  {
    if n < 10 then [DigitChar(n)] else NatToString(n / 10) + [DigitChar(n % 10)]
  }

  lemma DecimalValueSnoc(s: string, d: nat)
    requires d < 10
    requires forall k :: 0 <= k < |s| ==> '0' <= s[k] <= '9'
    ensures DecimalValue(s + [DigitChar(d)]) == 10 * DecimalValue(s) + d
  {
    var t := s + [DigitChar(d)];
    assert t[..|t| - 1] == s;
  }

  /** The decimal rendering reads back as the number it renders. */
  lemma {:induction false} NatToStringValue(n: nat)
    ensures DecimalValue(NatToString(n)) == n
  {
    if n >= 10 {
      var q, d := n / 10, n % 10;
      NatToStringValue(q);
      assert NatToString(n) == NatToString(q) + [DigitChar(d)];
      DecimalValueSnoc(NatToString(q), d);
    }
  }

  /** `str(i)` for any integer. */
  function IntToString(i: int): (r: string)
    ensures |r| >= 1
    ensures (r[0] == '-') <==> i < 0
  {
    if i < 0 then "-" + NatToString(-i) else NatToString(i)
  }
}
