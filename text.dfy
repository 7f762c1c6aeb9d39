/** The few pieces of Python string behaviour the pipeline relies on:
    `str()` of a non-negative int, `str.zfill`, `str.strip`, the role splitter
    `re.split(r"[~\r\n,]+", ...)` and the ordering `<` on `str`. */
module Text {

  // ---------------------------------------------------------------- digits

  predicate IsDigit(c: char) { '0' <= c <= '9' }

  predicate IsDigits(s: string) { forall i :: 0 <= i < |s| ==> IsDigit(s[i]) }

  function DigitValue(c: char): nat
    requires IsDigit(c)
  {
    c as int - '0' as int
  }

  function DigitChar(d: nat): (c: char)
    requires d < 10
    ensures IsDigit(c) && DigitValue(c) == d
  {
    ('0' as int + d) as char
  }

  /** Python's `str(n)` for `n >= 0`: decimal, no leading zero. */
  function NatToString(n: nat): (r: string)
    ensures IsDigits(r) && 1 <= |r|
    ensures |r| > 1 ==> r[0] != '0'
  {
    if n < 10 then [DigitChar(n)] else NatToString(n / 10) + [DigitChar(n % 10)]
  }

  /** The value of a string of decimal digits (the empty string reads as 0). */
  function ParseDigits(s: string): nat
    requires IsDigits(s)
  {
    if s == [] then 0 else ParseDigits(s[..|s| - 1]) * 10 + DigitValue(s[|s| - 1])
  }

  /** Reading back what `str()` wrote gives the number again. */
  lemma {:induction false} ParseNatToString(n: nat)
    ensures ParseDigits(NatToString(n)) == n
  {
    if n >= 10 {
      var s := NatToString(n / 10);
      ParseNatToString(n / 10);
      assert (s + [DigitChar(n % 10)])[..|s|] == s;
    }
  }

  /** A smaller number never needs more digits. */
  lemma {:induction false} NatToStringLengthMonotone(m: nat, n: nat)
    requires m <= n
    ensures |NatToString(m)| <= |NatToString(n)|
  {
    if m >= 10 {
      NatToStringLengthMonotone(m / 10, n / 10);
    }
  }

  // ----------------------------------------------------------------- zfill

  function Zeros(k: nat): (z: string)
    ensures |z| == k && IsDigits(z)
  {
    seq(k, _ => '0')
  }

  predicate IsSigned(s: string) { |s| > 0 && (s[0] == '+' || s[0] == '-') }

  /** Python's `s.zfill(width)`: pads with '0' on the left up to `width`,
      keeping a leading sign in front of the zeros. */
  function ZFill(s: string, width: int): (r: string)
    ensures |r| == if |s| >= width then |s| else width
    ensures !IsSigned(s) ==> r[|r| - |s|..] == s && r[..|r| - |s|] == Zeros(|r| - |s|)
    ensures IsSigned(s) ==>
      r[0] == s[0] && r[|r| - |s| + 1..] == s[1..] && r[1..|r| - |s| + 1] == Zeros(|r| - |s|)
  {
    if |s| >= width then s
    else if IsSigned(s) then [s[0]] + Zeros(width - |s|) + s[1..]
    else Zeros(width - |s|) + s
  }

  lemma {:induction false} ParseZeros(k: nat)
    ensures ParseDigits(Zeros(k)) == 0
  {
    if k > 0 {
      assert Zeros(k)[..k - 1] == Zeros(k - 1);
      ParseZeros(k - 1);
    }
  }

  /** Leading zeros do not change the value of a digit string. */
  lemma {:induction false} ParseLeadingZeros(k: nat, s: string)
    requires IsDigits(s)
    ensures IsDigits(Zeros(k) + s) && ParseDigits(Zeros(k) + s) == ParseDigits(s)
    decreases |s|
  {
    var z := Zeros(k) + s;
    if s == [] {
      assert z == Zeros(k);
      ParseZeros(k);
    } else {
      assert z[..|z| - 1] == Zeros(k) + s[..|s| - 1];
      ParseLeadingZeros(k, s[..|s| - 1]);
    }
  }

  /** Padding an unsigned number with `zfill` keeps its value and gives exactly
      `max(len, width)` digits. */
  lemma ZFillKeepsValue(s: string, width: int)
    requires IsDigits(s)
    ensures IsDigits(ZFill(s, width))
    ensures ParseDigits(ZFill(s, width)) == ParseDigits(s)
  {
    if |s| < width {
      assert ZFill(s, width) == Zeros(width - |s|) + s;
      ParseLeadingZeros(width - |s|, s);
    }
  }

  /** The zero-padded index used for page image names: reading it back gives
      the index, so two different indices never get the same padding. */
  lemma PaddedIndexValue(i: nat, width: int)
    ensures IsDigits(ZFill(NatToString(i), width))
    ensures ParseDigits(ZFill(NatToString(i), width)) == i
  {
    ZFillKeepsValue(NatToString(i), width);
    ParseNatToString(i);
  }

  // ----------------------------------------------------------------- strip

  /** Python's `str.isspace` for one code point. */
  predicate IsSpace(c: char) {
    (9 <= c as int <= 13) || (28 <= c as int <= 32) || c as int == 0x85 || c as int == 0xA0
    || c as int == 0x1680 || (0x2000 <= c as int <= 0x200A) || c as int == 0x2028
    || c as int == 0x2029 || c as int == 0x202F || c as int == 0x205F || c as int == 0x3000
  }

  function StripLeft(s: string): (r: string)
    ensures |r| <= |s| && r == s[|s| - |r|..]
    ensures forall k :: 0 <= k < |s| - |r| ==> IsSpace(s[k])
    ensures r == [] || !IsSpace(r[0])
  {
    if s != [] && IsSpace(s[0]) then StripLeft(s[1..]) else s
  }

  function StripRight(s: string): (r: string)
    ensures |r| <= |s| && r == s[..|r|]
    ensures forall k :: |r| <= k < |s| ==> IsSpace(s[k])
    ensures r == [] || !IsSpace(r[|r| - 1])
  {
    if s != [] && IsSpace(s[|s| - 1]) then StripRight(s[..|s| - 1]) else s
  }

  /** How many whitespace characters `strip` cuts from the front of `s`. */
  function LeadingSpaces(s: string): (n: nat)
    ensures n <= |s| && forall k :: 0 <= k < n ==> IsSpace(s[k])
  {
    |s| - |StripLeft(s)|
  }

  /** Python's `s.strip()`: the result is the slice of `s` after its leading
      whitespace, neither starting nor ending with whitespace, and only
      whitespace was cut off its end. */
  function Strip(s: string): (r: string)
    ensures LeadingSpaces(s) + |r| <= |s| && r == s[LeadingSpaces(s)..LeadingSpaces(s) + |r|]
    ensures forall k :: LeadingSpaces(s) + |r| <= k < |s| ==> IsSpace(s[k])
    ensures r == [] || (!IsSpace(r[0]) && !IsSpace(r[|r| - 1]))
  {
    StripRight(StripLeft(s))
  }

  lemma StripIdempotent(s: string)
    ensures Strip(Strip(s)) == Strip(s)
  {
    var t := Strip(s);
    assert StripLeft(t) == t;
    assert StripRight(t) == t;
  }

  // ------------------------------------------------------------ role split

  /** The character class of `[~\r\n,]+`. */
  predicate IsRoleSep(c: char) { c == '~' || c == '\r' || c == '\n' || c == ',' }

  predicate NoRoleSep(s: string) { forall k :: 0 <= k < |s| ==> !IsRoleSep(s[k]) }

  /** Index of the first separator in `s`, or `|s|` if there is none. */
  function FindSep(s: string): (i: nat)
    ensures i <= |s| && NoRoleSep(s[..i])
    ensures i < |s| ==> IsRoleSep(s[i])
  {
    if s == [] || IsRoleSep(s[0]) then 0
    else
      var j := FindSep(s[1..]);
      assert s[..j + 1] == [s[0]] + s[1..][..j];
      1 + j
  }

  /** Length of the run of separators at the start of `s`. */
  function SepRun(s: string): (n: nat)
    ensures n <= |s|
    ensures forall k :: 0 <= k < n ==> IsRoleSep(s[k])
    ensures n < |s| ==> !IsRoleSep(s[n])
    ensures s != [] && IsRoleSep(s[0]) ==> n >= 1
  {
    if s != [] && IsRoleSep(s[0]) then 1 + SepRun(s[1..]) else 0
  }

  predicate AllRoleSep(s: string) { forall k :: 0 <= k < |s| ==> IsRoleSep(s[k]) }

  /** The maximal runs of separators in `s`, left to right. */
  function SepRuns(s: string): (r: seq<string>)
    ensures forall k :: 0 <= k < |r| ==> r[k] != [] && AllRoleSep(r[k])
    decreases |s|
  {
    var i := FindSep(s);
    if i == |s| then []
    else
      var j := i + SepRun(s[i..]);
      [s[i..j]] + SepRuns(s[j..])
  }

  /** The pieces with the runs between them: piece, run, piece, ..., piece. */
  function Interleave(pieces: seq<string>, runs: seq<string>): string
    requires |pieces| == |runs| + 1
  {
    if |runs| == 0 then pieces[0]
    else pieces[0] + runs[0] + Interleave(pieces[1..], runs[1..])
  }

  lemma InterleaveFront(piece: string, run: string, pieces: seq<string>, runs: seq<string>)
    requires |pieces| == |runs| + 1
    ensures Interleave([piece] + pieces, [run] + runs) == piece + run + Interleave(pieces, runs)
  {
    assert ([piece] + pieces)[1..] == pieces;
    assert ([run] + runs)[1..] == runs;
  }

  /** `re.split(r"[~\r\n,]+", s)`: the pieces between maximal runs of
      separators, with an empty first (last) piece when `s` starts (ends)
      with a separator. */
  function SplitRoles(s: string): (r: seq<string>)
    ensures |r| >= 1
    ensures forall k :: 0 <= k < |r| ==> NoRoleSep(r[k])
    ensures forall k :: 0 < k < |r| - 1 ==> r[k] != []
    ensures NoRoleSep(s) ==> r == [s]
    ensures r[0] == s[..FindSep(s)]
    decreases |s|
  {
    var i := FindSep(s);
    if i == |s| then
      assert s[..i] == s;
      [s]
    else
      var rest := s[i..];
      var j := i + SepRun(rest);
      var tail := SplitRoles(s[j..]);
      assert j < |s| ==> FindSep(s[j..]) >= 1;
      [s[..i]] + tail
  }

  /** Nothing is lost by the split: the pieces, put back together with the
      separator runs they were cut at, give `s` again. With the pieces free
      of separators and the runs non-empty and maximal, this decides the
      pieces for every input. */
  lemma {:induction false} SplitRolesRebuilds(s: string)
    ensures |SepRuns(s)| == |SplitRoles(s)| - 1
    ensures Interleave(SplitRoles(s), SepRuns(s)) == s
    decreases |s|
  {
    var i := FindSep(s);
    if i == |s| {
      assert s[..i] == s;
    } else {
      var j := i + SepRun(s[i..]);
      assert j < |s| ==> FindSep(s[j..]) >= 1;
      SplitRolesRebuilds(s[j..]);
      var rest := s[i..];
      assert j == i + SepRun(rest);
      assert SplitRoles(s) == [s[..i]] + SplitRoles(s[j..]);
      assert SepRuns(s) == [s[i..j]] + SepRuns(s[j..]);
      InterleaveFront(s[..i], s[i..j], SplitRoles(s[j..]), SepRuns(s[j..]));
      SliceThree(s, i, j);
    }
  }

  lemma SliceThree(s: string, i: nat, j: nat)
    requires i <= j <= |s|
    ensures s[..i] + s[i..j] + s[j..] == s
  {
  }

  function Join(pieces: seq<string>, sep: string): string
  {
    if pieces == [] then [] else if |pieces| == 1 then pieces[0]
    else pieces[0] + sep + Join(pieces[1..], sep)
  }

  /** Pieces that contain no separator and, apart from the first and the last,
      are non-empty, come back unchanged from the splitter after being joined
      with ",". */
  lemma {:induction false} SplitJoinRoundTrip(pieces: seq<string>)
    requires |pieces| >= 1
    requires forall k :: 0 <= k < |pieces| ==> NoRoleSep(pieces[k])
    requires forall k :: 0 < k < |pieces| - 1 ==> pieces[k] != []
    ensures SplitRoles(Join(pieces, ",")) == pieces
  {
    if |pieces| > 1 {
      var t := Join(pieces[1..], ",");
      if |pieces| > 2 {
        JoinStartsWithFirst(pieces[1..]);
      }
      SplitAfterPiece(pieces[0], t);
      SplitJoinRoundTrip(pieces[1..]);
      assert pieces == [pieces[0]] + pieces[1..];
    }
  }

  /** One piece followed by "," and a string that does not start with a
      separator splits into that piece and the split of the rest. */
  lemma SplitAfterPiece(p: string, t: string)
    requires NoRoleSep(p)
    requires t == [] || !IsRoleSep(t[0])
    ensures SplitRoles(p + "," + t) == [p] + SplitRoles(t)
  {
    var s := p + "," + t;
    FindSepAfterPiece(p, "," + t);
    assert s == p + ("," + t);
    assert s[..|p|] == p;
    assert s[|p|..] == "," + t;
    assert SepRun(s[|p|..]) == 1 by {
      assert ("," + t)[1..] == t;
    }
    assert s[|p| + 1..] == t;
  }

  lemma {:induction false} FindSepAfterPiece(p: string, t: string)
    requires NoRoleSep(p)
    requires t != [] && IsRoleSep(t[0])
    ensures FindSep(p + t) == |p|
    decreases |p|
  {
    if p != [] {
      assert (p + t)[1..] == p[1..] + t;
      FindSepAfterPiece(p[1..], t);
    } else {
      assert p + t == t;
    }
  }

  lemma {:induction false} JoinStartsWithFirst(pieces: seq<string>)
    requires |pieces| >= 1 && pieces[0] != []
    ensures Join(pieces, ",") != [] && Join(pieces, ",")[0] == pieces[0][0]
  {
  }

  /** Python's `a.strip()` applied to every piece of the split. */
  function StrippedRoles(roles: string): (r: seq<string>)
    ensures |r| == |SplitRoles(roles)|
    ensures forall k :: 0 <= k < |r| ==> r[k] == Strip(SplitRoles(roles)[k])
  {
    var pieces := SplitRoles(roles);
    seq(|pieces|, k requires 0 <= k < |pieces| => Strip(pieces[k]))
  }

  // -------------------------------------------------------------- ordering

  /** Python's `a <= b` on `str`: lexicographic by code point, a proper
      prefix sorting first. */
  predicate StrLe(a: string, b: string)
    decreases |a|
  {
    a == [] || (b != [] && (a[0] < b[0] || (a[0] == b[0] && StrLe(a[1..], b[1..]))))
  }

  predicate StrLt(a: string, b: string) { StrLe(a, b) && a != b }

  lemma {:induction false} StrLeTotal(a: string, b: string)
    ensures StrLe(a, b) || StrLe(b, a)
    decreases |a|
  {
    if a != [] && b != [] && a[0] == b[0] {
      StrLeTotal(a[1..], b[1..]);
    }
  }

  lemma {:induction false} StrLeTransitive(a: string, b: string, c: string)
    requires StrLe(a, b) && StrLe(b, c)
    ensures StrLe(a, c)
    decreases |a|
  {
    if a != [] && a[0] == b[0] && b[0] == c[0] {
      StrLeTransitive(a[1..], b[1..], c[1..]);
    }
  }

  lemma {:induction false} StrLeAntisymmetric(a: string, b: string)
    requires StrLe(a, b) && StrLe(b, a)
    ensures a == b
    decreases |a|
  {
    if a != [] {
      StrLeAntisymmetric(a[1..], b[1..]);
      assert a == [a[0]] + a[1..] && b == [b[0]] + b[1..];
    }
  }
}
