/**
 The Python string operations the converter relies on, restated over
 Dafny strings: `str.isspace`, `str.strip`, `str.split(sep)`,
 `str.join`, `str.split(sep, 1)`, `str.lower` on ASCII letters,
 `int(str)` and `str(int)`.
 */
module Text {
  import opened Wrappers

  /** Python's `str.isspace()` for one character: the ASCII controls
      TAB..CR and FS..US, the space, and the Unicode separators. */
  predicate IsSpace(c: char) {
    var n := c as int;
    || (0x09 <= n <= 0x0D) || (0x1C <= n <= 0x20)
    || n == 0x85 || n == 0xA0 || n == 0x1680
    || (0x2000 <= n <= 0x200A) || n == 0x2028 || n == 0x2029
    || n == 0x202F || n == 0x205F || n == 0x3000
  }

  /** Every character of `s` is white space (this includes the empty
      string): exactly when `s.strip()` is falsy. */
  predicate AllSpace(s: string) {
    forall i :: 0 <= i < |s| ==> IsSpace(s[i])
  }

  /** Neither end of `s` is white space: what `strip` leaves behind. */
  predicate IsStripped(s: string) {
    s == [] || (!IsSpace(s[0]) && !IsSpace(s[|s| - 1]))
  }

  /** Number of white-space characters at the front of `s`. */
  function LeadingSpaces(s: string): (n: nat)
    ensures n <= |s|
    ensures forall i :: 0 <= i < n ==> IsSpace(s[i])
    ensures n < |s| ==> !IsSpace(s[n])
  {
    if s == [] || !IsSpace(s[0]) then 0 else 1 + LeadingSpaces(s[1..])
  }

  /** Number of white-space characters at the back of `s`. */
  function TrailingSpaces(s: string): (n: nat)
    ensures n <= |s|
    ensures forall i :: |s| - n <= i < |s| ==> IsSpace(s[i])
    ensures n < |s| ==> !IsSpace(s[|s| - 1 - n])
  {
    if s == [] || !IsSpace(s[|s| - 1]) then 0 else 1 + TrailingSpaces(s[..|s| - 1])
  }

  /** Python's `s.strip()`: no white space is left at either end, and
      nothing is left of a string of white space alone. */
  function Strip(s: string): (r: string)
    ensures IsStripped(r)
    ensures r == [] <==> AllSpace(s)
  {
    var a := LeadingSpaces(s);
    if a == |s| then
      assert s[..a] == s && s[a..a] == [];
      []
    else
      var b := |s| - TrailingSpaces(s);
      assert a < b;
      assert s[a] == s[a..b][0];
      s[a..b]
  }

  /** What `strip` returns is the slice of `s` left between a white-space
      prefix and a white-space suffix. */
  lemma StripIsSlice(s: string)
    ensures exists i, j :: 0 <= i <= j <= |s| && Strip(s) == s[i..j] && AllSpace(s[..i]) && AllSpace(s[j..])
  {
    var a := LeadingSpaces(s);
    if a == |s| {
      assert Strip(s) == s[a..a] && s[..a] == s;
    } else {
      var b := |s| - TrailingSpaces(s);
      assert Strip(s) == s[a..b];
    }
  }

  /** Stripping a string that is already stripped changes nothing. */
  lemma StripStripped(s: string)
    requires IsStripped(s)
    ensures Strip(s) == s
  {
    if s != [] {
      assert LeadingSpaces(s) == 0;
      assert TrailingSpaces(s) == 0;
      assert s[0..|s|] == s;
    }
  }

  /** `strip` is idempotent. */
  lemma StripIdempotent(s: string)
    ensures Strip(Strip(s)) == Strip(s)
  {
    StripStripped(Strip(s));
  }

  /** White space added around a stripped string is removed again. */
  lemma {:induction false} StripPadded(pre: string, s: string, post: string)
    requires AllSpace(pre) && AllSpace(post) && IsStripped(s) && s != []
    ensures Strip(pre + s + post) == s
  {
    var t := pre + s + post;
    var a := LeadingSpaces(t);
    assert t[|pre|] == s[0];
    assert a == |pre|;
    var m := TrailingSpaces(t);
    assert t[|pre| + |s| - 1] == s[|s| - 1];
    assert m == |post|;
    assert t[a..|t| - m] == s;
  }

  /** Python's `sep.join(parts)`. */
  function Join(parts: seq<string>, sep: char): string
  {
    if parts == [] then []
    else if |parts| == 1 then parts[0]
    else parts[0] + [sep] + Join(parts[1..], sep)
  }

  /** Python's `s.split(sep)` with an explicit separator: always at least
      one piece, no piece holds the separator, and joining the pieces
      with the separator gives `s` back. */
  function Split(s: string, sep: char): (r: seq<string>)
    ensures |r| >= 1
    ensures forall i :: 0 <= i < |r| ==> sep !in r[i]
    ensures Join(r, sep) == s
    decreases |s|
  {
    if s == [] then [[]]
    else if s[0] == sep then
      var rest := Split(s[1..], sep);
      assert s == [] + [sep] + Join(rest, sep);
      [[]] + rest
    else
      var rest := Split(s[1..], sep);
      var r := [[s[0]] + rest[0]] + rest[1..];
      assert Join(r, sep) == s by {
        if |rest| == 1 {
          assert Join(r, sep) == [s[0]] + Join(rest, sep);
        } else {
          assert Join(rest, sep) == rest[0] + [sep] + Join(rest[1..], sep);
          assert r[1..] == rest[1..];
          assert Join(r, sep) == [s[0]] + rest[0] + [sep] + Join(rest[1..], sep);
        }
      }
      r
  }

  /** A piece free of the separator splits to itself. */
  lemma {:induction false} SplitPiece(p: string, sep: char)
    requires sep !in p
    ensures Split(p, sep) == [p]
    decreases |p|
  {
    if p != [] {
      assert p[0] != sep;
      SplitPiece(p[1..], sep);
      assert [p[0]] + p[1..] == p;
    }
  }

  /** A separator-free piece followed by the separator starts a new split. */
  lemma {:induction false} SplitAfterPiece(p: string, sep: char, tail: string)
    requires sep !in p
    ensures Split(p + [sep] + tail, sep) == [p] + Split(tail, sep)
    decreases |p|
  {
    var s := p + [sep] + tail;
    if p == [] {
      assert s[1..] == tail;
    } else {
      assert s[0] == p[0] && p[0] != sep;
      assert s[1..] == p[1..] + [sep] + tail;
      SplitAfterPiece(p[1..], sep, tail);
      assert [p[0]] + p[1..] == p;
    }
  }

  /** `split` undoes `join` when no part holds the separator. */
  lemma {:induction false} SplitJoin(parts: seq<string>, sep: char)
    requires |parts| >= 1
    requires forall i :: 0 <= i < |parts| ==> sep !in parts[i]
    ensures Split(Join(parts, sep), sep) == parts
    decreases |parts|
  {
    if |parts| == 1 {
      SplitPiece(parts[0], sep);
    } else {
      SplitJoin(parts[1..], sep);
      SplitAfterPiece(parts[0], sep, Join(parts[1..], sep));
      assert [parts[0]] + parts[1..] == parts;
    }
  }

  /** Index of the first occurrence of `c` in `s`. */
  function FirstIndex(s: string, c: char): (i: nat)
    requires c in s
    ensures i < |s| && s[i] == c && c !in s[..i]
  {
    if s[0] == c then 0
    else
      var k := FirstIndex(s[1..], c);
      assert s[..k + 1] == [s[0]] + s[1..][..k];
      k + 1
  }

  /** Python's `s.split(c, 1)` when `c` occurs in `s`: the text before the
      first `c` and everything after it. */
  function SplitOnce(s: string, c: char): (r: (string, string))
    requires c in s
    ensures r.0 + [c] + r.1 == s
    ensures c !in r.0
  {
    var i := FirstIndex(s, c);
    assert s[..i] + [c] + s[i + 1..] == s;
    (s[..i], s[i + 1..])
  }

  /** The split point is the first separator, so a key free of `c`
      is recovered together with a value that may hold more `c`. */
  lemma SplitOnceOf(k: string, c: char, v: string)
    requires c !in k
    ensures SplitOnce(k + [c] + v, c) == (k, v)
  {
    var s := k + [c] + v;
    var i := FirstIndex(s, c);
    assert forall j :: 0 <= j < |k| ==> s[j] == k[j];
    assert s[|k|] == c;
    assert i >= |k|;
    assert forall j :: 0 <= j < i ==> s[..i][j] == s[j];
    assert i == |k|;
    assert s[..i] == k && s[i + 1..] == v;
  }

  predicate IsUpper(c: char) { 'A' <= c <= 'Z' }

  /** Lower-case form of one character (ASCII letters only). */
  function LowerChar(c: char): char
  {
    if IsUpper(c) then (c as int + 32) as char else c
  }

  /** Python's `s.lower()` restricted to ASCII letters. */
  function Lower(s: string): (r: string)
    ensures |r| == |s|
    ensures forall i :: 0 <= i < |s| ==> !IsUpper(r[i]) && SameIgnoringCase(s[i], r[i])
  {
    seq(|s|, i requires 0 <= i < |s| => LowerChar(s[i]))
  }

  /** Two characters are the same letter up to ASCII case. */
  predicate SameIgnoringCase(c: char, d: char) {
    || c == d
    || (IsUpper(c) && d as int == c as int + 32)
    || (IsUpper(d) && c as int == d as int + 32)
  }

  /** Case-insensitive comparison, defined character by character. */
  predicate EqualsIgnoringCase(s: string, t: string) {
    |s| == |t| && forall i :: 0 <= i < |s| ==> SameIgnoringCase(s[i], t[i])
  }

  /** Comparing `s.lower()` with a lower-case word is exactly a
      case-insensitive comparison with that word. */
  lemma LowerMatches(s: string, w: string)
    requires forall i :: 0 <= i < |w| ==> !IsUpper(w[i])
    ensures Lower(s) == w <==> EqualsIgnoringCase(s, w)
  {
    if EqualsIgnoringCase(s, w) {
      forall i | 0 <= i < |s| ensures Lower(s)[i] == w[i] {
        assert SameIgnoringCase(s[i], w[i]);
      }
    }
    if Lower(s) == w {
      forall i | 0 <= i < |s| ensures SameIgnoringCase(s[i], w[i]) {
        assert LowerChar(s[i]) == w[i];
      }
    }
  }

  predicate IsDigit(c: char) { '0' <= c <= '9' }

  predicate AllDigits(s: string) {
    forall i :: 0 <= i < |s| ==> IsDigit(s[i])
  }

  /** The decimal value of a string of ASCII digits. */
  function DigitsValue(d: string): nat
    requires AllDigits(d)
  {
    if d == [] then 0
    else DigitsValue(d[..|d| - 1]) * 10 + (d[|d| - 1] as int - '0' as int)
  }

  /** The white space `int()` skips around its digits. `int()` turns
      non-ASCII white space into a space and then skips only TAB..CR and
      the space among ASCII characters, so FS..US (U+001C..U+001F), which
      `str.isspace()` accepts, are not skipped. */
  predicate IsIntSpace(c: char) {
    IsSpace(c) && !(0x1C <= c as int <= 0x1F)
  }

  predicate AllIntSpace(s: string) {
    forall i :: 0 <= i < |s| ==> IsIntSpace(s[i])
  }

  /** Number of characters `int()` skips at the front of `s`. */
  function IntLeading(s: string): (n: nat)
    ensures n <= |s|
    ensures forall i :: 0 <= i < n ==> IsIntSpace(s[i])
    ensures n < |s| ==> !IsIntSpace(s[n])
  {
    if s == [] || !IsIntSpace(s[0]) then 0 else 1 + IntLeading(s[1..])
  }

  /** Number of characters `int()` skips at the back of `s`. */
  function IntTrailing(s: string): (n: nat)
    ensures n <= |s|
    ensures forall i :: |s| - n <= i < |s| ==> IsIntSpace(s[i])
    ensures n < |s| ==> !IsIntSpace(s[|s| - 1 - n])
  {
    if s == [] || !IsIntSpace(s[|s| - 1]) then 0 else 1 + IntTrailing(s[..|s| - 1])
  }

  /** The text `int()` reads: `s` without the white space it skips. */
  function IntTrim(s: string): (r: string)
    ensures r == [] <==> AllIntSpace(s)
    ensures r != [] ==> !IsIntSpace(r[0]) && !IsIntSpace(r[|r| - 1])
  {
    var a := IntLeading(s);
    if a == |s| then
      assert s[..a] == s;
      []
    else
      var b := |s| - IntTrailing(s);
      assert a < b;
      assert s[a] == s[a..b][0];
      s[a..b]
  }

  /** Python's default limit on the digits `int()` converts from a string
      (`sys.int_info.default_max_str_digits`); longer inputs raise `ValueError`. */
  const MaxStrDigits := 4300

  /** Python's `int(s)` on ASCII digits: skipped white space around an
      optional sign and one to `MaxStrDigits` decimal digits; `None`
      stands for the `ValueError` that `int` raises on anything else. */
  function ParseInt(s: string): Option<int>
  {
    ParseSignedDigits(IntTrim(s))
  }

  /** The part of `int()` after the white space is skipped. */
  function ParseSignedDigits(t: string): Option<int>
  {
    if t == [] then None
    else if t[0] == '-' || t[0] == '+' then
      var d := t[1..];
      if d != [] && AllDigits(d) && |d| <= MaxStrDigits then
        var v: int := DigitsValue(d);
        Some(if t[0] == '-' then -v else v)
      else None
    else if AllDigits(t) && |t| <= MaxStrDigits then Some(DigitsValue(t))
    else None
  }

  /** Skipped white space added around a text that starts and ends with
      something else is skipped again. */
  lemma {:induction false} IntTrimPadded(pre: string, s: string, post: string)
    requires AllIntSpace(pre) && AllIntSpace(post)
    requires s != [] && !IsIntSpace(s[0]) && !IsIntSpace(s[|s| - 1])
    ensures IntTrim(pre + s + post) == s
  {
    var t := pre + s + post;
    assert t[|pre|] == s[0];
    assert IntLeading(t) == |pre|;
    assert t[|pre| + |s| - 1] == s[|s| - 1];
    assert IntTrailing(t) == |post|;
    assert t[|pre|..|t| - |post|] == s;
  }

  /** A text that starts and ends with something other than skipped
      white space is read as it is. */
  lemma IntTrimmed(s: string)
    requires s != [] && !IsIntSpace(s[0]) && !IsIntSpace(s[|s| - 1])
    ensures IntTrim(s) == s
  {
    assert IntLeading(s) == 0;
    assert IntTrailing(s) == 0;
    assert s[0..|s|] == s;
  }

  /** The signs `int()` accepts before the digits: none, `+` or `-`. */
  predicate IsSign(sign: string) {
    sign == "" || sign == "+" || sign == "-"
  }

  /** The value a sign gives to the value of its digits. */
  function Signed(sign: string, v: nat): int {
    var n: int := v;
    if sign == "-" then -n else n
  }

  /** What `IntTrim` keeps is the slice left between two runs of skipped
      white space. */
  lemma IntTrimIsSlice(s: string)
    ensures exists i, j :: 0 <= i <= j <= |s| && IntTrim(s) == s[i..j] && AllIntSpace(s[..i]) && AllIntSpace(s[j..])
  {
    var a := IntLeading(s);
    if a == |s| {
      assert IntTrim(s) == s[a..a] && s[..a] == s;
    } else {
      var b := |s| - IntTrailing(s);
      assert IntTrim(s) == s[a..b];
    }
  }

  lemma ParseIntOfTrim(s: string, t: string)
    requires IntTrim(s) == t
    ensures ParseInt(s) == ParseSignedDigits(t)
  {
  }

  /** The sign and the digits `ParseSignedDigits` reads from `t`. */
  function SignPart(t: string): string {
    if t != [] && (t[0] == '-' || t[0] == '+') then [t[0]] else []
  }

  function DigitPart(t: string): string {
    if t != [] && (t[0] == '-' || t[0] == '+') then t[1..] else t
  }

  /** A sign and one to `MaxStrDigits` digits are read as their value. */
  lemma ParseSignedDigitsAccepts(sign: string, d: string)
    requires IsSign(sign) && d != [] && AllDigits(d) && |d| <= MaxStrDigits
    ensures ParseSignedDigits(sign + d) == Some(Signed(sign, DigitsValue(d)))
  {
    var t := sign + d;
    if sign == "" {
      assert t == d && IsDigit(d[0]);
    } else {
      assert t[0] == sign[0] && t[1..] == d;
    }
  }

  /** What `ParseSignedDigits` accepts is a sign and one to `MaxStrDigits` digits. */
  lemma ParseSignedDigitsSound(t: string)
    requires ParseSignedDigits(t).Some?
    ensures IsSign(SignPart(t)) && t == SignPart(t) + DigitPart(t)
    ensures DigitPart(t) != [] && AllDigits(DigitPart(t)) && |DigitPart(t)| <= MaxStrDigits
    ensures ParseSignedDigits(t) == Some(Signed(SignPart(t), DigitsValue(DigitPart(t))))
  {
    if t[0] == '-' || t[0] == '+' {
      assert t == [t[0]] + t[1..];
    }
  }

  lemma Slices<T>(s: seq<T>, i: nat, j: nat)
    requires i <= j <= |s|
    ensures s == s[..i] + s[i..j] + s[j..]
  {
  }

  lemma Regroup<T>(a: seq<T>, b: seq<T>, c: seq<T>, e: seq<T>)
    ensures a + b + c + e == a + (b + c) + e
  {
  }

  /** Every string `int()` is documented to take is accepted with its
      value: skipped white space, an optional sign, one to `MaxStrDigits`
      ASCII digits (leading zeros included), skipped white space. */
  lemma ParseIntAccepts(pre: string, sign: string, d: string, post: string)
    requires AllIntSpace(pre) && AllIntSpace(post) && IsSign(sign)
    requires d != [] && AllDigits(d) && |d| <= MaxStrDigits
    ensures ParseInt(pre + sign + d + post) == Some(Signed(sign, DigitsValue(d)))
  {
    SignedDigitsEnds(sign, d);
    ParseIntPadded(pre, sign + d, post);
    Regroup(pre, sign, d, post);
    ParseSignedDigitsAccepts(sign, d);
  }

  /** A sign and digits neither start nor end with skipped white space. */
  lemma SignedDigitsEnds(sign: string, d: string)
    requires IsSign(sign) && d != [] && AllDigits(d)
    ensures var t := sign + d; t != [] && !IsIntSpace(t[0]) && !IsIntSpace(t[|t| - 1])
  {
    var t := sign + d;
    assert IsDigit(d[0]) && IsDigit(d[|d| - 1]);
    assert t[|t| - 1] == d[|d| - 1];
    assert t[0] == if sign == "" then d[0] else sign[0];
  }

  /** Skipped white space around a text with other characters at its
      ends does not change what `int()` makes of it. */
  lemma ParseIntPadded(pre: string, t: string, post: string)
    requires AllIntSpace(pre) && AllIntSpace(post)
    requires t != [] && !IsIntSpace(t[0]) && !IsIntSpace(t[|t| - 1])
    ensures ParseInt(pre + t + post) == ParseSignedDigits(t)
  {
    IntTrimPadded(pre, t, post);
    ParseIntOfTrim(pre + t + post, t);
  }

  /** Nothing else is accepted: every string `int()` takes is skipped
      white space, an optional sign, one to `MaxStrDigits` digits and
      skipped white space, and its value is the signed value of the digits. */
  lemma ParseIntSound(s: string)
    ensures ParseInt(s).Some? ==>
      exists pre, sign, d, post ::
        && AllIntSpace(pre) && AllIntSpace(post) && IsSign(sign)
        && d != [] && AllDigits(d) && |d| <= MaxStrDigits
        && s == pre + sign + d + post
        && ParseInt(s) == Some(Signed(sign, DigitsValue(d)))
  {
    if ParseInt(s).Some? {
      var pre, sign, d, post := ParseIntParts(s);
    }
  }

  /** The parts of a string `int()` accepts. */
  lemma ParseIntParts(s: string) returns (pre: string, sign: string, d: string, post: string)
    requires ParseInt(s).Some?
    ensures AllIntSpace(pre) && AllIntSpace(post) && IsSign(sign)
    ensures d != [] && AllDigits(d) && |d| <= MaxStrDigits
    ensures s == pre + sign + d + post
    ensures ParseInt(s) == Some(Signed(sign, DigitsValue(d)))
  {
    IntTrimIsSlice(s);
    var i, j :| 0 <= i <= j <= |s| && IntTrim(s) == s[i..j] && AllIntSpace(s[..i]) && AllIntSpace(s[j..]);
    var t := s[i..j];
    ParseIntOfTrim(s, t);
    ParseSignedDigitsSound(t);
    pre, sign, d, post := s[..i], SignPart(t), DigitPart(t), s[j..];
    Slices(s, i, j);
    Regroup(pre, sign, d, post);
  }

  /** `int()` rejects a run of more than `MaxStrDigits` digits. */
  lemma ParseIntTooManyDigits(d: string)
    requires AllDigits(d) && |d| > MaxStrDigits
    ensures ParseInt(d) == None
  {
    assert IsDigit(d[0]) && IsDigit(d[|d| - 1]);
    IntTrimmed(d);
  }

  /** `int()` does not skip the ASCII separators FS..US: a number behind
      one is rejected, although `strip()` would remove it. */
  lemma ParseIntSeparatorPadding()
    ensures Strip("\U{1C}45") == "45"
    ensures ParseInt("\U{1C}45") == None
  {
    var s := "\U{1C}45";
    assert !IsIntSpace(s[0]) && !IsIntSpace(s[|s| - 1]);
    IntTrimmed(s);
    assert IsSpace(s[0]) && !IsSpace(s[1]);
    StripPadded([s[0]], "45", []);
    assert [s[0]] + "45" + [] == s;
  }

  function DigitChar(k: nat): char
    requires k < 10
  {
    ('0' as int + k) as char
  }

  /** Python's `str(n)` for a natural number: its shortest decimal digits. */
  function ShowNat(n: nat): (r: string)
    ensures r != [] && AllDigits(r) && DigitsValue(r) == n
    ensures n >= 10 ==> r[0] != '0'
  {
    if n < 10 then [DigitChar(n)]
    else
      var r := ShowNat(n / 10) + [DigitChar(n % 10)];
      assert r[..|r| - 1] == ShowNat(n / 10);
      r
  }

  /** Python's `str(n)` for an integer. */
  function ShowInt(n: int): string
  {
    if n < 0 then "-" + ShowNat(-n) else ShowNat(n)
  }

  /** `int(str(n)) == n` for every integer, negative and zero included,
      whose digits are within `int()`'s limit. */
  lemma ParseShowInt(n: int)
    requires |ShowNat(if n < 0 then -n else n)| <= MaxStrDigits
    ensures ParseInt(ShowInt(n)) == Some(n)
  {
    var s := ShowInt(n);
    ShowIntStripped(n);
    if n < 0 {
      assert s[1..] == ShowNat(-n);
    }
    IntTrimmed(s);
  }

  /** `str(n)` is never empty and has no white space at either end. */
  lemma ShowIntStripped(n: int)
    ensures ShowInt(n) != [] && IsStripped(ShowInt(n))
    ensures !IsIntSpace(ShowInt(n)[0]) && !IsIntSpace(ShowInt(n)[|ShowInt(n)| - 1])
  {
    var s := ShowInt(n);
    var d := ShowNat(if n < 0 then -n else n);
    assert IsDigit(d[0]) && IsDigit(d[|d| - 1]);
    if n < 0 {
      assert s[|s| - 1] == d[|d| - 1];
    }
  }
}
