/**
 * The operations of Go's `strings` package that the build-matrix engine uses:
 * `Contains`, `TrimSpace`, `ToLower` and indexing into `Split(s, "/")`.
 */
module Text {

  /** `strings.HasPrefix(s, pre)`. */
  predicate IsPrefix(pre: string, s: string)
  {
    |pre| <= |s| && s[..|pre|] == pre
  }

  /** `strings.Contains(s, sub)`: `sub` occurs somewhere in `s`; the empty string occurs everywhere. */
  predicate Contains(s: string, sub: string)
    decreases |s|
  {
    IsPrefix(sub, s) || (|s| > 0 && Contains(s[1..], sub))
  }

  /** `sub` sits in `s` at offset `i`. */
  predicate OccursAt(s: string, sub: string, i: int)
  {
    0 <= i <= |s| - |sub| && s[i..i + |sub|] == sub
  }

  /** `Contains` is exactly "some slice of `s` equals `sub`". */
  lemma {:induction false} ContainsIff(s: string, sub: string)
    ensures Contains(s, sub) <==> exists i :: OccursAt(s, sub, i)
    decreases |s|
  {
    if IsPrefix(sub, s) {
      assert OccursAt(s, sub, 0);
    } else if |s| > 0 {
      ContainsIff(s[1..], sub);
      if Contains(s[1..], sub) {
        var i :| OccursAt(s[1..], sub, i);
        assert s[i + 1..i + 1 + |sub|] == s[1..][i..i + |sub|];
        assert OccursAt(s, sub, i + 1);
      }
      if exists i :: OccursAt(s, sub, i) {
        var i :| OccursAt(s, sub, i);
        if i > 0 {
          assert s[1..][i - 1..i - 1 + |sub|] == s[i..i + |sub|];
          assert OccursAt(s[1..], sub, i - 1);
        }
      }
    }
  }

  /** Every string contains the empty string and itself. */
  lemma ContainsTrivial(s: string)
    ensures Contains(s, "") && Contains(s, s)
  {
    assert IsPrefix("", s);
    assert IsPrefix(s, s);
  }

  /** Go's `unicode.IsSpace`, which `strings.TrimSpace` strips at both ends. */
  predicate IsSpace(c: char)
  {
    var n := c as int;
    (0x09 <= n <= 0x0D) || n == 0x20 || n == 0x85 || n == 0xA0 || n == 0x1680
    || (0x2000 <= n <= 0x200A) || n == 0x2028 || n == 0x2029 || n == 0x202F
    || n == 0x205F || n == 0x3000
  }

  /** Where the white space that starts `s[from..]` ends. */
  function SkipSpace(s: string, from: nat): (i: nat)
    requires from <= |s|
    ensures from <= i <= |s|
    ensures forall k :: from <= k < i ==> IsSpace(s[k])
    ensures i < |s| ==> !IsSpace(s[i])
    decreases |s| - from
  {
    if from < |s| && IsSpace(s[from]) then SkipSpace(s, from + 1) else from
  }

  /** Where the white space that ends `s[lo..hi]` begins. */
  function SkipSpaceBack(s: string, lo: nat, hi: nat): (j: nat)
    requires lo <= hi <= |s|
    ensures lo <= j <= hi
    ensures forall k :: j <= k < hi ==> IsSpace(s[k])
    ensures lo < j ==> !IsSpace(s[j - 1])
    decreases hi
  {
    if lo < hi && IsSpace(s[hi - 1]) then SkipSpaceBack(s, lo, hi - 1) else hi
  }

  /** `r` is the part of `s` at `i` left between a run of white space at each end. */
  predicate TrimmedAt(r: string, s: string, i: int)
  {
    && 0 <= i <= |s| - |r| && r == s[i..i + |r|]
    && (forall k :: 0 <= k < i ==> IsSpace(s[k]))
    && (forall k :: i + |r| <= k < |s| ==> IsSpace(s[k]))
    && (r != [] ==> !IsSpace(r[0]) && !IsSpace(r[|r| - 1]))
  }

  /** `r` is `s` with a maximal run of white space removed from each end. */
  ghost predicate TrimmedFrom(r: string, s: string)
  {
    exists i :: TrimmedAt(r, s, i)
  }

  /** `strings.TrimSpace`: drop the leading white space, then the trailing white space. */
  function TrimSpace(s: string): (r: string)
    ensures TrimmedFrom(r, s)
  {
    var i := SkipSpace(s, 0);
    var j := SkipSpaceBack(s, i, |s|);
    assert TrimmedAt(s[i..j], s, i);
    s[i..j]
  }

  /** ASCII case folding of one character. */
  function LowerChar(c: char): char
  {
    if 'A' <= c <= 'Z' then (c as int + 32) as char else c
  }

  /** `strings.ToLower`, on ASCII letters. */
  function ToLower(s: string): (r: string)
    ensures |r| == |s|
    ensures forall k :: 0 <= k < |s| ==> r[k] == LowerChar(s[k])
  {
    seq(|s|, k requires 0 <= k < |s| => LowerChar(s[k]))
  }

  /** `a` and `b` are the same character, or the same ASCII letter in upper and lower case. */
  predicate SameLetterIgnoringCase(a: char, b: char)
  {
    || a == b
    || ('A' <= a <= 'Z' && b as int == a as int + 32)
    || ('A' <= b <= 'Z' && a as int == b as int + 32)
  }

  /** `s` and `t` agree position by position up to ASCII case. */
  predicate EqualIgnoringAsciiCase(s: string, t: string)
  {
    |s| == |t| && forall k :: 0 <= k < |s| ==> SameLetterIgnoringCase(s[k], t[k])
  }

  lemma LowerCharEqualIff(a: char, b: char)
    ensures LowerChar(a) == LowerChar(b) <==> SameLetterIgnoringCase(a, b)
  {
  }

  /** Lower-casing identifies exactly the strings that differ only in ASCII case. */
  lemma ToLowerEqualIff(s: string, t: string)
    ensures ToLower(s) == ToLower(t) <==> EqualIgnoringAsciiCase(s, t)
  {
    if |s| == |t| {
      forall k | 0 <= k < |s|
        ensures LowerChar(s[k]) == LowerChar(t[k]) <==> SameLetterIgnoringCase(s[k], t[k])
      {
        LowerCharEqualIff(s[k], t[k]);
      }
      if EqualIgnoringAsciiCase(s, t) {
        assert forall k :: 0 <= k < |s| ==> ToLower(s)[k] == ToLower(t)[k];
      }
      if ToLower(s) == ToLower(t) {
        assert forall k :: 0 <= k < |s| ==> LowerChar(s[k]) == LowerChar(t[k]) by {
          forall k | 0 <= k < |s| ensures LowerChar(s[k]) == LowerChar(t[k]) {
            assert ToLower(s)[k] == ToLower(t)[k];
          }
        }
      }
    } else {
      assert |ToLower(s)| != |ToLower(t)|;
    }
  }

  /** A lower-cased string holds no upper-case ASCII letter, so lower-casing it again changes nothing. */
  lemma ToLowerIsLower(s: string)
    ensures forall k :: 0 <= k < |s| ==> !('A' <= ToLower(s)[k] <= 'Z')
    ensures ToLower(ToLower(s)) == ToLower(s)
  {
    var r := ToLower(s);
    assert forall k :: 0 <= k < |r| ==> ToLower(r)[k] == r[k];
  }

  /** Index of the first `c` in `s` at or after `from`, or `|s|` when there is none. */
  function IndexFrom(s: string, c: char, from: nat): (i: nat)
    requires from <= |s|
    ensures from <= i <= |s|
    ensures i < |s| ==> s[i] == c
    ensures forall k :: from <= k < i ==> s[k] != c
    decreases |s| - from
  {
    if from == |s| || s[from] == c then from else IndexFrom(s, c, from + 1)
  }

  /** `strings.Split(s, "/")[0]`: everything before the first separator. */
  function FirstField(s: string): string
  {
    s[..IndexFrom(s, '/', 0)]
  }

  /**
   * `strings.Split(s, "/")[1]`: the field between the first and the second separator.
   * Go indexes out of range when `s` has no separator; the value given here for that case is
   * never used by callers, which require a separator.
   */
  function SecondField(s: string): string
  {
    var i := IndexFrom(s, '/', 0);
    if i == |s| then "" else s[i + 1..IndexFrom(s, '/', i + 1)]
  }

  /**
   * `first` and `second` are the first two `/`-separated fields of `s`: neither holds a
   * separator, `s` begins with `first + "/" + second`, and what follows is empty or a separator.
   */
  predicate SplitsAs(s: string, first: string, second: string)
  {
    var n := |first| + 1 + |second|;
    && '/' !in first && '/' !in second
    && n <= |s| && s[..|first|] == first && s[|first|] == '/' && s[|first| + 1..n] == second
    && (n == |s| || s[n] == '/')
  }

  /** The two fields of the source's `Split` are such a pair. */
  lemma SplitFields(s: string)
    requires '/' in s
    ensures SplitsAs(s, FirstField(s), SecondField(s))
  {
    var i := IndexFrom(s, '/', 0);
    var j := IndexFrom(s, '/', i + 1);
    assert i < |s|;
    var first, second := s[..i], s[i + 1..j];
    assert forall k :: 0 <= k < |first| ==> first[k] == s[k];
    assert forall k :: 0 <= k < |second| ==> second[k] == s[i + 1 + k];
  }

  /** ... and the only one, so `SplitsAs` pins both fields down. */
  lemma SplitUnique(s: string, first: string, second: string)
    requires SplitsAs(s, first, second)
    ensures '/' in s && first == FirstField(s) && second == SecondField(s)
  {
    var m, n := |first|, |first| + 1 + |second|;
    assert forall k :: 0 <= k < m ==> s[k] == first[k];
    assert forall k :: m + 1 <= k < n ==> s[k] == second[k - m - 1];
    var i := IndexFrom(s, '/', 0);
    assert i == m;
    var j := IndexFrom(s, '/', m + 1);
    assert j == n;
  }
}
