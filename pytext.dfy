/**
 * The Python string built-ins the tracker relies on, stated over
 * `seq<char>`: `str.isspace` (also the class of regex `\s`), `str.lower`
 * (ASCII and full-width Latin letters only), the `in` substring test,
 * `any(w in s for w in words)`, `str.strip`, `splitlines()[0]` and `str(n)`
 * for a natural number.
 */
module PyText {

  /** The characters Python's `str.isspace` accepts; `re`'s `\s` and `str.strip()` use the same set. */
  predicate IsSpace(c: char) {
    || ('\t' <= c <= '\r')             // \t \n \v \f \r
    || ('\U{1C}' <= c <= ' ')          // file/group/record/unit separators and the space
    || c == '\U{85}' || c == '\U{A0}' || c == '\U{1680}'
    || ('\U{2000}' <= c <= '\U{200A}')
    || c == '\U{2028}' || c == '\U{2029}' || c == '\U{202F}' || c == '\U{205F}'
    || c == '\U{3000}'
  }

  /** The line boundaries of `str.splitlines`; every one of them is also a space. */
  predicate IsLineBreak(c: char)
    ensures IsLineBreak(c) ==> IsSpace(c)
  {
    || ('\n' <= c <= '\r')
    || ('\U{1C}' <= c <= '\U{1E}')
    || c == '\U{85}' || c == '\U{2028}' || c == '\U{2029}'
  }

  predicate IsAsciiUpper(c: char) { 'A' <= c <= 'Z' }

  predicate IsFullWidthUpper(c: char) { '\U{FF21}' <= c <= '\U{FF3A}' }

  /** `c.lower()` for the letters this model covers: ASCII and full-width Latin capitals. */
  function LowerChar(c: char): (d: char)
    ensures !IsAsciiUpper(d) && !IsFullWidthUpper(d)
    ensures IsSpace(d) <==> IsSpace(c)
    ensures !IsAsciiUpper(c) && !IsFullWidthUpper(c) ==> d == c
  {
    if IsAsciiUpper(c) || IsFullWidthUpper(c) then (c as int + 32) as char else c
  }

  /** `s.lower()`: a character-by-character map. */
  function Lower(s: string): (r: string)
    ensures |r| == |s|
    ensures forall i :: 0 <= i < |s| ==> r[i] == LowerChar(s[i])
  {
    seq(|s|, i requires 0 <= i < |s| => LowerChar(s[i]))
  }

  lemma LowerHasNoAsciiUpper(s: string)
    ensures forall c :: c in Lower(s) ==> !IsAsciiUpper(c)
  {
  }

  /** `sub` occurs in `s` starting at index `i`. */
  predicate OccursAt(s: string, sub: string, i: int) {
    0 <= i && i + |sub| <= |s| && s[i..i + |sub|] == sub
  }

  /** Python's `sub in s`. */
  function Contains(s: string, sub: string): (r: bool)
    ensures r <==> exists i :: OccursAt(s, sub, i)
    decreases |s|
  {
    if |sub| <= |s| && s[..|sub|] == sub then
      assert OccursAt(s, sub, 0);
      true
    else if s == [] then
      false
    else
      var r := Contains(s[1..], sub);
      assert r ==> exists i :: OccursAt(s, sub, i) by {
        if r {
          var i :| OccursAt(s[1..], sub, i);
          assert s[1..][i..i + |sub|] == s[i + 1..i + 1 + |sub|];
          assert OccursAt(s, sub, i + 1);
        }
      }
      assert (exists i :: OccursAt(s, sub, i)) ==> r by {
        if exists i :: OccursAt(s, sub, i) {
          var i :| OccursAt(s, sub, i);
          assert i != 0;
          assert s[1..][i - 1..i - 1 + |sub|] == s[i..i + |sub|];
          assert OccursAt(s[1..], sub, i - 1);
        }
      }
      r
  }

  /** A substring of a text without ASCII capitals has none either. */
  lemma {:induction false} ContainsNoUpper(s: string, sub: string, k: int)
    requires forall c :: c in s ==> !IsAsciiUpper(c)
    requires 0 <= k < |sub| && IsAsciiUpper(sub[k])
    ensures !Contains(s, sub)
  {
  }

  /** `any(w in s for w in words)`. */
  function AnyOccurs(s: string, words: seq<string>): (r: bool)
    ensures r <==> exists i :: 0 <= i < |words| && Contains(s, words[i])
  {
    if words == [] then false
    else if Contains(s, words[0]) then true
    else
      var r := AnyOccurs(s, words[1..]);
      assert r ==> exists i :: 0 <= i < |words| && Contains(s, words[i]) by {
        if r {
          var i :| 0 <= i < |words[1..]| && Contains(s, words[1..][i]);
          assert Contains(s, words[i + 1]);
        }
      }
      assert (exists i :: 0 <= i < |words| && Contains(s, words[i])) ==> r by {
        if exists i :: 0 <= i < |words| && Contains(s, words[i]) {
          var i :| 0 <= i < |words| && Contains(s, words[i]);
          assert i != 0 && words[1..][i - 1] == words[i];
        }
      }
      r
  }

  /** `re.sub(r"\s+", "", s)`: every space character removed. */
  function RemoveSpaces(s: string): (r: string)
    ensures forall c :: c in r ==> !IsSpace(c)
    ensures forall c :: c in r ==> c in s
    ensures |r| <= |s|
  {
    if s == [] then []
    else if IsSpace(s[0]) then RemoveSpaces(s[1..])
    else [s[0]] + RemoveSpaces(s[1..])
  }

  lemma {:induction false} RemoveSpacesNoSpace(s: string)
    requires forall i :: 0 <= i < |s| ==> !IsSpace(s[i])
    ensures RemoveSpaces(s) == s
  {
    if s != [] {
      RemoveSpacesNoSpace(s[1..]);
    }
  }

  lemma {:induction false} RemoveSpacesAppend(a: string, b: string)
    ensures RemoveSpaces(a + b) == RemoveSpaces(a) + RemoveSpaces(b)
  {
    if a != [] {
      assert (a + b)[0] == a[0] && (a + b)[1..] == a[1..] + b;
      RemoveSpacesAppend(a[1..], b);
    } else {
      assert a + b == b;
    }
  }

  /** The index of the first character at or after `lo` that is not white space, or `|s|`. */
  function SkipSpace(s: string, lo: nat): (i: nat)
    requires lo <= |s|
    ensures lo <= i <= |s|
    ensures forall k :: lo <= k < i ==> IsSpace(s[k])
    ensures i < |s| ==> !IsSpace(s[i])
    decreases |s| - lo
  {
    if lo < |s| && IsSpace(s[lo]) then SkipSpace(s, lo + 1) else lo
  }

  /** The index just past the last character before `hi`, and not before `lo`, that is not white space, or `lo`. */
  function SkipSpaceBack(s: string, lo: nat, hi: nat): (j: nat)
    requires lo <= hi <= |s|
    ensures lo <= j <= hi
    ensures forall k :: j <= k < hi ==> IsSpace(s[k])
    ensures lo < j ==> !IsSpace(s[j - 1])
    decreases hi - lo
  {
    if lo < hi && IsSpace(s[hi - 1]) then SkipSpaceBack(s, lo, hi - 1) else hi
  }

  /**
   * `s.strip()`: the slice of the text between its leading and its trailing
   * white space, and nothing else changed; a non-empty result neither
   * starts nor ends with white space, and the result is empty exactly when
   * the text is all white space.
   */
  function Strip(s: string): (r: string)
    ensures exists i, j :: (
      && 0 <= i <= j <= |s| && r == s[i..j]
      && (forall k :: 0 <= k < i ==> IsSpace(s[k]))
      && (forall k :: j <= k < |s| ==> IsSpace(s[k])))
    ensures r != [] ==> !IsSpace(r[0]) && !IsSpace(r[|r| - 1])
    ensures r == [] <==> forall i :: 0 <= i < |s| ==> IsSpace(s[i])
  {
    var i := SkipSpace(s, 0);
    var j := SkipSpaceBack(s, i, |s|);
    SliceBetweenSpace(s, i, j);
    s[i..j]
  }

  /** The slice between a run of white space at the start and one at the end, each as long as it can be. */
  lemma SliceBetweenSpace(s: string, i: int, j: int)
    requires 0 <= i <= j <= |s|
    requires forall k :: 0 <= k < i ==> IsSpace(s[k])
    requires forall k :: j <= k < |s| ==> IsSpace(s[k])
    requires i < |s| ==> !IsSpace(s[i])
    requires i < j ==> !IsSpace(s[j - 1])
    ensures exists i', j' :: (
      && 0 <= i' <= j' <= |s| && s[i..j] == s[i'..j']
      && (forall k :: 0 <= k < i' ==> IsSpace(s[k]))
      && (forall k :: j' <= k < |s| ==> IsSpace(s[k])))
    ensures s[i..j] != [] ==> !IsSpace(s[i..j][0]) && !IsSpace(s[i..j][|s[i..j]| - 1])
    ensures s[i..j] == [] <==> forall k :: 0 <= k < |s| ==> IsSpace(s[k])
  {
    if i < j {
      assert s[i..j][0] == s[i];
      assert s[i..j][j - i - 1] == s[j - 1];
    }
    assert 0 <= i <= j <= |s| && s[i..j] == s[i..j]
      && (forall k :: 0 <= k < i ==> IsSpace(s[k]))
      && (forall k :: j <= k < |s| ==> IsSpace(s[k]));
  }

  /** The text before the first line boundary: `s.splitlines()[0]` for a non-empty `s`. */
  function FirstLine(s: string): (r: string)
    ensures |r| <= |s| && r == s[..|r|]
    ensures forall c :: c in r ==> !IsLineBreak(c)
    ensures |r| < |s| ==> IsLineBreak(s[|r|])
  {
    if s == [] || IsLineBreak(s[0]) then [] else [s[0]] + FirstLine(s[1..])
  }

  function DigitChar(d: nat): (c: char)
    requires d < 10
    ensures '0' <= c <= '9'
  {
    ('0' as int + d) as char
  }

  /** `str(n)` for a natural number: its decimal digits, without leading zeros. */
  function NatToString(n: nat): (r: string)
    ensures 1 <= |r|
    ensures forall i :: 0 <= i < |r| ==> '0' <= r[i] <= '9'
    ensures r[0] == '0' ==> n == 0
    decreases n
  {
    if n < 10 then [DigitChar(n)] else NatToString(n / 10) + [DigitChar(n % 10)]
  }

  /** The value of a string of decimal digits, the inverse of `NatToString`. */
  function DecimalValue(s: string): nat
    requires forall i :: 0 <= i < |s| ==> '0' <= s[i] <= '9'
  {
    if s == [] then 0
    else
      10 * DecimalValue(s[..|s| - 1]) + (s[|s| - 1] as int - '0' as int)
  }

  lemma {:induction false} NatToStringRoundTrip(n: nat)
    ensures DecimalValue(NatToString(n)) == n
    decreases n
  {
    if n >= 10 {
      NatToStringRoundTrip(n / 10);
      var s := NatToString(n);
      assert s[..|s| - 1] == NatToString(n / 10);
    }
  }
}
