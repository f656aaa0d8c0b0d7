/**
 * The handful of Python `str` operations the reply parsers use, on
 * ASCII text: `lower()`, `in`, `split(sep)`, `split()`, `strip()`,
 * `startswith`, `isdigit()`, `int()` of a digit word, `replace(c, "")`
 * and `capitalize()`.
 */
module Text {

  predicate IsUpper(c: char) { 'A' <= c <= 'Z' }

  predicate IsLower(c: char) { 'a' <= c <= 'z' }

  predicate IsDigit(c: char) { '0' <= c <= '9' }

  /** Python's `str.isspace()`: the characters `split()` and `strip()` drop. */
  predicate IsSpace(c: char)
  {
    var n := c as int;
    n == 32 || (9 <= n <= 13) || (28 <= n <= 31) || n == 0x85 || n == 0xA0
    || n == 0x1680 || (0x2000 <= n <= 0x200A) || n == 0x2028 || n == 0x2029
    || n == 0x202F || n == 0x205F || n == 0x3000
  }

  function LowerChar(c: char): (r: char)
    ensures !IsUpper(r)
    ensures IsUpper(c) ==> IsLower(r)
    ensures !IsUpper(c) ==> r == c
  {
    if IsUpper(c) then (c as int + 32) as char else c
  }

  function UpperChar(c: char): (r: char)
    ensures !IsLower(r)
  {
    if IsLower(c) then (c as int - 32) as char else c
  }

  /** `s.lower()`. */
  function ToLower(s: string): (r: string)
    ensures |r| == |s|
    ensures forall i :: 0 <= i < |s| ==> r[i] == LowerChar(s[i])
  {
    seq(|s|, i requires 0 <= i < |s| => LowerChar(s[i]))
  }

  /** `s.capitalize()`: first character upper-case, the rest lower-case. */
  function Capitalize(s: string): (r: string)
    ensures |r| == |s|
  {
    if s == [] then [] else [UpperChar(s[0])] + ToLower(s[1..])
  }

  /** `sub in s`. */
  predicate Contains(s: string, sub: string)
    decreases |s|
  {
    sub <= s || (s != [] && Contains(s[1..], sub))
  }

  /** `sub` occurs in `s` starting at position `i`. */
  predicate OccursAt(s: string, sub: string, i: int)
  {
    0 <= i <= |s| - |sub| && s[i..i + |sub|] == sub
  }

  /** Containment means `sub` occurs at some position of `s`. */
  lemma ContainsOccurs(s: string, sub: string)
    ensures Contains(s, sub) <==> exists i :: OccursAt(s, sub, i)
  {
    if Contains(s, sub) {
      ContainsGivesOccurrence(s, sub);
    }
    if exists i :: OccursAt(s, sub, i) {
      var i :| OccursAt(s, sub, i);
      OccurrenceGivesContains(s, sub, i);
    }
  }

  lemma {:induction false} ContainsGivesOccurrence(s: string, sub: string)
    requires Contains(s, sub)
    ensures exists i :: OccursAt(s, sub, i)
    decreases |s|
  {
    if sub <= s {
      assert OccursAt(s, sub, 0);
    } else {
      ContainsGivesOccurrence(s[1..], sub);
      var i :| OccursAt(s[1..], sub, i);
      assert s[1..][i..i + |sub|] == s[i + 1..i + 1 + |sub|];
      assert OccursAt(s, sub, i + 1);
    }
  }

  lemma {:induction false} OccurrenceGivesContains(s: string, sub: string, i: int)
    requires OccursAt(s, sub, i)
    ensures Contains(s, sub)
    decreases i
  {
    if i == 0 {
      assert sub <= s;
    } else {
      assert s[1..][i - 1..i - 1 + |sub|] == s[i..i + |sub|];
      OccurrenceGivesContains(s[1..], sub, i - 1);
    }
  }

  /**
   * Text found inside a lower-cased string has no upper-case letter: a
   * lookup of a name with a capital in `line.lower()` always fails.
   */
  lemma {:induction false} FoundInLowerHasNoUpper(s: string, sub: string)
    requires Contains(ToLower(s), sub)
    ensures forall k :: 0 <= k < |sub| ==> !IsUpper(sub[k])
  {
    ContainsOccurs(ToLower(s), sub);
    var i :| OccursAt(ToLower(s), sub, i);
    forall k | 0 <= k < |sub| ensures !IsUpper(sub[k]) {
      assert sub[k] == ToLower(s)[i..i + |sub|][k] == ToLower(s)[i + k];
    }
  }

  /** Index of the first `c` in `s`, or -1. */
  function IndexOf(s: string, c: char): (r: int)
    ensures -1 <= r < |s|
    ensures r == -1 <==> c !in s
    ensures r >= 0 ==> s[r] == c
    ensures forall j :: 0 <= j < r ==> s[j] != c
  {
    if s == [] then -1
    else if s[0] == c then 0
    else
      var r := IndexOf(s[1..], c);
      assert s == [s[0]] + s[1..];
      if r == -1 then -1
      else r + 1
  }

  /** `s.split(sep)` for a one-character separator, read one character at a time. */
  function Split(s: string, sep: char): (parts: seq<string>)
    ensures |parts| >= 1
    ensures sep in s <==> |parts| >= 2
    ensures forall k :: 0 <= k < |parts| ==> sep !in parts[k]
    decreases |s|
  {
    if s == [] then [[]]
    else
      var rest := Split(s[1..], sep);
      if s[0] == sep then [[]] + rest
      else [[s[0]] + rest[0]] + rest[1..]
  }

  /** `sep.join(parts)`. */
  function Join(parts: seq<string>, sep: char): string
    requires |parts| >= 1
  {
    if |parts| == 1 then parts[0] else parts[0] + [sep] + Join(parts[1..], sep)
  }

  /** Joining a first piece onto the rest puts one separator between them. */
  lemma JoinCons(head: string, rest: seq<string>, sep: char)
    requires |rest| >= 1
    ensures Join([head] + rest, sep) == head + [sep] + Join(rest, sep)
  {
    assert ([head] + rest)[1..] == rest;
  }

  /** A character put before the first piece comes first in the joined text. */
  lemma JoinGrowHead(c: char, parts: seq<string>, sep: char)
    requires |parts| >= 1
    ensures Join([[c] + parts[0]] + parts[1..], sep) == [c] + Join(parts, sep)
  {
    if |parts| > 1 {
      JoinCons([c] + parts[0], parts[1..], sep);
    }
  }

  /** Splitting loses nothing: joining the pieces back gives the input. */
  lemma {:induction false} SplitJoin(s: string, sep: char)
    ensures Join(Split(s, sep), sep) == s
    decreases |s|
  {
    if s != [] {
      SplitJoin(s[1..], sep);
      if s[0] == sep {
        JoinCons([], Split(s[1..], sep), sep);
      } else {
        JoinGrowHead(s[0], Split(s[1..], sep), sep);
      }
      assert s == [s[0]] + s[1..];
    }
  }

  /** A character absent from `s` is absent from each of its pieces. */
  lemma {:induction false} SplitKeeps(s: string, sep: char, k: int, c: char)
    requires 0 <= k < |Split(s, sep)|
    requires c !in s
    ensures c !in Split(s, sep)[k]
    decreases |s|
  {
    if s != [] {
      var rest := Split(s[1..], sep);
      assert c !in s[1..] by { assert forall j :: 0 <= j < |s| - 1 ==> s[1..][j] == s[j + 1]; }
      if s[0] == sep {
        if k > 0 {
          SplitKeeps(s[1..], sep, k - 1, c);
          assert Split(s, sep)[k] == rest[k - 1];
        }
      } else if k == 0 {
        SplitKeeps(s[1..], sep, 0, c);
        assert s[0] != c;
      } else {
        SplitKeeps(s[1..], sep, k, c);
        assert Split(s, sep)[k] == rest[k];
      }
    }
  }

  /** `s.split(c, 1)[1]`: everything after the first `c`. */
  function AfterFirst(s: string, c: char): string
    requires c in s
  {
    s[IndexOf(s, c) + 1..]
  }

  function StripLeft(s: string): (r: string)
    ensures |r| <= |s| && r == s[|s| - |r|..]
    ensures r != [] ==> !IsSpace(r[0])
    ensures forall k :: 0 <= k < |s| - |r| ==> IsSpace(s[k])
  {
    if s != [] && IsSpace(s[0]) then StripLeft(s[1..]) else s
  }

  function StripRight(s: string): (r: string)
    ensures |r| <= |s| && r == s[..|r|]
    ensures r != [] ==> !IsSpace(r[|r| - 1])
    ensures forall k :: |r| <= k < |s| ==> IsSpace(s[k])
  {
    if s != [] && IsSpace(s[|s| - 1]) then StripRight(s[..|s| - 1]) else s
  }

  /** `s.strip()`: the slice of `s` without leading and trailing white space. */
  function Strip(s: string): (r: string)
    ensures |r| <= |s|
    ensures r != [] ==> !IsSpace(r[0]) && !IsSpace(r[|r| - 1])
    ensures exists i :: OccursAt(s, r, i)
  {
    var left := StripLeft(s);
    var r := StripRight(left);
    SliceOccurs(s, left, r);
    r
  }

  /** A prefix of a suffix of `s` occurs in `s` where the suffix starts. */
  lemma SliceOccurs(s: string, left: string, r: string)
    requires |left| <= |s| && left == s[|s| - |left|..]
    requires |r| <= |left| && r == left[..|r|]
    ensures OccursAt(s, r, |s| - |left|)
  {
    var i := |s| - |left|;
    assert s[i..][..|r|] == s[i..i + |r|];
  }

  /** Length of the run of non-space characters at the front of `s`. */
  function WordLength(s: string): (n: nat)
    ensures n <= |s|
    ensures forall k :: 0 <= k < n ==> !IsSpace(s[k])
    ensures n < |s| ==> IsSpace(s[n])
  {
    if s == [] || IsSpace(s[0]) then 0 else 1 + WordLength(s[1..])
  }

  /** A word: non-empty and free of white space. */
  predicate IsWord(w: string)
  {
    w != [] && forall j :: 0 <= j < |w| ==> !IsSpace(w[j])
  }

  /** `s.split()`: the maximal runs of non-space characters, in order. */
  function Words(s: string): (ws: seq<string>)
    ensures forall k :: 0 <= k < |ws| ==> IsWord(ws[k])
    decreases |s|
  {
    var t := StripLeft(s);
    if t == [] then []
    else
      var n := WordLength(t);
      assert IsWord(t[..n]);
      var rest := Words(t[n..]);
      ConsWords(t[..n], rest);
      [t[..n]] + rest
  }

  lemma ConsWords(w: string, ws: seq<string>)
    requires IsWord(w) && forall k :: 0 <= k < |ws| ==> IsWord(ws[k])
    ensures forall k :: 0 <= k < |ws| + 1 ==> IsWord(([w] + ws)[k])
  {
    forall k | 0 <= k < |ws| + 1 ensures IsWord(([w] + ws)[k]) {
      if k > 0 {
        assert ([w] + ws)[k] == ws[k - 1];
      }
    }
  }

  /** `w.isdigit()` on ASCII text. */
  predicate IsDigitWord(w: string)
  {
    w != [] && forall k :: 0 <= k < |w| ==> IsDigit(w[k])
  }

  /** `any(ch.isdigit() for ch in s)`. */
  predicate HasDigit(s: string)
  {
    exists k :: 0 <= k < |s| && IsDigit(s[k])
  }

  /** `int(w)` for a word of decimal digits. */
  function DecimalValue(w: string): nat
    requires forall k :: 0 <= k < |w| ==> IsDigit(w[k])
  {
    if w == [] then 0
    else
      assert IsDigit(w[|w| - 1]);
      var d := w[|w| - 1] as int - '0' as int;
      DecimalValue(w[..|w| - 1]) * 10 + d
  }

  /** `s.replace(c, "")`. */
  function RemoveChar(s: string, c: char): (r: string)
    ensures c !in r
    ensures |r| <= |s|
  {
    if s == [] then []
    else (if s[0] == c then [] else [s[0]]) + RemoveChar(s[1..], c)
  }
}
