/**
 * Reading numbers out of the words of a language-model reply: the first
 * word carrying a marker (`$`, `%`) whose text, once the marker and any
 * separators are removed, `float()` accepts. `float()` itself is the
 * parameter `parse`.
 */
module Reading {
  import opened Domain
  import opened Text

  /** `s` with every character of `drop` removed, one `replace` after another. */
  function RemoveAll(s: string, drop: string): string
    decreases drop
  {
    if drop == [] then s else RemoveAll(RemoveChar(s, drop[0]), drop[1..])
  }

  /** A word holding `mark` whose text without the characters of `drop` `parse` accepts. */
  predicate Readable(w: string, mark: char, drop: string, parse: string -> Option<real>)
  {
    mark in w && parse(RemoveAll(w, drop)).Some?
  }

  /** The value of the first readable word; the loop that stops at the first `float()` that succeeds. */
  function FirstMarked(words: seq<string>, mark: char, drop: string, parse: string -> Option<real>): Option<real>
  {
    if words == [] then None
    else if Readable(words[0], mark, drop, parse) then parse(RemoveAll(words[0], drop))
    else FirstMarked(words[1..], mark, drop, parse)
  }

  /** Nothing is read exactly when no word is readable. */
  lemma {:induction false} FirstMarkedNone(words: seq<string>, mark: char, drop: string, parse: string -> Option<real>)
    ensures FirstMarked(words, mark, drop, parse).None? <==>
              forall k :: 0 <= k < |words| ==> !Readable(words[k], mark, drop, parse)
  {
    if words != [] && !Readable(words[0], mark, drop, parse) {
      FirstMarkedNone(words[1..], mark, drop, parse);
      assert forall k :: 1 <= k < |words| ==> words[k] == words[1..][k - 1];
    }
  }

  /** What is read is the value of the first readable word. */
  lemma {:induction false} FirstMarkedIsFirst(words: seq<string>, mark: char, drop: string, parse: string -> Option<real>)
    requires FirstMarked(words, mark, drop, parse).Some?
    ensures exists k :: 0 <= k < |words| && Readable(words[k], mark, drop, parse)
              && parse(RemoveAll(words[k], drop)) == FirstMarked(words, mark, drop, parse)
              && forall j :: 0 <= j < k ==> !Readable(words[j], mark, drop, parse)
  {
    if Readable(words[0], mark, drop, parse) {
      assert 0 < |words|;
    } else {
      var rest := words[1..];
      FirstMarkedIsFirst(rest, mark, drop, parse);
      var k :| 0 <= k < |rest| && Readable(rest[k], mark, drop, parse)
               && parse(RemoveAll(rest[k], drop)) == FirstMarked(rest, mark, drop, parse)
               && forall j :: 0 <= j < k ==> !Readable(rest[j], mark, drop, parse);
      assert words[k + 1] == rest[k];
      assert forall j :: 1 <= j < k + 1 ==> words[j] == rest[j - 1];
    }
  }

  /** The first word holding `mark`, taken as it is. */
  function FirstWordWith(words: seq<string>, mark: char): (r: Option<string>)
    ensures r.Some? ==> mark in r.value && r.value in words
    ensures r.None? <==> forall k :: 0 <= k < |words| ==> mark !in words[k]
  {
    if words == [] then None
    else if mark in words[0] then Some(words[0])
    else
      var r := FirstWordWith(words[1..], mark);
      assert forall k :: 1 <= k < |words| ==> words[k] == words[1..][k - 1];
      r
  }
}
