/**
 * The pieces of Rust's `str` API that the controllers rely on:
 * `trim`, `lines`, `splitn(2, c)`, `find` and `contains`.
 */
module Text {
  import opened Common

  /** Rust's `char::is_whitespace`: the Unicode White_Space property. */
  predicate IsWhitespace(c: char)
  {
    || ('\t' <= c <= '\r')
    || c == ' '
    || c == '\U{85}'
    || c == '\U{A0}'
    || c == '\U{1680}'
    || ('\U{2000}' <= c <= '\U{200A}')
    || c == '\U{2028}'
    || c == '\U{2029}'
    || c == '\U{202F}'
    || c == '\U{205F}'
    || c == '\U{3000}'
  }

  /** The first index at or after `i` that does not hold whitespace. */
  function SkipWhitespace(s: string, i: nat): (j: nat)
    requires i <= |s|
    ensures i <= j <= |s|
    ensures forall k :: i <= k < j ==> IsWhitespace(s[k])
    ensures j < |s| ==> !IsWhitespace(s[j])
    decreases |s| - i
  {
    if i < |s| && IsWhitespace(s[i]) then SkipWhitespace(s, i + 1) else i
  }

  /** The end of `s[..j]` once the whitespace before `j` and after `i` is cut off. */
  function SkipWhitespaceBack(s: string, i: nat, j: nat): (e: nat)
    requires i <= j <= |s|
    ensures i <= e <= j
    ensures forall k :: e <= k < j ==> IsWhitespace(s[k])
    ensures e > i ==> !IsWhitespace(s[e - 1])
  {
    if j > i && IsWhitespace(s[j - 1]) then SkipWhitespaceBack(s, i, j - 1) else j
  }

  /** `pat` occurs in `s` starting at index `i`. */
  predicate OccursAt(s: string, pat: string, i: nat)
  {
    i + |pat| <= |s| && s[i..i + |pat|] == pat
  }

  /**
   * Rust's `str::trim`: the slice of `s` left once the whitespace at both
   * ends is cut off; it neither starts nor ends with whitespace.
   */
  function Trim(s: string): (r: string)
    ensures r == [] || (!IsWhitespace(r[0]) && !IsWhitespace(r[|r| - 1]))
    ensures exists i: nat :: OccursAt(s, r, i)
                        && (forall k :: 0 <= k < i ==> IsWhitespace(s[k]))
                        && (forall k :: i + |r| <= k < |s| ==> IsWhitespace(s[k]))
  {
    var i := SkipWhitespace(s, 0);
    var j := SkipWhitespaceBack(s, i, |s|);
    assert OccursAt(s, s[i..j], i);
    s[i..j]
  }

  /** A string with no whitespace at all is its own trim. */
  lemma TrimNoWhitespace(s: string)
    requires forall k :: 0 <= k < |s| ==> !IsWhitespace(s[k])
    ensures Trim(s) == s
  {
    if s != [] {
      assert !IsWhitespace(s[0]) && !IsWhitespace(s[|s| - 1]);
    }
  }

  /** The index of the first occurrence of `c` in `s` (`str::find`). */
  function IndexOf(s: string, c: char): (r: Option<nat>)
    ensures r.None? <==> c !in s
    ensures r.Some? ==> r.value < |s| && s[r.value] == c && c !in s[..r.value]
  {
    if s == [] then None
    else if s[0] == c then Some(0)
    else match IndexOf(s[1..], c)
      case None => None
      case Some(i) => assert s[..i + 1] == [s[0]] + s[1..][..i]; Some(i + 1)
  }

  /**
   * `splitn(2, c)`: the text before the first `c`, and the text after it,
   * or `None` when `s` has no `c`.
   */
  function SplitOnce(s: string, c: char): (r: (string, Option<string>))
    ensures r.1.None? <==> c !in s
    ensures r.1.None? ==> r.0 == s
    ensures r.1.Some? ==> s == r.0 + [c] + r.1.value && c !in r.0
  {
    match IndexOf(s, c)
    case None => (s, None)
    case Some(i) => assert s == s[..i] + [c] + s[i + 1..]; (s[..i], Some(s[i + 1..]))
  }

  /** One line without its terminator: a `\r` right before the `\n` goes too. */
  function StripCr(line: string): string
  {
    if line != [] && line[|line| - 1] == '\r' then line[..|line| - 1] else line
  }

  /**
   * Rust's `str::lines` (and `BufRead::lines`): split at `\n`, drop a `\r`
   * that directly precedes a `\n`, and produce no empty line after a final `\n`.
   */
  function Lines(s: string): (r: seq<string>)
    ensures forall k :: 0 <= k < |r| ==> '\n' !in r[k]
    ensures s == [] <==> r == []
    decreases |s|
  {
    if s == [] then []
    else match IndexOf(s, '\n')
      case None => [s]
      case Some(i) => [StripCr(s[..i])] + Lines(s[i + 1..])
  }

  /** The lines joined back with `\n` between them. */
  function JoinLines(lines: seq<string>): string
  {
    if lines == [] then []
    else if |lines| == 1 then lines[0]
    else lines[0] + "\n" + JoinLines(lines[1..])
  }

  /**
   * Without `\r`, `lines` loses only the newlines: joining the lines gives
   * the text back, less a final `\n`.
   */
  lemma {:induction false} LinesJoin(s: string)
    requires '\r' !in s
    ensures s == [] || s[|s| - 1] != '\n' ==> JoinLines(Lines(s)) == s
    ensures s != [] && s[|s| - 1] == '\n' ==> JoinLines(Lines(s)) + "\n" == s
    decreases |s|
  {
    if s != [] {
      match IndexOf(s, '\n')
      case None =>
      case Some(i) =>
        var rest := s[i + 1..];
        SplitAtNewline(s, i);
        if rest == [] {
          assert Lines(s) == [s[..i]];
        } else {
          LinesJoin(rest);
          var tail := Lines(rest);
          assert Lines(s) == [s[..i]] + tail;
          assert ([s[..i]] + tail)[1..] == tail;
        }
    }
  }

  /** Cutting a text without `\r` at a newline: the line before it and the text after. */
  lemma SplitAtNewline(s: string, i: nat)
    requires '\r' !in s && i < |s| && s[i] == '\n'
    ensures s == s[..i] + "\n" + s[i + 1..]
    ensures StripCr(s[..i]) == s[..i]
    ensures '\r' !in s[i + 1..]
    ensures s[i + 1..] != [] ==> s[|s| - 1] == s[i + 1..][|s| - i - 2]
  {
    if i > 0 { assert s[..i][i - 1] == s[i - 1]; }
    var rest := s[i + 1..];
    forall k | 0 <= k < |rest| ensures rest[k] != '\r' { assert rest[k] == s[i + 1 + k]; }
  }

  /** A non-empty text without a newline is one line, unchanged. */
  lemma LinesOfSingleLine(s: string)
    requires s != [] && '\n' !in s
    ensures Lines(s) == [s]
  {
  }

  /** An occurrence in `s[1..]` is an occurrence in `s`, one index further. */
  lemma OccursAtTail(s: string, pat: string, i: nat)
    requires s != []
    ensures OccursAt(s[1..], pat, i) <==> OccursAt(s, pat, i + 1)
  {
    if i + 1 + |pat| <= |s| {
      assert s[1..][i..i + |pat|] == s[i + 1..i + 1 + |pat|];
    }
  }

  /** `s.contains(pat)`. */
  function Contains(s: string, pat: string): (r: bool)
    ensures r <==> exists i: nat :: OccursAt(s, pat, i)
    decreases |s|
  {
    if |s| < |pat| then false
    else if OccursAt(s, pat, 0) then true
    else
      assert forall i: nat :: OccursAt(s, pat, i) <==> i > 0 && OccursAt(s[1..], pat, i - 1) by {
        forall i: nat ensures OccursAt(s, pat, i) <==> i > 0 && OccursAt(s[1..], pat, i - 1) {
          if i > 0 { OccursAtTail(s, pat, i - 1); }
        }
      }
      assert forall j: nat :: OccursAt(s[1..], pat, j) ==> OccursAt(s, pat, j + 1);
      Contains(s[1..], pat)
  }
}
