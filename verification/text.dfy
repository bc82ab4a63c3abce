/**
 * The three JavaScript string built-ins the bot relies on: `String.prototype.trim`,
 * `String.prototype.split` with a one-character separator, and `String.prototype.includes`.
 * Strings are sequences of characters.
 */
module Text {

  /**
   * The characters `trim` removes: the WhiteSpace and LineTerminator code points of
   * ECMAScript (tab, vertical tab, form feed, space, no-break space, the zero-width no-break
   * space, the Unicode space separators, line feed, carriage return and the line and
   * paragraph separators).
   */
  predicate IsWhitespace(c: char) {
    c == '\t' || c == '\n' || c == '\U{B}' || c == '\U{C}' || c == '\r' || c == ' '
    || c == '\U{A0}' || c == '\U{1680}' || ('\U{2000}' <= c <= '\U{200A}')
    || c == '\U{2028}' || c == '\U{2029}' || c == '\U{202F}' || c == '\U{205F}'
    || c == '\U{3000}' || c == '\U{FEFF}'
  }

  predicate AllWhitespace(s: string) {
    forall k :: 0 <= k < |s| ==> IsWhitespace(s[k])
  }

  /** A string with no whitespace at either end. */
  predicate IsTrimmed(s: string) {
    s == [] || (!IsWhitespace(s[0]) && !IsWhitespace(s[|s| - 1]))
  }

  /** The index of the first non-whitespace character at or after `i` (or the end). */
  function SkipStart(s: string, i: nat): (lo: nat)
    requires i <= |s|
    ensures i <= lo <= |s|
    ensures forall k :: i <= k < lo ==> IsWhitespace(s[k])
    ensures lo == |s| || !IsWhitespace(s[lo])
    decreases |s| - i
  {
    if i < |s| && IsWhitespace(s[i]) then SkipStart(s, i + 1) else i
  }

  /**
   * The end of the content of `s[lo..j]`: the index just past its last non-whitespace
   * character (or `lo` when there is none).
   */
  function SkipEnd(s: string, lo: nat, j: nat): (hi: nat)
    requires lo <= j <= |s|
    ensures lo <= hi <= j
    ensures forall k :: hi <= k < j ==> IsWhitespace(s[k])
    ensures hi == lo || !IsWhitespace(s[hi - 1])
    decreases j - lo
  {
    if lo < j && IsWhitespace(s[j - 1]) then SkipEnd(s, lo, j - 1) else j
  }

  /**
   * `s.trim()`: the contiguous middle of `s` that is left when the whitespace at both ends is
   * removed (it starts at the first non-whitespace character). It is empty exactly when `s`
   * is blank.
   */
  function Trim(s: string): (r: string)
    ensures IsTrimmed(r)
    ensures var lead := SkipStart(s, 0);
      lead + |r| <= |s| && r == s[lead..lead + |r|]
      && (forall k :: 0 <= k < lead ==> IsWhitespace(s[k]))
      && (forall k :: lead + |r| <= k < |s| ==> IsWhitespace(s[k]))
    ensures r == [] <==> AllWhitespace(s)
  {
    var lo := SkipStart(s, 0);
    var hi := SkipEnd(s, lo, |s|);
    s[lo..hi]
  }

  /** `s.split(sep)` for a one-character separator: the pieces between separators, in order. */
  function Split(s: string, sep: char): (parts: seq<string>)
    ensures |parts| >= 1
    ensures forall p :: p in parts ==> sep !in p
    decreases |s|
  {
    if s == [] then [""]
    else
      var rest := Split(s[1..], sep);
      if s[0] == sep then [""] + rest
      else [[s[0]] + rest[0]] + rest[1..]
  }

  /** `parts.join(sep)`: the pieces with one separator between each two. */
  function Join(parts: seq<string>, sep: char): string
    requires |parts| >= 1
  {
    if |parts| == 1 then parts[0] else parts[0] + [sep] + Join(parts[1..], sep)
  }

  /** Splitting loses nothing: joining the pieces again gives back the input. */
  lemma {:induction false} JoinSplit(s: string, sep: char)
    ensures Join(Split(s, sep), sep) == s
    decreases |s|
  {
    if s != [] {
      var rest := Split(s[1..], sep);
      JoinSplit(s[1..], sep);
      if s[0] == sep {
        assert ([""] + rest)[1..] == rest;
      } else if |rest| > 1 {
        var parts := [[s[0]] + rest[0]] + rest[1..];
        assert parts[1..] == rest[1..];
        assert Join(rest, sep) == rest[0] + [sep] + Join(rest[1..], sep);
        assert s == [s[0]] + s[1..];
      } else {
        assert s == [s[0]] + s[1..];
      }
    }
  }

  /** Splitting a string that starts with separator-free text `p` glues `p` to the first piece. */
  lemma {:induction false} SplitPrefix(p: string, t: string, sep: char)
    requires sep !in p
    ensures Split(p + t, sep) == [p + Split(t, sep)[0]] + Split(t, sep)[1..]
    decreases |p|
  {
    if p != [] {
      assert (p + t)[1..] == p[1..] + t;
      assert p[0] in p;
      SplitPrefix(p[1..], t, sep);
      assert [p[0]] + (p[1..] + Split(t, sep)[0]) == p + Split(t, sep)[0];
    } else {
      var q := Split(t, sep);
      assert p + t == t && p + q[0] == q[0];
      assert q == [q[0]] + q[1..];
    }
  }

  /** Joining separator-free pieces and splitting again gives back the pieces. */
  lemma {:induction false} SplitJoin(parts: seq<string>, sep: char)
    requires |parts| >= 1
    requires forall p :: p in parts ==> sep !in p
    ensures Split(Join(parts, sep), sep) == parts
    decreases |parts|
  {
    assert parts[0] in parts;
    if |parts| == 1 {
      SplitPrefix(parts[0], "", sep);
      assert Split("", sep) == [""];
      assert parts[0] + "" == parts[0];
      assert parts == [parts[0]];
    } else {
      var tail := Join(parts[1..], sep);
      forall p | p in parts[1..] ensures sep !in p { assert p in parts; }
      SplitJoin(parts[1..], sep);
      assert Split([sep] + tail, sep) == [""] + Split(tail, sep) by {
        assert ([sep] + tail)[1..] == tail;
      }
      assert parts[0] + [sep] + tail == parts[0] + ([sep] + tail);
      SplitPrefix(parts[0], [sep] + tail, sep);
      assert Join(parts, sep) == parts[0] + ([sep] + tail);
      assert Split(Join(parts, sep), sep) == [parts[0] + ""] + Split(tail, sep);
      assert parts[0] + "" == parts[0];
      assert parts == [parts[0]] + parts[1..];
    }
  }

  /** `t` occurs in `s` starting at index `i`. */
  ghost predicate OccursAt(s: string, t: string, i: int) {
    0 <= i && i + |t| <= |s| && s[i..i + |t|] == t
  }

  /** `s.includes(t)`: some position of `s` starts an occurrence of `t`. */
  function Contains(s: string, t: string): (b: bool)
    ensures b <==> exists i :: OccursAt(s, t, i)
    decreases |s|
  {
    if |t| > |s| then false
    else if s[..|t|] == t then (assert OccursAt(s, t, 0); true)
    else
      ShiftOccurrence(s, t);
      Contains(s[1..], t)
  }

  /** Past the first position, the occurrences in `s` are those in `s[1..]`, shifted by one. */
  lemma ShiftOccurrence(s: string, t: string)
    requires |s| > 0 && !OccursAt(s, t, 0)
    ensures (exists i :: OccursAt(s, t, i)) <==> (exists j :: OccursAt(s[1..], t, j))
  {
    if exists i :: OccursAt(s, t, i) {
      var i :| OccursAt(s, t, i);
      assert s[1..][i - 1..i - 1 + |t|] == s[i..i + |t|];
      assert OccursAt(s[1..], t, i - 1);
    }
    if exists j :: OccursAt(s[1..], t, j) {
      var j :| OccursAt(s[1..], t, j);
      assert s[j + 1..j + 1 + |t|] == s[1..][j..j + |t|];
      assert OccursAt(s, t, j + 1);
    }
  }
}
