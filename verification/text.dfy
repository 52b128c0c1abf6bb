/** JavaScript string operations the front-end relies on: `split` on a one-character
    separator, its inverse `join`, and `trim`. */
module Text {

  /** The code points `String.prototype.trim` strips: ECMAScript WhiteSpace and LineTerminator. */
  predicate IsSpace(c: char) {
    c == ' ' || c == '\t' || c == '\n' || c == '\r' || c == '\U{000B}' || c == '\U{000C}'
    || c == '\U{00A0}' || c == '\U{1680}' || ('\U{2000}' <= c <= '\U{200A}')
    || c == '\U{2028}' || c == '\U{2029}' || c == '\U{202F}' || c == '\U{205F}'
    || c == '\U{3000}' || c == '\U{FEFF}'
  }

  /** Number of positions of `s` holding `c`. */
  function Occurrences(s: string, c: char): nat {
    if s == [] then 0 else (if s[0] == c then 1 else 0) + Occurrences(s[1..], c)
  }

  /** `parts.join(sep)`. */
  function Join(parts: seq<string>, sep: char): string {
    if parts == [] then ""
    else if |parts| == 1 then parts[0]
    else parts[0] + [sep] + Join(parts[1..], sep)
  }

  /** `s.split(sep)` for a one-character separator: the maximal separator-free pieces,
      in order; the empty string gives one empty piece. */
  function Split(s: string, sep: char): (parts: seq<string>)
    ensures |parts| == Occurrences(s, sep) + 1
    ensures forall i :: 0 <= i < |parts| ==> sep !in parts[i]
    ensures Join(parts, sep) == s
    ensures parts[0] <= s && (|parts[0]| < |s| ==> s[|parts[0]|] == sep)
  {
    if s == [] then [""]
    else
      var rest := Split(s[1..], sep);
      if s[0] == sep then
        assert s == [sep] + s[1..];
        [""] + rest
      else
        var parts := [[s[0]] + rest[0]] + rest[1..];
        assert Join(parts, sep) == s by {
          if |rest| == 1 {
            assert s == [s[0]] + s[1..];
          } else {
            assert Join(rest, sep) == rest[0] + [sep] + Join(rest[1..], sep);
            assert parts[1..] == rest[1..];
            assert s == [s[0]] + s[1..];
          }
        }
        parts
  }

  /** Splitting a string that starts with a separator-free piece and a separator. */
  lemma {:induction false} SplitAfterPiece(a: string, b: string, sep: char)
    requires sep !in a
    ensures Split(a + [sep] + b, sep) == [a] + Split(b, sep)
  {
    if a == [] {
      assert a + [sep] + b == [sep] + b;
      assert ([sep] + b)[1..] == b;
    } else {
      assert (a + [sep] + b)[1..] == a[1..] + [sep] + b;
      SplitAfterPiece(a[1..], b, sep);
      assert a == [a[0]] + a[1..];
    }
  }

  /** A separator-free string splits into itself. */
  lemma {:induction false} SplitWithoutSeparator(a: string, sep: char)
    requires sep !in a
    ensures Split(a, sep) == [a]
  {
    if a != [] {
      SplitWithoutSeparator(a[1..], sep);
      assert a == [a[0]] + a[1..];
    }
  }

  /** `split` inverts `join` on non-empty lists of separator-free pieces. */
  lemma {:induction false} SplitJoin(parts: seq<string>, sep: char)
    requires |parts| >= 1
    requires forall i :: 0 <= i < |parts| ==> sep !in parts[i]
    ensures Split(Join(parts, sep), sep) == parts
  {
    if |parts| == 1 {
      SplitWithoutSeparator(parts[0], sep);
    } else {
      SplitJoin(parts[1..], sep);
      SplitAfterPiece(parts[0], Join(parts[1..], sep), sep);
      assert parts == [parts[0]] + parts[1..];
    }
  }

  /** The index of the first character of `s` at or after `i` that is not white space
      (`|s|` when there is none). */
  function SkipSpaceForward(s: string, i: nat): (j: nat)
    requires i <= |s|
    ensures i <= j <= |s|
    ensures forall m :: i <= m < j ==> IsSpace(s[m])
    ensures j < |s| ==> !IsSpace(s[j])
    decreases |s| - i
  {
    if i < |s| && IsSpace(s[i]) then SkipSpaceForward(s, i + 1) else i
  }

  /** The index just after the last character of `s` before `j` that is not white space
      (0 when there is none). */
  function SkipSpaceBackward(s: string, j: nat): (i: nat)
    requires j <= |s|
    ensures i <= j
    ensures forall m :: i <= m < j ==> IsSpace(s[m])
    ensures 0 < i ==> !IsSpace(s[i - 1])
  {
    if 0 < j && IsSpace(s[j - 1]) then SkipSpaceBackward(s, j - 1) else j
  }

  /** `r` is `s` with `k` white-space characters cut from its front and only white space
      cut from its back, and `r` neither starts nor ends with white space. */
  ghost predicate TrimmedFrom(r: string, s: string, k: nat) {
    k + |r| <= |s| && r == s[k..k + |r|]
    && (forall i :: 0 <= i < k ==> IsSpace(s[i]))
    && (forall i :: k + |r| <= i < |s| ==> IsSpace(s[i]))
    && (r != [] ==> !IsSpace(r[0]) && !IsSpace(r[|r| - 1]))
  }

  /** `s.trim()`. */
  function Trim(s: string): (r: string)
    ensures TrimmedFrom(r, s, SkipSpaceForward(s, 0))
  {
    var a := SkipSpaceForward(s, 0);
    var b := SkipSpaceBackward(s, |s|);
    if a < b then s[a..b] else ""
  }

  /** Trimming only removes characters. */
  lemma TrimKeepsOut(s: string, c: char)
    requires c !in s
    ensures c !in Trim(s)
  {
    var r := Trim(s);
    var k := SkipSpaceForward(s, 0);
    assert forall i :: 0 <= i < |r| ==> r[i] == s[k + i];
  }

  /** Any cut of `s` satisfying `TrimmedFrom` is the one `trim` makes. */
  lemma TrimUnique(r: string, s: string, k: nat)
    requires TrimmedFrom(r, s, k)
    ensures r == Trim(s)
  {
    var t := Trim(s);
    var k' := SkipSpaceForward(s, 0);
    assert TrimmedFrom(t, s, k');
    // a non-empty cut starts at the first non-space character of s and ends after the last one
    if r != [] && t != [] {
      assert s[k] == r[0] && s[k'] == t[0];
      assert s[k + |r| - 1] == r[|r| - 1] && s[k' + |t| - 1] == t[|t| - 1];
    } else {
      // one cut is empty, so s is all white space and the other cut is empty too
      assert forall i :: 0 <= i < |s| && !IsSpace(s[i]) ==> k <= i < k + |r| && k' <= i < k' + |t|;
    }
  }

  /** Trimming twice is trimming once. */
  lemma TrimIdempotent(s: string)
    ensures Trim(Trim(s)) == Trim(s)
  {
    var t := Trim(s);
    assert t[0..0 + |t|] == t;
    TrimUnique(t, t, 0);
  }

  /** A string of white space only trims to the empty string. */
  lemma TrimAllSpace(s: string)
    requires forall i :: 0 <= i < |s| ==> IsSpace(s[i])
    ensures Trim(s) == ""
  {
    TrimUnique("", s, 0);
  }
}
