/**
 * The few Python string operations the build script relies on: `str.find` (inside `split`),
 * `str.split`, `str.replace` and `str.lower`, stated over Dafny strings, plus a reference
 * definition of "the field that follows a mark" that the parsers are proved against.
 */
module Text {

  datatype Option<T> = None | Some(value: T)

  /** `pat` occurs in `s` starting at position `i`. */
  predicate OccursAt(s: string, pat: string, i: nat) {
    i + |pat| <= |s| && s[i..i + |pat|] == pat
  }

  lemma OccursShift(s: string, pat: string)
    requires |s| > 0
    ensures forall j: nat :: 0 < j ==> (OccursAt(s, pat, j) <==> OccursAt(s[1..], pat, j - 1))
  {
    forall j: nat | 0 < j ensures OccursAt(s, pat, j) <==> OccursAt(s[1..], pat, j - 1) {
      if j + |pat| <= |s| {
        var u, v := s[j..j + |pat|], s[1..][j - 1..j - 1 + |pat|];
        assert |u| == |v|;
        assert forall k :: 0 <= k < |u| ==> u[k] == s[j + k] == v[k];
        assert u == v;
      }
    }
  }

  /** The position of the first occurrence of `pat` in `s`, or None when there is none
      (`str.find`, with -1 as None). */
  function IndexOf(s: string, pat: string): (r: Option<nat>)
    requires |pat| > 0
    ensures r.Some? ==> r.value + |pat| <= |s|
    decreases |s|
  {
    if |s| < |pat| then None
    else if s[..|pat|] == pat then Some(0)
    else
      match IndexOf(s[1..], pat)
      case None => None
      case Some(k) => Some(k + 1)
  }

  /** `IndexOf` finds the first occurrence, and None means there is none. */
  lemma {:induction false} IndexOfFirst(s: string, pat: string)
    requires |pat| > 0
    ensures IndexOf(s, pat).Some? ==> OccursAt(s, pat, IndexOf(s, pat).value)
    ensures IndexOf(s, pat).Some? ==> forall j: nat :: j < IndexOf(s, pat).value ==> !OccursAt(s, pat, j)
    ensures IndexOf(s, pat).None? ==> forall j: nat :: !OccursAt(s, pat, j)
    decreases |s|
  {
    if |s| >= |pat| && s[..|pat|] != pat {
      OccursShift(s, pat);
      IndexOfFirst(s[1..], pat);
    }
  }

  /** Conversely, the first occurrence is what `IndexOf` finds. */
  lemma IndexOfAt(s: string, pat: string, i: nat)
    requires |pat| > 0 && OccursAt(s, pat, i)
    requires forall j: nat :: j < i ==> !OccursAt(s, pat, j)
    ensures IndexOf(s, pat) == Some(i)
  {
    IndexOfFirst(s, pat);
  }

  /** A string that does not contain the first character of `pat` does not contain `pat`. */
  lemma IndexOfMissing(s: string, pat: string)
    requires |pat| > 0 && forall k :: 0 <= k < |s| ==> s[k] != pat[0]
    ensures IndexOf(s, pat).None?
  {
    forall i: nat | i + |pat| <= |s| ensures !OccursAt(s, pat, i) {
      assert s[i..i + |pat|][0] == s[i];
    }
    IndexOfFirst(s, pat);
  }

  /** Python's `s.split(sep)` for a non-empty separator: the pieces between the
      non-overlapping occurrences of `sep`, found left to right. */
  function Split(s: string, sep: string): (parts: seq<string>)
    requires |sep| > 0
    ensures |parts| >= 1
    decreases |s|
  {
    match IndexOf(s, sep)
    case None => [s]
    case Some(i) => [s[..i]] + Split(s[i + |sep|..], sep)
  }

  /** Python's `sep.join(parts)`. */
  function JoinWith(parts: seq<string>, sep: string): string {
    if |parts| == 0 then ""
    else if |parts| == 1 then parts[0]
    else parts[0] + sep + JoinWith(parts[1..], sep)
  }

  /** Python's `s.replace(target, with)` for a non-empty target. */
  function Replace(s: string, target: string, with: string): string
    requires |target| > 0
  {
    JoinWith(Split(s, target), with)
  }

  /** Every occurrence of `c` deleted from `s`: the reference for `replace(c, "")`. */
  function RemoveChar(s: string, c: char): string {
    if s == [] then []
    else (if s[0] == c then [] else [s[0]]) + RemoveChar(s[1..], c)
  }

  function LowerChar(ch: char): char {
    if 'A' <= ch <= 'Z' then (ch as int + 32) as char else ch
  }

  /** Python's `s.lower()`, restricted to the ASCII letters. */
  function Lower(s: string): string {
    seq(|s|, i requires 0 <= i < |s| => LowerChar(s[i]))
  }

  /** Splitting and joining again with the same separator gives back the input. */
  lemma {:induction false} SplitJoin(s: string, sep: string)
    requires |sep| > 0
    ensures JoinWith(Split(s, sep), sep) == s
    decreases |s|
  {
    match IndexOf(s, sep)
    case None =>
    case Some(i) =>
      var rest := s[i + |sep|..];
      var tail := Split(rest, sep);
      assert Split(s, sep) == [s[..i]] + tail;
      SplitJoin(rest, sep);
      JoinCons(s[..i], tail, sep);
      IndexOfFirst(s, sep);
      assert s[i..i + |sep|] == sep;
      assert s == s[..i] + s[i..i + |sep|] + rest;
  }

  lemma JoinCons(head: string, tail: seq<string>, sep: string)
    requires |tail| >= 1
    ensures JoinWith([head] + tail, sep) == head + sep + JoinWith(tail, sep)
  {
    assert ([head] + tail)[1..] == tail;
  }

  /** No piece that `Split` returns contains the separator. */
  lemma {:induction false} SplitPiecesFree(s: string, sep: string)
    requires |sep| > 0
    ensures forall k :: 0 <= k < |Split(s, sep)| ==> IndexOf(Split(s, sep)[k], sep).None?
    decreases |s|
  {
    match IndexOf(s, sep)
    case None =>
    case Some(i) =>
      var rest := s[i + |sep|..];
      SplitPiecesFree(rest, sep);
      var head := s[..i];
      IndexOfFirst(s, sep);
      IndexOfFirst(head, sep);
      if IndexOf(head, sep).Some? {
        var j := IndexOf(head, sep).value;
        assert head[j..j + |sep|] == s[j..j + |sep|];
        assert OccursAt(s, sep, j);
        assert false;
      }
  }

  /** Where the first piece of `Split(s, sep)` ends: the first occurrence, or the end. */
  function FirstOrEnd(s: string, sep: string): (n: nat)
    requires |sep| > 0
    ensures n <= |s|
  {
    match IndexOf(s, sep)
    case None => |s|
    case Some(i) => i
  }

  lemma SplitHead(s: string, sep: string)
    requires |sep| > 0
    ensures Split(s, sep)[0] == s[..FirstOrEnd(s, sep)]
  {
  }

  /** The first line break in `s`, or the end of `s`. */
  lemma NewlineCut(s: string)
    ensures forall k :: 0 <= k < FirstOrEnd(s, "\n") ==> s[k] != '\n'
    ensures FirstOrEnd(s, "\n") < |s| ==> s[FirstOrEnd(s, "\n")] == '\n'
  {
    IndexOfFirst(s, "\n");
    forall k | 0 <= k < FirstOrEnd(s, "\n") ensures s[k] != '\n' {
      assert !OccursAt(s, "\n", k);
      assert s[k..k + 1] == [s[k]];
    }
    if FirstOrEnd(s, "\n") < |s| {
      var i := FirstOrEnd(s, "\n");
      assert OccursAt(s, "\n", i);
      assert s[i..i + 1] == [s[i]];
    }
  }

  /** `rest[..n]` ends exactly where a field ends: at the first line break, the first
      occurrence of `mark`, or the end of `rest`, whichever comes first. */
  ghost predicate FieldEnd(rest: string, n: nat, mark: string) {
    n <= |rest|
    && (forall k :: 0 <= k < n ==> rest[k] != '\n' && !OccursAt(rest, mark, k))
    && (n == |rest| || rest[n] == '\n' || OccursAt(rest, mark, n))
  }

  /** `field` is the text that follows the first `mark` in `s`, up to the next line break
      or the next `mark`. Reference definition for `s.split(mark)[1].split("\n")[0]`. */
  ghost predicate FieldAfter(s: string, mark: string, field: string)
    requires |mark| > 0
  {
    match IndexOf(s, mark)
    case None => false
    case Some(i) =>
      var rest := s[i + |mark|..];
      field <= rest && FieldEnd(rest, |field|, mark)
  }

  /** A mark is followed by at most one field. */
  lemma FieldAfterUnique(s: string, mark: string, a: string, b: string)
    requires |mark| > 0
    requires FieldAfter(s, mark, a) && FieldAfter(s, mark, b)
    ensures a == b
  {
    var i := IndexOf(s, mark).value;
    var rest := s[i + |mark|..];
  }

  /** The first line of the first piece of `rest` is a field of `rest`. */
  lemma FirstLine(rest: string, mark: string)
    requires |mark| > 0
    ensures Split(Split(rest, mark)[0], "\n")[0] <= rest
    ensures FieldEnd(rest, |Split(Split(rest, mark)[0], "\n")[0]|, mark)
  {
    SplitHead(rest, mark);
    IndexOfFirst(rest, mark);
    var j := FirstOrEnd(rest, mark);
    var piece := rest[..j];
    SplitHead(piece, "\n");
    NewlineCut(piece);
    var k := FirstOrEnd(piece, "\n");
    assert piece[..k] == rest[..k];
    forall m | 0 <= m < k ensures rest[m] != '\n' && !OccursAt(rest, mark, m) {
      assert piece[m] == rest[m];
    }
    if k < |piece| {
      assert rest[k] == piece[k];
    }
  }

  /** The Python expression `s.split(mark)[1].split("\n")[0]` is defined exactly when `mark`
      occurs in `s`, and then it yields the field that follows the mark. */
  lemma SplitField(s: string, mark: string)
    requires |mark| > 0
    ensures |Split(s, mark)| >= 2 <==> IndexOf(s, mark).Some?
    ensures |Split(s, mark)| >= 2 ==> FieldAfter(s, mark, Split(Split(s, mark)[1], "\n")[0])
  {
    match IndexOf(s, mark)
    case None =>
    case Some(i) =>
      var rest := s[i + |mark|..];
      assert Split(s, mark)[1] == Split(rest, mark)[0];
      FirstLine(rest, mark);
  }

  lemma {:induction false} RemoveConcat(a: string, b: string, c: char)
    ensures RemoveChar(a + b, c) == RemoveChar(a, c) + RemoveChar(b, c)
  {
    if a == [] {
      assert a + b == b;
    } else {
      var ab := a + b;
      assert ab[0] == a[0] && ab[1..] == a[1..] + b;
      RemoveConcat(a[1..], b, c);
      var h := if a[0] == c then [] else [a[0]];
      assert RemoveChar(ab, c) == h + RemoveChar(a[1..] + b, c);
      assert RemoveChar(a, c) == h + RemoveChar(a[1..], c);
    }
  }

  lemma {:induction false} RemoveAbsent(s: string, c: char)
    requires forall k :: 0 <= k < |s| ==> s[k] != c
    ensures RemoveChar(s, c) == s
  {
    if s != [] {
      RemoveAbsent(s[1..], c);
    }
  }

  /** `RemoveChar` leaves no `c` behind. */
  lemma {:induction false} RemoveCharGone(s: string, c: char)
    ensures forall k :: 0 <= k < |RemoveChar(s, c)| ==> RemoveChar(s, c)[k] != c
  {
    if s != [] {
      RemoveCharGone(s[1..], c);
    }
  }

  /** Deleting one character introduces no other. */
  lemma {:induction false} RemoveKeeps(s: string, c: char, d: char)
    requires forall k :: 0 <= k < |s| ==> s[k] != d
    ensures forall k :: 0 <= k < |RemoveChar(s, c)| ==> RemoveChar(s, c)[k] != d
  {
    if s != [] {
      RemoveKeeps(s[1..], c, d);
    }
  }

  /** A string without `c` is left alone by `RemoveChar`; `IndexOf` finds no `c` in it. */
  lemma NoCharBefore(s: string, c: char, n: nat)
    requires n <= |s| && forall j: nat :: j < n ==> !OccursAt(s, [c], j)
    ensures RemoveChar(s[..n], c) == s[..n]
  {
    forall k | 0 <= k < n ensures s[..n][k] != c {
      assert !OccursAt(s, [c], k);
      assert s[k..k + 1] == [s[k]];
    }
    RemoveAbsent(s[..n], c);
  }

  /** Python's `s.replace(c, "")` deletes every occurrence of the character `c`. */
  lemma {:induction false} ReplaceDeletes(s: string, c: char)
    ensures Replace(s, [c], "") == RemoveChar(s, c)
    decreases |s|
  {
    IndexOfFirst(s, [c]);
    match IndexOf(s, [c])
    case None =>
      NoCharBefore(s, c, |s|);
      assert s[..|s|] == s;
    case Some(i) =>
      var rest := s[i + 1..];
      ReplaceDeletes(rest, c);
      var tail := Split(rest, [c]);
      assert Split(s, [c]) == [s[..i]] + tail;
      JoinCons(s[..i], tail, "");
      assert Replace(s, [c], "") == s[..i] + Replace(rest, [c], "");
      NoCharBefore(s, c, i);
      assert s[i..i + 1] == [c];
      assert s == s[..i] + [c] + rest;
      RemoveConcat(s[..i] + [c], rest, c);
      RemoveConcat(s[..i], [c], c);
  }

  /** Lower-casing twice is lower-casing once. */
  lemma LowerIdempotent(s: string)
    ensures Lower(Lower(s)) == Lower(s)
  {
  }
}
