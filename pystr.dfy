/** The Python string operations the text adapters rely on (`in`,
    `str.replace`, `str.split`, `str.join`, iterating a text file by lines,
    `+=` on a string) written out on Dafny strings. */
module PyStr {

  /** `s.startswith(p)` */
  predicate IsPrefix(p: string, s: string) {
    |p| <= |s| && s[..|p|] == p
  }

  predicate IsSuffix(p: string, s: string) {
    |p| <= |s| && s[|s| - |p|..] == p
  }

  /** Python's `sub in s`, scanning `s` from the left. */
  predicate Contains(s: string, sub: string)
    ensures Contains(s, sub) ==> |sub| <= |s|
    decreases |s|
  {
    IsPrefix(sub, s) || (|s| > 0 && Contains(s[1..], sub))
  }

  /** A `sub` as long as `s` is in it only when the two are equal. */
  lemma {:induction false} ContainsSameLength(s: string, sub: string)
    requires Contains(s, sub) && |sub| == |s|
    ensures sub == s
  {
  }

  /** `sub` occurs in `s` at index `i`. */
  predicate OccursAt(s: string, sub: string, i: int) {
    0 <= i <= |s| - |sub| && s[i..i + |sub|] == sub
  }

  /** `sub in s` holds exactly when `sub` occurs in `s` at some index. */
  lemma {:induction false} ContainsIffOccurs(s: string, sub: string)
    ensures Contains(s, sub) <==> exists i :: OccursAt(s, sub, i)
    decreases |s|
  {
    if |s| == 0 {
      if Contains(s, sub) {
        assert OccursAt(s, sub, 0);
      }
    } else {
      ContainsIffOccurs(s[1..], sub);
      if Contains(s, sub) {
        if IsPrefix(sub, s) {
          assert OccursAt(s, sub, 0);
        } else {
          var j :| OccursAt(s[1..], sub, j);
          assert s[j + 1..j + 1 + |sub|] == s[1..][j..j + |sub|];
          assert OccursAt(s, sub, j + 1);
        }
      }
      if exists i :: OccursAt(s, sub, i) {
        var i :| OccursAt(s, sub, i);
        if i == 0 {
          assert IsPrefix(sub, s);
        } else {
          assert s[1..][i - 1..i - 1 + |sub|] == s[i..i + |sub|];
          assert OccursAt(s[1..], sub, i - 1);
        }
      }
    }
  }

  lemma ContainsCons(c: char, s: string, sub: string)
    requires Contains(s, sub)
    ensures Contains([c] + s, sub)
  {
    assert ([c] + s)[1..] == s;
  }

  /** An empty pattern: `rep` before every character and at the end. */
  function Interleave(s: string, rep: string): (r: string)
    ensures |r| == |s| + (|s| + 1) * |rep|
    decreases |s|
  {
    if s == "" then rep else rep + [s[0]] + Interleave(s[1..], rep)
  }

  /** Python's `s.replace(pat, rep)`: every non-overlapping occurrence of
      `pat`, found from the left, becomes `rep`; an empty `pat` matches
      before every character and at the end. */
  function Replace(s: string, pat: string, rep: string): (r: string)
    ensures |pat| == |rep| ==> |r| == |s|
    ensures pat == "" ==> |r| == |s| + (|s| + 1) * |rep|
    ensures pat != "" && rep == "" ==> |r| <= |s|
    decreases |s|
  {
    if pat == "" then Interleave(s, rep)
    else if s == "" then ""
    else if IsPrefix(pat, s) then rep + Replace(s[|pat|..], pat, rep)
    else [s[0]] + Replace(s[1..], pat, rep)
  }

  /** Python's `s.split(sep)` for a non-empty `sep` (an empty one raises
      ValueError, which callers model). */
  function Split(s: string, sep: string): (parts: seq<string>)
    requires sep != ""
    ensures |parts| >= 1
    decreases |s|
  {
    if s == "" then [""]
    else if IsPrefix(sep, s) then [""] + Split(s[|sep|..], sep)
    else
      var rest := Split(s[1..], sep);
      [[s[0]] + rest[0]] + rest[1..]
  }

  /** `s.split(sep)[-1]` */
  function LastSegment(s: string, sep: string): string
    requires sep != ""
  {
    var parts := Split(s, sep);
    parts[|parts| - 1]
  }

  /** Python's `sep.join(parts)`. */
  function Join(parts: seq<string>, sep: string): string
    decreases |parts|
  {
    if |parts| == 0 then ""
    else if |parts| == 1 then parts[0]
    else parts[0] + sep + Join(parts[1..], sep)
  }

  /** The text `for line in f` reads, put back together by `+=`. */
  function Concat(lines: seq<string>): string
    decreases |lines|
  {
    if lines == [] then "" else lines[0] + Concat(lines[1..])
  }

  lemma {:induction false} ConcatSnoc(lines: seq<string>, line: string)
    ensures Concat(lines + [line]) == Concat(lines) + line
    decreases |lines|
  {
    if lines == [] {
      assert [] + [line] == [line];
      assert [line][1..] == [];
    } else {
      assert (lines + [line])[1..] == lines[1..] + [line];
      ConcatSnoc(lines[1..], line);
    }
  }

  /** Length of the first line of a non-empty text, its '\n' included. */
  function FirstLineLength(s: string): (n: nat)
    requires s != ""
    ensures 1 <= n <= |s|
    ensures forall j :: 0 <= j < n - 1 ==> s[j] != '\n'
    ensures n < |s| ==> s[n - 1] == '\n'
    decreases |s|
  {
    if s[0] == '\n' || |s| == 1 then 1 else 1 + FirstLineLength(s[1..])
  }

  /** The lines `for line in f` yields for a file holding `s`: each line but
      the last ends with its '\n', and no line holds a '\n' elsewhere. */
  function SplitLines(s: string): (lines: seq<string>)
    ensures Concat(lines) == s
    ensures forall i :: 0 <= i < |lines| ==> lines[i] != ""
    ensures forall i, j :: 0 <= i < |lines| && 0 <= j < |lines[i]| - 1 ==> lines[i][j] != '\n'
    ensures forall i :: 0 <= i < |lines| - 1 ==> lines[i][|lines[i]| - 1] == '\n'
    decreases |s|
  {
    if s == "" then []
    else
      var n := FirstLineLength(s);
      var rest := SplitLines(s[n..]);
      assert s[..n] + s[n..] == s;
      [s[..n]] + rest
  }

  lemma {:induction false} InterleaveNothing(s: string)
    ensures Interleave(s, "") == s
    decreases |s|
  {
    if s != "" {
      InterleaveNothing(s[1..]);
      assert "" + [s[0]] + s[1..] == s;
    }
  }

  /** Replacing a pattern by itself changes nothing. */
  lemma {:induction false} ReplaceSame(s: string, pat: string)
    ensures Replace(s, pat, pat) == s
    decreases |s|
  {
    if pat == "" {
      InterleaveNothing(s);
    } else if s != "" {
      if IsPrefix(pat, s) {
        ReplaceSame(s[|pat|..], pat);
        assert s[..|pat|] + s[|pat|..] == s;
      } else {
        ReplaceSame(s[1..], pat);
        assert [s[0]] + s[1..] == s;
      }
    }
  }

  /** A non-empty pattern that does not occur leaves the text as it is. */
  lemma {:induction false} ReplaceAbsent(s: string, pat: string, rep: string)
    requires pat != "" && !Contains(s, pat)
    ensures Replace(s, pat, rep) == s
    decreases |s|
  {
    if s != "" {
      ReplaceAbsent(s[1..], pat, rep);
      assert [s[0]] + s[1..] == s;
    }
  }

  /** Once a non-empty pattern occurs, the replacement occurs in the result. */
  lemma {:induction false} ReplaceIntroduces(s: string, pat: string, rep: string)
    requires pat != "" && Contains(s, pat)
    ensures Contains(Replace(s, pat, rep), rep)
    decreases |s|
  {
    if IsPrefix(pat, s) {
      var t := Replace(s[|pat|..], pat, rep);
      assert (rep + t)[..|rep|] == rep;
    } else {
      ReplaceIntroduces(s[1..], pat, rep);
      ContainsCons(s[0], Replace(s[1..], pat, rep), rep);
    }
  }

  /** `s.replace(pat, rep) == rep.join(s.split(pat))`: the replacement
      puts `rep` exactly where the split cuts, so every occurrence the split
      finds is replaced and nothing else changes. */
  lemma {:induction false} ReplaceIsJoinOfSplit(s: string, pat: string, rep: string)
    requires pat != ""
    ensures Replace(s, pat, rep) == Join(Split(s, pat), rep)
    decreases |s|
  {
    if s == "" {
    } else if IsPrefix(pat, s) {
      var rest := Split(s[|pat|..], pat);
      ReplaceIsJoinOfSplit(s[|pat|..], pat, rep);
      assert Split(s, pat) == [""] + rest;
      assert ([""] + rest)[1..] == rest;
    } else {
      var rest := Split(s[1..], pat);
      ReplaceIsJoinOfSplit(s[1..], pat, rep);
      assert Split(s, pat) == [[s[0]] + rest[0]] + rest[1..];
      JoinConsHead(s[0], rest, rep);
    }
  }

  /** A character put in front of the first piece comes out in front of
      the joined text. */
  lemma JoinConsHead(c: char, parts: seq<string>, sep: string)
    requires |parts| >= 1
    ensures Join([[c] + parts[0]] + parts[1..], sep) == [c] + Join(parts, sep)
  {
    var consed := [[c] + parts[0]] + parts[1..];
    if |parts| > 1 {
      assert consed[1..] == parts[1..];
    }
  }

  /** Joining the pieces of a split with the separator gives the text back. */
  lemma SplitJoin(s: string, sep: string)
    requires sep != ""
    ensures Join(Split(s, sep), sep) == s
  {
    ReplaceIsJoinOfSplit(s, sep, sep);
    ReplaceSame(s, sep);
  }

  /** A text without the separator is one piece. */
  lemma {:induction false} SplitWithoutSep(s: string, sep: string)
    requires sep != "" && !Contains(s, sep)
    ensures Split(s, sep) == [s]
    decreases |s|
  {
    if s != "" {
      SplitWithoutSep(s[1..], sep);
      assert [s[0]] + s[1..] == s;
    }
  }

  lemma SuffixOfDrop(p: string, s: string, k: nat)
    requires k <= |s| && IsSuffix(p, s[k..])
    ensures IsSuffix(p, s)
  {
    assert s[k..][|s[k..]| - |p|..] == s[|s| - |p|..];
  }

  /** The split has a single piece exactly when the separator does not
      occur. */
  lemma {:induction false} SplitSingle(s: string, sep: string)
    requires sep != ""
    ensures |Split(s, sep)| == 1 <==> !Contains(s, sep)
    decreases |s|
  {
    if s != "" && !IsPrefix(sep, s) {
      SplitSingle(s[1..], sep);
    }
  }

  /** A leading separator only adds an empty first piece. */
  lemma LastSegmentAfterPrefix(s: string, sep: string)
    requires sep != "" && IsPrefix(sep, s)
    ensures LastSegment(s, sep) == LastSegment(s[|sep|..], sep)
  {
    assert Split(s, sep) == [""] + Split(s[|sep|..], sep);
  }

  /** A leading character that starts no separator joins the first piece,
      so when a separator follows, the last piece is untouched. */
  lemma LastSegmentAfterChar(s: string, sep: string)
    requires sep != "" && s != "" && !IsPrefix(sep, s) && Contains(s[1..], sep)
    ensures LastSegment(s, sep) == LastSegment(s[1..], sep)
  {
    var rest := Split(s[1..], sep);
    SplitSingle(s[1..], sep);
    assert Split(s, sep) == [[s[0]] + rest[0]] + rest[1..];
  }

  /** When the separator occurs, the last piece is what follows its last
      occurrence: the separator and then the piece end the text. */
  lemma {:induction false} LastSegmentAfterSep(s: string, sep: string)
    requires sep != "" && Contains(s, sep)
    ensures IsSuffix(sep + LastSegment(s, sep), s)
    decreases |s|
  {
    if IsPrefix(sep, s) {
      var t := s[|sep|..];
      LastSegmentAfterPrefix(s, sep);
      if Contains(t, sep) {
        LastSegmentAfterSep(t, sep);
        SuffixOfDrop(sep + LastSegment(t, sep), s, |sep|);
      } else {
        SplitWithoutSep(t, sep);
        assert sep + t == s;
      }
    } else {
      var t := s[1..];
      LastSegmentAfterSep(t, sep);
      LastSegmentAfterChar(s, sep);
      SuffixOfDrop(sep + LastSegment(t, sep), s, 1);
    }
  }

  /** The last piece of a split is a suffix of the text and holds no
      separator. */
  lemma {:induction false} LastSegmentShape(s: string, sep: string)
    requires sep != ""
    ensures IsSuffix(LastSegment(s, sep), s)
    ensures !Contains(LastSegment(s, sep), sep)
    decreases |s|
  {
    if !Contains(s, sep) {
      SplitWithoutSep(s, sep);
    } else if IsPrefix(sep, s) {
      var t := s[|sep|..];
      LastSegmentAfterPrefix(s, sep);
      LastSegmentShape(t, sep);
      SuffixOfDrop(LastSegment(t, sep), s, |sep|);
    } else {
      var t := s[1..];
      LastSegmentAfterChar(s, sep);
      LastSegmentShape(t, sep);
      SuffixOfDrop(LastSegment(t, sep), s, 1);
    }
  }
}
