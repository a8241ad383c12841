/** The pieces of the Java library the text protocol relies on: `String.split` with a literal
    two-character separator (`": "`, `", "`), which keeps leading empty pieces and drops
    trailing ones, and the failure of a number parse. */
module JavaText {

  datatype Option<T> = None | Some(value: T)

  /** `sep` occurs in `s` starting at index `i`. */
  predicate OccursAt(s: string, sep: string, i: int)
  {
    0 <= i && i + |sep| <= |s| && s[i..i + |sep|] == sep
  }

  /** `sep` occurs nowhere in `s`. */
  predicate Free(s: string, sep: string)
  {
    forall i :: 0 <= i < |s| ==> !OccursAt(s, sep, i)
  }

  lemma OccursShift(s: string, sep: string, i: int)
    requires |s| > 0 && i >= 0
    ensures OccursAt(s, sep, i + 1) <==> OccursAt(s[1..], sep, i)
  {
    if i + 1 + |sep| <= |s| {
      assert s[i + 1..i + 1 + |sep|] == s[1..][i..i + |sep|];
    }
  }

  /** The leftmost occurrence of `sep` in `s` (what the regex matcher finds first for a pattern
      without metacharacters), or -1. */
  function IndexOf(s: string, sep: string): (k: int)
    requires |sep| > 0
    ensures k == -1 ==> Free(s, sep)
    ensures k != -1 ==> OccursAt(s, sep, k) && forall i :: 0 <= i < k ==> !OccursAt(s, sep, i)
    decreases |s|
  {
    if |s| < |sep| then -1
    else if s[..|sep|] == sep then 0
    else
      var k := IndexOf(s[1..], sep);
      IndexOfStep(s, sep, k);
      if k == -1 then -1 else k + 1
  }

  /** How the leftmost occurrence in `s` follows from the one in `s[1..]` when `s` does not
      start with `sep`. */
  lemma IndexOfStep(s: string, sep: string, k: int)
    requires |sep| > 0 && |s| >= |sep| && s[..|sep|] != sep
    requires k == -1 ==> Free(s[1..], sep)
    requires k != -1 ==> OccursAt(s[1..], sep, k) && forall i :: 0 <= i < k ==> !OccursAt(s[1..], sep, i)
    ensures k == -1 ==> Free(s, sep)
    ensures k != -1 ==> OccursAt(s, sep, k + 1) && forall i :: 0 <= i < k + 1 ==> !OccursAt(s, sep, i)
  {
    assert !OccursAt(s, sep, 0);
    forall i | 1 <= i < |s| && (k == -1 || i < k + 1) ensures !OccursAt(s, sep, i) {
      OccursShift(s, sep, i - 1);
    }
    if k != -1 {
      OccursShift(s, sep, k);
    }
  }

  /** The text between successive leftmost, non-overlapping occurrences of `sep`, before any
      trailing empty piece is dropped. */
  function Pieces(s: string, sep: string): (r: seq<string>)
    requires |sep| > 0
    ensures |r| > 0
    ensures forall j :: 0 <= j < |r| ==> Free(r[j], sep)
    decreases |s|
  {
    var k := IndexOf(s, sep);
    if k == -1 then [s]
    else
      PrefixFree(s, sep, k);
      [s[..k]] + Pieces(s[k + |sep|..], sep)
  }

  /** The text before the leftmost occurrence of `sep` does not contain `sep`. */
  lemma PrefixFree(s: string, sep: string, k: int)
    requires 0 <= k <= |s| && forall i :: 0 <= i < k ==> !OccursAt(s, sep, i)
    ensures Free(s[..k], sep)
  {
    forall i | 0 <= i < k ensures !OccursAt(s[..k], sep, i) {
      assert !OccursAt(s, sep, i);
      if i + |sep| <= k {
        assert s[..k][i..i + |sep|] == s[i..i + |sep|];
      }
    }
  }

  /** `ps` without its trailing empty pieces. */
  function DropTrailingEmpty(ps: seq<string>): (r: seq<string>)
    ensures |r| <= |ps| && r == ps[..|r|]
    ensures r == [] || r[|r| - 1] != ""
    ensures forall i :: |r| <= i < |ps| ==> ps[i] == ""
  {
    if ps == [] || ps[|ps| - 1] != "" then ps else DropTrailingEmpty(ps[..|ps| - 1])
  }

  /** `s.split(sep)`: the whole input when `sep` does not occur in it, the pieces without the
      trailing empty ones otherwise. */
  function Split(s: string, sep: string): (r: seq<string>)
    requires |sep| > 0
    ensures Free(s, sep) ==> r == [s]
    ensures forall j :: 0 <= j < |r| ==> Free(r[j], sep)
  {
    if IndexOf(s, sep) == -1 then [s] else DropTrailingEmpty(Pieces(s, sep))
  }

  /** The pieces glued back together with `sep` between consecutive ones. */
  function Join(ps: seq<string>, sep: string): (s: string)
    requires |ps| > 0
  {
    if |ps| == 1 then ps[0] else ps[0] + sep + Join(ps[1..], sep)
  }

  /** A two-character separator whose two characters differ cannot overlap itself. */
  predicate Separator(sep: string)
  {
    |sep| == 2 && sep[0] != sep[1]
  }

  lemma OccursAtTwo(s: string, sep: string, i: int)
    requires |sep| == 2
    ensures OccursAt(s, sep, i) <==> 0 <= i && i + 2 <= |s| && s[i] == sep[0] && s[i + 1] == sep[1]
  {
    if 0 <= i && i + 2 <= |s| {
      assert s[i..i + 2] == [s[i], s[i + 1]];
    }
  }

  /** A string none of whose characters starts the separator is free of it. */
  lemma FreeOfFirst(s: string, sep: string)
    requires |sep| == 2 && forall j :: 0 <= j < |s| ==> s[j] != sep[0]
    ensures Free(s, sep)
  {
    forall i ensures !OccursAt(s, sep, i) {
      OccursAtTwo(s, sep, i);
    }
  }

  /** Gluing two separator-free strings creates no occurrence unless one straddles the seam. */
  lemma FreeConcat(a: string, b: string, sep: string)
    requires |sep| == 2 && Free(a, sep) && Free(b, sep)
    requires |a| > 0 && |b| > 0 ==> !(a[|a| - 1] == sep[0] && b[0] == sep[1])
    ensures Free(a + b, sep)
  {
    var s := a + b;
    forall i ensures !OccursAt(s, sep, i) {
      OccursAtTwo(s, sep, i);
      if 0 <= i && i + 2 <= |s| {
        if i + 2 <= |a| {
          OccursAtTwo(a, sep, i);
        } else if i >= |a| {
          OccursAtTwo(b, sep, i - |a|);
        }
      }
    }
  }

  /** In `a + sep + rest` with `a` free of `sep`, the first occurrence is the one after `a`. */
  lemma IndexOfAfterFree(a: string, rest: string, sep: string)
    requires Separator(sep) && Free(a, sep)
    ensures IndexOf(a + sep + rest, sep) == |a|
  {
    var s := a + sep + rest;
    OccursAtTwo(s, sep, |a|);
    forall i | 0 <= i < |a| ensures !OccursAt(s, sep, i) {
      OccursAtTwo(s, sep, i);
      OccursAtTwo(a, sep, i);
    }
  }

  /** Splitting off the first piece when it is free of the separator. */
  lemma PiecesCons(a: string, rest: string, sep: string)
    requires Separator(sep) && Free(a, sep)
    ensures Pieces(a + sep + rest, sep) == [a] + Pieces(rest, sep)
  {
    var s := a + sep + rest;
    IndexOfAfterFree(a, rest, sep);
    assert s[..|a|] == a;
    assert s[|a| + |sep|..] == rest;
  }

  /** Splitting what `Join` glued gives the pieces back, as long as no piece contains the
      separator and the last piece is not empty (a trailing empty piece would be dropped). */
  lemma {:induction false} PiecesJoin(ps: seq<string>, sep: string)
    requires Separator(sep) && |ps| > 0
    requires forall i :: 0 <= i < |ps| ==> Free(ps[i], sep)
    ensures Pieces(Join(ps, sep), sep) == ps
    ensures |ps| > 1 <==> IndexOf(Join(ps, sep), sep) != -1
  {
    if |ps| == 1 {
      assert Join(ps, sep) == ps[0];
    } else {
      var rest := Join(ps[1..], sep);
      assert Join(ps, sep) == ps[0] + sep + rest;
      IndexOfAfterFree(ps[0], rest, sep);
      PiecesCons(ps[0], rest, sep);
      PiecesJoin(ps[1..], sep);
      assert ps == [ps[0]] + ps[1..];
    }
  }

  lemma SplitJoin(ps: seq<string>, sep: string)
    requires Separator(sep) && |ps| > 0
    requires forall i :: 0 <= i < |ps| ==> Free(ps[i], sep)
    requires |ps| > 1 ==> ps[|ps| - 1] != ""
    ensures Split(Join(ps, sep), sep) == ps
  {
    PiecesJoin(ps, sep);
  }

  /** A string with an empty piece at its end splits into fewer pieces than it was joined from:
      `"a, b, ".split(", ")` has two elements, not three. */
  lemma SplitDropsTrailingEmpty(ps: seq<string>, sep: string)
    requires Separator(sep) && |ps| > 1
    requires forall i :: 0 <= i < |ps| ==> Free(ps[i], sep)
    requires ps[|ps| - 1] == ""
    ensures |Split(Join(ps, sep), sep)| < |ps|
  {
    PiecesJoin(ps, sep);
    var r := DropTrailingEmpty(ps);
    assert r != ps;
  }
}
