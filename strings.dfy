/**
 * PHP's `implode`, which Join uses to assemble every fragment, and `explode`,
 * its inverse, used here only to state that an imploded list can be read back.
 */
module Strings {

  /** The summed length of the pieces. */
  function TotalLength(pieces: seq<string>): nat
  {
    if |pieces| == 0 then 0 else |pieces[0]| + TotalLength(pieces[1..])
  }

  /** `implode(glue, pieces)`: the pieces in order, with `glue` between neighbours. */
  function Implode(glue: string, pieces: seq<string>): (joined: string)
    ensures |pieces| == 0 ==> joined == ""
    ensures |pieces| == 1 ==> joined == pieces[0]
    ensures |pieces| >= 1 ==> StartsWith(joined, pieces[0])
    ensures |pieces| >= 1 ==> |joined| == TotalLength(pieces) + (|pieces| - 1) * |glue|
    decreases |pieces|
  {
    if |pieces| == 0 then ""
    else if |pieces| == 1 then pieces[0]
    else pieces[0] + glue + Implode(glue, pieces[1..])
  }

  /** Three pieces imploded: each glue sits between two neighbours. */
  lemma ImplodeThree(glue: string, a: string, b: string, c: string)
    ensures Implode(glue, [a, b, c]) == a + glue + b + glue + c
  {
    var pieces := [a, b, c];
    assert pieces[1..] == [b, c];
    assert pieces[1..][1..] == [c];
    assert Implode(glue, [b, c]) == b + glue + c;
    assert Implode(glue, pieces) == a + glue + (b + glue + c);
  }

  /** `s` begins with `prefix`. */
  predicate StartsWith(s: string, prefix: string)
  {
    |prefix| <= |s| && s[..|prefix|] == prefix
  }

  /** `sep` occurs in `s` starting at position `j`. */
  predicate OccursAt(sep: string, s: string, j: nat)
  {
    j + |sep| <= |s| && s[j..j + |sep|] == sep
  }

  /** `s` contains no occurrence of `sep`. */
  predicate Free(sep: string, s: string)
  {
    forall j: nat :: j <= |s| ==> !OccursAt(sep, s, j)
  }

  /** No proper prefix of `sep` is also a suffix of it, so two occurrences never overlap. */
  predicate Unbordered(sep: string)
  {
    forall k :: 0 < k < |sep| ==> sep[..k] != sep[|sep| - k..]
  }

  lemma OccursShift(sep: string, s: string)
    requires |s| > 0
    ensures forall j: nat :: 0 < j ==> (OccursAt(sep, s, j) <==> OccursAt(sep, s[1..], j - 1))
  {
    forall j: nat | 0 < j
      ensures OccursAt(sep, s, j) <==> OccursAt(sep, s[1..], j - 1)
    {
      if j + |sep| <= |s| {
        assert s[1..][j - 1..j - 1 + |sep|] == s[j..j + |sep|];
      }
    }
  }

  /** Two occurrences of an unbordered separator never overlap. */
  lemma NoOverlap(sep: string, s: string, k: nat, p: nat)
    requires |sep| > 0 && Unbordered(sep)
    requires OccursAt(sep, s, k) && OccursAt(sep, s, p) && k < p
    ensures k + |sep| <= p
  {
    if p < k + |sep| {
      OverlapIsBorder(sep, s, k, p);
    }
  }

  /** Where two occurrences overlap, the overlap is both a prefix and a suffix of `sep`. */
  lemma OverlapIsBorder(sep: string, s: string, k: nat, p: nat)
    requires OccursAt(sep, s, k) && OccursAt(sep, s, p) && k < p < k + |sep|
    ensures sep[..k + |sep| - p] == sep[|sep| - (k + |sep| - p)..]
  {
    var m := k + |sep| - p;
    assert sep[..m] == s[p..p + m];
    assert sep[|sep| - m..] == s[p..k + |sep|];
  }

  /** The first position at which `sep` occurs in `s`, or `|s|` when it does not occur. */
  function Find(sep: string, s: string): (k: nat)
    requires |sep| > 0
    ensures k <= |s|
    ensures k < |s| ==> OccursAt(sep, s, k)
    ensures forall j: nat :: j < k ==> !OccursAt(sep, s, j)
    ensures k == |s| ==> Free(sep, s)
    decreases |s|
  {
    if |s| < |sep| then |s|
    else if s[..|sep|] == sep then 0
    else
      assert !OccursAt(sep, s, 0) by { assert s[0..|sep|] == s[..|sep|]; }
      OccursShift(sep, s);
      1 + Find(sep, s[1..])
  }

  /** `explode(sep, s)`: the pieces of `s` between occurrences of `sep`, left to right. */
  function Explode(sep: string, s: string): (pieces: seq<string>)
    requires |sep| > 0
    ensures |pieces| >= 1
    decreases |s|
  {
    var k := Find(sep, s);
    if k == |s| then [s] else [s[..k]] + Explode(sep, s[k + |sep|..])
  }

  /** In `x + sep + rest`, the first occurrence of `sep` is the one right after `x`. */
  lemma FindAfterFreePiece(sep: string, x: string, rest: string)
    requires |sep| > 0 && Unbordered(sep) && Free(sep, x)
    ensures Find(sep, x + sep + rest) == |x|
  {
    var s := x + sep + rest;
    assert s[|x|..|x| + |sep|] == sep;
    assert OccursAt(sep, s, |x|);
    var k := Find(sep, s);
    if k < |x| {
      assert OccursAt(sep, s, k);
      NoOverlap(sep, s, k, |x|);
      assert x[k..k + |sep|] == s[k..k + |sep|];
      assert OccursAt(sep, x, k);
    }
  }

  /** Exploding an imploded list gives the list back when no piece contains the glue. */
  lemma {:induction false} ExplodeImplode(sep: string, pieces: seq<string>)
    requires |sep| > 0 && Unbordered(sep)
    requires |pieces| >= 1
    requires forall i :: 0 <= i < |pieces| ==> Free(sep, pieces[i])
    ensures Explode(sep, Implode(sep, pieces)) == pieces
  {
    if |pieces| == 1 {
      assert Find(sep, pieces[0]) == |pieces[0]|;
    } else {
      var x, rest := pieces[0], Implode(sep, pieces[1..]);
      var s := x + sep + rest;
      FindAfterFreePiece(sep, x, rest);
      assert s[..|x|] == x;
      assert s[|x| + |sep|..] == rest;
      ExplodeImplode(sep, pieces[1..]);
      assert pieces == [x] + pieces[1..];
    }
  }

  /** The glue between USING keys cannot overlap itself. */
  lemma CommaSpaceUnbordered()
    ensures Unbordered(", ")
  {
    assert ", "[..1] == [','];
    assert ", "[1..] == [' '];
  }
}
