/**
 * Facts about Python sequences that the shingle engine relies on: slicing
 * `s[i:j]` with Python's index clamping, and `set(list)`.
 */
module Seqs {

  /** Python's normalisation of one slice bound against a length `n`. */
  function ClampIndex(k: int, n: nat): (r: nat)
    ensures r <= n
    ensures 0 <= k <= n ==> r == k
    ensures k < 0 ==> r == if k + n < 0 then 0 else k + n
    ensures k > n ==> r == n
  {
    if k < 0 then (if k + n < 0 then 0 else k + n)
    else if k > n then n
    else k
  }

  /** Python's `s[i:j]` for a string or a tuple. */
  function Slice<T>(s: seq<T>, i: int, j: int): (r: seq<T>)
    ensures |r| <= |s|
    ensures 0 <= i <= j <= |s| ==> r == s[i..j]
    ensures 0 <= j <= i ==> r == []
  {
    var a := ClampIndex(i, |s|);
    var b := ClampIndex(j, |s|);
    if a < b then s[a..b] else []
  }

  /** Python's `set(xs)`: the elements of a list, duplicates collapsed. */
  function ToSet<T>(s: seq<T>): set<T> {
    set x | x in s
  }

  /** No two positions of `s` hold equal elements. */
  predicate Distinct<T(==)>(s: seq<T>) {
    forall i, j :: 0 <= i < j < |s| ==> s[i] != s[j]
  }

  /** The `n` elements of `s` that start at position `i`. */
  function Piece<T>(s: seq<T>, i: nat, n: nat): seq<T>
    requires i + n <= |s|
  {
    s[i..i + n]
  }

  /** `w` occurs in `s` as a contiguous piece. */
  ghost predicate IsSegment<T>(w: seq<T>, s: seq<T>) {
    exists i: nat :: i + |w| <= |s| && Piece(s, i, |w|) == w
  }

  /**
   * Collapsing a list into a set never adds elements, and loses none exactly
   * when the list has no duplicates.
   */
  lemma {:induction false} CardToSet<T>(s: seq<T>)
    ensures |ToSet(s)| <= |s|
    ensures |ToSet(s)| == |s| <==> Distinct(s)
  {
    if s != [] {
      var t := s[1..];
      CardToSet(t);
      assert ToSet(s) == {s[0]} + ToSet(t) by {
        assert s == [s[0]] + t;
      }
      if s[0] in t {
        assert ToSet(s) == ToSet(t);
        var j :| 0 <= j < |t| && t[j] == s[0];
        assert s[0] == s[j + 1];
        assert !Distinct(s);
      } else {
        assert |ToSet(s)| == 1 + |ToSet(t)|;
        assert Distinct(s) <==> Distinct(t) by {
          if Distinct(t) {
            forall i, j | 0 <= i < j < |s| ensures s[i] != s[j] {
              if i == 0 { assert s[j] == t[j - 1]; }
              else { assert s[i] == t[i - 1] && s[j] == t[j - 1]; }
            }
          }
          if Distinct(s) {
            forall i, j | 0 <= i < j < |t| ensures t[i] != t[j] {
              assert t[i] == s[i + 1] && t[j] == s[j + 1];
            }
          }
        }
      }
    }
  }
}
