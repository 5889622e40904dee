/**
  The rotation of display assignments. The per-video screen list is treated
  as a ring and shifted one place to the left: the video at position `i`
  takes the screen that the video at position `i + 1` had, and the last video
  takes the first one's.
*/
module Rotation {

  /** Every screen index is a valid position in a table of `n` displays. */
  predicate InRange(screens: seq<int>, n: int) {
    forall i :: 0 <= i < |screens| ==> 0 <= screens[i] < n
  }

  /** `s[1:] + s[:1]` as Python evaluates it (also on the empty list). */
  function RotateLeft(s: seq<int>): (r: seq<int>)
    ensures |r| == |s|
  {
    if s == [] then [] else s[1..] + s[..1]
  }

  /** The rotated list is a cyclic shift, hence a permutation, of the old one. */
  lemma RotateLeftAt(s: seq<int>)
    ensures forall i :: 0 <= i < |s| ==> RotateLeft(s)[i] == s[(i + 1) % |s|]
    ensures multiset(RotateLeft(s)) == multiset(s)
  {
    if s != [] {
      var n := |s|;
      forall i | 0 <= i < n ensures RotateLeft(s)[i] == s[(i + 1) % n] {
        if i < n - 1 {
          assert (i + 1) % n == i + 1;
        } else {
          assert (i + 1) % n == 0;
        }
      }
      assert s == s[..1] + s[1..];
    }
  }

  /** The assignment after `k` rotations. */
  function RotateTimes(s: seq<int>, k: nat): (r: seq<int>)
    ensures |r| == |s|
  {
    if k == 0 then s else RotateLeft(RotateTimes(s, k - 1))
  }

  lemma {:induction false} RotateTimesShift(s: seq<int>, k: nat)
    requires k <= |s|
    ensures RotateTimes(s, k) == s[k..] + s[..k]
  {
    if k == 0 {
      assert s[0..] + s[..0] == s;
    } else {
      RotateTimesShift(s, k - 1);
      var t := s[k - 1..] + s[..k - 1];
      assert t[1..] == s[k..] + s[..k - 1];
      assert t[..1] == [s[k - 1]];
      assert s[..k] == s[..k - 1] + [s[k - 1]];
    }
  }

  /** Rotating as many times as there are videos restores the assignment. */
  lemma RotateFullCycle(s: seq<int>)
    ensures RotateTimes(s, |s|) == s
  {
    RotateTimesShift(s, |s|);
    assert s[|s|..] + s[..|s|] == s;
  }

  lemma {:induction false} RotateTimesAdd(s: seq<int>, a: nat, b: nat)
    ensures RotateTimes(s, a + b) == RotateTimes(RotateTimes(s, a), b)
    decreases b
  {
    if b > 0 {
      RotateTimesAdd(s, a, b - 1);
      calc {
        RotateTimes(s, a + b);
        RotateLeft(RotateTimes(s, a + b - 1));
        RotateLeft(RotateTimes(RotateTimes(s, a), b - 1));
        RotateTimes(RotateTimes(s, a), b);
      }
    }
  }

  /** Rotation is periodic with period the number of videos. */
  lemma RotatePeriodic(s: seq<int>, k: nat)
    ensures RotateTimes(s, k + |s|) == RotateTimes(s, k)
  {
    RotateTimesAdd(s, |s|, k);
    RotateFullCycle(s);
    assert k + |s| == |s| + k;
  }

  /** No number of rotations moves a screen index out of range. */
  lemma {:induction false} RotateTimesInRange(s: seq<int>, n: int, k: nat)
    requires InRange(s, n)
    ensures InRange(RotateTimes(s, k), n)
  {
    if k > 0 {
      RotateTimesInRange(s, n, k - 1);
      var t := RotateTimes(s, k - 1);
      RotateLeftAt(t);
    }
  }
}
