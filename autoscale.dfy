/**
 * Auto-scaling: the running minimum and maximum that `plot`, `scatter` and
 * `plot3D` fold each new sample into. The folds follow the order of the
 * library's loop, one comparison per sample.
 */
module AutoScale {

  /** One step of the lower-bound update: `if (v < m) m = v`. */
  function Lower(m: real, v: real): real {
    if v < m then v else m
  }

  /** One step of the upper-bound update: `if (v > m) m = v`. */
  function Upper(m: real, v: real): real {
    if v > m then v else m
  }

  /** The lower bound after folding the samples `s`, in order, into `b`. */
  function LowerFold(b: real, s: seq<real>): real
    decreases |s|
  {
    if |s| == 0 then b else Lower(LowerFold(b, s[..|s| - 1]), s[|s| - 1])
  }

  /** The upper bound after folding the samples `s`, in order, into `b`. */
  function UpperFold(b: real, s: seq<real>): real
    decreases |s|
  {
    if |s| == 0 then b else Upper(UpperFold(b, s[..|s| - 1]), s[|s| - 1])
  }

  /** The folded lower bound never exceeds the old bound nor any sample. */
  lemma {:induction false} LowerFoldBelow(b: real, s: seq<real>)
    ensures LowerFold(b, s) <= b
    ensures forall i :: 0 <= i < |s| ==> LowerFold(b, s) <= s[i]
  {
    if |s| > 0 {
      var t := s[..|s| - 1];
      LowerFoldBelow(b, t);
      forall i | 0 <= i < |s| - 1 ensures LowerFold(b, s) <= s[i] {
        assert s[i] == t[i];
      }
    }
  }

  /** The folded upper bound is at least the old bound and every sample. */
  lemma {:induction false} UpperFoldAbove(b: real, s: seq<real>)
    ensures UpperFold(b, s) >= b
    ensures forall i :: 0 <= i < |s| ==> UpperFold(b, s) >= s[i]
  {
    if |s| > 0 {
      var t := s[..|s| - 1];
      UpperFoldAbove(b, t);
      forall i | 0 <= i < |s| - 1 ensures UpperFold(b, s) >= s[i] {
        assert s[i] == t[i];
      }
    }
  }

  /** The folded lower bound is attained: it is the old bound or one of the samples. */
  lemma {:induction false} LowerFoldAttained(b: real, s: seq<real>)
    ensures LowerFold(b, s) == b || exists i :: 0 <= i < |s| && LowerFold(b, s) == s[i]
  {
    if |s| > 0 {
      var t := s[..|s| - 1];
      LowerFoldAttained(b, t);
      if LowerFold(b, s) != s[|s| - 1] && LowerFold(b, s) != b {
        var i :| 0 <= i < |t| && LowerFold(b, t) == t[i];
        assert LowerFold(b, s) == s[i];
      }
    }
  }

  /** The folded upper bound is attained: it is the old bound or one of the samples. */
  lemma {:induction false} UpperFoldAttained(b: real, s: seq<real>)
    ensures UpperFold(b, s) == b || exists i :: 0 <= i < |s| && UpperFold(b, s) == s[i]
  {
    if |s| > 0 {
      var t := s[..|s| - 1];
      UpperFoldAttained(b, t);
      if UpperFold(b, s) != s[|s| - 1] && UpperFold(b, s) != b {
        var i :| 0 <= i < |t| && UpperFold(b, t) == t[i];
        assert UpperFold(b, s) == s[i];
      }
    }
  }

  /**
   * Folding two batches one after the other is folding their concatenation:
   * the bounds after several plot calls only depend on all samples seen.
   */
  lemma {:induction false} LowerFoldConcat(b: real, s: seq<real>, t: seq<real>)
    ensures LowerFold(LowerFold(b, s), t) == LowerFold(b, s + t)
    decreases |t|
  {
    if |t| > 0 {
      LowerFoldConcat(b, s, t[..|t| - 1]);
      assert (s + t)[..|s + t| - 1] == s + t[..|t| - 1];
    } else {
      assert s + t == s;
    }
  }

  lemma {:induction false} UpperFoldConcat(b: real, s: seq<real>, t: seq<real>)
    ensures UpperFold(UpperFold(b, s), t) == UpperFold(b, s + t)
    decreases |t|
  {
    if |t| > 0 {
      UpperFoldConcat(b, s, t[..|t| - 1]);
      assert (s + t)[..|s + t| - 1] == s + t[..|t| - 1];
    } else {
      assert s + t == s;
    }
  }

  /** The zero-range guard of `plot3D`: an empty range is widened by one unit. */
  function Widened(lo: real, hi: real): (r: real)
    ensures lo <= hi ==> lo < r
    ensures hi <= r
    ensures lo != hi ==> r == hi
  {
    if hi == lo then hi + 1.0 else hi
  }
}
