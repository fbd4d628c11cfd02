/** Year-indexed series of amounts and the numpy operations the engine applies to them. */
module Numeric {

  /** numpy.sum over a whole series (over reals the order of summation does not matter). */
  function Sum(s: seq<real>): real
  {
    if |s| == 0 then 0.0 else Sum(s[..|s| - 1]) + s[|s| - 1]
  }

  /** numpy.zeros(n). */
  function Zeros(n: nat): (z: seq<real>)
    ensures |z| == n
  {
    seq(n, _ => 0.0)
  }

  /** Elementwise `s + t`. */
  function Add(s: seq<real>, t: seq<real>): (r: seq<real>)
    requires |s| == |t|
    ensures |r| == |s|
  {
    seq(|s|, j requires 0 <= j < |s| => s[j] + t[j])
  }

  /** Elementwise `s - t`. */
  function Sub(s: seq<real>, t: seq<real>): (r: seq<real>)
    requires |s| == |t|
    ensures |r| == |s|
  {
    seq(|s|, j requires 0 <= j < |s| => s[j] - t[j])
  }

  /** Elementwise `s * c`. */
  function Scale(s: seq<real>, c: real): (r: seq<real>)
    ensures |r| == |s|
  {
    seq(|s|, j requires 0 <= j < |s| => s[j] * c)
  }

  /** `np.zeros(n)` after `a[lo:hi] = v`: `v` on the slots lo..hi-1 (clipped to the series), zero elsewhere. */
  function Window(n: nat, lo: nat, hi: nat, v: real): (s: seq<real>)
    ensures |s| == n
  {
    seq(n, j => if lo <= j < hi then v else 0.0)
  }

  /** One of `count` equal parts of `whole`. */
  function Share(whole: real, count: nat): real
    requires count > 0
  {
    whole / count as real
  }

  /** The effect of `a[0] = np.sum(a)` on a series whose slot 0 still holds zero. */
  function Totalled(s: seq<real>): (r: seq<real>)
    requires |s| > 0
    ensures |r| == |s| && IsTotal(r) && r[1..] == s[1..]
    ensures forall j :: 1 <= j < |s| ==> r[j] == s[j]
  {
    assert s[0 := Sum(s[1..])][1..] == s[1..];
    s[0 := Sum(s[1..])]
  }

  /** The engine's convention: slot 0 holds the total of the year slots 1..N. */
  predicate IsTotal(s: seq<real>)
  {
    |s| > 0 && s[0] == Sum(s[1..])
  }

  lemma {:induction false} SumFront(s: seq<real>)
    requires |s| > 0
    ensures Sum(s) == s[0] + Sum(s[1..])
  {
    if |s| == 1 {
      assert s[..0] == [] && s[1..] == [];
    } else {
      var m := |s| - 1;
      SumFront(s[..m]);
      assert s[..m][1..] == s[1..][..m - 1];
      assert s[1..][m - 1] == s[m];
    }
  }

  lemma {:induction false} SumSplit(s: seq<real>, k: nat)
    requires k <= |s|
    ensures Sum(s) == Sum(s[..k]) + Sum(s[k..])
    decreases |s|
  {
    if k == |s| {
      assert s[..k] == s && s[k..] == [];
    } else {
      var m := |s| - 1;
      SumSplit(s[..m], k);
      assert s[..m][..k] == s[..k];
      assert s[..m][k..] == s[k..][..|s[k..]| - 1];
    }
  }

  lemma {:induction false} SumAdd(s: seq<real>, t: seq<real>)
    requires |s| == |t|
    ensures Sum(Add(s, t)) == Sum(s) + Sum(t)
    decreases |s|
  {
    if |s| > 0 {
      var m := |s| - 1;
      SumAdd(s[..m], t[..m]);
      assert Add(s, t)[..m] == Add(s[..m], t[..m]);
    }
  }

  lemma {:induction false} SumSub(s: seq<real>, t: seq<real>)
    requires |s| == |t|
    ensures Sum(Sub(s, t)) == Sum(s) - Sum(t)
    decreases |s|
  {
    if |s| > 0 {
      var m := |s| - 1;
      SumSub(s[..m], t[..m]);
      assert Sub(s, t)[..m] == Sub(s[..m], t[..m]);
    }
  }

  /** Scaling commutes with taking a prefix. */
  lemma ScalePrefix(s: seq<real>, c: real, m: nat)
    requires m <= |s|
    ensures Scale(s, c)[..m] == Scale(s[..m], c)
  {
    assert forall j :: 0 <= j < m ==> Scale(s, c)[..m][j] == s[..m][j] * c == Scale(s[..m], c)[j];
  }

  lemma Distribute(a: real, b: real, c: real)
    ensures a * c + b * c == (a + b) * c
  {
  }

  lemma {:induction false} SumScale(s: seq<real>, c: real)
    ensures Sum(Scale(s, c)) == Sum(s) * c
    decreases |s|
  {
    if |s| > 0 {
      var m := |s| - 1;
      SumScale(s[..m], c);
      ScalePrefix(s, c, m);
      Distribute(Sum(s[..m]), s[m], c);
    }
  }

  /** A series equal to `v` on the slots lo..hi-1 and zero elsewhere sums to (hi - lo) * v. */
  lemma {:induction false} SumBlock(s: seq<real>, lo: nat, hi: nat, v: real)
    requires lo <= hi <= |s|
    requires forall j :: 0 <= j < |s| ==> s[j] == (if lo <= j < hi then v else 0.0)
    ensures Sum(s) == (hi - lo) as real * v
    decreases |s|
  {
    if |s| > 0 {
      var m := |s| - 1;
      var lo', hi' := if lo <= m then lo else m, if hi <= m then hi else m;
      SumBlock(s[..m], lo', hi', v);
    }
  }

  /** A series with no negative slot has a non-negative sum. */
  lemma {:induction false} SumNonNegative(s: seq<real>)
    requires forall j :: 0 <= j < |s| ==> s[j] >= 0.0
    ensures Sum(s) >= 0.0
    decreases |s|
  {
    if |s| > 0 {
      SumNonNegative(s[..|s| - 1]);
    }
  }

  /** The total of a series equal to `v` on the year slots lo..hi-1 and zero on the others. */
  lemma BlockTotal(s: seq<real>, lo: nat, hi: nat, v: real)
    requires IsTotal(s) && 1 <= lo <= hi <= |s|
    requires forall j :: 1 <= j < |s| ==> s[j] == (if lo <= j < hi then v else 0.0)
    ensures s[0] == (hi - lo) as real * v
  {
    SumBlock(s[1..], lo - 1, hi - 1, v);
  }

  /** The part of a two-block series before `mid` sums to (mid - lo) * u. */
  lemma HeadBlock(t: seq<real>, lo: nat, mid: nat, u: real, v: real)
    requires lo <= mid <= |t|
    requires forall j :: 0 <= j < |t| ==> t[j] == (if j < lo then 0.0 else if j < mid then u else v)
    ensures Sum(t[..mid]) == (mid - lo) as real * u
  {
    var head := t[..mid];
    forall j | 0 <= j < |head|
      ensures head[j] == (if lo <= j < mid then u else 0.0)
    {
      assert head[j] == t[j];
    }
    SumBlock(head, lo, mid, u);
  }

  /** The part of a two-block series from `mid` on sums to (|t| - mid) * v. */
  lemma TailBlock(t: seq<real>, lo: nat, mid: nat, u: real, v: real)
    requires lo <= mid <= |t|
    requires forall j :: 0 <= j < |t| ==> t[j] == (if j < lo then 0.0 else if j < mid then u else v)
    ensures Sum(t[mid..]) == (|t| - mid) as real * v
  {
    var tail := t[mid..];
    forall j | 0 <= j < |tail|
      ensures tail[j] == (if 0 <= j < |t| - mid then v else 0.0)
    {
      assert tail[j] == t[j + mid];
    }
    SumBlock(tail, 0, |t| - mid, v);
  }

  /** A series that is zero before `lo`, `u` up to `mid` and `v` to the end. */
  lemma SumTwoBlocks(t: seq<real>, lo: nat, mid: nat, u: real, v: real)
    requires lo <= mid <= |t|
    requires forall j :: 0 <= j < |t| ==> t[j] == (if j < lo then 0.0 else if j < mid then u else v)
    ensures Sum(t) == (mid - lo) as real * u + (|t| - mid) as real * v
  {
    SumSplit(t, mid);
    HeadBlock(t, lo, mid, u, v);
    TailBlock(t, lo, mid, u, v);
  }

  /** The total of a series that is zero before `lo`, `u` up to `mid` and `v` to the end. */
  lemma TwoBlockTotal(s: seq<real>, lo: nat, mid: nat, u: real, v: real)
    requires IsTotal(s) && 1 <= lo <= mid <= |s|
    requires forall j :: 1 <= j < |s| ==> s[j] == (if j < lo then 0.0 else if j < mid then u else v)
    ensures s[0] == (mid - lo) as real * u + (|s| - mid) as real * v
  {
    SumTwoBlocks(s[1..], lo - 1, mid - 1, u, v);
  }

  /** The total of a series whose only non-zero year slots are `a` and `c`. */
  lemma TwoPointTotal(s: seq<real>, a: nat, c: nat)
    requires IsTotal(s) && 1 <= a < c < |s|
    requires forall j :: 1 <= j < |s| && j != a && j != c ==> s[j] == 0.0
    ensures s[0] == s[a] + s[c]
  {
    var t := s[1..];
    SumSplit(t, a);
    SumBlock(t[..a], a - 1, a, s[a]);
    SumBlock(t[a..], c - 1 - a, c - a, s[c]);
  }

  /** `a[0] = np.sum(a)` on a series whose slot 0 still holds zero yields the totalled series. */
  lemma StoredTotal(s: seq<real>, t: seq<real>)
    requires |s| == |t| && IsTotal(t) && s[0] == 0.0
    requires forall j :: 1 <= j < |s| ==> s[j] == t[j]
    ensures s[0 := Sum(s)] == t
  {
    SumFront(s);
    assert s[1..] == t[1..];
  }

  lemma AddKeepsTotal(s: seq<real>, t: seq<real>)
    requires |s| == |t| && IsTotal(s) && IsTotal(t)
    ensures IsTotal(Add(s, t))
  {
    assert Add(s, t)[1..] == Add(s[1..], t[1..]);
    SumAdd(s[1..], t[1..]);
  }

  lemma SubKeepsTotal(s: seq<real>, t: seq<real>)
    requires |s| == |t| && IsTotal(s) && IsTotal(t)
    ensures IsTotal(Sub(s, t))
  {
    assert Sub(s, t)[1..] == Sub(s[1..], t[1..]);
    SumSub(s[1..], t[1..]);
  }

  /** Scaling commutes with dropping slot 0. */
  lemma ScaleSuffix(s: seq<real>, c: real)
    requires |s| > 0
    ensures Scale(s, c)[1..] == Scale(s[1..], c)
  {
    assert forall j :: 0 <= j < |s| - 1 ==> Scale(s, c)[1..][j] == s[1..][j] * c == Scale(s[1..], c)[j];
  }

  lemma ScaleKeepsTotal(s: seq<real>, c: real)
    requires IsTotal(s)
    ensures IsTotal(Scale(s, c))
  {
    ScaleSuffix(s, c);
    SumScale(s[1..], c);
  }

  lemma ZerosAreTotal(n: nat)
    requires n > 0
    ensures IsTotal(Zeros(n))
  {
    SumBlock(Zeros(n)[1..], 0, 0, 0.0);
  }

  lemma AddZeros(s: seq<real>)
    ensures Add(s, Zeros(|s|)) == s && Sub(s, Zeros(|s|)) == s
  {
  }
}
