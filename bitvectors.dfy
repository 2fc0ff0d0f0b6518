/** Bit-vectors over {-1, +1}: the L1 distance the loss uses, the Hamming
    distance it stands for, the enumeration of all 2^n bit-vectors that
    `itertools.product([-1, 1], repeat=n)` yields, and their 0/1 labels. */
module BitVectors {

  predicate IsSign(b: int)
  {
    b == -1 || b == 1
  }

  /** A bit-vector of length n in the {-1, +1} encoding the network takes. */
  predicate IsBitVector(v: seq<int>, n: nat)
  {
    |v| == n && forall i :: 0 <= i < |v| ==> IsSign(v[i])
  }

  /** A label of length n in the 0/1 encoding `get_stats` reports. */
  predicate IsLabel(l: seq<int>, n: nat)
  {
    |l| == n && forall i :: 0 <= i < |l| ==> l[i] == 0 || l[i] == 1
  }

  predicate Distinct<T(==)>(s: seq<T>)
  {
    forall i, j :: 0 <= i < j < |s| ==> s[i] != s[j]
  }

  function Abs(x: int): nat
  {
    if x < 0 then -x else x
  }

  /** `np.linalg.norm(a - b, ord=1)` for one row. */
  function L1(a: seq<int>, b: seq<int>): nat
    requires |a| == |b|
  {
    if |a| == 0 then 0 else Abs(a[0] - b[0]) + L1(a[1..], b[1..])
  }

  /** The number of positions at which a and b differ. */
  function Hamming(a: seq<int>, b: seq<int>): (d: nat)
    requires |a| == |b|
    ensures d <= |a|
    ensures d == 0 <==> a == b
  {
    if |a| == 0 then 0
    else (if a[0] != b[0] then 1 else 0) + Hamming(a[1..], b[1..])
  }

  /** The L1 distance vanishes exactly on equal rows. */
  lemma {:induction false} L1ZeroIff(a: seq<int>, b: seq<int>)
    requires |a| == |b|
    ensures L1(a, b) == 0 <==> a == b
  {
    if |a| > 0 {
      L1ZeroIff(a[1..], b[1..]);
      if a[0] == b[0] && a[1..] == b[1..] {
        assert a == [a[0]] + a[1..] && b == [b[0]] + b[1..];
      }
    }
  }

  /** On {-1, +1} vectors each differing bit costs exactly 2 in L1. */
  lemma {:induction false} L1IsTwiceHamming(a: seq<int>, b: seq<int>)
    requires IsBitVector(a, |a|) && IsBitVector(b, |a|)
    ensures L1(a, b) == 2 * Hamming(a, b)
  {
    if |a| > 0 {
      assert IsSign(a[0]) && IsSign(b[0]);
      L1IsTwiceHamming(a[1..], b[1..]);
    }
  }

  function Pow2(n: nat): (p: nat)
    ensures p >= 1
  {
    if n == 0 then 1 else 2 * Pow2(n - 1)
  }

  function Prepend(b: int, vs: seq<seq<int>>): (r: seq<seq<int>>)
    ensures |r| == |vs|
    ensures forall i :: 0 <= i < |vs| ==> r[i] == [b] + vs[i]
  {
    seq(|vs|, i requires 0 <= i < |vs| => [b] + vs[i])
  }

  /** `itertools.product([-1, 1], repeat=n)`: the first position varies slowest. */
  function AllBitVectors(n: nat): seq<seq<int>>
  {
    if n == 0 then [[]]
    else Prepend(-1, AllBitVectors(n - 1)) + Prepend(1, AllBitVectors(n - 1))
  }

  /** There are 2^n of them and each is a {-1, +1} vector of length n. */
  lemma {:induction false} AllBitVectorsShape(n: nat)
    ensures |AllBitVectors(n)| == Pow2(n)
    ensures forall i :: 0 <= i < |AllBitVectors(n)| ==> IsBitVector(AllBitVectors(n)[i], n)
  {
    if n > 0 {
      AllBitVectorsShape(n - 1);
      var prev := AllBitVectors(n - 1);
      forall i | 0 <= i < |AllBitVectors(n)|
        ensures IsBitVector(AllBitVectors(n)[i], n)
      {
        var j := if i < |prev| then i else i - |prev|;
        assert IsBitVector(prev[j], n - 1);
      }
    }
  }

  /** No bit-vector is enumerated twice. */
  lemma {:induction false} AllBitVectorsDistinct(n: nat)
    ensures Distinct(AllBitVectors(n))
  {
    if n > 0 {
      AllBitVectorsDistinct(n - 1);
      var prev := AllBitVectors(n - 1);
      var all := AllBitVectors(n);
      forall i, j | 0 <= i < j < |all|
        ensures all[i] != all[j]
      {
        if j < |prev| || |prev| <= i {
          var i', j' := if j < |prev| then i else i - |prev|, if j < |prev| then j else j - |prev|;
          assert all[i][1..] == prev[i'] && all[j][1..] == prev[j'];
        } else {
          assert all[i][0] == -1 && all[j][0] == 1;
        }
      }
    }
  }

  /** Every {-1, +1} vector of length n is enumerated. */
  lemma {:induction false} AllBitVectorsComplete(n: nat, v: seq<int>)
    requires IsBitVector(v, n)
    ensures v in AllBitVectors(n)
  {
    if n > 0 {
      var prev := AllBitVectors(n - 1);
      var tail := v[1..];
      assert forall i :: 0 <= i < |tail| ==> tail[i] == v[i + 1];
      AllBitVectorsComplete(n - 1, tail);
      var j :| 0 <= j < |prev| && prev[j] == tail;
      var k := if v[0] == -1 then j else |prev| + j;
      assert AllBitVectors(n)[k] == [v[0]] + tail;
      assert [v[0]] + tail == v;
    }
  }

  /** `(bs + 1) / 2`: -1 becomes 0 and +1 becomes 1. */
  function Label(v: seq<int>): (l: seq<int>)
    ensures |l| == |v|
  {
    seq(|v|, i requires 0 <= i < |v| => (v[i] + 1) / 2)
  }

  /** Labels are 0/1 vectors, and distinct bit-vectors get distinct labels. */
  lemma LabelIsBinary(a: seq<int>, b: seq<int>, n: nat)
    requires IsBitVector(a, n) && IsBitVector(b, n)
    ensures IsLabel(Label(a), n)
    ensures Label(a) == Label(b) ==> a == b
  {
    if Label(a) == Label(b) {
      forall i | 0 <= i < n
        ensures a[i] == b[i]
      {
        assert Label(a)[i] == Label(b)[i];
      }
    }
  }
}
