/** Cyclic rotation of the slice array (Assets/Scripts/Infra/Utils.cs). */
module Shift {
  import opened CSharpArith

  /** `((n % length) + length) % length` with C#'s truncating remainder;
      it lands in [0, length) and agrees with the Euclidean remainder. */
  function Normalize(n: int, length: int): (m: int)
    requires length > 0
    ensures 0 <= m < length
    ensures m == n % length
  {
    var c := CsRem(n, length);
    NormalizeIsEuclidean(n, length);
    CsRem(c + length, length)
  }

  lemma NormalizeIsEuclidean(n: int, length: int)
    requires length > 0
    ensures CsRem(CsRem(n, length) + length, length) == n % length
  {
    var q, c := CsDiv(n, length), CsRem(n, length);
    if c < 0 {
      DivModUnique(c + length, length, 0, c + length);
      DivModUnique(n, length, q - 1, c + length);
    } else {
      DivModUnique(c + length, length, 1, c);
      DivModUnique(n, length, q, c);
    }
  }

  /** The rotation as a sequence: element i moves to position
      (i + Normalize(n)) mod |s|; an empty sequence or a zero shift is
      returned as is. */
  function Shifted<T>(s: seq<T>, n: int): (r: seq<T>)
    ensures |r| == |s|
  {
    if |s| == 0 then s
    else
      var m := Normalize(n, |s|);
      if m == 0 then s else s[|s| - m..] + s[..|s| - m]
  }

  /** Every element lands at its shifted position. */
  lemma ShiftedAt<T>(s: seq<T>, n: int, i: int)
    requires 0 <= i < |s|
    ensures Shifted(s, n)[(i + Normalize(n, |s|)) % |s|] == s[i]
  {
    var L, m := |s|, Normalize(n, |s|);
    if i < L - m {
      DivModUnique(i + m, L, 0, i + m);
    } else {
      DivModUnique(i + m, L, 1, i + m - L);
    }
  }

  /** Shifting by n and by n + k * |s| is the same, negative n included. */
  lemma ShiftedPeriodic<T>(s: seq<T>, n: int, k: int)
    ensures Shifted(s, n + k * |s|) == Shifted(s, n)
  {
    if |s| > 0 {
      var L := |s|;
      assert n == (n / L) * L + n % L;
      assert n + k * L == (n / L + k) * L + n % L;
      DivModUnique(n + k * L, L, n / L + k, n % L);
    }
  }

  lemma NormalizeNegated(n: int, length: int)
    requires length > 0
    ensures Normalize(-n, length) == if Normalize(n, length) == 0 then 0 else length - Normalize(n, length)
  {
    var q, m := n / length, n % length;
    assert n == q * length + m;
    if m == 0 {
      assert -n == (-q) * length + 0;
      DivModUnique(-n, length, -q, 0);
    } else {
      assert -n == (-q - 1) * length + (length - m);
      DivModUnique(-n, length, -q - 1, length - m);
    }
  }

  /** Shifting by n and then by -n gives back the original sequence. */
  lemma ShiftedRoundTrip<T>(s: seq<T>, n: int)
    ensures Shifted(Shifted(s, n), -n) == s
  {
    var L := |s|;
    if L > 0 {
      NormalizeNegated(n, L);
      var m := Normalize(n, L);
      if m != 0 {
        var t := s[L - m..] + s[..L - m];
        assert Shifted(s, n) == t;
        assert t[m..] == s[..L - m] && t[..m] == s[L - m..];
        assert s[..L - m] + s[L - m..] == s;
      }
    }
  }

  /** A shift rearranges the elements and neither adds nor drops any. */
  lemma ShiftedIsPermutation<T>(s: seq<T>, n: int)
    ensures multiset(Shifted(s, n)) == multiset(s)
  {
    if |s| > 0 {
      var k := |s| - Normalize(n, |s|);
      assert s == s[..k] + s[k..];
    }
  }

  /** Utils.ShiftArray: a null or empty array, or a shift that normalises
      to zero, returns the argument itself; otherwise a new array of the
      same length is filled by moving element i to (i + n) mod length. */
  method ShiftArray<T(0)>(a: array?<T>, n: int) returns (r: array?<T>)
    ensures a == null ==> r == null
    ensures a != null ==> r != null && r[..] == Shifted(a[..], n)
    ensures a != null && (a.Length == 0 || Normalize(n, a.Length) == 0) ==> r == a
    ensures a != null && a.Length > 0 && Normalize(n, a.Length) != 0 ==> fresh(r)
  {
    if a == null || a.Length == 0 {
      return a;
    }
    var length := a.Length;
    var m := CsRem(CsRem(n, length) + length, length);
    assert m == Normalize(n, length);
    if m == 0 {
      return a;
    }
    var shifted := new T[length];
    var i := 0;
    while i < length
      invariant 0 <= i <= length
      invariant forall k :: 0 <= k < i && k < length - m ==> shifted[k + m] == a[k]
      invariant forall k :: length - m <= k < i ==> shifted[k + m - length] == a[k]
    {
      var d := CsRem(i + m, length);
      if i < length - m {
        DivModUnique(i + m, length, 0, i + m);
      } else {
        DivModUnique(i + m, length, 1, i + m - length);
      }
      shifted[d] := a[i];
      i := i + 1;
    }
    forall j | 0 <= j < length
      ensures shifted[j] == Shifted(a[..], n)[j]
    {
      if j < m {
        assert a[length - m + j] == shifted[j];
      } else {
        assert a[j - m] == shifted[j];
      }
    }
    r := shifted;
  }
}
