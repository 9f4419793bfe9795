/** The linear difference equation a0·y[n] = Σ b_k·x[n-k] − Σ_{k≥1} a_k·y[n-k], evaluated
    from rest (all samples before the first are zero), as lfilter and sosfilt evaluate it
    for the filter classes; over real numbers. */
module DifferenceEquation {

  /** The sample s[i], or zero outside s: the recursion starts from rest. */
  function At(s: seq<real>, i: int): real {
    if 0 <= i < |s| then s[i] else 0.0
  }

  /** [1, 0, …, 0] of length n: the unit impulse, and the denominator of an FIR filter. */
  function UnitImpulse(n: nat): (d: seq<real>)
    ensures |d| == n
  {
    seq(n, i => if i == 0 then 1.0 else 0.0)
  }

  /** Σ_{k<K} c[k]·s[n-k]: the first K taps of c applied to s at sample n. */
  function Conv(c: seq<real>, s: seq<real>, n: int, K: nat): real
    requires K <= |c|
  {
    if K == 0 then 0.0 else Conv(c, s, n, K - 1) + c[K - 1] * At(s, n - (K - 1))
  }

  /** A denominator the recursion can be solved with: a0 exists and is not zero. */
  predicate Normalizable(a: seq<real>) {
    |a| > 0 && a[0] != 0.0
  }

  /** The output following prev (the outputs so far) when x is the input. */
  function NextOutput(b: seq<real>, a: seq<real>, x: seq<real>, prev: seq<real>): real
    requires Normalizable(a)
  {
    (Conv(b, x, |prev|, |b|) - Conv(a, prev, |prev|, |a|)) / a[0]
  }

  /** The filter (b, a) applied to x from rest: one output per input sample. */
  function Filtered(b: seq<real>, a: seq<real>, x: seq<real>): (y: seq<real>)
    requires Normalizable(a)
    ensures |y| == |x|
    decreases |x|
  {
    if |x| == 0 then []
    else
      var prev := Filtered(b, a, x[..|x| - 1]);
      prev + [NextOutput(b, a, x, prev)]
  }

  /** y solves the difference equation for input x at every sample. */
  ghost predicate SatisfiesRecursion(b: seq<real>, a: seq<real>, x: seq<real>, y: seq<real>) {
    |y| == |x| && forall n :: 0 <= n < |x| ==> Conv(a, y, n, |a|) == Conv(b, x, n, |b|)
  }

  /** s and t hold the same samples at every index up to n. */
  ghost predicate AgreeUpTo(s: seq<real>, t: seq<real>, n: int) {
    forall i :: i <= n ==> At(s, i) == At(t, i)
  }

  lemma PrefixAgrees(s: seq<real>, m: nat)
    requires m <= |s|
    ensures AgreeUpTo(s[..m], s, m - 1)
  {
    forall i | i <= m - 1 ensures At(s[..m], i) == At(s, i) {
    }
  }

  lemma {:induction false} ConvReadsOnlyThePast(c: seq<real>, s: seq<real>, t: seq<real>, n: int, K: nat)
    requires K <= |c| && AgreeUpTo(s, t, n)
    ensures Conv(c, s, n, K) == Conv(c, t, n, K)
  {
    if K > 0 {
      ConvReadsOnlyThePast(c, s, t, n, K - 1);
    }
  }

  /** The tap k = 0 of a sum at sample n is the only one that reads s[n]. */
  lemma {:induction false} ConvSplitNewest(c: seq<real>, s: seq<real>, n: nat, K: nat)
    requires 0 < K <= |c| && n < |s|
    ensures Conv(c, s, n, K) == Conv(c, s[..n], n, K) + c[0] * s[n]
  {
    if K > 1 {
      ConvSplitNewest(c, s, n, K - 1);
      assert At(s, n - (K - 1)) == At(s[..n], n - (K - 1));
    }
  }

  /** Causality: a prefix of the input yields the same prefix of the output. */
  lemma {:induction false} FilteredIsCausal(b: seq<real>, a: seq<real>, x: seq<real>, m: nat)
    requires Normalizable(a) && m <= |x|
    ensures Filtered(b, a, x[..m]) == Filtered(b, a, x)[..m]
    decreases |x|
  {
    if m < |x| {
      var x' := x[..|x| - 1];
      assert x[..m] == x'[..m];
      FilteredIsCausal(b, a, x', m);
    } else {
      assert x[..m] == x;
    }
  }

  /** The n-th output satisfies the difference equation at sample n. */
  lemma FilteredSolvesAt(b: seq<real>, a: seq<real>, x: seq<real>, n: nat)
    requires Normalizable(a) && n < |x|
    ensures Conv(a, Filtered(b, a, x), n, |a|) == Conv(b, x, n, |b|)
  {
    var y := Filtered(b, a, x);
    var x1 := x[..n + 1];
    FilteredIsCausal(b, a, x, n + 1);
    FilteredIsCausal(b, a, x, n);
    assert x1[..n] == x[..n];
    var prev := y[..n];
    assert y[n] == Filtered(b, a, x1)[n] == NextOutput(b, a, x1, prev);
    PrefixAgrees(x, n + 1);
    ConvReadsOnlyThePast(b, x1, x, n, |b|);
    ConvSplitNewest(a, y, n, |a|);
  }

  lemma SolveForNewest(a0: real, v: real, rhs: real)
    requires a0 != 0.0 && a0 * v == rhs
    ensures v == rhs / a0
  {
  }

  /** Any solution of the difference equation started from rest is the filter output. */
  lemma {:induction false} RecursionDeterminesOutput(b: seq<real>, a: seq<real>, x: seq<real>, y: seq<real>)
    requires Normalizable(a) && SatisfiesRecursion(b, a, x, y)
    ensures y == Filtered(b, a, x)
    decreases |x|
  {
    if |x| > 0 {
      var m := |x| - 1;
      var x', y' := x[..m], y[..m];
      PrefixAgrees(x, m);
      PrefixAgrees(y, m);
      forall n | 0 <= n < m
        ensures Conv(a, y', n, |a|) == Conv(b, x', n, |b|)
      {
        ConvReadsOnlyThePast(a, y', y, n, |a|);
        ConvReadsOnlyThePast(b, x', x, n, |b|);
      }
      RecursionDeterminesOutput(b, a, x', y');
      ConvSplitNewest(a, y, m, |a|);
      assert a[0] * y[m] == Conv(b, x, m, |b|) - Conv(a, y', m, |a|);
      assert |y'| == m;
      SolveForNewest(a[0], y[m], Conv(b, x, m, |b|) - Conv(a, y', m, |a|));
      assert y[m] == NextOutput(b, a, x, y');
      assert y == y' + [y[m]];
    }
  }

  /** The filter output is exactly the solution of a0·y[n] + Σ_{k≥1} a_k·y[n-k] = Σ b_k·x[n-k]. */
  lemma FilteredIsTheSolution(b: seq<real>, a: seq<real>, x: seq<real>, y: seq<real>)
    requires Normalizable(a)
    ensures SatisfiesRecursion(b, a, x, y) <==> y == Filtered(b, a, x)
  {
    if SatisfiesRecursion(b, a, x, y) {
      RecursionDeterminesOutput(b, a, x, y);
    }
    if y == Filtered(b, a, x) {
      forall n | 0 <= n < |x|
        ensures Conv(a, y, n, |a|) == Conv(b, x, n, |b|)
      {
        FilteredSolvesAt(b, a, x, n);
      }
    }
  }

  lemma {:induction false} ConvUnitImpulseTaps(s: seq<real>, n: int, L: nat, K: nat)
    requires 0 < K <= L
    ensures Conv(UnitImpulse(L), s, n, K) == At(s, n)
  {
    if K > 1 {
      ConvUnitImpulseTaps(s, n, L, K - 1);
    }
  }

  /** With the denominator [1, 0, …, 0] the recursion is the convolution Σ b_k·x[n-k]. */
  lemma FirIsConvolution(b: seq<real>, L: nat, x: seq<real>, n: nat)
    requires L > 0 && n < |x|
    ensures Filtered(b, UnitImpulse(L), x)[n] == Conv(b, x, n, |b|)
  {
    FilteredSolvesAt(b, UnitImpulse(L), x, n);
    ConvUnitImpulseTaps(Filtered(b, UnitImpulse(L), x), n, L, L);
  }

  /** Taps applied to a unit impulse read back the taps themselves. */
  lemma {:induction false} ConvOfUnitImpulse(c: seq<real>, N: nat, n: nat, K: nat)
    requires K <= |c|
    ensures Conv(c, UnitImpulse(N), n, K) == if n < K && 0 < N then c[n] else 0.0
  {
    if K > 0 {
      ConvOfUnitImpulse(c, N, n, K - 1);
    }
  }

  /** The impulse response of a filter with denominator [1, 0, …, 0] is its numerator,
      followed by zeros. */
  lemma FirImpulseResponse(b: seq<real>, L: nat, N: nat, n: nat)
    requires L > 0 && n < N
    ensures Filtered(b, UnitImpulse(L), UnitImpulse(N))[n] == At(b, n)
  {
    FirIsConvolution(b, L, UnitImpulse(N), n);
    ConvOfUnitImpulse(b, N, n, |b|);
  }

  function Pow(r: real, k: nat): real {
    if k == 0 then 1.0 else r * Pow(r, k - 1)
  }

  /** b = [1, 1/2, 0], a = [1, 1/8, 0] on a unit impulse: y[0] = 1 and, from then on,
      y[n] = 3/8·(−1/8)^(n−1), i.e. y[n] = x[n] + x[n-1]/2 − y[n-1]/8. */
  lemma {:induction false} ExampleIirImpulseResponse(N: nat, n: nat)
    requires n < N
    ensures Filtered([1.0, 0.5, 0.0], [1.0, 0.125, 0.0], UnitImpulse(N))[n]
            == if n == 0 then 1.0 else 0.375 * Pow(-0.125, n - 1)
  {
    var b, a := [1.0, 0.5, 0.0], [1.0, 0.125, 0.0];
    var y := Filtered(b, a, UnitImpulse(N));
    FilteredSolvesAt(b, a, UnitImpulse(N), n);
    ConvOfUnitImpulse(b, N, n, 3);
    assert |y| == N;
    assert Conv(a, y, n, 1) == y[n];
    assert Conv(a, y, n, 2) == y[n] + 0.125 * At(y, n - 1);
    assert Conv(a, y, n, 3) == y[n] + 0.125 * At(y, n - 1);
    if n > 0 {
      ExampleIirImpulseResponse(N, n - 1);
    }
  }

  lemma ExampleIirImpulsePrefix(N: nat)
    requires N >= 4
    ensures Filtered([1.0, 0.5, 0.0], [1.0, 0.125, 0.0], UnitImpulse(N))[..4]
            == [1.0, 0.375, -0.046875, 0.005859375]
  {
    var y := Filtered([1.0, 0.5, 0.0], [1.0, 0.125, 0.0], UnitImpulse(N));
    ExampleIirImpulseResponse(N, 0);
    ExampleIirImpulseResponse(N, 1);
    ExampleIirImpulseResponse(N, 2);
    ExampleIirImpulseResponse(N, 3);
    assert Pow(-0.125, 2) == 0.015625;
  }

  /** One second-order section [b0, b1, b2, a0, a1, a2] with a0 ≠ 0. */
  predicate IsSection(s: seq<real>) {
    |s| == 6 && s[3] != 0.0
  }

  predicate AllSections(sections: seq<seq<real>>) {
    forall i :: 0 <= i < |sections| ==> IsSection(sections[i])
  }

  /** The cascade of second-order sections: each section filters the previous one's output,
      in row order. */
  function SosFiltered(sections: seq<seq<real>>, x: seq<real>): (y: seq<real>)
    requires AllSections(sections)
    ensures |y| == |x|
  {
    if |sections| == 0 then x
    else SosFiltered(sections[1..], Filtered(sections[0][..3], sections[0][3..], x))
  }

  /** A cascade of two cascades is the cascade of all their sections. */
  lemma {:induction false} SosCascadeComposes(s1: seq<seq<real>>, s2: seq<seq<real>>, x: seq<real>)
    requires AllSections(s1) && AllSections(s2)
    ensures AllSections(s1 + s2)
    ensures SosFiltered(s1 + s2, x) == SosFiltered(s2, SosFiltered(s1, x))
  {
    if |s1| > 0 {
      assert (s1 + s2)[1..] == s1[1..] + s2;
      SosCascadeComposes(s1[1..], s2, Filtered(s1[0][..3], s1[0][3..], x));
    } else {
      assert s1 + s2 == s2;
    }
  }

  /** Σ_k c[k]·s[n-k], summed by a loop over the taps. */
  method ConvAt(c: seq<real>, s: seq<real>, n: int) returns (acc: real)
    ensures acc == Conv(c, s, n, |c|)
  {
    acc := 0.0;
    var k := 0;
    while k < |c|
      invariant 0 <= k <= |c|
      invariant acc == Conv(c, s, n, k)
    {
      acc := acc + c[k] * At(s, n - k);
      k := k + 1;
    }
  }

  /** Evaluates the filter (b, a) on one channel, sample by sample, from rest. */
  method FilterChannel(b: seq<real>, a: seq<real>, x: seq<real>) returns (y: seq<real>)
    requires Normalizable(a)
    ensures y == Filtered(b, a, x)
  {
    y := [];
    var n := 0;
    while n < |x|
      invariant 0 <= n <= |x|
      invariant y == Filtered(b, a, x[..n])
    {
      var feedforward := ConvAt(b, x, n);
      var feedback := ConvAt(a, y, n);
      PrefixAgrees(x, n + 1);
      ConvReadsOnlyThePast(b, x[..n + 1], x, n, |b|);
      assert x[..n + 1][..n] == x[..n];
      y := y + [(feedforward - feedback) / a[0]];
      n := n + 1;
    }
    assert x[..n] == x;
  }

  /** Evaluates a cascade of second-order sections on one channel, section by section. */
  method CascadeChannel(sections: seq<seq<real>>, x: seq<real>) returns (y: seq<real>)
    requires AllSections(sections)
    ensures y == SosFiltered(sections, x)
  {
    y := x;
    var i := 0;
    while i < |sections|
      invariant 0 <= i <= |sections|
      invariant SosFiltered(sections, x) == SosFiltered(sections[i..], y)
    {
      assert sections[i..][1..] == sections[i + 1..];
      y := FilterChannel(sections[i][..3], sections[i][3..], y);
      i := i + 1;
    }
  }
}
