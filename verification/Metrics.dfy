/**
 The integer running averages of bytes per read and per write.
 */
module MetricsModule {

  function Sum(samples: seq<nat>): nat {
    if samples == [] then 0 else Sum(samples[..|samples| - 1]) + samples[|samples| - 1]
  }

  /** The stored average after each sample has been folded in, rounding down every time. */
  function Average(samples: seq<nat>): nat {
    if samples == [] then 0
    else
      var k := |samples| - 1;
      (Average(samples[..k]) * k + samples[k]) / (k + 1)
  }

  /** How much of the exact total `k` rounded samples can have lost. */
  function Slack(k: nat): nat {
    k * (k - 1) / 2
  }

  lemma SlackStep(k: nat)
    ensures Slack(k + 1) == Slack(k) + k
  {
    assert (k + 1) * k == k * (k - 1) + 2 * k;
  }

  /** One rounding: what the update stores, and what it drops. */
  lemma DivisionBounds(a: nat, k: nat, n: nat)
    ensures var q := (a * k + n) / (k + 1);
            (k + 1) * q <= a * k + n <= (k + 1) * q + k
  {
  }

  /** The average never exceeds the true one, and falls short of it by at most half of k * (k - 1) over k. */
  lemma {:induction false} AverageBounds(samples: seq<nat>)
    ensures var k, a := |samples|, Average(samples);
            k * a <= Sum(samples) <= k * a + Slack(k)
    decreases |samples|
  {
    if samples != [] {
      var k := |samples| - 1;
      AverageBounds(samples[..k]);
      DivisionBounds(Average(samples[..k]), k, samples[k]);
      SlackStep(k);
      assert Average(samples[..k]) * k == k * Average(samples[..k]);
    }
  }

  lemma ProductOrder(m: nat, a: int, b: int)
    requires m * a < m * b
    ensures a < b
  {
    assert a >= b ==> m * (a - b) >= 0;
  }

  lemma QuotientBetween(x: nat, m: nat, lo: nat, hi: nat)
    requires m > 0 && m * lo <= x < m * (hi + 1)
    ensures lo <= x / m <= hi
  {
    var q := x / m;
    assert m * q <= x < m * (q + 1);
    ProductOrder(m, lo, q + 1);
    ProductOrder(m, q, hi + 1);
  }

  lemma WeightedBetween(a: nat, k: nat, n: nat, lo: nat, hi: nat)
    requires lo <= a <= hi && lo <= n <= hi
    ensures lo <= (a * k + n) / (k + 1) <= hi
  {
    assert lo * k <= a * k <= hi * k;
    assert (k + 1) * lo == lo * k + lo && (k + 1) * (hi + 1) == hi * k + hi + k + 1;
    QuotientBetween(a * k + n, k + 1, lo, hi);
  }

  /** The average stays between the smallest and the largest sample. */
  lemma {:induction false} AverageWithinSamples(samples: seq<nat>, lo: nat, hi: nat)
    requires samples != [] && forall n :: n in samples ==> lo <= n <= hi
    ensures lo <= Average(samples) <= hi
    decreases |samples|
  {
    var k := |samples| - 1;
    assert samples[k] in samples;
    if k == 0 {
      assert Average(samples[..0]) == 0;
    } else {
      assert forall n :: n in samples[..k] ==> n in samples;
      AverageWithinSamples(samples[..k], lo, hi);
      WeightedBetween(Average(samples[..k]), k, samples[k], lo, hi);
    }
  }

  lemma RoundedAway(a: nat, k: nat)
    requires k > 0
    ensures (a * (k - 1) + (a + k - 1)) / k == a
    ensures a * (k - 1) + (a + k - 1) == k * a + (k - 1)
  {
    assert a * (k - 1) + (a + k - 1) == a * k + (k - 1);
    assert k * (a + 1) == a * k + k;
    QuotientBetween(a * k + (k - 1), k, a, a);
  }

  /** The bound is exact: for every number of samples some samples lose all of it. */
  lemma {:induction false} SlackIsAttained(k: nat) returns (samples: seq<nat>)
    ensures |samples| == k && Sum(samples) == k * Average(samples) + Slack(k)
  {
    if k == 0 {
      samples := [];
    } else {
      var front := SlackIsAttained(k - 1);
      var a := Average(front);
      samples := front + [a + k - 1];
      assert samples[..k - 1] == front;
      RoundedAway(a, k);
      assert Average(samples) == a;
      SlackStep(k - 1);
      assert Sum(samples) == (k - 1) * a + Slack(k - 1) + (a + k - 1);
      assert (k - 1) * a + a == k * a;
    }
  }

  /** One of the two averages, with the number of samples it is made of. */
  class RunningAverage {
    var average: nat
    var total: nat
    ghost var samples: seq<nat>

    ghost predicate Valid()
      reads this
    {
      total == |samples| && average == Average(samples)
    }

    constructor ()
      ensures Valid() && samples == []
    {
      average, total, samples := 0, 0, [];
    }

    method Record(n: nat)
      requires Valid()
      modifies this
      ensures Valid() && samples == old(samples) + [n]
    {
      samples := samples + [n];
      assert samples[..total] == old(samples);
      if total == 0 {
        average := n;
      } else {
        average := (average * total + n) / (total + 1);
      }
      total := total + 1;
    }
  }
}
