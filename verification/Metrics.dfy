/** Response-time metrics of an oracle: a truncated running mean and an uptime percentage. */
module Metrics {
  import opened Prelude
  import opened Arithmetic

  const SLA_MAX_RESPONSE_MS: nat := 5_000
  const U64_SIZE: nat := 0x1_0000_0000_0000_0000

  datatype Metrics = Metrics(last: nat, average: nat, uptime: nat, total: nat, successful: nat, active: bool)

  const INITIAL := Metrics(0, 0, 100, 0, 0, true)

  /** One recorded response time. The new mean is computed in 128 bits and cast back to 64. */
  function Record(m: Metrics, ms: nat): Metrics {
    var total := SatAdd32(m.total, 1);
    var successful := if ms <= SLA_MAX_RESPONSE_MS then SatAdd32(m.successful, 1) else m.successful;
    m.(last := ms,
       average := (m.average * m.total + ms) / total % U64_SIZE,
       total := total,
       successful := successful,
       uptime := successful * 100 / total)
  }

  function RecordAll(times: seq<nat>): Metrics {
    if times == [] then INITIAL else Record(RecordAll(times[..|times| - 1]), times[|times| - 1])
  }

  // ----- reference values

  function Sum(times: seq<nat>): nat {
    if times == [] then 0 else Sum(times[..|times| - 1]) + times[|times| - 1]
  }

  function WithinSla(times: seq<nat>): (n: nat)
    ensures n <= |times|
  {
    if times == [] then 0
    else WithinSla(times[..|times| - 1]) + if times[|times| - 1] <= SLA_MAX_RESPONSE_MS then 1 else 0
  }

  ghost predicate Recordable(times: seq<nat>) {
    |times| <= U32_MAX && forall i :: 0 <= i < |times| ==> times[i] < U64_SIZE
  }

  /** The stored mean never exceeds the exact mean and is below it by at most (n-1)/2; the 64-bit
      cast never truncates. */
  lemma {:induction false} MeanErrorBound(times: seq<nat>)
    requires Recordable(times)
    ensures var m, n := RecordAll(times), |times|;
      && m.total == n && m.average < U64_SIZE
      && m.average * n <= Sum(times)
      && 2 * (Sum(times) - m.average * n) <= n * (n - 1)
  {
    var n := |times|;
    if n > 0 {
      var init, ms := times[..n - 1], times[n - 1];
      MeanErrorBound(init);
      var avg := RecordAll(init).average;
      MeanStep(avg, n - 1, Sum(init), ms);
      WeightedMean(avg, n - 1, ms, U64_SIZE);
      DivBounds(avg * (n - 1) + ms, n);
      Untruncated((avg * (n - 1) + ms) / n);
    }
  }

  lemma Untruncated(a: nat)
    requires a < U64_SIZE
    ensures a % U64_SIZE == a
  {
  }

  /** The counts are exact and the uptime is the floored percentage of responses within the SLA. */
  lemma {:induction false} UptimeExact(times: seq<nat>)
    requires |times| <= U32_MAX
    ensures var m, n := RecordAll(times), |times|;
      && m.active && m.total == n && m.successful == WithinSla(times) && m.uptime <= 100
      && (n > 0 ==> m.last == times[n - 1] && m.uptime == 100 * WithinSla(times) / n)
  {
    var n := |times|;
    if n > 0 {
      UptimeExact(times[..n - 1]);
      DivMonotone(100 * WithinSla(times), 100 * n, n);
      DivUnique(100 * n, n, 100);
    }
  }

  /** One truncating update adds at most n to the accumulated deficit. */
  lemma MeanStep(avg: nat, n: nat, sum: nat, ms: nat)
    requires avg * n <= sum && 2 * (sum - avg * n) <= n * (n - 1)
    ensures var a := (avg * n + ms) / (n + 1);
      a * (n + 1) <= sum + ms && 2 * (sum + ms - a * (n + 1)) <= (n + 1) * n
  {
    DivBounds(avg * n + ms, n + 1);
    assert (n + 1) * n == n * (n - 1) + 2 * n;
  }

  lemma WeightedMean(avg: nat, n: nat, ms: nat, bound: nat)
    requires avg < bound && ms < bound
    ensures (avg * n + ms) / (n + 1) < bound
  {
    var a := (avg * n + ms) / (n + 1);
    DivBounds(avg * n + ms, n + 1);
    if a >= bound {
      MulMonotone(n + 1, bound, a);
      MulMonotone(n, avg, bound - 1);
    }
  }

  function Ramp(n: nat): (times: seq<nat>)
    ensures |times| == n && forall i :: 0 <= i < n ==> times[i] == i
  {
    if n == 0 then [] else Ramp(n - 1) + [n - 1]
  }

  lemma {:induction false} RampSum(n: nat)
    ensures 2 * Sum(Ramp(n)) == n * (n - 1)
  {
    if n > 0 {
      RampSum(n - 1);
      assert Ramp(n)[..n - 1] == Ramp(n - 1);
      assert n * (n - 1) == (n - 1) * (n - 2) + 2 * (n - 1);
    }
  }

  /** The bound is attained: response times 0, 1, .., n-1 keep the stored mean at zero. */
  lemma {:induction false} MeanErrorAttained(n: nat)
    requires n <= U32_MAX
    ensures var m := RecordAll(Ramp(n)); m.average == 0 && m.total == n && 2 * Sum(Ramp(n)) == n * (n - 1)
  {
    RampSum(n);
    if n > 0 {
      MeanErrorAttained(n - 1);
      assert Ramp(n)[..n - 1] == Ramp(n - 1);
      DivUnique(n - 1, n, 0);
      assert RecordAll(Ramp(n)).average == (0 * (n - 1) + (n - 1)) / n % U64_SIZE;
    }
  }

  /** An oracle found slow by its stored mean is slow by its exact mean. */
  lemma SlowIsReallySlow(times: seq<nat>, threshold: nat)
    requires Recordable(times)
    requires RecordAll(times).average > threshold
    ensures times != [] && Sum(times) > threshold * |times|
  {
    MeanErrorBound(times);
    if times != [] {
      MeanAbove(RecordAll(times).average, |times|, threshold, Sum(times));
    }
  }

  lemma MeanAbove(avg: nat, n: nat, threshold: nat, sum: nat)
    requires n > 0 && avg > threshold && avg * n <= sum
    ensures sum > threshold * n
  {
    MulMonotone(n, threshold + 1, avg);
  }
}
