/** Noise-robust distance sampling: SensorManager::getAveragedDistance.
    Up to ten raw time-of-flight readings are taken (a failed read arrives as 0
    and is dropped), the valid ones are exchange-sorted in place, and the floored
    mean of the readings within 12% of the median is returned. The readings the
    sensor would deliver are an input sequence, one entry per read. */
module Sampler {
  import opened Ints

  /** Size of the working array: the requested sample count is clamped to it. */
  const MAX_SAMPLES: nat := 10

  function Abs(x: int): nat {
    if x < 0 then -x else x
  }

  /** The 12% outlier test `|x - median| / median <= 0.12`, as exact integer arithmetic. */
  predicate WithinTolerance(x: int, median: int) {
    100 * Abs(x - median) <= 12 * median
  }

  predicate Sorted(s: seq<int>) {
    forall i, j :: 0 <= i < j < |s| ==> s[i] <= s[j]
  }

  /** Number of raw readings actually taken for a request of `samples`. */
  function ClampSamples(samples: uint8): (n: nat)
    ensures n <= MAX_SAMPLES && n <= samples
    ensures samples <= MAX_SAMPLES ==> n == samples
    ensures samples > MAX_SAMPLES ==> n == MAX_SAMPLES
  {
    if samples > MAX_SAMPLES then MAX_SAMPLES else samples
  }

  /** The successful readings, in read order: exactly the non-zero ones. */
  function ValidReadings(readings: seq<int>): (v: seq<int>)
    ensures |v| <= |readings|
    ensures forall x :: x in v <==> x in readings && x > 0
  {
    if readings == [] then []
    else
      var last := readings[|readings| - 1];
      assert readings == readings[..|readings| - 1] + [last];
      ValidReadings(readings[..|readings| - 1]) + (if last > 0 then [last] else [])
  }

  /** Inserts `x` before the first element it does not exceed. */
  function Insert(x: int, s: seq<int>): (r: seq<int>)
    ensures |r| == |s| + 1
    ensures multiset(r) == multiset(s) + multiset{x}
  {
    if s == [] || x <= s[0] then [x] + s
    else
      assert s == [s[0]] + s[1..];
      [s[0]] + Insert(x, s[1..])
  }

  /** Inserting into a sorted sequence keeps it sorted. */
  lemma {:induction false} InsertSorted(x: int, s: seq<int>)
    requires Sorted(s)
    ensures Sorted(Insert(x, s))
  {
    if s == [] || x <= s[0] {
      ConsSorted(x, s);
    } else {
      var rest := Insert(x, s[1..]);
      assert Sorted(s[1..]);
      InsertSorted(x, s[1..]);
      forall k | 0 <= k < |rest| ensures s[0] <= rest[k] {
        assert rest[k] in multiset(s[1..]) + multiset{x};
      }
      ConsSorted(s[0], rest);
    }
  }

  lemma ConsSorted(h: int, t: seq<int>)
    requires Sorted(t) && forall k :: 0 <= k < |t| ==> h <= t[k]
    ensures Sorted([h] + t)
  {
  }

  /** The ascending rearrangement of `s` (the reference the exchange sort is checked against). */
  function SortSeq(s: seq<int>): (r: seq<int>)
    ensures |r| == |s|
    ensures Sorted(r) && multiset(r) == multiset(s)
  {
    if s == [] then []
    else
      assert s == [s[0]] + s[1..];
      InsertSorted(s[0], SortSeq(s[1..]));
      Insert(s[0], SortSeq(s[1..]))
  }

  /** The readings of `s` that pass the 12% test against `median`, in order. */
  function Accepted(s: seq<int>, median: int): (a: seq<int>)
    ensures |a| <= |s|
    ensures forall x :: x in a <==> x in s && WithinTolerance(x, median)
    ensures Sorted(s) ==> Sorted(a)
  {
    if s == [] then []
    else
      var prefix, last := s[..|s| - 1], s[|s| - 1];
      assert s == prefix + [last];
      var kept := Accepted(prefix, median);
      assert Sorted(s) ==> forall i :: 0 <= i < |kept| ==> kept[i] <= last by {
        if Sorted(s) {
          forall i | 0 <= i < |kept| ensures kept[i] <= last {
            assert kept[i] in kept;
            var k :| 0 <= k < |prefix| && prefix[k] == kept[i];
            assert s[k] <= s[|s| - 1];
          }
        }
      }
      kept + (if WithinTolerance(last, median) then [last] else [])
  }

  function Sum(s: seq<int>): int {
    if s == [] then 0 else Sum(s[..|s| - 1]) + s[|s| - 1]
  }

  /** The middle element of the sorted valid readings (the upper one of an even count). */
  function Median(v: seq<int>): (m: int)
    requires v != []
    ensures m in v
  {
    var sorted := SortSeq(v);
    assert sorted[|v| / 2] in multiset(sorted);
    sorted[|v| / 2]
  }

  /** Floored mean of the readings of `sorted` within 12% of its median;
      the median itself if none were accepted. */
  function TrimmedMean(sorted: seq<int>): (r: int)
    requires sorted != []
    ensures Sorted(sorted) && 0 < sorted[0] ==>
              && sorted[0] <= r <= sorted[|sorted| - 1]
              && WithinTolerance(r, sorted[|sorted| / 2])
  {
    var median := sorted[|sorted| / 2];
    var accepted := Accepted(sorted, median);
    AcceptedMean(sorted);
    if |accepted| == 0 then median else Sum(accepted) / |accepted|
  }

  /** What getAveragedDistance returns, given the sensor state and the readings. */
  function AveragedDistance(initialized: bool, samples: uint8, readings: seq<int>): (r: int)
    requires |readings| >= ClampSamples(samples)
    ensures r >= 0
    ensures r == 0 <==> !initialized || ValidReadings(readings[..ClampSamples(samples)]) == []
  {
    if !initialized then 0
    else
      var valid := ValidReadings(readings[..ClampSamples(samples)]);
      if valid == [] then 0
      else
        var sorted := SortSeq(valid);
        SameElements(valid);
        assert sorted[0] in sorted;
        TrimmedMean(sorted)
  }

  /** A sorted rearrangement is unique. */
  lemma {:induction false} SortedUnique(a: seq<int>, b: seq<int>)
    requires Sorted(a) && Sorted(b) && multiset(a) == multiset(b)
    ensures a == b
  {
    assert |a| == |multiset(a)| == |multiset(b)| == |b|;
    if a != [] {
      assert a[0] in multiset(b);
      assert b[0] in multiset(a);
      assert a == [a[0]] + a[1..];
      assert b == [b[0]] + b[1..];
      assert a[0] == b[0];
      assert multiset(a[1..]) == multiset(a) - multiset{a[0]};
      assert multiset(b[1..]) == multiset(b) - multiset{b[0]};
      SortedUnique(a[1..], b[1..]);
    }
  }

  lemma {:induction false} SumBounds(s: seq<int>, lo: int, hi: int)
    requires forall i :: 0 <= i < |s| ==> lo <= s[i] <= hi
    ensures |s| * lo <= Sum(s) <= |s| * hi
  {
    if s != [] {
      var p := s[..|s| - 1];
      SumBounds(p, lo, hi);
      assert |s| * lo == |p| * lo + lo;
      assert |s| * hi == |p| * hi + hi;
    }
  }

  lemma DivBounds(total: int, k: int, lo: int, hi: int)
    requires k > 0 && k * lo <= total <= k * hi
    ensures lo <= total / k <= hi
  {
    var q := total / k;
    assert k * q <= total < k * (q + 1);
    MulLessCancel(k, lo, q + 1);
    MulLessCancel(k, q, hi + 1);
  }

  lemma MulLessCancel(k: int, a: int, b: int)
    requires k > 0 && k * a < k * b
    ensures a < b
  {
  }

  /** The median always passes its own 12% test, so some reading is accepted and the
      all-rejected fallback is never taken; the result is the floored mean of the
      accepted readings, lies between the smallest and largest of them and hence
      within 12% of the median. */
  lemma TrimmedMeanBounds(sorted: seq<int>)
    requires sorted != [] && Sorted(sorted)
    requires forall x :: x in sorted ==> x > 0
    ensures var median := sorted[|sorted| / 2];
            var accepted := Accepted(sorted, median);
            && accepted != []
            && TrimmedMean(sorted) == Sum(accepted) / |accepted|
            && accepted[0] <= TrimmedMean(sorted) <= accepted[|accepted| - 1]
            && WithinTolerance(TrimmedMean(sorted), median)
            && 0 < TrimmedMean(sorted)
  {
    assert sorted[0] in sorted;
    AcceptedMean(sorted);
  }

  /** On sorted positive readings the median accepts itself, and the floored mean of
      the accepted readings lies between the ends of both sequences. */
  lemma AcceptedMean(sorted: seq<int>)
    requires sorted != []
    ensures var median := sorted[|sorted| / 2];
            var accepted := Accepted(sorted, median);
            Sorted(sorted) && 0 < sorted[0] ==>
              && accepted != []
              && sorted[0] <= accepted[0]
              && accepted[|accepted| - 1] <= sorted[|sorted| - 1]
              && accepted[0] <= Sum(accepted) / |accepted| <= accepted[|accepted| - 1]
              && WithinTolerance(Sum(accepted) / |accepted|, median)
  {
    if Sorted(sorted) && 0 < sorted[0] {
      var median := sorted[|sorted| / 2];
      var accepted := Accepted(sorted, median);
      assert median in sorted && WithinTolerance(median, median);
      assert median in accepted;
      var lo, hi := accepted[0], accepted[|accepted| - 1];
      assert lo in accepted && hi in accepted;
      assert lo in sorted && hi in sorted;
      assert WithinTolerance(lo, median) && WithinTolerance(hi, median);
      MeanBounds(accepted, median);
    }
  }

  /** The floored mean of a sorted, non-empty run of positive readings within 12% of
      `median` lies between its ends, hence is positive and within 12% of `median`. */
  lemma MeanBounds(accepted: seq<int>, median: int)
    requires accepted != [] && Sorted(accepted)
    requires 0 < accepted[0]
    requires WithinTolerance(accepted[0], median) && WithinTolerance(accepted[|accepted| - 1], median)
    ensures var mean := Sum(accepted) / |accepted|;
            && accepted[0] <= mean <= accepted[|accepted| - 1]
            && WithinTolerance(mean, median) && 0 < mean
  {
    var lo, hi := accepted[0], accepted[|accepted| - 1];
    SumBounds(accepted, lo, hi);
    DivBounds(Sum(accepted), |accepted|, lo, hi);
    ToleranceBetween(lo, Sum(accepted) / |accepted|, hi, median);
  }

  /** The 12% band around the median is an interval. */
  lemma ToleranceBetween(lo: int, x: int, hi: int, median: int)
    requires lo <= x <= hi && WithinTolerance(lo, median) && WithinTolerance(hi, median)
    ensures WithinTolerance(x, median)
  {
  }

  /** Everything the sampler promises about its result, stated on the valid readings. */
  lemma AveragedDistanceSpec(initialized: bool, samples: uint8, readings: seq<uint16>)
    requires |readings| >= ClampSamples(samples)
    ensures var r := AveragedDistance(initialized, samples, readings);
            var valid := ValidReadings(readings[..ClampSamples(samples)]);
            && (r == 0 <==> !initialized || valid == [])
            && 0 <= r < 0x1_0000
            && (initialized && valid != [] ==>
                  var median := Median(valid);
                  var accepted := Accepted(SortSeq(valid), median);
                  && median in valid
                  && accepted != []
                  && (forall x :: x in accepted <==> x in valid && WithinTolerance(x, median))
                  && r == Sum(accepted) / |accepted|
                  && accepted[0] <= r <= accepted[|accepted| - 1]
                  && WithinTolerance(r, median))
  {
    var valid := ValidReadings(readings[..ClampSamples(samples)]);
    if initialized && valid != [] {
      var sorted := SortSeq(valid);
      SameElements(valid);
      TrimmedMeanBounds(sorted);
      var accepted := Accepted(sorted, Median(valid));
      assert accepted[|accepted| - 1] in accepted;
    }
  }

  /** If every successful reading is `d`, the sampler returns `d`. */
  lemma AllEqualReadings(samples: uint8, readings: seq<uint16>, d: int)
    requires |readings| >= ClampSamples(samples)
    requires ValidReadings(readings[..ClampSamples(samples)]) != []
    requires forall x :: x in ValidReadings(readings[..ClampSamples(samples)]) ==> x == d
    ensures AveragedDistance(true, samples, readings) == d
  {
    var valid := ValidReadings(readings[..ClampSamples(samples)]);
    var sorted := SortSeq(valid);
    SameElements(valid);
    assert valid[0] in valid;
    assert forall i :: 0 <= i < |sorted| ==> sorted[i] == d by {
      forall i | 0 <= i < |sorted| ensures sorted[i] == d {
        assert sorted[i] in sorted;
      }
    }
    ConstantTrimmedMean(sorted, d);
  }

  /** A run of equal positive readings has that reading as its trimmed mean. */
  lemma ConstantTrimmedMean(sorted: seq<int>, d: int)
    requires sorted != [] && d > 0
    requires forall i :: 0 <= i < |sorted| ==> sorted[i] == d
    ensures TrimmedMean(sorted) == d
  {
    var accepted := Accepted(sorted, d);
    assert sorted[|sorted| / 2] == d;
    assert d in accepted;
    assert forall i :: 0 <= i < |accepted| ==> accepted[i] == d by {
      forall i | 0 <= i < |accepted| ensures accepted[i] == d {
        assert accepted[i] in accepted;
      }
    }
    SumBounds(accepted, d, d);
    DivBounds(Sum(accepted), |accepted|, d, d);
  }

  /** Sorting neither adds nor drops a value. */
  lemma SameElements(v: seq<int>)
    ensures forall x :: x in SortSeq(v) <==> x in v
  {
    forall x ensures x in SortSeq(v) <==> x in v {
      assert x in SortSeq(v) <==> x in multiset(SortSeq(v));
      assert x in v <==> x in multiset(v);
    }
  }

  /** The first `i` slots of `s[..n]` hold its `i` smallest elements in order. */
  predicate Settled(s: seq<int>, i: nat, n: nat)
    requires n <= |s|
  {
    forall p, q :: 0 <= p < i && p < q < n ==> s[p] <= s[q]
  }

  /** Slot `i` holds the smallest of `s[i..j]`. */
  predicate LeastSoFar(s: seq<int>, i: nat, j: nat)
    requires i < j <= |s|
  {
    forall q :: i < q < j ==> s[i] <= s[q]
  }

  /** The exchange sort of the source, on the prefix `a[..n]` of the working array. */
  method ExchangeSort(a: array<int>, n: nat)
    requires n <= a.Length
    modifies a
    ensures Sorted(a[..n])
    ensures multiset(a[..n]) == multiset(old(a[..n]))
    ensures a[n..] == old(a[n..])
  {
    var i := 0;
    while i + 1 < n
      invariant i <= n && (n == 0 || i < n)
      invariant Settled(a[..], i, n)
      invariant multiset(a[..]) == multiset(old(a[..]))
      invariant a[n..] == old(a[n..])
    {
      var j := i + 1;
      while j < n
        invariant i < j <= n
        invariant LeastSoFar(a[..], i, j)
        invariant Settled(a[..], i, n)
        invariant multiset(a[..]) == multiset(old(a[..]))
        invariant a[n..] == old(a[n..])
      {
        if a[i] > a[j] {
          ghost var before := a[..];
          a[i], a[j] := a[j], a[i];
          assert a[..] == before[i := before[j]][j := before[i]];
          ExchangeStep(before, i, j, n);
        } else {
          KeepStep(a[..], i, j);
        }
        j := j + 1;
      }
      SettleNext(a[..], i, n);
      i := i + 1;
    }
    SettledSorted(a[..], n);
    PrefixPermutation(a[..], old(a[..]), n);
  }

  /** Leaving a larger `s[j]` in place extends the inner loop's invariant. */
  lemma KeepStep(s: seq<int>, i: nat, j: nat)
    requires i < j < |s| && s[i] <= s[j] && LeastSoFar(s, i, j)
    ensures LeastSoFar(s, i, j + 1)
  {
  }

  /** After a full inner pass, slot `i` is settled too. */
  lemma SettleNext(s: seq<int>, i: nat, n: nat)
    requires i < n <= |s| && Settled(s, i, n) && LeastSoFar(s, i, n)
    ensures Settled(s, i + 1, n)
  {
  }

  /** With all but the last slot settled, the prefix is sorted. */
  lemma SettledSorted(s: seq<int>, n: nat)
    requires n <= |s| && (n == 0 || Settled(s, n - 1, n))
    ensures Sorted(s[..n])
  {
  }

  /** Swapping a smaller `s[j]` into slot `i` keeps both loop invariants and the elements. */
  lemma ExchangeStep(s: seq<int>, i: nat, j: nat, n: nat)
    requires i < j < n <= |s| && s[i] > s[j]
    requires LeastSoFar(s, i, j) && Settled(s, i, n)
    ensures var t := s[i := s[j]][j := s[i]];
            && LeastSoFar(t, i, j + 1) && Settled(t, i, n) && multiset(t) == multiset(s)
            && t[n..] == s[n..]
  {
    var t := s[i := s[j]][j := s[i]];
    forall q | i < q < j + 1 ensures t[i] <= t[q] {
      if q < j {
        assert t[q] == s[q] && s[i] <= s[q];
      }
    }
    forall p, q | 0 <= p < i && p < q < n ensures t[p] <= t[q] {
      assert t[p] == s[p];
      if q == i {
        assert s[p] <= s[j];
      } else if q == j {
        assert s[p] <= s[i];
      } else {
        assert t[q] == s[q];
      }
    }
    assert t[n..] == s[n..];
  }

  /** Two arrangements of the same elements that agree from `n` on have the same
      elements before `n`. */
  lemma PrefixPermutation(s: seq<int>, t: seq<int>, n: nat)
    requires n <= |s| == |t| && multiset(s) == multiset(t) && s[n..] == t[n..]
    ensures multiset(s[..n]) == multiset(t[..n])
  {
    assert s == s[..n] + s[n..] && t == t[..n] + t[n..];
    assert multiset(s[..n]) == multiset(s) - multiset(s[n..]);
    assert multiset(t[..n]) == multiset(t) - multiset(t[n..]);
  }

  /** The collecting loop: one read per requested sample, successful ones appended to
      the working array. */
  method CollectValid(readings: seq<uint16>, n: nat) returns (measurements: array<int>, validSamples: nat)
    requires n <= MAX_SAMPLES && n <= |readings|
    ensures fresh(measurements) && measurements.Length == MAX_SAMPLES
    ensures validSamples <= n
    ensures measurements[..validSamples] == ValidReadings(readings[..n])
  {
    measurements := new int[MAX_SAMPLES];
    validSamples := 0;
    for i := 0 to n
      invariant validSamples <= i
      invariant measurements[..validSamples] == ValidReadings(readings[..i])
    {
      assert readings[..i + 1] == readings[..i] + [readings[i]];
      var d := readings[i];
      if d > 0 {
        measurements[validSamples] := d;
        validSamples := validSamples + 1;
      }
    }
  }

  /** The trimming loop: sum and count of the readings of `a[..n]` within 12% of `median`. */
  method SumAccepted(a: array<int>, n: nat, median: int) returns (sum: int, acceptedSamples: nat)
    requires n <= a.Length
    ensures sum == Sum(Accepted(a[..n], median))
    ensures acceptedSamples == |Accepted(a[..n], median)|
  {
    sum, acceptedSamples := 0, 0;
    for i := 0 to n
      invariant sum == Sum(Accepted(a[..i], median))
      invariant acceptedSamples == |Accepted(a[..i], median)|
    {
      assert a[..i + 1] == a[..i] + [a[i]];
      ghost var kept := Accepted(a[..i], median);
      if 100 * Abs(a[i] - median) <= 12 * median {
        assert Accepted(a[..i + 1], median) == kept + [a[i]];
        assert (kept + [a[i]])[..|kept|] == kept;
        sum := sum + a[i];
        acceptedSamples := acceptedSamples + 1;
      } else {
        assert Accepted(a[..i + 1], median) == kept;
      }
    }
  }

  /** SensorManager::getAveragedDistance with the sensor's readiness and the values its
      successive reads return as inputs. */
  method GetAveragedDistance(initialized: bool, samples: uint8, readings: seq<uint16>) returns (distance: uint16)
    requires |readings| >= ClampSamples(samples)
    ensures distance == AveragedDistance(initialized, samples, readings)
    ensures distance == 0 <==> !initialized || ValidReadings(readings[..ClampSamples(samples)]) == []
  {
    if !initialized {
      return 0;
    }
    var n := samples;
    if n > MAX_SAMPLES {
      n := MAX_SAMPLES;
    }
    var measurements, validSamples := CollectValid(readings, n);
    if validSamples == 0 {
      return 0;
    }
    var average := SortAndTrim(measurements, validSamples);
    AveragedDistanceSpec(initialized, samples, readings);
    distance := average;
  }

  /** The sorting and trimming phases on the `n` collected readings. */
  method SortAndTrim(measurements: array<int>, n: nat) returns (average: int)
    requires 0 < n <= measurements.Length
    modifies measurements
    ensures average == TrimmedMean(SortSeq(old(measurements[..n])))
  {
    ghost var collected := measurements[..n];
    ExchangeSort(measurements, n);
    SortedUnique(measurements[..n], SortSeq(collected));
    var median := measurements[n / 2];
    var sum, acceptedSamples := SumAccepted(measurements, n, median);
    average := if acceptedSamples == 0 then median else sum / acceptedSamples;
  }
}
