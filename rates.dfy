/** `IsRateCommon` and `CoreAudioData::RatesList`: the sample rates a device
    supports, built from the nominal-rate ranges it reports and a fixed
    table of fifteen common rates. The table index carries over from one
    range to the next. */
module Rates {
  import opened AudioTypes

  /** `sCommonSampleRates`, ascending. The source holds them as `Float64`;
      all fifteen are whole numbers. */
  const CommonRates: seq<int> := [
    8000, 11025, 12000,
    16000, 22050, 24000,
    32000, 44100, 48000,
    64000, 88200, 96000,
    128000, 176400, 192000 ]

  /** An `AudioValueRange` the device reports. */
  datatype RateRange = RateRange(minimum: real, maximum: real)

  /** `rate` is one of the table's rates. */
  predicate IsCommon(rate: real)
  {
    exists i :: 0 <= i < |CommonRates| && CommonRates[i] as real == rate
  }

  lemma CommonRatesAscending(i: nat, j: nat)
    requires i < j < |CommonRates|
    ensures CommonRates[i] < CommonRates[j]
  {
    assert forall k :: 0 <= k < |CommonRates| - 1 ==> CommonRates[k] < CommonRates[k + 1];
    if j > i + 1 {
      CommonRatesAscending(i, j - 1);
    }
  }

  /** `IsRateCommon`: a linear scan of the table that stops at the first hit. */
  method IsRateCommon(rate: real) returns (answer: bool)
    ensures answer == IsCommon(rate)
  {
    answer := false;
    var i := 0;
    while !answer && i < |CommonRates|
      invariant 0 <= i <= |CommonRates|
      invariant answer ==> IsCommon(rate)
      invariant !answer ==> forall j :: 0 <= j < i ==> CommonRates[j] as real != rate
    {
      answer := rate == CommonRates[i] as real;
      i := i + 1;
    }
  }

  /** The first table index from `i` on whose rate is at least `bound`, or
      `|CommonRates|` when there is none (where each of the two scans in
      `RatesList` stops). */
  function FirstAtLeast(i: nat, bound: real): (j: nat)
    requires i <= |CommonRates|
    ensures i <= j <= |CommonRates|
    ensures j < |CommonRates| ==> bound <= CommonRates[j] as real
    decreases |CommonRates| - i
  {
    if i == |CommonRates| || bound <= CommonRates[i] as real then i else FirstAtLeast(i + 1, bound)
  }

  /** Every rate the scan steps over is below `bound`. */
  lemma {:induction false} BelowFirstAtLeast(i: nat, bound: real, k: nat)
    requires i <= |CommonRates| && i <= k < FirstAtLeast(i, bound)
    ensures (CommonRates[k] as real) < bound
    decreases |CommonRates| - i
  {
    if i < k {
      BelowFirstAtLeast(i + 1, bound, k);
    }
  }

  /** The table's rates at indices `from` to `to - 1`. */
  function TableRates(from: nat, to: nat): (r: seq<real>)
    requires from <= to <= |CommonRates|
    ensures |r| == to - from
    ensures forall k :: 0 <= k < |r| ==> r[k] == CommonRates[from + k] as real
  {
    seq(to - from, k requires 0 <= k < to - from => CommonRates[from + k] as real)
  }

  /** After the table rates, a range adds its minimum if that is a common
      rate, else its maximum if that is. */
  function EndpointRate(range: RateRange): (r: seq<real>)
    ensures |r| <= 1
    ensures forall x :: x in r ==> IsCommon(x)
    ensures r == [] <==> !IsCommon(range.minimum) && !IsCommon(range.maximum)
  {
    if IsCommon(range.minimum) then [range.minimum]
    else if IsCommon(range.maximum) then [range.maximum]
    else []
  }

  /** The list the walk builds from `ranges` when the table index it
      carries in is `last`. */
  function RatesFrom(ranges: seq<RateRange>, last: nat): seq<real>
    requires last <= |CommonRates|
    decreases |ranges|
  {
    if |ranges| == 0 then []
    else
      var first := FirstAtLeast(last, ranges[0].minimum);
      if first >= |CommonRates| then []
      else
        var next := FirstAtLeast(first, ranges[0].maximum);
        TableRates(first, next) + EndpointRate(ranges[0]) + RatesFrom(ranges[1..], next)
  }

  lemma TableRatesStep(from: nat, to: nat)
    requires from <= to < |CommonRates|
    ensures TableRates(from, to + 1) == TableRates(from, to) + [CommonRates[to] as real]
  {
  }

  lemma RatesFromStops(ranges: seq<RateRange>, n: nat, last: nat)
    requires n < |ranges| && last <= |CommonRates|
    requires FirstAtLeast(last, ranges[n].minimum) == |CommonRates|
    ensures RatesFrom(ranges[n..], last) == []
  {
    assert ranges[n..][0] == ranges[n];
  }

  lemma RatesFromStep(ranges: seq<RateRange>, n: nat, last: nat)
    requires n < |ranges| && last <= |CommonRates|
    requires FirstAtLeast(last, ranges[n].minimum) < |CommonRates|
    ensures RatesFrom(ranges[n..], last)
         == TableRates(FirstAtLeast(last, ranges[n].minimum),
                       FirstAtLeast(FirstAtLeast(last, ranges[n].minimum), ranges[n].maximum))
          + EndpointRate(ranges[n])
          + RatesFrom(ranges[n + 1..], FirstAtLeast(FirstAtLeast(last, ranges[n].minimum), ranges[n].maximum))
  {
    assert ranges[n..][0] == ranges[n];
    assert ranges[n..][1..] == ranges[n + 1..];
  }

  lemma ConcatAssociative(a: seq<real>, b: seq<real>, c: seq<real>)
    ensures (a + b) + c == a + (b + c)
  {
  }

  /** What one turn of the loop over the ranges does to the list. */
  lemma RatesListStep(ranges: seq<RateRange>, n: nat, last: nat, before: seq<real>, after: seq<real>, next: nat)
    requires n < |ranges| && last <= |CommonRates|
    requires FirstAtLeast(last, ranges[n].minimum) < |CommonRates|
    requires next == FirstAtLeast(FirstAtLeast(last, ranges[n].minimum), ranges[n].maximum)
    requires after == before + TableRates(FirstAtLeast(last, ranges[n].minimum), next) + EndpointRate(ranges[n])
    ensures after + RatesFrom(ranges[n + 1..], next) == before + RatesFrom(ranges[n..], last)
  {
    RatesFromStep(ranges, n, last);
    var added := TableRates(FirstAtLeast(last, ranges[n].minimum), next) + EndpointRate(ranges[n]);
    ConcatAssociative(before, added, RatesFrom(ranges[n + 1..], next));
  }

  /** The scan for `theFirstIndex`: steps over the table rates below `bound`. */
  method SkipRatesBelow(from: nat, bound: real) returns (index: nat)
    requires from <= |CommonRates|
    ensures index == FirstAtLeast(from, bound)
  {
    index := from;
    while index < |CommonRates| && CommonRates[index] as real < bound
      invariant from <= index <= |CommonRates|
      invariant FirstAtLeast(from, bound) == FirstAtLeast(index, bound)
    {
      index := index + 1;
    }
  }

  /** The rest of one turn of the loop over the ranges, from the first
      table rate at or above the range's minimum: the table rates below
      the maximum, then the endpoint. Returns the new `theLastIndex`. */
  method AppendRangeRates(finalvec: seq<real>, range: RateRange, firstIndex: nat)
    returns (result: seq<real>, lastIndex: nat)
    requires firstIndex < |CommonRates|
    ensures lastIndex == FirstAtLeast(firstIndex, range.maximum)
    ensures result == finalvec + TableRates(firstIndex, lastIndex) + EndpointRate(range)
  {
    result := finalvec;
    lastIndex := firstIndex;
    while lastIndex < |CommonRates| && CommonRates[lastIndex] as real < range.maximum
      invariant firstIndex <= lastIndex <= |CommonRates|
      invariant FirstAtLeast(firstIndex, range.maximum) == FirstAtLeast(lastIndex, range.maximum)
      invariant result == finalvec + TableRates(firstIndex, lastIndex)
    {
      TableRatesStep(firstIndex, lastIndex);
      result := result + [CommonRates[lastIndex] as real];
      lastIndex := lastIndex + 1;
    }
    var minimumCommon := IsRateCommon(range.minimum);
    if minimumCommon {
      result := result + [range.minimum];
    } else {
      var maximumCommon := IsRateCommon(range.maximum);
      if maximumCommon {
        result := result + [range.maximum];
      }
    }
  }

  /** `RatesList`: `None` stands for a failed query of the available rates
      (its size, an allocation, or the data), which gives the empty list. */
  method RatesList(reply: Option<seq<RateRange>>) returns (finalvec: seq<real>)
    ensures reply.None? ==> finalvec == []
    ensures reply.Some? ==> finalvec == RatesFrom(reply.value, 0)
  {
    if reply.None? {
      return [];
    }
    var ranges := reply.value;
    finalvec := [];
    var lastIndex: nat := 0;
    var n := 0;
    ghost var goal := RatesFrom(ranges, 0);
    while n < |ranges|
      invariant 0 <= n <= |ranges| && lastIndex <= |CommonRates|
      invariant finalvec + RatesFrom(ranges[n..], lastIndex) == goal
    {
      var range := ranges[n];
      var firstIndex := SkipRatesBelow(lastIndex, range.minimum);
      if firstIndex >= |CommonRates| {
        RatesFromStops(ranges, n, lastIndex);
        assert finalvec + RatesFrom(ranges[n..], lastIndex) == goal;
        break;
      }
      ghost var before, carried := finalvec, lastIndex;
      finalvec, lastIndex := AppendRangeRates(finalvec, range, firstIndex);
      RatesListStep(ranges, n, carried, before, finalvec, lastIndex);
      n := n + 1;
    }
  }

  /** Every rate in the list is one of the fifteen common rates. */
  lemma {:induction false} RatesAreCommon(ranges: seq<RateRange>, last: nat)
    requires last <= |CommonRates|
    ensures forall x :: x in RatesFrom(ranges, last) ==> IsCommon(x)
    decreases |ranges|
  {
    if |ranges| > 0 {
      var first := FirstAtLeast(last, ranges[0].minimum);
      if first < |CommonRates| {
        var next := FirstAtLeast(first, ranges[0].maximum);
        RatesAreCommon(ranges[1..], next);
        forall x | x in TableRates(first, next)
          ensures IsCommon(x)
        {
          var k :| 0 <= k < next - first && TableRates(first, next)[k] == x;
          assert CommonRates[first + k] as real == x;
        }
      }
    }
  }

  /** The table index only moves forward, so a table rate is emitted at
      most once and each range adds at most one endpoint besides. */
  lemma {:induction false} RatesFromLength(ranges: seq<RateRange>, last: nat)
    requires last <= |CommonRates|
    ensures |RatesFrom(ranges, last)| <= (|CommonRates| - last) + |ranges|
    decreases |ranges|
  {
    if |ranges| > 0 {
      var first := FirstAtLeast(last, ranges[0].minimum);
      if first < |CommonRates| {
        RatesFromLength(ranges[1..], FirstAtLeast(first, ranges[0].maximum));
      }
    }
  }

  lemma RatesListLength(ranges: seq<RateRange>)
    ensures |RatesFrom(ranges, 0)| <= |CommonRates| + |ranges|
  {
    RatesFromLength(ranges, 0);
  }

  /** The table rates one range contributes are exactly the table's rates,
      from the carried-in index `last` on, that lie in [minimum, maximum). */
  lemma RangeTableRates(range: RateRange, last: nat, k: nat)
    requires last <= k < |CommonRates|
    requires FirstAtLeast(last, range.minimum) < |CommonRates|
    ensures var first := FirstAtLeast(last, range.minimum);
            var next := FirstAtLeast(first, range.maximum);
            first <= k < next <==>
              range.minimum <= CommonRates[k] as real && (CommonRates[k] as real) < range.maximum
  {
    var first := FirstAtLeast(last, range.minimum);
    var next := FirstAtLeast(first, range.maximum);
    if k < first {
      BelowFirstAtLeast(last, range.minimum, k);
    } else if k < next {
      BelowFirstAtLeast(first, range.maximum, k);
      if first < k {
        CommonRatesAscending(first, k);
      }
    } else if next < k {
      CommonRatesAscending(next, k);
    }
  }

  /** Once no table rate at or after the carried index reaches a range's
      minimum, that range and all later ones add nothing. */
  lemma StopsAtHighMinimum(ranges: seq<RateRange>, last: nat)
    requires last <= |CommonRates| && |ranges| > 0
    requires forall k :: last <= k < |CommonRates| ==> (CommonRates[k] as real) < ranges[0].minimum
    ensures RatesFrom(ranges, last) == []
  {
  }

  /** A range from 44100 to 48000 yields 44100 twice, once from the table
      and once as its common minimum, and never 48000. */
  lemma SingleRangeExample()
    ensures RatesFrom([RateRange(44100.0, 48000.0)], 0) == [44100.0, 44100.0]
  {
    var r := RateRange(44100.0, 48000.0);
    assert FirstAtLeast(7, 44100.0) == 7;
    assert FirstAtLeast(0, 44100.0) == 7;
    assert FirstAtLeast(8, 48000.0) == 8;
    assert FirstAtLeast(7, 48000.0) == 8;
    assert IsCommon(44100.0) by {
      assert CommonRates[7] as real == 44100.0;
    }
    assert [r][1..] == [];
  }

  /** Because the index carries over, a range lower than the previous one
      gets no table rates, only its endpoint. */
  lemma CarriedIndexExample()
    ensures RatesFrom([RateRange(96000.0, 96000.0), RateRange(44100.0, 48000.0)], 0) == [96000.0, 44100.0]
  {
    var ranges := [RateRange(96000.0, 96000.0), RateRange(44100.0, 48000.0)];
    assert FirstAtLeast(11, 96000.0) == 11;
    assert FirstAtLeast(0, 96000.0) == 11;
    assert FirstAtLeast(11, 44100.0) == 11;
    assert FirstAtLeast(11, 48000.0) == 11;
    assert IsCommon(96000.0) by {
      assert CommonRates[11] as real == 96000.0;
    }
    assert IsCommon(44100.0) by {
      assert CommonRates[7] as real == 44100.0;
    }
    assert ranges[1..] == [RateRange(44100.0, 48000.0)];
    assert ranges[1..][1..] == [];
  }
}
