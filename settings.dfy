/** `AudioOutputCA::GetOutputSettings`: what the device can play, assembled
    from the rate list, the channel flags and the AC-3 search. The
    `AudioOutputSettings` object is recorded as the values passed to its
    `AddSupportedRate`, `AddSupportedFormat`, `AddSupportedChannels` and
    `setPassthrough` calls; `GetNextRate` is the sequence of candidate
    rates it hands out. */
module Settings {
  import opened AudioTypes
  import Rates
  import Streams

  /** The calls `GetOutputSettings` makes on the new settings object, in order. */
  datatype OutputSettings = OutputSettings(
    rates: seq<int>,
    formats: seq<AudioFormat>,
    channels: seq<int>,
    passthrough: bool)

  /** C++'s conversion of a `Float64` to `int` (toward zero), applied by
      `RatesVec::push_back`. */
  function TruncateToInt(x: real): int
  {
    if x >= 0.0 then x.Floor else -((-x).Floor)
  }

  /** The `RatesVec` that `RatesList` returns for the device's reply. */
  function DeviceRates(reply: Option<seq<Rates.RateRange>>): (v: seq<int>)
  {
    match reply
    case None => []
    case Some(ranges) =>
      var rs := Rates.RatesFrom(ranges, 0);
      seq(|rs|, i requires 0 <= i < |rs| => TruncateToInt(rs[i]))
  }

  /** The conversion loses nothing: each entry is one of the fifteen common
      rates, exactly the value the walk produced. */
  lemma DeviceRatesExact(ranges: seq<Rates.RateRange>, i: nat)
    requires i < |Rates.RatesFrom(ranges, 0)|
    ensures DeviceRates(Some(ranges))[i] as real == Rates.RatesFrom(ranges, 0)[i]
    ensures DeviceRates(Some(ranges))[i] in Rates.CommonRates
  {
    var rs := Rates.RatesFrom(ranges, 0);
    Rates.RatesAreCommon(ranges, 0);
    assert rs[i] in rs;
    var k :| 0 <= k < |Rates.CommonRates| && rs[i] == Rates.CommonRates[k] as real;
    assert TruncateToInt(rs[i]) == Rates.CommonRates[k];
  }

  /** The rates `GetNextRate` hands out before its terminating 0. */
  function Candidates(next: seq<int>): (c: seq<int>)
    ensures c <= next
    ensures forall i :: 0 <= i < |c| ==> c[i] != 0
    ensures |c| < |next| ==> next[|c|] == 0
  {
    if |next| == 0 || next[0] == 0 then [] else [next[0]] + Candidates(next[1..])
  }

  /** The entries of `rates` equal to `r`, in order. */
  function Occurrences(rates: seq<int>, r: int): seq<int>
  {
    if |rates| == 0 then [] else (if rates[0] == r then [r] else []) + Occurrences(rates[1..], r)
  }

  /** The entries added for a rate are all that rate, as many as the device
      lists it. */
  lemma {:induction false} OccurrencesCount(rates: seq<int>, r: int)
    ensures forall x :: x in Occurrences(rates, r) <==> x == r && r in rates
    ensures |Occurrences(rates, r)| == multiset(rates)[r]
  {
    if |rates| > 0 {
      assert rates == [rates[0]] + rates[1..];
      OccurrencesCount(rates[1..], r);
    }
  }

  /** What the rate loop adds: for each candidate in turn, every device
      entry equal to it. */
  function MatchingRates(cands: seq<int>, rates: seq<int>): seq<int>
  {
    if |cands| == 0 then [] else Occurrences(rates, cands[0]) + MatchingRates(cands[1..], rates)
  }

  /** A rate is added exactly when it is both a candidate and a device rate. */
  lemma {:induction false} MatchingRatesMembers(cands: seq<int>, rates: seq<int>, x: int)
    ensures x in MatchingRates(cands, rates) <==> x in cands && x in rates
    decreases |cands|
  {
    if |cands| > 0 {
      MatchingRatesMembers(cands[1..], rates, x);
      assert cands == [cands[0]] + cands[1..];
      var o := Occurrences(rates, cands[0]);
      OccurrencesCount(rates, cands[0]);
    }
  }

  /** The rates list of the settings: 48000 alone when the device gave none. */
  function OfferedRates(reply: Option<seq<Rates.RateRange>>, next: seq<int>): seq<int>
  {
    if |DeviceRates(reply)| == 0 then [48000] else MatchingRates(Candidates(next), DeviceRates(reply))
  }

  lemma OfferedRatesMembers(reply: Option<seq<Rates.RateRange>>, next: seq<int>, x: int)
    ensures |DeviceRates(reply)| == 0 ==> OfferedRates(reply, next) == [48000]
    ensures |DeviceRates(reply)| > 0 ==>
      (x in OfferedRates(reply, next) <==> x in Candidates(next) && x in DeviceRates(reply))
  {
    MatchingRatesMembers(Candidates(next), DeviceRates(reply), x);
  }

  /** The inner rate loop: every entry equal to the candidate. */
  method MatchEntries(rates: seq<int>, rate: int) returns (found: seq<int>)
    ensures found == Occurrences(rates, rate)
  {
    found := [];
    var j := 0;
    ghost var goal := Occurrences(rates, rate);
    while j < |rates|
      invariant 0 <= j <= |rates|
      invariant found + Occurrences(rates[j..], rate) == goal
    {
      assert rates[j..][1..] == rates[j + 1..];
      ghost var rest := Occurrences(rates[j + 1..], rate);
      if rates[j] == rate {
        assert Occurrences(rates[j..], rate) == [rate] + rest;
        assert found + ([rate] + rest) == (found + [rate]) + rest;
        found := found + [rates[j]];
      } else {
        assert Occurrences(rates[j..], rate) == rest;
      }
      j := j + 1;
    }
  }

  /** The outer rate loop, over the candidates until `GetNextRate` returns 0. */
  method SupportedRates(next: seq<int>, rates: seq<int>) returns (added: seq<int>)
    ensures added == MatchingRates(Candidates(next), rates)
  {
    added := [];
    var i := 0;
    ghost var goal := MatchingRates(Candidates(next), rates);
    while i < |next| && next[i] != 0
      invariant 0 <= i <= |next|
      invariant added + MatchingRates(Candidates(next[i..]), rates) == goal
    {
      assert next[i..][1..] == next[i + 1..];
      var rate := next[i];
      var found := MatchEntries(rates, rate);
      ghost var rest := MatchingRates(Candidates(next[i + 1..]), rates);
      assert added + MatchingRates(Candidates(next[i..]), rates) == (added + found) + rest;
      added := added + found;
      i := i + 1;
    }
    assert next == [] || i == |next| || Candidates(next[i..]) == [];
  }

  /** The channel counts `1..n` whose flag is set, ascending. */
  function Flagged(flags: seq<bool>, n: nat): seq<int>
    requires n <= |flags|
  {
    if n == 0 then [] else Flagged(flags, n - 1) + (if flags[n - 1] then [n] else [])
  }

  /** The channel counts the loop adds: the flagged ones in order, and, when
      8 is flagged but 6 is not, a faked 6 just before the 8. */
  function OfferedChannels(flags: seq<bool>): seq<int>
    requires |flags| == Streams.ChannelsMax
  {
    Flagged(flags, 7) + (if flags[7] then (if !flags[5] then [6, 8] else [8]) else [])
  }

  lemma {:induction false} FlaggedMembers(flags: seq<bool>, n: nat, x: int)
    requires n <= |flags|
    ensures x in Flagged(flags, n) <==> 1 <= x <= n && flags[x - 1]
  {
    if n > 0 {
      FlaggedMembers(flags, n - 1, x);
    }
  }

  predicate StrictlyAscending(s: seq<int>)
  {
    forall i, j :: 0 <= i < j < |s| ==> s[i] < s[j]
  }

  lemma {:induction false} FlaggedAscending(flags: seq<bool>, n: nat)
    requires n <= |flags|
    ensures StrictlyAscending(Flagged(flags, n))
    ensures forall x :: x in Flagged(flags, n) ==> 1 <= x <= n
  {
    if n > 0 {
      FlaggedAscending(flags, n - 1);
      var p := Flagged(flags, n - 1);
      forall i | 0 <= i < |p|
        ensures p[i] < n
      {
        assert p[i] in p;
      }
      forall x | x in Flagged(flags, n)
        ensures 1 <= x <= n
      {
        FlaggedMembers(flags, n, x);
      }
    }
  }

  /** A channel count is offered exactly when it is flagged, or it is 6 and
      8 is flagged. */
  lemma OfferedChannelsMembers(flags: seq<bool>, x: int)
    requires |flags| == Streams.ChannelsMax
    ensures x in OfferedChannels(flags) <==> 1 <= x <= 8 && (flags[x - 1] || (x == 6 && flags[7]))
  {
    FlaggedMembers(flags, 7, x);
  }

  /** Two ascending lists separated by `bound` join into an ascending list. */
  lemma AscendingAppend(p: seq<int>, t: seq<int>, bound: int)
    requires StrictlyAscending(p) && StrictlyAscending(t)
    requires forall i :: 0 <= i < |p| ==> p[i] < bound
    requires forall j :: 0 <= j < |t| ==> bound <= t[j]
    ensures StrictlyAscending(p + t)
  {
    var q := p + t;
    forall i, j | 0 <= i < j < |q|
      ensures q[i] < q[j]
    {
      if j < |p| {
        assert q[i] == p[i] && q[j] == p[j];
      } else if i < |p| {
        assert q[i] == p[i] && q[j] == t[j - |p|];
      } else {
        assert q[i] == t[i - |p|] && q[j] == t[j - |p|];
      }
    }
  }

  /** The list is ascending except in one case: 7 and 8 flagged but not 6,
      where the faked 6 follows the 7. */
  lemma OfferedChannelsOrder(flags: seq<bool>)
    requires |flags| == Streams.ChannelsMax
    ensures StrictlyAscending(OfferedChannels(flags)) <==> !(flags[7] && !flags[5] && flags[6])
    ensures flags[7] ==> OfferedChannels(flags)[|OfferedChannels(flags)| - 1] == 8
    ensures flags[7] && !flags[5] ==> OfferedChannels(flags)[|OfferedChannels(flags)| - 2] == 6
  {
    var f := Flagged(flags, 7);
    var o := OfferedChannels(flags);
    FlaggedAscending(flags, 7);
    if flags[7] && !flags[5] && flags[6] {
      FlaggedMembers(flags, 7, 7);
      var k :| 0 <= k < |f| && f[k] == 7;
      assert o[k] == 7 && o[|f|] == 6;
    } else if flags[7] && !flags[5] {
      forall i | 0 <= i < |f|
        ensures f[i] < 6
      {
        assert f[i] in f;
        FlaggedMembers(flags, 7, f[i]);
      }
      assert o == f + [6, 8];
      AscendingAppend(f, [6, 8], 6);
    } else if flags[7] {
      forall i | 0 <= i < |f|
        ensures f[i] < 8
      {
        assert f[i] in f;
      }
      assert o == f + [8];
      AscendingAppend(f, [8], 8);
    } else {
      assert o == f;
    }
  }

  /** The channel loop of `GetOutputSettings` over the flags `ChannelsList` set. */
  method SupportedChannels(chans: array<bool>) returns (channels: seq<int>)
    requires chans.Length == Streams.ChannelsMax
    ensures channels == OfferedChannels(chans[..])
  {
    channels := [];
    var i := 1;
    while i <= Streams.ChannelsMax
      invariant 1 <= i <= Streams.ChannelsMax + 1
      invariant i <= Streams.ChannelsMax ==> channels == Flagged(chans[..], i - 1)
      invariant i > Streams.ChannelsMax ==> channels == OfferedChannels(chans[..])
    {
      if chans[i - 1] {
        if i == 8 && !chans[6 - 1] {
          channels := channels + [6];
        }
        channels := channels + [i];
      }
      i := i + 1;
    }
  }

  /** The flags `ChannelsList` leaves for these streams. */
  function ChannelFlags(streams: seq<DeviceStream>, digital: bool): (flags: seq<bool>)
    ensures |flags| == Streams.ChannelsMax
  {
    seq(Streams.ChannelsMax, k requires 0 <= k < Streams.ChannelsMax => Streams.ChannelFlag(streams, digital, k))
  }

  /** `GetOutputSettings(digital)`. `reply` is the device's answer to the
      available-rate query, `next` what `GetNextRate` returns in turn, and
      `streams` the device's streams with their formats. */
  method GetOutputSettings(reply: Option<seq<Rates.RateRange>>, next: seq<int>,
                           streams: seq<DeviceStream>, digital: bool)
    returns (settings: OutputSettings)
    requires Streams.ChannelCountsPositive(streams)
    ensures settings.rates == OfferedRates(reply, next)
    ensures settings.formats == [FormatS16, FormatFLT]
    ensures |streams| == 0 ==> settings.channels == [2]
    ensures |streams| > 0 ==> settings.channels == OfferedChannels(ChannelFlags(streams, digital))
    ensures settings.passthrough <==> Streams.HasAC3(streams)
  {
    var list := Rates.RatesList(reply);
    var rates := seq(|list|, i requires 0 <= i < |list| => TruncateToInt(list[i]));
    assert rates == DeviceRates(reply);
    var supportedRates;
    if |rates| == 0 {
      supportedRates := [48000];
    } else {
      supportedRates := SupportedRates(next, rates);
    }

    var formats := [FormatS16, FormatFLT];

    var chans := new bool[Streams.ChannelsMax];
    var listed := Streams.ChannelsList(streams, digital, chans);
    var channels;
    if !listed {
      channels := [2];
    } else {
      channels := SupportedChannels(chans);
      assert chans[..] == ChannelFlags(streams, digital);
    }

    var passthrough := Streams.FindAC3Stream(streams);
    settings := OutputSettings(supportedRates, formats, channels, passthrough);
  }
}
