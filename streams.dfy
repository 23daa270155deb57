/** The capability scans over a device's streams: `ChannelsList` (which
    channel counts the formats offer), `FindAC3Stream` (is there an AC-3
    format at all) and the first-match search `OpenSPDIF` runs to pick the
    stream and format it switches to. The streams and their formats are the
    answers of `StreamsList` and `FormatsList`, given as values. */
module Streams {
  import opened AudioTypes

  /** `CHANNELS_MAX`: the size of the flag array. */
  const ChannelsMax := 8

  /** Some format of the list has `n` channels per frame. */
  predicate FormatsHaveChannels(formats: seq<StreamFormat>, n: int)
  {
    exists j :: 0 <= j < |formats| && formats[j].channelsPerFrame == n
  }

  /** Some format of the list is AC-3. */
  predicate FormatsHaveAC3(formats: seq<StreamFormat>)
  {
    exists j :: 0 <= j < |formats| && IsAC3(formats[j].formatId)
  }

  /** Some stream offers a format with `n` channels per frame. */
  predicate HasChannels(streams: seq<DeviceStream>, n: int)
  {
    exists i :: 0 <= i < |streams| && FormatsHaveChannels(streams[i].formats, n)
  }

  /** Some stream offers an AC-3 format. */
  predicate HasAC3(streams: seq<DeviceStream>)
  {
    exists i :: 0 <= i < |streams| && FormatsHaveAC3(streams[i].formats)
  }

  /** Every format reports at least one channel: the flag index
      `mChannelsPerFrame - 1` is only meaningful then. */
  predicate ChannelCountsPositive(streams: seq<DeviceStream>)
  {
    forall i, j :: 0 <= i < |streams| && 0 <= j < |streams[i].formats| ==>
      streams[i].formats[j].channelsPerFrame >= 1
  }

  /** Flag `k` after `ChannelsList`: some format has `k + 1` channels, or, in
      passthrough mode, `k` is the 5.1 flag and an AC-3 format is offered
      (AC-3 is 6 channels although Core Audio reports it as 2). */
  predicate ChannelFlag(streams: seq<DeviceStream>, passthru: bool, k: int)
  {
    HasChannels(streams, k + 1) || (passthru && k == 5 && HasAC3(streams))
  }

  lemma FormatsPrefixStep(formats: seq<StreamFormat>, j: nat)
    requires j < |formats|
    ensures forall n :: FormatsHaveChannels(formats[..j + 1], n)
                    <==> FormatsHaveChannels(formats[..j], n) || formats[j].channelsPerFrame == n
    ensures FormatsHaveAC3(formats[..j + 1]) <==> FormatsHaveAC3(formats[..j]) || IsAC3(formats[j].formatId)
  {
    assert formats[..j + 1][j] == formats[j];
    assert FormatsHaveChannels(formats[..j + 1], formats[j].channelsPerFrame);
    forall n | FormatsHaveChannels(formats[..j + 1], n) && formats[j].channelsPerFrame != n
      ensures FormatsHaveChannels(formats[..j], n)
    {
      var t :| 0 <= t < j + 1 && formats[..j + 1][t].channelsPerFrame == n;
      assert formats[..j][t] == formats[t];
    }
    forall n | FormatsHaveChannels(formats[..j], n)
      ensures FormatsHaveChannels(formats[..j + 1], n)
    {
      var t :| 0 <= t < j && formats[..j][t].channelsPerFrame == n;
      assert formats[..j + 1][t] == formats[t];
    }
    if FormatsHaveAC3(formats[..j + 1]) && !IsAC3(formats[j].formatId) {
      var t :| 0 <= t < j + 1 && IsAC3(formats[..j + 1][t].formatId);
      assert formats[..j][t] == formats[t];
    }
    if FormatsHaveAC3(formats[..j]) {
      var t :| 0 <= t < j && IsAC3(formats[..j][t].formatId);
      assert formats[..j + 1][t] == formats[t];
    }
  }

  lemma StreamsPrefixStep(streams: seq<DeviceStream>, i: nat)
    requires i < |streams|
    ensures forall n :: HasChannels(streams[..i + 1], n)
                    <==> HasChannels(streams[..i], n) || FormatsHaveChannels(streams[i].formats, n)
    ensures HasAC3(streams[..i + 1]) <==> HasAC3(streams[..i]) || FormatsHaveAC3(streams[i].formats)
  {
    assert streams[..i + 1][i] == streams[i];
    forall n | FormatsHaveChannels(streams[i].formats, n)
      ensures HasChannels(streams[..i + 1], n)
    {
    }
    forall n | HasChannels(streams[..i + 1], n) && !FormatsHaveChannels(streams[i].formats, n)
      ensures HasChannels(streams[..i], n)
    {
      var t :| 0 <= t < i + 1 && FormatsHaveChannels(streams[..i + 1][t].formats, n);
      assert streams[..i][t] == streams[t];
    }
    forall n | HasChannels(streams[..i], n)
      ensures HasChannels(streams[..i + 1], n)
    {
      var t :| 0 <= t < i && FormatsHaveChannels(streams[..i][t].formats, n);
      assert streams[..i + 1][t] == streams[t];
    }
    if HasAC3(streams[..i + 1]) && !FormatsHaveAC3(streams[i].formats) {
      var t :| 0 <= t < i + 1 && FormatsHaveAC3(streams[..i + 1][t].formats);
      assert streams[..i][t] == streams[t];
    }
    if HasAC3(streams[..i]) {
      var t :| 0 <= t < i && FormatsHaveAC3(streams[..i][t].formats);
      assert streams[..i + 1][t] == streams[t];
    }
  }

  /** The inner loop of either scan in `ChannelsList` over one stream's
      formats: every count of at most 8 sets its flag, and, when
      `detectDigital` (the passthrough scan), an AC-3 format sets the 5.1
      flag and is reported. */
  method MarkFormats(chans: array<bool>, formats: seq<StreamFormat>, detectDigital: bool)
    returns (digital: bool)
    requires chans.Length == ChannelsMax
    requires forall j :: 0 <= j < |formats| ==> formats[j].channelsPerFrame >= 1
    modifies chans
    ensures digital == (detectDigital && FormatsHaveAC3(formats))
    ensures forall k :: 0 <= k < ChannelsMax ==>
      chans[k] == (old(chans[k]) || FormatsHaveChannels(formats, k + 1)
                   || (detectDigital && k == 5 && FormatsHaveAC3(formats)))
  {
    digital := false;
    var j := 0;
    while j < |formats|
      invariant 0 <= j <= |formats|
      invariant digital == (detectDigital && FormatsHaveAC3(formats[..j]))
      invariant forall k :: 0 <= k < ChannelsMax ==>
        chans[k] == (old(chans[k]) || FormatsHaveChannels(formats[..j], k + 1)
                     || (detectDigital && k == 5 && FormatsHaveAC3(formats[..j])))
    {
      FormatsPrefixStep(formats, j);
      var format := formats[j];
      if format.channelsPerFrame <= ChannelsMax {
        chans[format.channelsPerFrame - 1] := true;
      }
      if detectDigital && IsAC3(format.formatId) {
        chans[5] := true;
        digital := true;
      }
      j := j + 1;
    }
    assert formats[..j] == formats;
  }

  /** One scan of `ChannelsList` over all streams. */
  method MarkStreams(chans: array<bool>, streams: seq<DeviceStream>, detectDigital: bool)
    returns (digital: bool)
    requires chans.Length == ChannelsMax && ChannelCountsPositive(streams)
    modifies chans
    ensures digital == (detectDigital && HasAC3(streams))
    ensures forall k :: 0 <= k < ChannelsMax ==>
      chans[k] == (old(chans[k]) || HasChannels(streams, k + 1)
                   || (detectDigital && k == 5 && HasAC3(streams)))
  {
    digital := false;
    var i := 0;
    while i < |streams|
      invariant 0 <= i <= |streams|
      invariant digital == (detectDigital && HasAC3(streams[..i]))
      invariant forall k :: 0 <= k < ChannelsMax ==>
        chans[k] == (old(chans[k]) || HasChannels(streams[..i], k + 1)
                     || (detectDigital && k == 5 && HasAC3(streams[..i])))
    {
      StreamsPrefixStep(streams, i);
      var found := MarkFormats(chans, streams[i].formats, detectDigital);
      digital := digital || found;
      i := i + 1;
    }
    assert streams[..i] == streams;
  }

  /** `CoreAudioData::ChannelsList`: clears the flags, fails when the device
      has no streams, and otherwise sets flag `k` exactly when
      `ChannelFlag(streams, passthru, k)`. The fallback scan runs only when
      the passthrough scan found no AC-3 format. */
  method ChannelsList(streams: seq<DeviceStream>, passthru: bool, chans: array<bool>)
    returns (ok: bool)
    requires chans.Length == ChannelsMax && ChannelCountsPositive(streams)
    modifies chans
    ensures ok <==> |streams| > 0
    ensures forall k :: 0 <= k < ChannelsMax ==> chans[k] == (ok && ChannelFlag(streams, passthru, k))
  {
    forall k | 0 <= k < chans.Length {
      chans[k] := false;
    }
    if |streams| == 0 {
      return false;
    }
    var foundDigital := false;
    if passthru {
      foundDigital := MarkStreams(chans, streams, true);
    }
    if !foundDigital {
      foundDigital := MarkStreams(chans, streams, false);
    }
    return true;
  }

  /** Whatever the mode, the flag of every offered channel count is set; the
      passthrough mode adds at most the 5.1 flag. */
  lemma ChannelFlagModes(streams: seq<DeviceStream>, k: int)
    ensures ChannelFlag(streams, false, k) <==> HasChannels(streams, k + 1)
    ensures ChannelFlag(streams, true, k) <==> ChannelFlag(streams, false, k) || (k == 5 && HasAC3(streams))
  {
  }

  /** `CoreAudioData::FindAC3Stream`: true exactly when some stream offers an
      AC-3 format (so false when there are no streams). */
  method FindAC3Stream(streams: seq<DeviceStream>) returns (found: bool)
    ensures found == HasAC3(streams)
  {
    var i := 0;
    while i < |streams|
      invariant 0 <= i <= |streams|
      invariant !HasAC3(streams[..i])
    {
      StreamsPrefixStep(streams, i);
      var formats := streams[i].formats;
      var j := 0;
      while j < |formats|
        invariant 0 <= j <= |formats|
        invariant !FormatsHaveAC3(formats[..j])
      {
        FormatsPrefixStep(formats, j);
        if IsAC3(formats[j].formatId) {
          assert FormatsHaveAC3(formats);
          return true;
        }
        j := j + 1;
      }
      assert formats[..j] == formats;
      i := i + 1;
    }
    assert streams[..i] == streams;
    return false;
  }

  /** The format `OpenSPDIF` is looking for: AC-3 at the output's sample rate. */
  predicate IsSPDIFFormat(format: StreamFormat, sampleRate: real)
  {
    IsAC3(format.formatId) && format.sampleRate == sampleRate
  }

  predicate HasSPDIFFormat(formats: seq<StreamFormat>, sampleRate: real)
  {
    exists j :: 0 <= j < |formats| && IsSPDIFFormat(formats[j], sampleRate)
  }

  /** The stream (by index into the stream list) and format `OpenSPDIF` picks. */
  datatype SPDIFChoice = SPDIFChoice(streamIndex: nat, format: StreamFormat)

  /** The first format of the list that `IsSPDIFFormat`, if any. */
  method FirstSPDIFFormat(formats: seq<StreamFormat>, sampleRate: real) returns (r: Option<StreamFormat>)
    ensures r.None? <==> !HasSPDIFFormat(formats, sampleRate)
    ensures r.Some? ==> exists j :: 0 <= j < |formats| && formats[j] == r.value
                          && IsSPDIFFormat(formats[j], sampleRate)
                          && forall t :: 0 <= t < j ==> !IsSPDIFFormat(formats[t], sampleRate)
  {
    var j := 0;
    while j < |formats|
      invariant 0 <= j <= |formats|
      invariant forall t :: 0 <= t < j ==> !IsSPDIFFormat(formats[t], sampleRate)
    {
      if IsSPDIFFormat(formats[j], sampleRate) {
        return Some(formats[j]);
      }
      j := j + 1;
    }
    return None;
  }

  /** The search at the start of `OpenSPDIF`: the first stream that has an
      AC-3 format at `sampleRate`, and the first such format of that stream.
      No streams, or no such format, leave nothing chosen. */
  method FindSPDIFFormat(streams: seq<DeviceStream>, sampleRate: real) returns (r: Option<SPDIFChoice>)
    ensures r.None? <==> forall i :: 0 <= i < |streams| ==> !HasSPDIFFormat(streams[i].formats, sampleRate)
    ensures r.Some? ==>
      var i := r.value.streamIndex;
      i < |streams|
      && (forall t :: 0 <= t < i ==> !HasSPDIFFormat(streams[t].formats, sampleRate))
      && exists j :: 0 <= j < |streams[i].formats| && streams[i].formats[j] == r.value.format
          && IsSPDIFFormat(streams[i].formats[j], sampleRate)
          && forall t :: 0 <= t < j ==> !IsSPDIFFormat(streams[i].formats[t], sampleRate)
  {
    var i := 0;
    while i < |streams|
      invariant 0 <= i <= |streams|
      invariant forall t :: 0 <= t < i ==> !HasSPDIFFormat(streams[t].formats, sampleRate)
    {
      var found := FirstSPDIFFormat(streams[i].formats, sampleRate);
      if found.Some? {
        return Some(SPDIFChoice(i, found.value));
      }
      i := i + 1;
    }
    return None;
  }

  /** A stream `OpenSPDIF` can use is one `FindAC3Stream` reports. */
  lemma SPDIFFormatIsAC3(streams: seq<DeviceStream>, i: nat, sampleRate: real)
    requires i < |streams| && HasSPDIFFormat(streams[i].formats, sampleRate)
    ensures HasAC3(streams)
  {
    var j :| 0 <= j < |streams[i].formats| && IsSPDIFFormat(streams[i].formats[j], sampleRate);
    assert FormatsHaveAC3(streams[i].formats);
  }
}
