/** `ExtractChannelLabels` and `CreateChannelMap`: the channel map that
    routes each channel of the device's layout to the channel of the same
    label in the standard layout. */
module ChannelMap {
  import opened AudioTypes

  /** The fields of an `AudioChannelLayout` the map reads: its layout tag and
      the labels of its explicit channel descriptions, in order. */
  datatype ChannelLayout = ChannelLayout(tag: uint32, descriptions: seq<uint32>)

  /** The labels `ExtractChannelLabels` yields. A layout with explicit
      descriptions gives their labels. Otherwise its tag is expanded by
      `AudioFormatGetProperty`, whose outcome is `expansion`: an error status,
      or the labels of the expanded layout (none when it has no descriptions). */
  function Labels(layout: ChannelLayout, expansion: Result<seq<uint32>>): Result<seq<uint32>>
  {
    if |layout.descriptions| > 0 then Ok(layout.descriptions) else expansion
  }

  /** `ExtractChannelLabels`: the explicit path copies the labels into a
      fresh array of the descriptions' count. */
  method ExtractChannelLabels(layout: ChannelLayout, expansion: Result<seq<uint32>>)
    returns (r: Result<seq<uint32>>)
    ensures |layout.descriptions| > 0 ==> r == Ok(layout.descriptions)
    ensures |layout.descriptions| == 0 ==> r == expansion
  {
    if |layout.descriptions| > 0 {
      var count := |layout.descriptions|;
      var labels := new uint32[count];
      var i := 0;
      while i < count
        invariant 0 <= i <= count
        invariant forall t :: 0 <= t < i ==> labels[t] == layout.descriptions[t]
      {
        labels[i] := layout.descriptions[i];
        i := i + 1;
      }
      assert labels[..] == layout.descriptions;
      return Ok(labels[..]);
    }
    return expansion;
  }

  /** The index of the first label of `labels` equal to `x`, or -1. */
  function FirstIndex(labels: seq<uint32>, x: uint32): (k: int)
    ensures -1 <= k < |labels|
    ensures k == -1 <==> x !in labels
    ensures 0 <= k ==> labels[k] == x && forall t :: 0 <= t < k ==> labels[t] != x
  {
    if |labels| == 0 then -1
    else if labels[0] == x then 0
    else
      var k := FirstIndex(labels[1..], x);
      assert labels == [labels[0]] + labels[1..];
      if k == -1 then -1 else k + 1
  }

  /** `CreateChannelMap(standard, custom)`: an error from either label list
      is returned (the standard one first); otherwise one entry per custom
      channel, the index of the first standard channel with the same label,
      or -1 (silence) when there is none. */
  method CreateChannelMap(standard: ChannelLayout, custom: ChannelLayout,
                          standardExpansion: Result<seq<uint32>>, customExpansion: Result<seq<uint32>>)
    returns (r: Result<seq<int>>)
    ensures Labels(standard, standardExpansion).Err? ==> r == Err(Labels(standard, standardExpansion).status)
    ensures Labels(standard, standardExpansion).Ok? && Labels(custom, customExpansion).Err? ==>
      r == Err(Labels(custom, customExpansion).status)
    ensures Labels(standard, standardExpansion).Ok? && Labels(custom, customExpansion).Ok? ==>
      r.Ok?
      && |r.value| == |Labels(custom, customExpansion).value|
      && forall i :: 0 <= i < |r.value| ==>
           r.value[i] == FirstIndex(Labels(standard, standardExpansion).value, Labels(custom, customExpansion).value[i])
  {
    var stdLabels := ExtractChannelLabels(standard, standardExpansion);
    if stdLabels.Err? {
      return Err(stdLabels.status);
    }
    var customLabels := ExtractChannelLabels(custom, customExpansion);
    if customLabels.Err? {
      return Err(customLabels.status);
    }
    var std, cus := stdLabels.value, customLabels.value;
    var chanMap := new int[|cus|];
    var i := 0;
    while i < |cus|
      invariant 0 <= i <= |cus|
      invariant forall t :: 0 <= t < i ==> chanMap[t] == -1
    {
      chanMap[i] := -1;
      i := i + 1;
    }
    var customIdx := 0;
    while customIdx < |cus|
      invariant 0 <= customIdx <= |cus|
      invariant forall t :: 0 <= t < customIdx ==> chanMap[t] == FirstIndex(std, cus[t])
      invariant forall t :: customIdx <= t < |cus| ==> chanMap[t] == -1
    {
      var stdIdx := FirstMatch(std, cus[customIdx]);
      if stdIdx >= 0 {
        chanMap[customIdx] := stdIdx;
      }
      customIdx := customIdx + 1;
    }
    return Ok(chanMap[..]);
  }

  /** The inner search of `CreateChannelMap`: the first standard channel
      whose label is `wanted`, or -1 when no standard channel carries it. */
  method FirstMatch(std: seq<uint32>, wanted: uint32) returns (stdIdx: int)
    ensures stdIdx == FirstIndex(std, wanted)
  {
    stdIdx := 0;
    while stdIdx < |std|
      invariant 0 <= stdIdx <= |std|
      invariant forall t :: 0 <= t < stdIdx ==> std[t] != wanted
    {
      if wanted == std[stdIdx] {
        return;
      }
      stdIdx := stdIdx + 1;
    }
    assert wanted !in std;
    return -1;
  }

  /** A layout mapped against one with the same distinct labels gets the
      identity map: each channel is routed to its own index. */
  lemma FirstIndexOfDistinct(labels: seq<uint32>, i: nat)
    requires i < |labels|
    requires forall a, b :: 0 <= a < b < |labels| ==> labels[a] != labels[b]
    ensures FirstIndex(labels, labels[i]) == i
  {
  }
}
