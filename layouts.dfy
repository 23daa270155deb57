/** The pure switch mappings of `OpenAnalog`: the standard channel layout
    chosen for a channel count, and the linear-PCM format flags chosen for a
    sample format. */
module Layouts {
  import opened AudioTypes
  import ChannelMap

  /** `kAudioChannelLayoutTag_*` values: the layout's number in the high 16
      bits and its channel count in the low 16 bits. */
  const LayoutTagUseChannelDescriptions: uint32 := 0
  const LayoutTagMono: uint32 := 100 * 0x1_0000 + 1
  const LayoutTagStereo: uint32 := 101 * 0x1_0000 + 2
  const LayoutTagAudioUnit51: uint32 := 121 * 0x1_0000 + 6
  const LayoutTagMPEG71A: uint32 := 126 * 0x1_0000 + 8

  /** The channel count a layout tag encodes. */
  function TagChannels(tag: uint32): nat
  {
    tag % 0x1_0000
  }

  /** The tag the `switch` on a channel count stores in a zero-allocated
      layout: Mono, Stereo, 5.1 or 7.1 for 1, 2, 6 or 8 channels; any other
      count leaves the tag 0. */
  function StandardLayoutTag(channels: int): (tag: uint32)
    ensures tag != LayoutTagUseChannelDescriptions <==> channels in {1, 2, 6, 8}
    ensures tag != LayoutTagUseChannelDescriptions ==> TagChannels(tag) == channels
  {
    match channels
    case 1 => LayoutTagMono
    case 2 => LayoutTagStereo
    case 6 => LayoutTagAudioUnit51
    case 8 => LayoutTagMPEG71A
    case _ => LayoutTagUseChannelDescriptions
  }

  /** Distinct supported counts get distinct layouts. */
  lemma StandardLayoutTagInjective(m: int, n: int)
    requires StandardLayoutTag(m) != LayoutTagUseChannelDescriptions
    ensures StandardLayoutTag(m) == StandardLayoutTag(n) <==> m == n
  {
    if StandardLayoutTag(m) == StandardLayoutTag(n) {
      assert TagChannels(StandardLayoutTag(n)) == m;
    }
  }

  /** The standard layout `OpenAnalog` builds to compare the device's layout
      against: a tag only, no channel descriptions, so `ExtractChannelLabels`
      always expands its tag. */
  function StandardLayout(descriptionCount: int): (l: ChannelMap.ChannelLayout)
    ensures l.tag == StandardLayoutTag(descriptionCount)
    ensures forall e :: ChannelMap.Labels(l, e) == e
  {
    ChannelMap.ChannelLayout(StandardLayoutTag(descriptionCount), [])
  }

  /** `kLinearPCMFormatFlag*` / `kAudioFormatFlag*` bits. */
  const FlagIsFloat: bv32 := 1
  const FlagIsBigEndian: bv32 := 2
  const FlagIsSignedInteger: bv32 := 4
  const FlagIsPacked: bv32 := 8

  /** `kAudioFormatFlagsNativeEndian`: the big-endian bit on a big-endian host, 0 otherwise. */
  function NativeEndianFlags(order: ByteOrder): bv32
  {
    if order == BigEndian then FlagIsBigEndian else 0
  }

  /** The sample-type flag chosen for the output format: float for FLT,
      signed integer for S16 and for every other format. */
  function FormatFlags(format: AudioFormat): (flags: bv32)
    ensures (flags & FlagIsFloat != 0) <==> format == FormatFLT
    ensures (flags & FlagIsSignedInteger != 0) <==> format != FormatFLT
    ensures flags & !(FlagIsFloat | FlagIsSignedInteger) == 0
  {
    match format
    case FormatS16 => FlagIsSignedInteger
    case FormatFLT => FlagIsFloat
    case _ => FlagIsSignedInteger
  }

  /** The `mFormatFlags` of the converter's input description: the
      sample-type flag, the host's native byte order and packed samples. */
  function InputFormatFlags(format: AudioFormat, order: ByteOrder): (flags: bv32)
    ensures flags & FlagIsPacked != 0
    ensures (flags & FlagIsBigEndian != 0) <==> order == BigEndian
    ensures (flags & FlagIsFloat != 0) <==> format == FormatFLT
    ensures (flags & FlagIsSignedInteger != 0) <==> format != FormatFLT
    ensures flags & !(FlagIsFloat | FlagIsBigEndian | FlagIsSignedInteger | FlagIsPacked) == 0
  {
    FormatFlags(format) | NativeEndianFlags(order) | FlagIsPacked
  }
}
