/** The render path: `AudioOutputCA::RenderAudio`, which fills the buffer
    Core Audio hands over from the output ring buffer, pads an underrun
    with silence and reorders 8-channel PCM, and the two callbacks that
    call it, `RenderCallbackAnalog` (the AudioUnit render callback) and
    `RenderCallbackSPDIF` (the device IOProc of the digital path). */
module Render {
  import opened AudioTypes
  import opened Reorder

  /** `n` bytes of silence. */
  function Zeros(n: nat): (z: seq<byte>)
    ensures |z| == n
    ensures forall i :: 0 <= i < n ==> z[i] == 0
  {
    seq(n, _ => 0)
  }

  /** The output settings `RenderAudio` reads: passthrough, channel count,
      bytes per output frame and `FormatToBits` of the output format. */
  datatype RenderConfig = RenderConfig(passthru: bool, channels: int, bytesPerFrame: int, bits: int)

  /** What the output setup guarantees: a positive frame size, and with
      8 channels a frame holds eight samples of the width the reorder uses. */
  predicate ConfigValid(c: RenderConfig)
  {
    c.bytesPerFrame > 0 && (c.channels == 8 ==> 8 * SampleBytes(c.bits) <= c.bytesPerFrame)
  }

  /** Audio arrives in SMPTE order and is reordered unless it is passthrough
      or has other than 8 channels. */
  predicate ReordersChannels(c: RenderConfig)
  {
    !c.passthru && c.channels == 8
  }

  /** The buffer after `GetAudioData` has written `audio` to its front and
      an underrun has been padded with silence. When nothing was written
      the buffer is left as it was. */
  function Filled(b: seq<byte>, size: nat, audio: seq<byte>): (r: seq<byte>)
    requires |audio| <= size <= |b|
    ensures |r| == |b|
  {
    if |audio| == 0 then b else audio + Zeros(size - |audio|) + b[size..]
  }

  lemma {:induction false} OffsetGrowsWithSize(n: nat, a: nat, b: nat)
    requires a <= b
    ensures Offset(n, a) <= Offset(n, b)
  {
    if n > 0 {
      OffsetGrowsWithSize(n - 1, a, b);
    }
  }

  /** The `size / bytesPerFrame` whole frames the reorder touches lie within `size`. */
  lemma FramesFit(size: nat, c: RenderConfig)
    requires ConfigValid(c) && c.channels == 8
    ensures Offset(size / c.bytesPerFrame, 8 * SampleBytes(c.bits)) <= size
  {
    var frames := size / c.bytesPerFrame;
    OffsetGrowsWithSize(frames, 8 * SampleBytes(c.bits), c.bytesPerFrame);
    OffsetIsProduct(frames, c.bytesPerFrame);
    assert size == frames * c.bytesPerFrame + size % c.bytesPerFrame;
  }

  /** The buffer `RenderAudio` leaves when it is neither paused nor killed. */
  function Rendered(c: RenderConfig, b: seq<byte>, size: nat, audio: seq<byte>): (r: seq<byte>)
    requires ConfigValid(c) && |audio| <= size <= |b|
    ensures |r| == |b|
  {
    if ReordersChannels(c) then
      FramesFit(size, c);
      Reordered(Filled(b, size, audio), size / c.bytesPerFrame, SampleBytes(c.bits))
    else
      Filled(b, size, audio)
  }

  /** The delivered bytes come first, an underrun is zero up to `size`,
      and nothing from `size` on is written. */
  lemma FilledLayout(b: seq<byte>, size: nat, audio: seq<byte>)
    requires |audio| <= size <= |b|
    ensures |audio| == 0 ==> Filled(b, size, audio) == b
    ensures |audio| > 0 ==> Filled(b, size, audio)[..|audio|] == audio
    ensures |audio| > 0 ==> forall i :: |audio| <= i < size ==> Filled(b, size, audio)[i] == 0
    ensures Filled(b, size, audio)[size..] == b[size..]
  {
  }

  /** Without the reorder the buffer is exactly the delivered audio plus padding. */
  lemma RenderedWithoutReorder(c: RenderConfig, b: seq<byte>, size: nat, audio: seq<byte>)
    requires ConfigValid(c) && |audio| <= size <= |b| && !ReordersChannels(c)
    ensures Rendered(c, b, size, audio) == Filled(b, size, audio)
  {
  }

  /** Rendering only rearranges the filled buffer's bytes. */
  lemma RenderedPermutes(c: RenderConfig, b: seq<byte>, size: nat, audio: seq<byte>)
    requires ConfigValid(c) && |audio| <= size <= |b|
    ensures multiset(Rendered(c, b, size, audio)) == multiset(Filled(b, size, audio))
  {
    if ReordersChannels(c) {
      FramesFit(size, c);
      ReorderedPermutes(Filled(b, size, audio), size / c.bytesPerFrame, SampleBytes(c.bits));
    }
  }

  /** Bytes past `size` are never written, reorder or not. */
  lemma RenderedLeavesRest(c: RenderConfig, b: seq<byte>, size: nat, audio: seq<byte>, j: nat)
    requires ConfigValid(c) && |audio| <= size <= j < |b|
    ensures Rendered(c, b, size, audio)[j] == b[j]
  {
    FilledLayout(b, size, audio);
    assert Filled(b, size, audio)[j] == b[j] by {
      assert Filled(b, size, audio)[size..][j - size] == b[size..][j - size];
    }
    if ReordersChannels(c) {
      FramesFit(size, c);
      ReorderedLeavesTail(Filled(b, size, audio), size / c.bytesPerFrame, SampleBytes(c.bits), j);
    }
  }

  /** The output side of `AudioOutputCA` that the render path reads and writes. */
  class AudioOutputCA {
    var pauseAudio: bool
    var killAudio: bool
    var actuallyPaused: bool
    var passthru: bool
    var channels: int
    var outputBytesPerFrame: int
    var outputBits: int

    function Config(): RenderConfig
      reads this
    {
      RenderConfig(passthru, channels, outputBytesPerFrame, outputBits)
    }

    predicate Valid()
      reads this
    {
      ConfigValid(Config())
    }

    constructor (passthru: bool, channels: int, bytesPerFrame: int, bits: int)
      requires ConfigValid(RenderConfig(passthru, channels, bytesPerFrame, bits))
      ensures Valid() && Config() == RenderConfig(passthru, channels, bytesPerFrame, bits)
      ensures !pauseAudio && !killAudio && !actuallyPaused
    {
      this.passthru := passthru;
      this.channels := channels;
      this.outputBytesPerFrame := bytesPerFrame;
      this.outputBits := bits;
      pauseAudio, killAudio, actuallyPaused := false, false, false;
    }

    /** `GetAudioData`: the base class copies up to `size` bytes from its
        ring buffer; here the bytes it has to give are the input `audio`. */
    method GetAudioData(buf: array<byte>, size: nat, audio: seq<byte>) returns (written: nat)
      requires |audio| <= size <= buf.Length
      modifies buf
      ensures written == |audio|
      ensures buf[..] == audio + old(buf[|audio|..])
    {
      forall i | 0 <= i < |audio| {
        buf[i] := audio[i];
      }
      written := |audio|;
    }

    /** The first half of `RenderAudio`: fetch the audio, and pad an
        underrun with silence. */
    method FillBuffer(aubuf: array<byte>, size: nat, audio: seq<byte>) returns (written: nat)
      requires |audio| <= size <= aubuf.Length
      modifies aubuf
      ensures written == |audio|
      ensures aubuf[..] == Filled(old(aubuf[..]), size, audio)
    {
      ghost var b := aubuf[..];
      written := GetAudioData(aubuf, size, audio);
      if written > 0 && size > written {
        ZeroRange(aubuf, written, size);
      }
      DeliveredIsFilled(b, size, audio);
    }

    /** `RenderAudio`: returns whether any audio was delivered. */
    method RenderAudio(aubuf: array<byte>, size: nat, audio: seq<byte>) returns (ok: bool)
      requires Valid() && |audio| <= size <= aubuf.Length
      modifies this`actuallyPaused, aubuf
      ensures ok == (!pauseAudio && !killAudio && |audio| > 0)
      ensures pauseAudio || killAudio ==> actuallyPaused && aubuf[..] == old(aubuf[..])
      ensures !pauseAudio && !killAudio ==>
                actuallyPaused == old(actuallyPaused)
                && aubuf[..] == Rendered(Config(), old(aubuf[..]), size, audio)
    {
      if pauseAudio || killAudio {
        actuallyPaused := true;
        return false;
      }
      var written := FillBuffer(aubuf, size, audio);
      if !passthru && channels == 8 {
        FramesFit(size, Config());
        ReorderSmpteToCA(aubuf, size / outputBytesPerFrame, outputBits);
      }
      ok := written > 0;
    }
  }

  /** `t` with bytes `from` to `to - 1` zeroed (a `memset` to 0). */
  function ZeroedRange(t: seq<byte>, from: nat, to: nat): (r: seq<byte>)
    requires from <= to <= |t|
    ensures |r| == |t|
  {
    t[..from] + Zeros(to - from) + t[to..]
  }

  /** `memset(buf + from, 0, to - from)`. */
  method ZeroRange(buf: array<byte>, from: nat, to: nat)
    requires from <= to <= buf.Length
    modifies buf
    ensures buf[..] == ZeroedRange(old(buf[..]), from, to)
  {
    forall i | from <= i < to {
      buf[i] := 0;
    }
  }

  /** What `GetAudioData` and the underrun padding leave is `Filled`. */
  lemma DeliveredIsFilled(b: seq<byte>, size: nat, audio: seq<byte>)
    requires |audio| <= size <= |b|
    ensures |audio| > 0 && size > |audio| ==>
              ZeroedRange(audio + b[|audio|..], |audio|, size) == Filled(b, size, audio)
    ensures !(|audio| > 0 && size > |audio|) ==> audio + b[|audio|..] == Filled(b, size, audio)
  {
    var t := audio + b[|audio|..];
    if |audio| > 0 && size > |audio| {
      assert t[..|audio|] == audio;
      assert t[size..] == b[size..];
    } else if |audio| > 0 {
      assert audio + b[|audio|..] == audio + Zeros(0) + b[size..];
    } else {
      assert audio + b[|audio|..] == b;
    }
  }

  /** Silence over the first `size` bytes of a buffer whose bytes from
      `size` on are those of `b`. */
  lemma SilencedBuffer(t: seq<byte>, b: seq<byte>, size: nat)
    requires size <= |t| == |b| && t[size..] == b[size..]
    ensures ZeroedRange(t, 0, size) == Zeros(size) + b[size..]
  {
    assert t[..0] == [];
  }

  /** `RenderCallbackAnalog`: renders into the unit's buffer of
      `byteSize` bytes; returns whether the output was flagged as silence. */
  method RenderCallbackAnalog(inst: AudioOutputCA, buf: array<byte>, byteSize: nat, audio: seq<byte>)
    returns (silence: bool)
    requires inst.Valid() && |audio| <= byteSize <= buf.Length
    modifies inst`actuallyPaused, buf
    ensures silence == (inst.pauseAudio || inst.killAudio || |audio| == 0)
    ensures silence ==> buf[..] == Zeros(byteSize) + old(buf[byteSize..])
    ensures !silence ==> buf[..] == Rendered(inst.Config(), old(buf[..]), byteSize, audio)
    ensures inst.actuallyPaused == (old(inst.actuallyPaused) || inst.pauseAudio || inst.killAudio)
  {
    var ok := inst.RenderAudio(buf, byteSize, audio);
    silence := false;
    if !ok {
      ghost var b := buf[..];
      ZeroRange(buf, 0, byteSize);
      assert b[byteSize..] == old(buf[byteSize..]) by {
        if !inst.pauseAudio && !inst.killAudio {
          forall j | byteSize <= j < buf.Length
            ensures b[j] == old(buf[j])
          {
            RenderedLeavesRest(inst.Config(), old(buf[..]), byteSize, audio, j);
          }
        }
      }
      SilencedBuffer(b, old(buf[..]), byteSize);
      silence := true;
    }
  }

  /** The byte count the IOProc renders: the buffer's size, cut to the
      device's bytes per packet when that is set and smaller. */
  function SPDIFByteSize(byteSize: uint32, bytesPerPacket: uint32): (r: uint32)
    ensures r <= byteSize
    ensures bytesPerPacket > 0 ==> r <= bytesPerPacket
    ensures r == byteSize || r == bytesPerPacket
    ensures r < byteSize <==> 0 < bytesPerPacket < byteSize
  {
    if bytesPerPacket > 0 && byteSize > bytesPerPacket then bytesPerPacket else byteSize
  }

  /** While the digital path is closed `mBytesPerPacket` is `UINT32_MAX`,
      which never cuts a buffer. */
  lemma SPDIFByteSizeUnset(byteSize: uint32)
    ensures SPDIFByteSize(byteSize, UInt32Max) == byteSize
  {
  }

  /** `RenderCallbackSPDIF` on the stream's buffer: returns the buffer's
      new `mDataByteSize`. */
  method RenderCallbackSPDIF(inst: AudioOutputCA, bytesPerPacket: uint32, buf: array<byte>,
                             byteSize: uint32, audio: seq<byte>)
    returns (newByteSize: uint32)
    requires inst.Valid() && byteSize <= buf.Length
    requires |audio| <= SPDIFByteSize(byteSize, bytesPerPacket)
    modifies inst`actuallyPaused, buf
    ensures newByteSize == SPDIFByteSize(byteSize, bytesPerPacket)
    ensures inst.pauseAudio || inst.killAudio || |audio| == 0 ==>
              buf[..] == Zeros(newByteSize) + old(buf[newByteSize..])
    ensures !(inst.pauseAudio || inst.killAudio || |audio| == 0) ==>
              buf[..] == Rendered(inst.Config(), old(buf[..]), newByteSize, audio)
    ensures inst.actuallyPaused == (old(inst.actuallyPaused) || inst.pauseAudio || inst.killAudio)
  {
    newByteSize := byteSize;
    if bytesPerPacket > 0 && newByteSize > bytesPerPacket {
      newByteSize := bytesPerPacket;
    }
    var ok := inst.RenderAudio(buf, newByteSize, audio);
    if !ok {
      ghost var b := buf[..];
      ZeroRange(buf, 0, newByteSize);
      assert b[newByteSize..] == old(buf[newByteSize..]) by {
        if !inst.pauseAudio && !inst.killAudio {
          forall j | newByteSize <= j < buf.Length
            ensures b[j] == old(buf[j])
          {
            RenderedLeavesRest(inst.Config(), old(buf[..]), newByteSize, audio, j);
          }
        }
      }
      SilencedBuffer(b, old(buf[..]), newByteSize);
    }
  }
}
