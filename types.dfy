/** Values shared by the Core Audio output model: fixed-width integers, the
    stream formats a device reports, and the format identifiers the digital
    (S/PDIF) path looks for. */
module AudioTypes {

  type byte = b: int | 0 <= b < 0x100
  type uint32 = n: int | 0 <= n < 0x1_0000_0000

  const UInt32Max: uint32 := 0xFFFF_FFFF

  datatype Option<T> = None | Some(value: T)

  /** An error or success-with-value, the shape of an `OSStatus` return with an out-parameter. */
  datatype Result<T> = Ok(value: T) | Err(status: int)

  /** Byte order of the host the program runs on. */
  datatype ByteOrder = LittleEndian | BigEndian

  /** Four-character codes, packed the way a multi-character literal is: first character most significant. */
  const FormatIAC3: uint32 := 0x4941_4333       // 'IAC3'
  const Format60958AC3: uint32 := 0x6361_6333   // 'cac3', kAudioFormat60958AC3

  /** The two format identifiers the source treats as AC-3 over S/PDIF. */
  predicate IsAC3(id: uint32)
  {
    id == FormatIAC3 || id == Format60958AC3
  }

  /** The fields of an `AudioStreamBasicDescription` that the modelled code reads. */
  datatype StreamFormat = StreamFormat(
    formatId: uint32,
    sampleRate: real,
    channelsPerFrame: uint32,
    bytesPerPacket: uint32)

  /** The zero-initialised description (`AudioStreamBasicDescription {}`). */
  const EmptyFormat := StreamFormat(0, 0.0, 0, 0)

  /** One output stream of a device: its id and the physical formats it offers
      (empty when the device query fails, which the source treats the same way). */
  datatype DeviceStream = DeviceStream(id: uint32, formats: seq<StreamFormat>)

  /** The sample formats of `AudioOutputSettings` that this file names. */
  datatype AudioFormat = FormatS16 | FormatFLT | FormatOther
}
