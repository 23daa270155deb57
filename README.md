# MythTV Core Audio output: a verified model

MythTV plays audio on macOS through `AudioOutputCA`. This class has two output paths:

- an analog (PCM) path through an AudioUnit;
- a digital S/PDIF (AC-3 passthrough) path that writes straight to the device stream.

`AudioOutputCA` and its helper `CoreAudioData` live in `mythtv/libs/libmyth/audio/audiooutputca.cpp`. This project models the deterministic parts of that file in Dafny and proves their properties:

- **FourCC.** `UInt32ToFourCC` renders a status or format id as four characters and a NUL.
- **Reorder.** `_ReorderSmpteToCA` / `ReorderSmpteToCA` rewrite a buffer of 8-channel frames in place. They turn SMPTE order into Core Audio order: in every frame, samples 4 and 5 trade places with samples 6 and 7.
- **Render.** `RenderAudio` fills the output buffer and pads an underrun with silence. It reorders 8-channel PCM, and it short-circuits when paused or killed. The two render callbacks zero the buffer when nothing was rendered. The S/PDIF callback first clamps the buffer to the device's bytes per packet.
- **Rates.** `IsRateCommon` and `RatesList` pick, from the device's sample-rate ranges, the rates of a 15-entry table of common rates. The table index carries over from one range to the next, and the model keeps that quirk.
- **Streams.** `ChannelsList` marks the channel counts the device's streams offer; in passthrough mode an AC-3 format stands for 6 channels. `FindAC3Stream` tells whether any stream has an AC-3 format. The first-match search in `OpenSPDIF` picks the first stream and format that are AC-3 at the requested sample rate.
- **Settings.** `GetOutputSettings` assembles the supported rates, formats and channel counts, and whether passthrough is possible.
- **ChannelMap.** `ExtractChannelLabels` and `CreateChannelMap` route each device channel to the standard channel with the same label.
- **Layouts.** These are the switches that map a channel count to a standard layout tag, and an output format to its format flags.
- **CoreAudioState.** This is the flag state of `CoreAudioData`: what `SetHogStatus`, `SetMixingSupport`, `CloseAnalog` and `CloseSPDIF` change.

Every Core Audio call is either a parameter that gives its outcome (a status, a reported owner, a reply) or an entry in a request log that the model appends to. That lets the model state which calls an operation makes, in which order, and under which conditions.

Files:

- `types.dfy`: shared types.
- `fourcc.dfy`, `reorder.dfy`, `render.dfy`, `rates.dfy`, `streams.dfy`, `settings.dfy`, `channelmap.dfy`, `layouts.dfy`: one module each, following the list above.
- `coreaudiodata.dfy`: the `CoreAudioData` flag state.

Imperative code stays imperative:

- the reorder is a method over a byte `array`;
- the render path is a class with the pause and kill flags;
- loops that scan or fill are `while` loops with invariants;
- `CoreAudioData` is a class whose methods update its fields.

Each method is proved equal to a specification function, and the properties are proved about those functions as lemmas.

## Model

All lines cited are in `mythtv/libs/libmyth/audio/audiooutputca.cpp`.

| member | source | states |
|---|---|---|
| FourCC.UInt32ToFourCC | mythtv/libs/libmyth/audio/audiooutputca.cpp:46-57 | The result has five bytes: the value's four in-memory bytes in reverse order, then a NUL |
| FourCC.BigEndianRoundTrip | mythtv/libs/libmyth/audio/audiooutputca.cpp:46-57 | Splitting a 32-bit value into its four bytes and joining them again gives the value back |
| FourCC.FourCCLittleEndian | mythtv/libs/libmyth/audio/audiooutputca.cpp:46-57 | On a little-endian host the four characters are the value's bytes, most significant first, and they read back as the value |
| FourCC.FourCCBigEndian | mythtv/libs/libmyth/audio/audiooutputca.cpp:46-57 | On a big-endian host the four characters come out reversed (least significant byte first) |
| FourCC.FourCCInjective | mythtv/libs/libmyth/audio/audiooutputca.cpp:46-57 | Two values with the same code on the same host are equal |
| FourCC.FourCCOfIAC3 | mythtv/libs/libmyth/audio/audiooutputca.cpp:46-57 | The AC-3 format id prints as "IAC3" followed by a NUL |
| Reorder.SampleBytes | mythtv/libs/libmyth/audio/audiooutputca.cpp:338-346 | The element width is 1 byte exactly for 8-bit samples, 2 exactly for 16-bit, otherwise 4; every sample of at most 32 bits fits in it |
| Reorder.SwapSource | mythtv/libs/libmyth/audio/audiooutputca.cpp:323-335 | Within a frame, every byte maps to a byte of the same frame, and the bytes of samples 0-3 map to themselves |
| Reorder.SwapSourceInvolution | mythtv/libs/libmyth/audio/audiooutputca.cpp:323-335 | Trading the two sample pairs twice puts every byte of a frame back |
| Reorder.SwapSurroundsIndex | mythtv/libs/libmyth/audio/audiooutputca.cpp:323-335 | Byte x of a reordered frame is byte SwapSource(x) of the original frame |
| Reorder.SwapSurroundsPermutes | mythtv/libs/libmyth/audio/audiooutputca.cpp:323-335 | Reordering one frame keeps its bytes (a permutation) |
| Reorder.SourceBounds | mythtv/libs/libmyth/audio/audiooutputca.cpp:316-336 | Bytes inside the first `frames` frames come from inside them; bytes after them stay where they are |
| Reorder.SourceInFrame | mythtv/libs/libmyth/audio/audiooutputca.cpp:323-335 | Byte x of frame f is taken from byte SwapSource(x) of the same frame, so slots 4..7 hold the old 6, 7, 4, 5 and slots 0..3 are unchanged |
| Reorder.SourceInvolution | mythtv/libs/libmyth/audio/audiooutputca.cpp:316-336 | The byte map of the whole buffer is its own inverse |
| Reorder.ReorderedLeavesTail | mythtv/libs/libmyth/audio/audiooutputca.cpp:316-336 | No byte at or after the end of the last whole frame is touched |
| Reorder.ReorderedInvolution | mythtv/libs/libmyth/audio/audiooutputca.cpp:316-336 | Reordering twice restores the buffer |
| Reorder.ReorderedPermutes | mythtv/libs/libmyth/audio/audiooutputca.cpp:316-336 | The reorder is a permutation of the buffer's bytes (multiset equality) |
| Reorder.SwapFrameAtSplit | mythtv/libs/libmyth/audio/audiooutputca.cpp:323-335 | Reordering the frame at byte b leaves the bytes before and after it unchanged |
| Reorder.ReorderStep | mythtv/libs/libmyth/audio/audiooutputca.cpp:321-335 | One turn of the frame loop turns the buffer with i frames reordered into the buffer with i + 1 |
| Reorder.SwapSurroundsAt | mythtv/libs/libmyth/audio/audiooutputca.cpp:323-334 | The in-place swap of one frame's two sample pairs leaves the array equal to SwapFrameAt of its old contents |
| Reorder.ReorderFrames | mythtv/libs/libmyth/audio/audiooutputca.cpp:316-336 | The in-place frame loop leaves the array equal to Reordered of its old contents |
| Reorder.ReorderSmpteToCA | mythtv/libs/libmyth/audio/audiooutputca.cpp:338-346 | The reorder runs at the element width chosen from the format's bit count |
| Render.FilledLayout | mythtv/libs/libmyth/audio/audiooutputca.cpp:366-371 | With no audio the buffer is untouched. Otherwise it starts with the audio, bytes [written, size) are zero, and nothing past size changes |
| Render.FramesFit | mythtv/libs/libmyth/audio/audiooutputca.cpp:373-376 | The frames passed to the reorder (size / bytes per frame) lie within the rendered size |
| Render.RenderedWithoutReorder | mythtv/libs/libmyth/audio/audiooutputca.cpp:373-376 | Without 8-channel PCM the rendered buffer is the filled buffer |
| Render.RenderedPermutes | mythtv/libs/libmyth/audio/audiooutputca.cpp:366-376 | The rendered buffer is a permutation of the filled buffer |
| Render.RenderedLeavesRest | mythtv/libs/libmyth/audio/audiooutputca.cpp:366-376 | Rendering never touches a byte at or after size |
| Render.AudioOutputCA.GetAudioData | mythtv/libs/libmyth/audio/audiooutputca.cpp:366 | The delivered bytes are copied to the front of the buffer and their count is returned |
| Render.AudioOutputCA.FillBuffer | mythtv/libs/libmyth/audio/audiooutputca.cpp:366-371 | The fetch-and-pad step leaves the buffer equal to Filled of its old contents and returns the delivered count |
| Render.ZeroRange | mythtv/libs/libmyth/audio/audiooutputca.cpp:370 | The memset zeroes exactly bytes [from, to) of the array |
| Render.DeliveredIsFilled | mythtv/libs/libmyth/audio/audiooutputca.cpp:366-371 | Copying the audio and then zeroing the tail only on 0 < written < size gives Filled |
| Render.SilencedBuffer | mythtv/libs/libmyth/audio/audiooutputca.cpp:426-433 | Zeroing the rendered prefix of a buffer gives zeros followed by its untouched rest |
| Render.AudioOutputCA.RenderAudio | mythtv/libs/libmyth/audio/audiooutputca.cpp:349-386 | The result is true exactly when the output is neither paused nor killed and some audio arrived. When paused or killed it sets actuallyPaused and leaves the buffer alone; otherwise the buffer is Rendered: filled, padded, and reordered for 8-channel PCM |
| Render.RenderCallbackAnalog | mythtv/libs/libmyth/audio/audiooutputca.cpp:417-435 | The buffer is flagged silent exactly when nothing was rendered, and is then all zeros over its byte size; otherwise it holds the rendered audio |
| Render.SPDIFByteSize | mythtv/libs/libmyth/audio/audiooutputca.cpp:472-477 | The clamped size never exceeds the buffer size or a set bytes-per-packet, and it is one of the two; it cuts the buffer exactly when 0 < bytes-per-packet < size |
| Render.SPDIFByteSizeUnset | mythtv/libs/libmyth/audio/audiooutputca.cpp:150 | While bytes-per-packet has its initial UINT32_MAX the buffer is never cut |
| Render.RenderCallbackSPDIF | mythtv/libs/libmyth/audio/audiooutputca.cpp:458-488 | The buffer's byte size becomes the clamped size, and it is rendered or zeroed at that size as in the analog callback |
| Rates.CommonRatesAscending | mythtv/libs/libmyth/audio/audiooutputca.cpp:941-947 | The table of common rates is strictly ascending |
| Rates.IsRateCommon | mythtv/libs/libmyth/audio/audiooutputca.cpp:949-957 | The scan answers true exactly when the rate is one of the 15 table rates |
| Rates.FirstAtLeast | mythtv/libs/libmyth/audio/audiooutputca.cpp:1006-1009 | The index the scan stops at is at or after where it started, and any rate it stops on is at least the bound |
| Rates.BelowFirstAtLeast | mythtv/libs/libmyth/audio/audiooutputca.cpp:1006-1009 | Every table rate the scan steps over is below the bound |
| Rates.TableRates | mythtv/libs/libmyth/audio/audiooutputca.cpp:1014-1020 | The table rates pushed for a range are the table entries from the first index to the last, in order |
| Rates.EndpointRate | mythtv/libs/libmyth/audio/audiooutputca.cpp:1021-1024 | A range adds at most one endpoint rate, which is a common rate; it adds none exactly when neither endpoint is common |
| Rates.SkipRatesBelow | mythtv/libs/libmyth/audio/audiooutputca.cpp:1006-1009 | The skipping loop stops at FirstAtLeast |
| Rates.AppendRangeRates | mythtv/libs/libmyth/audio/audiooutputca.cpp:1014-1024 | One range appends its table rates below the maximum, then its endpoint rate, and returns the index where that scan stopped |
| Rates.RatesList | mythtv/libs/libmyth/audio/audiooutputca.cpp:959-1028 | A failed query yields no rates; otherwise the list is RatesFrom of the ranges, starting at table index 0 |
| Rates.RatesListStep | mythtv/libs/libmyth/audio/audiooutputca.cpp:1004-1025 | One turn of the loop over the ranges keeps the list built so far plus the rest of the walk equal to the whole walk |
| Rates.RatesAreCommon | mythtv/libs/libmyth/audio/audiooutputca.cpp:1004-1025 | Every rate in the list is one of the 15 common rates |
| Rates.RangeTableRates | mythtv/libs/libmyth/audio/audiooutputca.cpp:1006-1020 | Among the table indices from the carried-in one on, a range contributes exactly those whose rate lies in [minimum, maximum) |
| Rates.RatesFromLength | mythtv/libs/libmyth/audio/audiooutputca.cpp:1004-1025 | The table index never moves back, so the list has at most (table entries left) + (ranges) entries |
| Rates.RatesListLength | mythtv/libs/libmyth/audio/audiooutputca.cpp:1004-1025 | The list has at most 15 + (number of ranges) entries |
| Rates.StopsAtHighMinimum | mythtv/libs/libmyth/audio/audiooutputca.cpp:1008-1012 | Once no table rate from the carried index on reaches a range's minimum, that range and all later ones add nothing |
| Rates.SingleRangeExample | mythtv/libs/libmyth/audio/audiooutputca.cpp:1016-1022 | The range [44100, 48000] yields 44100 twice and never 48000 |
| Rates.CarriedIndexExample | mythtv/libs/libmyth/audio/audiooutputca.cpp:1004-1025 | After a range at 96000, a lower range adds no table rates, only its common minimum |
| Streams.FormatsPrefixStep | mythtv/libs/libmyth/audio/audiooutputca.cpp:1051-1068 | Adding one format to the formats scanned so far adds exactly its channel count and its AC-3 flag |
| Streams.StreamsPrefixStep | mythtv/libs/libmyth/audio/audiooutputca.cpp:1044-1086 | Adding one stream adds exactly its formats' channel counts and AC-3 flags |
| Streams.MarkFormats | mythtv/libs/libmyth/audio/audiooutputca.cpp:1051-1085 | Scanning one stream's formats reports AC-3 exactly when detection is on and a format is AC-3. Flag k is set exactly when it was set before, or a format has k+1 channels, or, with detection on, k is 5 and some format is AC-3 |
| Streams.MarkStreams | mythtv/libs/libmyth/audio/audiooutputca.cpp:1044-1086 | Over all streams: AC-3 is reported exactly when detection is on and some stream has an AC-3 format; flag k is set exactly when it was set before, or some format has k+1 channels, or, with detection on, k is 5 and some format is AC-3 |
| Streams.ChannelsList | mythtv/libs/libmyth/audio/audiooutputca.cpp:1030-1089 | The result is false exactly when there are no streams, and then every flag is cleared. Otherwise flag k is set exactly when some format has k+1 channels, or, in passthrough mode, k is 5 and some format is AC-3 |
| Streams.ChannelFlagModes | mythtv/libs/libmyth/audio/audiooutputca.cpp:1042-1087 | In PCM mode flag k means "some format has k+1 channels"; passthrough mode adds flag 5 exactly when an AC-3 format exists |
| Streams.FindAC3Stream | mythtv/libs/libmyth/audio/audiooutputca.cpp:1848-1876 | The answer is true exactly when some format of some stream is AC-3 ('IAC3' or 60958AC3) |
| Streams.FirstSPDIFFormat | mythtv/libs/libmyth/audio/audiooutputca.cpp:1687-1701 | The scan of one stream's formats finds one exactly when some format is AC-3 at the requested rate, and what it finds is the first such format |
| Streams.FindSPDIFFormat | mythtv/libs/libmyth/audio/audiooutputca.cpp:1680-1710 | No choice exactly when no stream has an AC-3 format at the rate. Otherwise the choice is the first such stream, and the first matching format of it |
| Streams.SPDIFFormatIsAC3 | mythtv/libs/libmyth/audio/audiooutputca.cpp:1680-1710 | A stream the S/PDIF search can pick makes FindAC3Stream true |
| Settings.DeviceRatesExact | mythtv/libs/libmyth/audio/audiooutputca.cpp:204 | Every device rate converted to int is exactly the table rate it came from |
| Settings.Candidates | mythtv/libs/libmyth/audio/audiooutputca.cpp:213 | The candidate rates are the prefix of the offered sequence before its first 0 |
| Settings.OccurrencesCount | mythtv/libs/libmyth/audio/audiooutputca.cpp:215-220 | The entries found for a rate are that rate, as many times as it occurs in the device list |
| Settings.MatchEntries | mythtv/libs/libmyth/audio/audiooutputca.cpp:215-220 | The inner loop finds every device-list entry equal to the candidate |
| Settings.MatchingRatesMembers | mythtv/libs/libmyth/audio/audiooutputca.cpp:213-221 | A rate is added exactly when it is both a candidate and a device rate |
| Settings.SupportedRates | mythtv/libs/libmyth/audio/audiooutputca.cpp:213-221 | The nested loops add the rates MatchingRates describes |
| Settings.OfferedRatesMembers | mythtv/libs/libmyth/audio/audiooutputca.cpp:206-222 | An empty device rate list offers only 48000; otherwise exactly the candidates that are device rates are offered |
| Settings.FlaggedMembers | mythtv/libs/libmyth/audio/audiooutputca.cpp:236-246 | Channel count x is added exactly when 1 <= x <= n and flag x-1 is set |
| Settings.FlaggedAscending | mythtv/libs/libmyth/audio/audiooutputca.cpp:236-246 | Channel counts are added in strictly ascending order, all within 1..n |
| Settings.OfferedChannelsMembers | mythtv/libs/libmyth/audio/audiooutputca.cpp:236-246 | x is offered exactly when its flag is set or it is 6 and 8 is flagged |
| Settings.OfferedChannelsOrder | mythtv/libs/libmyth/audio/audiooutputca.cpp:236-246 | The list is ascending unless 8 and 7 are flagged and 6 is not. With 8 flagged it ends in 8, and when 6 is faked, 6 comes just before 8 |
| Settings.SupportedChannels | mythtv/libs/libmyth/audio/audiooutputca.cpp:236-246 | The loop over the flag array adds OfferedChannels of the flags |
| Settings.ChannelFlags | mythtv/libs/libmyth/audio/audiooutputca.cpp:228-229 | The flag array has 8 entries |
| Settings.GetOutputSettings | mythtv/libs/libmyth/audio/audiooutputca.cpp:199-254 | Rates are OfferedRates; formats are S16 and FLT. Channels are only 2 when the channel list fails, else OfferedChannels of the flags. Passthrough is set exactly when an AC-3 stream exists |
| ChannelMap.ExtractChannelLabels | mythtv/libs/libmyth/audio/audiooutputca.cpp:1098-1158 | A layout with explicit descriptions yields their labels, in order, copied into a fresh array; otherwise the tag expansion's outcome is returned |
| ChannelMap.FirstIndex | mythtv/libs/libmyth/audio/audiooutputca.cpp:1189-1197 | The result is -1 exactly when the label is absent. Otherwise it is an index of the list holding the label, and no earlier index holds it |
| ChannelMap.FirstMatch | mythtv/libs/libmyth/audio/audiooutputca.cpp:1189-1197 | The inner search loop returns FirstIndex |
| ChannelMap.CreateChannelMap | mythtv/libs/libmyth/audio/audiooutputca.cpp:1161-1205 | An error in either label list is returned, the standard one first. Otherwise the map has one entry per custom label: the first standard index with that label, or -1 |
| ChannelMap.FirstIndexOfDistinct | mythtv/libs/libmyth/audio/audiooutputca.cpp:1161-1205 | Mapping a layout with distinct labels against itself gives the identity map |
| Layouts.StandardLayoutTag | mythtv/libs/libmyth/audio/audiooutputca.cpp:1503-1521 | A tag is set exactly for 1, 2, 6 and 8 channels, and each tag encodes its channel count |
| Layouts.StandardLayoutTagInjective | mythtv/libs/libmyth/audio/audiooutputca.cpp:1503-1521 | Different supported channel counts get different tags |
| Layouts.StandardLayout | mythtv/libs/libmyth/audio/audiooutputca.cpp:1439-1456 | The zero-allocated standard layout carries the tag for the description count and no explicit descriptions, so its labels come from expanding the tag |
| Layouts.FormatFlags | mythtv/libs/libmyth/audio/audiooutputca.cpp:1542-1553 | The float flag is set exactly for FLT, the signed-integer flag exactly otherwise, and no other bit is set |
| Layouts.InputFormatFlags | mythtv/libs/libmyth/audio/audiooutputca.cpp:1555-1560 | The converter input is always packed and native-endian, its sample-type bit as in FormatFlags, and no other bit is set |
| CoreAudioState.ExtendsChain | mythtv/libs/libmyth/audio/audiooutputca.cpp:1780-1822 | The requests of two operations in a row are those of the first followed by those of the second |
| CoreAudioState.SetHogOnlyTouchesHog | mythtv/libs/libmyth/audio/audiooutputca.cpp:744-796 | SetHogStatus changes no field but the recorded hog owner |
| CoreAudioState.SetHogRequests | mythtv/libs/libmyth/audio/audiooutputca.cpp:744-796 | The hog-mode write is issued exactly when the device is known and there is something to change: taking with no owner, releasing with one |
| CoreAudioState.TakeHog | mythtv/libs/libmyth/audio/audiooutputca.cpp:759-776 | Taking hog mode succeeds exactly when the device is known and either an owner was recorded or the write succeeds and the device reports this process; on success the owner is this process unless one already was |
| CoreAudioState.ReleaseHog | mythtv/libs/libmyth/audio/audiooutputca.cpp:777-794 | Releasing succeeds exactly when the device is known and either no owner was recorded or the write succeeded and the device no longer reports this process. A failed release changes nothing |
| CoreAudioState.MixingRecordedOnce | mythtv/libs/libmyth/audio/audiooutputca.cpp:798-828 | SetMixingSupport succeeds exactly when the device is known and the write succeeds. Only the first successful change records the prior setting, nothing else changes, and the invariant is kept |
| CoreAudioState.MixingRequests | mythtv/libs/libmyth/audio/audiooutputca.cpp:798-828 | A known device gets the mixing write, preceded by a read of the prior setting on the first change; an unknown device gets no calls |
| CoreAudioState.CloseAnalogRequests | mythtv/libs/libmyth/audio/audiooutputca.cpp:1634-1663 | An open unit is disposed, stopped first if started and uninitialised first if initialised; a closed one gets no calls |
| CoreAudioState.CloseAnalogResets | mythtv/libs/libmyth/audio/audiooutputca.cpp:1640-1662 | CloseAnalog leaves the unit null and the IO-proc, initialised, started and was-digital flags false. It changes nothing else and keeps the invariant |
| CoreAudioState.CloseAnalogIdempotent | mythtv/libs/libmyth/audio/audiooutputca.cpp:1634-1663 | Closing the analog output again issues no call and changes nothing |
| CoreAudioState.HaltDigitalRequests | mythtv/libs/libmyth/audio/audiooutputca.cpp:1788-1812 | The start of CloseSPDIF stops a started device, destroys an IO proc, and reverts a changed format, each only when needed |
| CoreAudioState.CloseSPDIFRequests | mythtv/libs/libmyth/audio/audiooutputca.cpp:1780-1822 | With digital output in use, the calls are: stop, destroy, revert when needed, release a recorded hog, restore a recorded mixer setting, then unload the hardware |
| CoreAudioState.CloseSPDIFResets | mythtv/libs/libmyth/audio/audiooutputca.cpp:1780-1822 | Nothing happens unless digital output is in use. Otherwise started, IO proc and revert are false, mixer restore and stream index -1, bytes per packet UINT32_MAX, was-digital true; digital-in-use stays set |
| CoreAudioState.CloseSPDIFRestoresMixing | mythtv/libs/libmyth/audio/audiooutputca.cpp:1814-1816 | CloseSPDIF never reads the mixing setting. It writes one exactly when a setting was recorded for a known device, and it writes that recorded setting |
| CoreAudioState.CloseSPDIFRestoresRecorded | mythtv/libs/libmyth/audio/audiooutputca.cpp:1815-1816 | On a state that keeps the invariant, CloseSPDIF turns mixing on exactly when the recorded setting is 1 and off exactly when it is 0, for a known device |
| CoreAudioState.InitialValid | mythtv/libs/libmyth/audio/audiooutputca.cpp:138-158 | The member initialisers satisfy the invariant: mixer restore -1, stream index -1, no format to revert |
| CoreAudioState.MixingAmongCloseRequests | mythtv/libs/libmyth/audio/audiooutputca.cpp:1814-1816 | Among CloseSPDIF's calls the only mixing call is the restoring write |
| CoreAudioState.CloseSPDIFAgain | mythtv/libs/libmyth/audio/audiooutputca.cpp:1780-1822 | Because digital-in-use is kept, a second CloseSPDIF still runs, but only releases a hog still recorded and unloads the hardware |
| CoreAudioState.CoreAudioData.constructor | mythtv/libs/libmyth/audio/audiooutputca.cpp:500-505 | A new object has the device id, the member initialisers' state and no requests, and satisfies the invariant |
| CoreAudioState.CoreAudioData.SetHogStatus | mythtv/libs/libmyth/audio/audiooutputca.cpp:744-796 | The fields become SetHogStep's state, the request log becomes SetHogStep's log, and the result is its verdict; the invariant is kept |
| CoreAudioState.CoreAudioData.SetMixingSupport | mythtv/libs/libmyth/audio/audiooutputca.cpp:798-828 | The fields, request log and result follow SetMixingStep; the invariant is kept |
| CoreAudioState.CoreAudioData.CloseAnalog | mythtv/libs/libmyth/audio/audiooutputca.cpp:1634-1663 | The fields and request log follow CloseAnalogStep; the invariant is kept |
| CoreAudioState.CoreAudioData.HaltDigital | mythtv/libs/libmyth/audio/audiooutputca.cpp:1788-1812 | The fields and request log follow HaltDigitalStep; the invariant is kept |
| CoreAudioState.CoreAudioData.Unload | mythtv/libs/libmyth/audio/audiooutputca.cpp:1817-1821 | The fields and request log follow UnloadStep; the invariant is kept |
| CoreAudioState.CoreAudioData.CloseSPDIF | mythtv/libs/libmyth/audio/audiooutputca.cpp:1780-1822 | The fields and request log follow CloseSPDIFStep: halt, release hog, restore mixing, unload; the invariant is kept |

## Left out

- Core Audio, AudioUnit and AudioFormat calls (`AudioObjectGet/SetPropertyData`, `AudioUnit*`, `AudioDevice*`, `AudioHardwareUnload`). These are foreign calls. Each is a reply parameter or an entry in the request log; their effect on the device is not modelled.
- Device enumeration: `GetDevices`, `GetDeviceWithName`, `GetDefaultOutputDevice`, `ResetAudioDevices` and `ResetStream`. These are foreign calls with `sleep`. The constructor takes the device id as given.
- Threading. The render callbacks run on Core Audio's real-time thread; they are modelled as sequential methods.
- Floating point: `m_bufferedBytes`, `GetAudiotime` and volume scaling. The device's rate ranges are exact reals (no NaN), and the common-rate table is integral.
- Collaborators whose source is not part of this model: `GetAudioData`, `GetNextRate`, `AddSupportedRate`, `AddSupportedFormat`, `AddSupportedChannels`, `setPassthrough`, `FormatToBits` and `Reconfigure`.
  - What `GetAudioData` delivers is an input byte sequence.
  - The successive `GetNextRate` values are an input sequence that ends at its first 0.
  - The `AddSupported*` results are returned lists.
  - The bit count and bytes per frame of the output format are fields of `AudioOutputCA`, set by its constructor.
- Render.ConfigValid: requires positive bytes per frame, and 8 channels of at most 32 bits to fill a frame. The model assumes the output setup guarantees this; the source does not check it.
- Logging, `gCoreContext` settings, `usleep`, and QString/CFString formatting (`StreamDescriptionToString`, `GetName`).
- FourCC.UInt32ToFourCC: returns a fresh five-byte sequence instead of a pointer into one static buffer. Aliasing between calls is not modelled.
- Allocation failures (the `kAudio_MemFullError` returns of `ExtractChannelLabels` and the `calloc` results) are not modelled: allocation always succeeds.
- ChannelMap.ExtractChannelLabels: the fallback branch at lines 1149-1151 sets `count = 0` but never sets `labels`. The `ChannelLabels` struct (lines 1092-1095) has no initialiser, and `CreateChannelMap` declares its two instances uninitialised (line 1165) and later calls `free` on both `labels` pointers (lines 1201-1202). When a layout expands to no descriptions, that `free` reads an indeterminate pointer, which is undefined behaviour. The model returns `Ok([])` for this case and does not represent the dangling free.
- ChannelMap.ExtractChannelLabels: the tag-expansion path (`AudioFormatGetPropertyInfo` / `AudioFormatGetProperty`) is a reply parameter, either its error status or the expanded labels.
- `OpenAnalog` and `OpenDevice` are not modelled apart from their pure switches in Layouts. They configure AudioUnits through long chains of foreign calls.
- `OpenSPDIF` is covered by its stream and format search only; the device state it sets afterwards is not modelled. The `CoreAudioData` methods therefore accept any state that keeps the invariant `Valid`, which the constructor establishes and every method preserves; the lemmas about the step functions hold for every state, except CloseSPDIFRestoresRecorded, which needs `Valid`.
- Render.RenderCallbackSPDIF: models one output buffer, the one at `mStreamIndex`; selecting it from the buffer list is not modelled.
- Streams.ChannelsList: requires every format to have at least one channel. In the source `mChannelsPerFrame` is a `UInt32`, and the `<= CHANNELS_MAX` guard lets 0 through, so a 0-channel format would index `chans[4294967295]` (unsigned wrap-around), out of bounds.
- Settings.GetOutputSettings: requires the same of the device's formats, inherited through `ChannelsList`.
- Settings.DeviceRates: converts each `Float64` rate to int by truncation. The rates all come from the integral table, so the conversion is exact (DeviceRatesExact).
- CoreAudioState.SetHogStep: the hog-mode write passes the address of the member variable. The model takes the owner found there afterwards (`reply.owner`) as what the device reports, which is what the code relies on.
- `GetAutoHogMode`, `SetAutoHogMode`, `GetHogStatus`, `GetMixingSupport`, `GetTotalOutputChannels`, `StreamsList`, `FormatsList` and `AudioStreamChangeFormat` are all property reads or writes. Their outcomes are inputs; `GetMixingSupport` is the `mixingNow` reply.
- `mythtv/libs/libmythtv/mythopenglinterop.h` and `mythtv/libs/libmythtv/mythvdpauhelper.h` are not part of this model. They contain declarations only, over a foreign library and process-wide locks.
