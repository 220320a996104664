# Audio capture plugins for macOS: a verified model

This project models the logic inside three macOS Flutter plugin classes that capture
system audio through ScreenCaptureKit:

- the **16-bit PCM encoder** of the capture package's stream output
  (`CaptureStreamOutput.convertTo16BitPCM` and the sample-buffer callback around it:
  module `PcmEncoder`, file `pcm_encoder.dfy`);
- the **recording session guard** of the audio recorder plugin (`AudioCapturePlugin`
  with its `isRecording`, `audioStream` and `eventSink` fields, and the byte-forwarding
  guard of `MyAudioStreamOutput`: module `AudioRecorder`, file `audio_recorder.dfy`);
- the **session and delivery bookkeeping** of the capture plugin (`CapturePlugin` with
  its `eventSink`, `currentStream` and `currentOutput` fields, the method-channel
  dispatch, and the channel-0 amplitude copy of its private stream output: module
  `CaptureSession`, file `capture_plugin.dfy`).

`common.dfy` (module `Common`) holds an `Option` type, bytes (`uint8`), the stream output
type and abstract handles for sinks and displays.

The encoder takes a planar float buffer of `channelCount` channels by `frameLength`
samples. Each sample is clamped to [-1, 1], multiplied by 32767 (`Int16.max`) and
truncated toward zero; the two bytes of the result are appended low byte first, walking
channel 0 completely, then channel 1, and so on. `ConvertTo16BitPCM` is the method with
the source's nested loops, proved equal to the recursive specification `EncodePlanar`.
The lemmas about `EncodePlanar` give the exact length (`frameLength * channelCount * 2`),
the channel-major layout (sample `i` of channel `c` at byte `2*(c*frameLength + i)`), the
value range [-32767, 32767] of every decoded word, and the little-endian round trip.

The two plugins are classes whose methods change their fields. Everything the operating
system decides is a parameter: the shareable-content answer, whether adding the stream
output throws, whether starting capture fails, the permission probe, how the picker's
setup ends, which stream the picker hands over. What the plugin sends back through a
Flutter `result` callback is a `Reply` value. What a sink receives is returned as an
optional `(sink, payload)` pair. The recorder's `startRecording` runs in three steps in
the code, and the model merges the last two: `StartRecording` is the synchronous guard that
raises `isRecording` before any system call, and `CompleteStart` is the completion handler
of the shareable-content query together with the completion of `startCapture`.

Behaviour of the code that the model keeps as written:

- `stopRecording` while recording never invokes `result` (`StopRecording` returns
  `reply == None` on that path).
- After `STREAM_ERROR` or `START_ERROR`, `audioStream` still holds the stream that failed.
- `CompleteStart` runs whatever the state is by then. If a stop came in between, a
  successful completion leaves `isRecording` false while `audioStream` is set.
- The recorder's audio sink callback does not look at `isRecording`. Bytes reach
  whatever sink is registered.
- `startCapture` replaces `currentStream` and `currentOutput` without stopping a stream
  that is already current.
- `setupContentPicker` returns normally when no display is available, so
  `startAudioCapture` then answers "Picker presented" although no picker was shown.
  Nothing in the body of `setupContentPicker` (CapturePlugin.swift:126-167) throws, so the `PICKER_FAILED` reply
  is reachable only through the `SetupThrew` outcome that the model keeps as an input.

The encoder output is planar: every channel is
written in full, one after another, without interleaving and without downmix.

## Model

| member | source | states |
|---|---|---|
| PcmEncoder.Clamp | packages/capture/macos/Classes/CaptureStreamOutput.swift:89 | the clamped sample lies in [-1, 1]; it is the sample itself inside that range, 1 above it and -1 below it |
| PcmEncoder.TruncateTowardZero | packages/capture/macos/Classes/CaptureStreamOutput.swift:88-90 | the integer conversion drops the fractional part toward zero: for x >= 0 it is the largest integer not above x, for x < 0 the smallest integer not below x |
| PcmEncoder.SampleToInt16 | packages/capture/macos/Classes/CaptureStreamOutput.swift:88-90 | every stored sample lies in [-32767, 32767] |
| PcmEncoder.EncodeLE | packages/capture/macos/Classes/CaptureStreamOutput.swift:91 | two bytes whose value, low byte plus 256 times the high byte, is the sample's 16-bit two's complement |
| PcmEncoder.DecodeLE | packages/capture/macos/Classes/CaptureStreamOutput.swift:91 | the signed value read back from a low byte and a high byte has that pair as its 16-bit two's complement |
| PcmEncoder.EncodeSamples | packages/capture/macos/Classes/CaptureStreamOutput.swift:87-92 | one channel's encoding has exactly two bytes per sample |
| PcmEncoder.EncodePlanar | packages/capture/macos/Classes/CaptureStreamOutput.swift:81-93 | the whole output has exactly frameLength * channelCount * 2 bytes |
| PcmEncoder.ConvertTo16BitPCM | packages/capture/macos/Classes/CaptureStreamOutput.swift:75-96 | a buffer without float channel data gives nil; otherwise the nested loops produce exactly the channel-major encoding EncodePlanar of the first frameLength samples of every channel |
| PcmEncoder.OnSampleBuffer | packages/capture/macos/Classes/CaptureStreamOutput.swift:21-36 | a payload goes to the plugin exactly when the callback is for audio, the PCM buffer could be built, it has float data and the plugin is still alive; the payload is the buffer's encoding |
| PcmEncoder.ScaleExamples | packages/capture/macos/Classes/CaptureStreamOutput.swift:88-90 | 1.0 gives 32767, -1.0 gives -32767, 0 gives 0, and 0.5 and -0.5 give 16383 and -16383 (truncation, not rounding) |
| PcmEncoder.Saturation | packages/capture/macos/Classes/CaptureStreamOutput.swift:89 | every input at or beyond full scale saturates to 32767 or -32767 |
| PcmEncoder.ScaleIsOdd | packages/capture/macos/Classes/CaptureStreamOutput.swift:88-90 | negating the input negates the stored sample; -32768 is never produced |
| PcmEncoder.ScaleIsMonotone | packages/capture/macos/Classes/CaptureStreamOutput.swift:88-90 | a larger input never gives a smaller stored sample |
| PcmEncoder.DecodeEncode | packages/capture/macos/Classes/CaptureStreamOutput.swift:91 | decoding the two little-endian bytes of a sample as a two's complement int16 gives the sample back |
| PcmEncoder.EncodeDecode | packages/capture/macos/Classes/CaptureStreamOutput.swift:91 | every byte pair is the encoding of the value it decodes to, so the encoding is a bijection |
| PcmEncoder.SampleAt | packages/capture/macos/Classes/CaptureStreamOutput.swift:87-92 | within one channel, sample i occupies bytes 2i and 2i+1 |
| PcmEncoder.ChannelBlock | packages/capture/macos/Classes/CaptureStreamOutput.swift:85-93 | all of channel c occupies the 2*frameLength bytes starting at offset 2*frameLength*c, so channel c precedes channel c+1 |
| PcmEncoder.Layout | packages/capture/macos/Classes/CaptureStreamOutput.swift:85-92 | the bytes for channel c, sample i start at offset 2*(c*frameLength + i), are the sample's little-endian encoding and decode back to it |
| PcmEncoder.OutputBounded | packages/capture/macos/Classes/CaptureStreamOutput.swift:88-91 | every two-byte word of the output decodes into [-32767, 32767] |
| PcmEncoder.EmptyBuffer | packages/capture/macos/Classes/CaptureStreamOutput.swift:81-95 | a buffer with zero frames or zero channels encodes to empty data, not to nil |
| AudioRecorder.AudioCapturePlugin.constructor | packages/audio_recorder/macos/Classes/AudioRecorderPlugin.swift:8-10 | a new plugin is idle, with no stream and no sink |
| AudioRecorder.AudioCapturePlugin.Handle | packages/audio_recorder/macos/Classes/AudioRecorderPlugin.swift:21-32 | "startRecording" and "stopRecording" behave as their operations; any other method answers not-implemented and changes nothing |
| AudioRecorder.AudioCapturePlugin.StartRecording | packages/audio_recorder/macos/Classes/AudioRecorderPlugin.swift:34-43 | while recording, the call answers nil at once and changes nothing; otherwise isRecording is true before the content query and no answer is given yet |
| AudioRecorder.AudioCapturePlugin.CompleteStart | packages/audio_recorder/macos/Classes/AudioRecorderPlugin.swift:43-92 | each failure resets isRecording and answers its own code (CONTENT_ERROR, NO_DISPLAY, STREAM_ERROR, START_ERROR); once a display exists, audioStream holds the new stream for the first display and the recording configuration, on the error paths too; success answers nil and leaves isRecording as it was |
| AudioRecorder.AudioCapturePlugin.StopRecording | packages/audio_recorder/macos/Classes/AudioRecorderPlugin.swift:95-105 | while idle it answers nil and keeps the stream; while recording it stops the current stream, clears isRecording and audioStream, and invokes no result |
| AudioRecorder.AudioCapturePlugin.OnListen | packages/audio_recorder/macos/Classes/AudioRecorderPlugin.swift:108-111 | the new sink replaces the previous one |
| AudioRecorder.AudioCapturePlugin.OnCancel | packages/audio_recorder/macos/Classes/AudioRecorderPlugin.swift:113-116 | no sink remains |
| AudioRecorder.AudioCapturePlugin.OnAudioSample | packages/audio_recorder/macos/Classes/AudioRecorderPlugin.swift:127-141 | bytes reach a sink exactly when the buffer is audio with a data buffer, no-error status, a non-null pointer and positive length, and a sink is registered; the registered sink then receives exactly the contiguous bytes at offset 0 of the block |
| CaptureSession.StartAudioCapture | packages/capture/macos/Classes/CapturePlugin.swift:64-89 | without permission the reply is "... Not allowed" and the picker is never set up; with permission it is "Picker presented", or PICKER_FAILED when setup throws |
| CaptureSession.CreateFloatAmplitudes | packages/capture/macos/Classes/CapturePlugin.swift:275-311 | amplitudes exist exactly when the format and the PCM buffer could be built and channel 0 exists; they are frameLength values equal to channel 0's samples, in order |
| CaptureSession.CapturePlugin.constructor | packages/capture/macos/Classes/CapturePlugin.swift:22-24 | a new plugin has no sink, no stream and no output |
| CaptureSession.CapturePlugin.Handle | packages/capture/macos/Classes/CapturePlugin.swift:62-101 | startAudioCapture answers as StartAudioCapture and changes no field; stopAudioCapture stops any capture and answers "Capture stopped"; any other method answers not-implemented and changes nothing |
| CaptureSession.CapturePlugin.OnListen | packages/capture/macos/Classes/CapturePlugin.swift:106-112 | the new sink replaces the previous one |
| CaptureSession.CapturePlugin.OnCancel | packages/capture/macos/Classes/CapturePlugin.swift:115-121 | the sink is cleared and then the capture is stopped as by StopCapture |
| CaptureSession.CapturePlugin.StartCapture | packages/capture/macos/Classes/CapturePlugin.swift:172-209 | the picker's stream is used when present, otherwise a new stream with capturesAudio; either way it becomes current with the new output, even when adding the output throws |
| CaptureSession.CapturePlugin.StopCapture | packages/capture/macos/Classes/CapturePlugin.swift:212-224 | without a current stream nothing changes and the picker is not deactivated; otherwise that stream is stopped, stream and output are cleared and the picker is deactivated |
| CaptureSession.CapturePlugin.SendAudioAmplitudes | packages/capture/macos/Classes/CapturePlugin.swift:229-233 | nothing is delivered without a sink; otherwise the sink receives one array of the same length holding the same values in order |
| CaptureSession.CapturePlugin.OnSampleBuffer | packages/capture/macos/Classes/CapturePlugin.swift:254-272 | only valid audio buffers whose amplitudes can be built reach the sink, and then as channel 0's first frameLength samples |

## Left out

- ScreenCaptureKit, AVFoundation and CoreMedia calls are not modelled. This covers the
  permission probe `canRecord`, the `SCShareableContent` queries, creating, starting and
  stopping `SCStream`, `createPCMBuffer`, `withAudioBufferList`, `AVAudioPCMBuffer.create`
  with its `memcpy`, and `CMBlockBufferGetDataPointer`. They work on memory owned by the
  operating system; their outcomes are method parameters.
- The picker manager singleton (`ContentSharingPickerManager`) and its three callbacks
  are not modelled. Their effect is reported as a `PickerEffect`. The content-selected
  callback is the caller of `StartCapture`. The cancelled and failed callbacks only print.
- Flutter channel registration (`register`) and the transport of method calls and events
  are not modelled. A `result` call is the returned `Reply`. The error messages and
  `details` of a `FlutterError` are left out; only the error codes are kept.
- `Task`, `@MainActor`, dispatch queues and completion ordering are not modelled. Each
  asynchronous step is one method call. The recorder's start completion, including the
  `startCapture` completion, is a single `CompleteStart`. The capture plugin's `stopCapture`
  inside `onCancel` and `stopAudioCapture` runs when it is called.
- Exact IEEE-754 single-precision rounding of `sample * 32767` and NaN behaviour of
  `min`/`max` are not modelled. Samples are exact reals.
- The `outputPath` argument of `startRecording` is read by the code and then never used,
  so the model has no such parameter.
- `SCStreamOutput` logging callbacks (`didStopWithError`) are left out: they only log.
- CaptureSession.CreateFloatAmplitudes: treats a buffer with float data but no channel as
  giving no amplitudes. The code would read `floatChannelData[0]` there, which has no
  meaning in the model.
- The weak `plugin` and `self` references of the capture plugin's private stream output
  are not modelled: `CapturePlugin.OnSampleBuffer` runs on a live plugin. In the encoder's
  callback the weak reference is the `pluginAlive` parameter.
- AudioRecorder.AudioCapturePlugin.OnAudioSample: forwards only the contiguous run of bytes
  at offset 0 of the block buffer, as the code does (`CMBlockBufferGetDataPointer` is asked
  for the length at offset 0, not the total length). Any bytes after that first contiguous
  segment are dropped by the code and do not appear in the model.
- The recorder's output closure holds the plugin through `[weak self]`
  (AudioRecorderPlugin.swift:71-72). The model does not capture that weak reference:
  `AudioRecorder.AudioCapturePlugin.OnAudioSample` always runs on a live plugin.
- The `NSLog` and `print` diagnostics (CaptureStreamOutput.swift:18, 45, 55, 65, 77 and
  CapturePlugin.swift:29-35, 138, 145, 151, 203, 207, 250) are not modelled: they only log.
- The encoder's delivery target `sendRawAudioData` is not part of this model. The payload
  it would receive is the value `PcmEncoder.OnSampleBuffer` returns.
- `apps/main_app/macos/Runner/Classes/SystemAudioCapture.swift` is not part of this model.
  It only starts and stops a stream and copies raw bytes out of a block buffer.
