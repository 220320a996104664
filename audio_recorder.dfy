/** The recording session guard of the audio recorder plugin
    (packages/audio_recorder/macos/Classes/AudioRecorderPlugin.swift).

    `AudioCapturePlugin` keeps three fields: whether a recording is in progress, the capture
    stream it created, and the Flutter event sink. The operating system's answers (the
    shareable-content query, adding the stream output, starting capture) are parameters of
    the methods below; what the plugin hands back through `result` is the `Reply` they return. */
module AudioRecorder {
  import opened Common

  /** The value a Flutter `result` callback is invoked with. */
  datatype Reply = Nil | FlutterError(code: string) | MethodNotImplemented

  /** The configuration of the stream the recorder creates. */
  datatype StreamConfig = StreamConfig(
    width: int, height: int,
    minimumFrameIntervalValue: int, minimumFrameIntervalTimescale: int,
    capturesAudio: bool, showsCursor: bool)

  /** A dummy 1280x720 video at 1/30 s per frame (the stream needs one), audio on, no cursor. */
  const RecordingConfig := StreamConfig(1280, 720, 1, 30, true, false)

  /** An `SCStream` the recorder created: its identity, the display its filter covers and
      its configuration. */
  datatype Stream = Stream(id: nat, display: Display, config: StreamConfig)

  /** The answer of the shareable-content query. */
  datatype ContentOutcome = ContentFailed | Content(displays: seq<Display>)

  /** What `CMBlockBufferGetDataPointer` reports when asked at offset 0: its status, and
      the contiguous bytes at offset 0 that the data pointer and the length at that offset
      cover (`None` for a null pointer). */
  datatype BlockBuffer = BlockBuffer(status: int, data: Option<seq<uint8>>)

  /** `kCMBlockBufferNoErr`. */
  const BlockBufferNoErr: int := 0

  class AudioCapturePlugin {
    var eventSink: Option<Sink>
    var audioStream: Option<Stream>
    var isRecording: bool

    constructor ()
      ensures eventSink == None && audioStream == None && !isRecording
    {
      eventSink := None;
      audioStream := None;
      isRecording := false;
    }

    /** The method-channel dispatch. `reply` is `None` when `result` is not invoked
        synchronously; `stopped` is the stream told to stop capturing, if any. */
    method Handle(call: string) returns (reply: Option<Reply>, stopped: Option<Stream>)
      modifies this`isRecording, this`audioStream
      ensures call == "startRecording" ==>
                stopped == None && audioStream == old(audioStream) && isRecording &&
                reply == (if old(isRecording) then Some(Nil) else None)
      ensures call == "stopRecording" ==>
                (old(isRecording) ==> reply == None && stopped == old(audioStream) &&
                                      !isRecording && audioStream == None) &&
                (!old(isRecording) ==> reply == Some(Nil) && stopped == None &&
                                       !isRecording && audioStream == old(audioStream))
      ensures call != "startRecording" && call != "stopRecording" ==>
                reply == Some(MethodNotImplemented) && stopped == None &&
                isRecording == old(isRecording) && audioStream == old(audioStream)
    {
      if call == "startRecording" {
        reply := StartRecording();
        stopped := None;
      } else if call == "stopRecording" {
        reply, stopped := StopRecording();
      } else {
        reply, stopped := Some(MethodNotImplemented), None;
      }
    }

    /** The synchronous part of `startRecording`: a second start while recording answers
        nil at once; otherwise the recording flag is raised before the shareable-content
        query is issued, and the answer comes from `CompleteStart`. */
    method StartRecording() returns (reply: Option<Reply>)
      modifies this`isRecording
      ensures isRecording
      ensures old(isRecording) ==> reply == Some(Nil)
      ensures !old(isRecording) ==> reply == None
    {
      if isRecording {
        return Some(Nil);
      }
      isRecording := true;
      return None;
    }

    /** The completion handler of the shareable-content query, run with the query's
        `content`. `streamId` identifies the stream the handler creates, `addOutputThrows`
        whether adding the audio output throws, and `startFails` whether starting capture
        reports an error. The handler runs whatever the plugin's state is by then. */
    method CompleteStart(content: ContentOutcome, streamId: nat, addOutputThrows: bool, startFails: bool)
      returns (reply: Reply)
      modifies this`isRecording, this`audioStream
      ensures content.ContentFailed? ==>
                reply == FlutterError("CONTENT_ERROR") && !isRecording && audioStream == old(audioStream)
      ensures content.Content? && content.displays == [] ==>
                reply == FlutterError("NO_DISPLAY") && !isRecording && audioStream == old(audioStream)
      ensures content.Content? && content.displays != [] ==>
                audioStream == Some(Stream(streamId, content.displays[0], RecordingConfig))
      ensures content.Content? && content.displays != [] && addOutputThrows ==>
                reply == FlutterError("STREAM_ERROR") && !isRecording
      ensures content.Content? && content.displays != [] && !addOutputThrows && startFails ==>
                reply == FlutterError("START_ERROR") && !isRecording
      ensures content.Content? && content.displays != [] && !addOutputThrows && !startFails ==>
                reply == Nil && isRecording == old(isRecording)
    {
      match content
      case ContentFailed =>
        isRecording := false;
        return FlutterError("CONTENT_ERROR");
      case Content(displays) =>
        if displays == [] {
          isRecording := false;
          return FlutterError("NO_DISPLAY");
        }
        var stream := Stream(streamId, displays[0], RecordingConfig);
        audioStream := Some(stream);
        if addOutputThrows {
          isRecording := false;
          return FlutterError("STREAM_ERROR");
        }
        if startFails {
          isRecording := false;
          return FlutterError("START_ERROR");
        }
        return Nil;
    }

    /** `stopRecording`: answers nil while idle; while recording it stops the stream and
        clears the session without invoking `result` at all. */
    method StopRecording() returns (reply: Option<Reply>, stopped: Option<Stream>)
      modifies this`isRecording, this`audioStream
      ensures !isRecording
      ensures !old(isRecording) ==> reply == Some(Nil) && stopped == None && audioStream == old(audioStream)
      ensures old(isRecording) ==> reply == None && stopped == old(audioStream) && audioStream == None
    {
      if !isRecording {
        return Some(Nil), None;
      }
      stopped := audioStream;
      isRecording := false;
      audioStream := None;
      reply := None;
    }

    /** `onListen`: the new sink replaces any previous one. */
    method OnListen(events: Sink)
      modifies this`eventSink
      ensures eventSink == Some(events)
    {
      eventSink := Some(events);
    }

    /** `onCancel`: no sink remains. */
    method OnCancel()
      modifies this`eventSink
      ensures eventSink == None
    {
      eventSink := None;
    }

    /** A sample buffer reaching the stream output: `MyAudioStreamOutput.stream` copies the
        contiguous bytes at offset 0 of the block only for audio, a data buffer, status
        no-error, a non-null pointer and a positive length, and its callback passes them to
        the current sink, if there is one. The result is the sink and the payload it
        receives. */
    method OnAudioSample(outputType: OutputType, block: Option<BlockBuffer>)
      returns (delivery: Option<(Sink, seq<uint8>)>)
      ensures delivery.Some? <==>
                outputType == Audio && eventSink.Some? && block.Some? &&
                block.value.status == BlockBufferNoErr && block.value.data.Some? &&
                |block.value.data.value| > 0
      ensures delivery.Some? ==> delivery.value == (eventSink.value, block.value.data.value)
    {
      if outputType != Audio || block.None? {
        return None;
      }
      var status, dataPointer := block.value.status, block.value.data;
      if status != BlockBufferNoErr || dataPointer.None? || |dataPointer.value| == 0 {
        return None;
      }
      var data := dataPointer.value;
      if eventSink.None? {
        return None;
      }
      return Some((eventSink.value, data));
    }
  }
}
