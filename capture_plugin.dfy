/** Session and delivery bookkeeping of the capture plugin
    (packages/capture/macos/Classes/CapturePlugin.swift).

    `CapturePlugin` keeps the Flutter event sink, the current capture stream and the current
    stream output. The permission probe, the content picker and the stream's own calls
    belong to the operating system: their outcomes are parameters, and the effect on the
    shared picker manager is returned as a `PickerEffect`. */
module CaptureSession {
  import opened Common
  import PcmEncoder

  /** The value a Flutter `result` callback is invoked with. */
  datatype Reply = Text(text: string) | FlutterError(code: string) | MethodNotImplemented

  /** The content filter the user picked. */
  datatype Filter = Filter(id: nat)

  /** A capture stream: the one the picker hands over, or one the plugin creates from the
      picked filter (with `capturesAudio` set on its configuration). */
  datatype Stream = PickerStream(id: nat) | CreatedStream(id: nat, filter: Filter, capturesAudio: bool)

  /** An instance of the plugin's private stream output class. */
  datatype Output = Output(id: nat)

  /** How `setupContentPicker` ends: the picker is shown, it returns early because no
      display is available, or it throws. */
  datatype PickerSetup = PickerShown | NoDisplayAvailable | SetupThrew

  /** What happens to the shared picker manager. `SetUp` means its callbacks were installed;
      `shown` tells whether the picker was then presented. */
  datatype PickerEffect = Untouched | SetUp(shown: bool) | Deactivated

  /** An `NSNumber` wrapping a float amplitude. */
  datatype Number = Number(value: real)

  /** The method-call reply for `startAudioCapture`, given the permission probe
      `canRecord` and how the picker's setup ends. Changes no plugin state. */
  method StartAudioCapture(canRecord: bool, setup: PickerSetup) returns (reply: Reply, picker: PickerEffect)
    ensures !canRecord ==> reply == Text("... Not allowed") && picker == Untouched
    ensures canRecord && setup == SetupThrew ==>
              reply == FlutterError("PICKER_FAILED") && picker == SetUp(false)
    ensures canRecord && setup != SetupThrew ==>
              reply == Text("Picker presented") && picker == SetUp(setup == PickerShown)
  {
    if !canRecord {
      return Text("... Not allowed"), Untouched;
    }
    match setup
    case SetupThrew => return FlutterError("PICKER_FAILED"), SetUp(false);
    case NoDisplayAvailable => return Text("Picker presented"), SetUp(false);
    case PickerShown => return Text("Picker presented"), SetUp(true);
  }

  /** `createFloatAmplitudes`: `formatOk` tells whether the float32 non-interleaved format
      could be built and `created` is what building the PCM buffer gave. The result copies
      the first `frameLength` samples of channel 0 into a fresh array; other channels are
      discarded. A buffer without float data or without any channel gives none. */
  method CreateFloatAmplitudes(formatOk: bool, created: Option<PcmEncoder.PcmBuffer>)
    returns (amplitudes: Option<seq<real>>)
    requires created.Some? ==> PcmEncoder.WellFormed(created.value)
    ensures amplitudes.Some? <==>
              formatOk && created.Some? && created.value.floatChannelData.Some? &&
              |created.value.floatChannelData.value| > 0
    ensures amplitudes.Some? ==>
              |amplitudes.value| == created.value.frameLength &&
              forall i :: 0 <= i < |amplitudes.value| ==>
                amplitudes.value[i] == created.value.floatChannelData.value[0][i]
  {
    if !formatOk || created.None? {
      return None;
    }
    var pcmBuffer := created.value;
    if pcmBuffer.floatChannelData.None? || |pcmBuffer.floatChannelData.value| == 0 {
      return None;
    }
    var channelData := pcmBuffer.floatChannelData.value[0];
    var frameCount := pcmBuffer.frameLength;
    var a := new real[frameCount];
    for i := 0 to frameCount
      invariant forall j :: 0 <= j < i ==> a[j] == channelData[j]
    {
      a[i] := channelData[i];
    }
    return Some(a[..]);
  }

  class CapturePlugin {
    var eventSink: Option<Sink>
    var currentStream: Option<Stream>
    var currentOutput: Option<Output>

    /** A stream and its output are set and cleared together. */
    predicate Valid()
      reads this
    {
      currentStream.Some? <==> currentOutput.Some?
    }

    constructor ()
      ensures Valid()
      ensures eventSink == None && currentStream == None && currentOutput == None
    {
      eventSink := None;
      currentStream := None;
      currentOutput := None;
    }

    /** The method-channel dispatch. `canRecord` and `setup` are the outcomes
        `startAudioCapture` meets; `stopped` is the stream told to stop, if any. */
    method Handle(call: string, canRecord: bool, setup: PickerSetup)
      returns (reply: Reply, picker: PickerEffect, stopped: Option<Stream>)
      requires Valid()
      modifies this`currentStream, this`currentOutput
      ensures Valid()
      ensures call == "startAudioCapture" ==>
                stopped == None && currentStream == old(currentStream) &&
                currentOutput == old(currentOutput) &&
                (!canRecord ==> reply == Text("... Not allowed") && picker == Untouched) &&
                (canRecord && setup == SetupThrew ==>
                   reply == FlutterError("PICKER_FAILED") && picker == SetUp(false)) &&
                (canRecord && setup != SetupThrew ==>
                   reply == Text("Picker presented") && picker == SetUp(setup == PickerShown))
      ensures call == "stopAudioCapture" ==>
                reply == Text("Capture stopped") && stopped == old(currentStream) &&
                (picker == Deactivated <==> old(currentStream).Some?) &&
                (picker != Deactivated ==> picker == Untouched) &&
                (old(currentStream).Some? ==> currentStream == None && currentOutput == None) &&
                (old(currentStream).None? ==> currentOutput == old(currentOutput))
      ensures call != "startAudioCapture" && call != "stopAudioCapture" ==>
                reply == MethodNotImplemented && picker == Untouched && stopped == None &&
                currentStream == old(currentStream) && currentOutput == old(currentOutput)
    {
      if call == "startAudioCapture" {
        reply, picker := StartAudioCapture(canRecord, setup);
        stopped := None;
      } else if call == "stopAudioCapture" {
        var deactivated;
        stopped, deactivated := StopCapture();
        reply := Text("Capture stopped");
        picker := if deactivated then Deactivated else Untouched;
      } else {
        reply, picker, stopped := MethodNotImplemented, Untouched, None;
      }
    }

    /** `onListen`: the new sink replaces any previous one. */
    method OnListen(events: Sink)
      modifies this`eventSink
      ensures eventSink == Some(events)
    {
      eventSink := Some(events);
    }

    /** `onCancel`: clears the sink, then stops any capture. */
    method OnCancel() returns (stopped: Option<Stream>, deactivated: bool)
      requires Valid()
      modifies this`eventSink, this`currentStream, this`currentOutput
      ensures Valid()
      ensures eventSink == None
      ensures stopped == old(currentStream) && deactivated == old(currentStream).Some?
      ensures old(currentStream).Some? ==> currentStream == None && currentOutput == None
      ensures old(currentStream).None? ==> currentOutput == old(currentOutput)
    {
      eventSink := None;
      stopped, deactivated := StopCapture();
    }

    /** `startCapture`, run when the user has picked `filter`: the picker's own stream is
        used when it provides one, otherwise a stream with `capturesAudio` is created (its
        identity is `newStreamId`). `output` is the fresh stream output. Both become current
        whether or not adding the output then throws (`addOutputThrows`), since that failure
        is only logged; capture is requested only when adding succeeds. */
    method StartCapture(filter: Filter, preCreatedStream: Option<Stream>, newStreamId: nat,
                        output: Output, addOutputThrows: bool)
      returns (stream: Stream, captureRequested: bool)
      modifies this`currentStream, this`currentOutput
      ensures Valid()
      ensures preCreatedStream.Some? ==> stream == preCreatedStream.value
      ensures preCreatedStream.None? ==> stream == CreatedStream(newStreamId, filter, true)
      ensures currentStream == Some(stream) && currentOutput == Some(output)
      ensures captureRequested == !addOutputThrows
    {
      if preCreatedStream.Some? {
        stream := preCreatedStream.value;
      } else {
        stream := CreatedStream(newStreamId, filter, true);
      }
      currentOutput := Some(output);
      currentStream := Some(stream);
      captureRequested := !addOutputThrows;
    }

    /** `stopCapture`: nothing happens without a current stream; otherwise that stream is
        stopped, both references are dropped and the picker is deactivated. */
    method StopCapture() returns (stopped: Option<Stream>, deactivated: bool)
      requires Valid()
      modifies this`currentStream, this`currentOutput
      ensures Valid()
      ensures stopped == old(currentStream)
      ensures deactivated <==> old(currentStream).Some?
      ensures old(currentStream).None? ==> currentOutput == old(currentOutput) && currentStream == None
      ensures old(currentStream).Some? ==> currentStream == None && currentOutput == None
    {
      if currentStream.None? {
        return None, false;
      }
      stopped := currentStream;
      currentStream := None;
      currentOutput := None;
      deactivated := true;
    }

    /** `sendAudioAmplitudes`: nothing is delivered without a sink; otherwise the sink
        receives one array holding the same values in the same order. */
    method SendAudioAmplitudes(amplitudes: seq<real>) returns (delivery: Option<(Sink, seq<Number>)>)
      ensures delivery.Some? <==> eventSink.Some?
      ensures delivery.Some? ==>
                delivery.value.0 == eventSink.value && |delivery.value.1| == |amplitudes| &&
                forall i :: 0 <= i < |amplitudes| ==> delivery.value.1[i].value == amplitudes[i]
    {
      if eventSink.None? {
        return None;
      }
      var asNumbers := seq(|amplitudes|, i requires 0 <= i < |amplitudes| => Number(amplitudes[i]));
      return Some((eventSink.value, asNumbers));
    }

    /** The private stream output's `stream(_:didOutputSampleBuffer:of:)`: only valid audio
        buffers are turned into amplitudes, and those go to `sendAudioAmplitudes`. */
    method OnSampleBuffer(outputType: OutputType, isValid: bool, formatOk: bool,
                          created: Option<PcmEncoder.PcmBuffer>)
      returns (delivery: Option<(Sink, seq<Number>)>)
      requires created.Some? ==> PcmEncoder.WellFormed(created.value)
      ensures delivery.Some? <==>
                outputType == Audio && isValid && formatOk && eventSink.Some? &&
                created.Some? && created.value.floatChannelData.Some? &&
                |created.value.floatChannelData.value| > 0
      ensures delivery.Some? ==>
                delivery.value.0 == eventSink.value &&
                |delivery.value.1| == created.value.frameLength &&
                forall i :: 0 <= i < |delivery.value.1| ==>
                  delivery.value.1[i].value == created.value.floatChannelData.value[0][i]
    {
      if outputType != Audio || !isValid {
        return None;
      }
      var amplitudes := CreateFloatAmplitudes(formatOk, created);
      if amplitudes.None? {
        return None;
      }
      delivery := SendAudioAmplitudes(amplitudes.value);
    }
  }
}
