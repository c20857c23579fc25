/** The main screen's view model (presentation/main/MainViewModel.kt): each
    action runs a use case and then, depending on its result, sends a command
    intent to the stream service and emits a UI event. Sent intents and
    emitted events are the two output streams. */
module MainScreen {
  import opened Kotlin
  import opened Intents
  import opened Preferences
  import opened Cameras
  import opened StreamStates
  import opened UseCases
  import Service

  datatype UiEvent = StreamStarted | StreamStopped | Error(message: string)

  /** The ACTION_START intent `startStreaming` sends; the bitrate extra is
      attached only when there is a bitrate. */
  function StartIntent(host: string, port: Int32, width: Int32, height: Int32, camera: string,
                       jpegQuality: Int32, fps: Int32, useAvc: bool, avcBitrate: Option<Int32>): (i: Intent)
    ensures i.action == Some(ACTION_START)
    ensures i.GetStringExtra(ExtraHost) == Some(host) && i.GetIntExtra(ExtraPort, 0) == port
    ensures i.GetIntExtra(ExtraWidth, 0) == width && i.GetIntExtra(ExtraHeight, 0) == height
    ensures i.GetStringExtra(ExtraCamera) == Some(camera)
    ensures i.GetIntExtra(ExtraJpegQuality, 0) == jpegQuality && i.GetIntExtra(ExtraTargetFps, 0) == fps
    ensures ExtraUseAvc in i.extras && i.extras[ExtraUseAvc] == BoolExtra(useAvc)
    ensures ExtraAvcBitrate in i.extras <==> avcBitrate.Some?
    ensures avcBitrate.Some? ==> i.extras[ExtraAvcBitrate] == IntExtra(avcBitrate.value)
  {
    var extras := map[ExtraHost := StringExtra(host), ExtraPort := IntExtra(port),
                      ExtraWidth := IntExtra(width), ExtraHeight := IntExtra(height),
                      ExtraCamera := StringExtra(camera), ExtraJpegQuality := IntExtra(jpegQuality),
                      ExtraTargetFps := IntExtra(fps), ExtraUseAvc := BoolExtra(useAvc)];
    Intent(Some(ACTION_START),
           if avcBitrate.Some? then extras[ExtraAvcBitrate := IntExtra(avcBitrate.value)] else extras)
  }

  /** The stream service reads back from that intent the host, port and
      resolution the user asked for. */
  lemma StartIntentReachesService(host: string, port: Int32, width: Int32, height: Int32, camera: string,
                                  jpegQuality: Int32, fps: Int32, useAvc: bool, avcBitrate: Option<Int32>)
    ensures Service.StartRequestOf(StartIntent(host, port, width, height, camera, jpegQuality, fps, useAvc, avcBitrate))
            == Service.StartRequest(host, port, width, height)
  {
  }

  /** The ACTION_SET_CAMERA intent `switchCamera` sends. */
  function SetCameraIntent(camera: string): (i: Intent)
    ensures i.action == Some(ACTION_SET_CAMERA)
    ensures i.GetStringExtra(ExtraCamera) == Some(camera)
  {
    WithAction(ACTION_SET_CAMERA).PutExtra(ExtraCamera, StringExtra(camera))
  }

  class MainViewModel {
    const startStream: StartStreamUseCase
    const stopStream: StopStreamUseCase
    const switchCamera: SwitchCameraUseCase
    /** Intents sent to the stream service, oldest first. */
    var intents: seq<Intent>
    /** UI events emitted, oldest first. */
    var events: seq<UiEvent>

    constructor (startStream: StartStreamUseCase, stopStream: StopStreamUseCase, switchCamera: SwitchCameraUseCase)
      ensures this.startStream == startStream && this.stopStream == stopStream && this.switchCamera == switchCamera
      ensures intents == [] && events == []
    {
      this.startStream := startStream;
      this.stopStream := stopStream;
      this.switchCamera := switchCamera;
      intents := [];
      events := [];
    }

    /** `startStreaming`: the service is started and StreamStarted emitted
        only when the use case succeeds; otherwise only an Error event, whose
        message defaults to "Failed to start stream". */
    method StartStreaming(host: string, port: Int32, width: Int32, height: Int32, camera: string,
                          jpegQuality: Int32, fps: Int32, useAvc: bool, avcBitrate: Option<Int32>,
                          fault: Option<StartFault>)
      requires startStream.settings.Valid()
      modifies this`intents, this`events, startStream.settings, startStream.streams
      ensures startStream.settings.Valid()
      ensures startStream.settings.prefs ==
                StartEdits(old(startStream.settings.prefs), host, port, camera,
                           StreamConfig(width, height, jpegQuality, fps, useAvc, avcBitrate), WritesCompleted(fault))
      ensures fault.None? ==>
                && startStream.streams.state == StreamState(true, host, port, camera, None)
                && intents == old(intents) + [StartIntent(host, port, width, height, camera, jpegQuality, fps, useAvc, avcBitrate)]
                && events == old(events) + [StreamStarted]
      ensures fault.Some? ==>
                && startStream.streams.state == StartFailedState(fault.value.error)
                && intents == old(intents)
                && events == old(events) + [Error(MessageOr(fault.value.error, "Failed to start stream"))]
    {
      var config := StreamConfig(width, height, jpegQuality, fps, useAvc, avcBitrate);
      var result := startStream.Invoke(host, port, camera, config, fault);
      Report(result, StartIntent(host, port, width, height, camera, jpegQuality, fps, useAvc, avcBitrate),
             StreamStarted, "Failed to start stream");
    }

    /** The common tail of the use-case calls: on success send `intent` and
        emit `done`, on failure only an Error event. */
    method Report(result: Result<()>, intent: Intent, done: UiEvent, default: string)
      modifies this`intents, this`events
      ensures result.Success? ==> intents == old(intents) + [intent] && events == old(events) + [done]
      ensures result.Failure? ==>
                intents == old(intents) && events == old(events) + [Error(FailureMessageOr(result, default))]
    {
      if result.Success? {
        intents := intents + [intent];
        events := events + [done];
      } else {
        events := events + [Error(FailureMessageOr(result, default))];
      }
    }

    /** `stopStreaming`: whatever the use case returns, ACTION_STOP is sent
        and StreamStopped emitted. */
    method StopStreaming(fault: Option<Exception>)
      requires stopStream.settings.Valid()
      modifies this`intents, this`events, stopStream.settings, stopStream.streams
      ensures stopStream.settings.Valid()
      ensures fault.None? ==>
                && stopStream.settings.prefs == old(stopStream.settings.prefs)[IsStreamingKey := BoolPref(false)]
                && stopStream.streams.state == StreamState(false, "", 0, "", None)
      ensures fault.Some? ==>
                stopStream.settings.prefs == old(stopStream.settings.prefs) && stopStream.streams.state == old(stopStream.streams.state)
      ensures intents == old(intents) + [WithAction(ACTION_STOP)]
      ensures events == old(events) + [StreamStopped]
    {
      var _ := stopStream.Invoke(fault);
      intents := intents + [WithAction(ACTION_STOP)];
      events := events + [StreamStopped];
    }

    /** `switchCamera`: ACTION_SET_CAMERA with the selector is sent only when
        the use case succeeds, and then no event is emitted; otherwise only
        an Error event, whose message defaults to "Failed to switch camera". */
    method SwitchCamera(camera: string, fault: Option<Exception>)
      requires switchCamera.settings.Valid()
      modifies this`intents, this`events, switchCamera.settings
      ensures switchCamera.settings.Valid()
      ensures FindCameraId(switchCamera.cameras, camera).Some? && fault.None? ==>
                switchCamera.settings.prefs == old(switchCamera.settings.prefs)[CameraKey := StringPref(camera)]
      ensures FindCameraId(switchCamera.cameras, camera).None? || fault.Some? ==>
                switchCamera.settings.prefs == old(switchCamera.settings.prefs)
      ensures FindCameraId(switchCamera.cameras, camera).Some? && fault.None? ==>
                intents == old(intents) + [SetCameraIntent(camera)] && events == old(events)
      ensures FindCameraId(switchCamera.cameras, camera).None? ==>
                intents == old(intents) && events == old(events) + [Error("Camera not found: " + camera)]
      ensures FindCameraId(switchCamera.cameras, camera).Some? && fault.Some? ==>
                intents == old(intents) && events == old(events) + [Error(MessageOr(fault.value, "Failed to switch camera"))]
    {
      var result := switchCamera.Invoke(camera, fault);
      if result.Success? {
        intents := intents + [SetCameraIntent(camera)];
      } else {
        events := events + [Error(FailureMessageOr(result, "Failed to switch camera"))];
      }
    }
  }
}
