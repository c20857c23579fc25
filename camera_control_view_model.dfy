/** The camera-control screen's view model
    (presentation/cameracontrol/CameraControlViewModel.kt): a torch flag that
    follows successful torch calls, and error events. */
module CameraControl {
  import opened Kotlin
  import opened Preferences
  import opened Cameras
  import opened UseCases

  datatype UiEvent = Error(message: string)

  /** A call of the torch use case: which camera, and the state asked for. */
  datatype TorchRequest = TorchRequest(cameraId: string, enabled: bool)

  const TorchFailedMessage: string := "Failed to toggle torch"

  /** The torch flag after one toggle whose manager call throws `thrown`:
      flipped on success, kept on failure. */
  function TorchAfter(enabled: bool, thrown: Option<Exception>): (r: bool)
    ensures r != enabled <==> thrown.None?
  {
    if SetTorchMode(thrown).Success? then !enabled else enabled
  }

  /** The flag after a run of toggles. */
  function TorchAfterAll(enabled: bool, outcomes: seq<Option<Exception>>): (r: bool)
    decreases |outcomes|
  {
    if outcomes == [] then enabled else TorchAfterAll(TorchAfter(enabled, outcomes[0]), outcomes[1..])
  }

  /** The number of toggles whose call succeeded. */
  function Successes(outcomes: seq<Option<Exception>>): (n: nat)
    ensures n <= |outcomes|
  {
    if outcomes == [] then 0 else (if outcomes[0].None? then 1 else 0) + Successes(outcomes[1..])
  }

  /** Failed calls never move the flag: after any run of toggles it is on
      exactly when it started on and an even number of calls succeeded, or
      started off and an odd number did. */
  lemma {:induction false} TorchTracksSuccesses(enabled: bool, outcomes: seq<Option<Exception>>)
    ensures TorchAfterAll(enabled, outcomes) == (if Successes(outcomes) % 2 == 0 then enabled else !enabled)
    decreases |outcomes|
  {
    if outcomes != [] {
      TorchTracksSuccesses(TorchAfter(enabled, outcomes[0]), outcomes[1..]);
    }
  }

  class CameraControlViewModel {
    const switchCamera: SwitchCameraUseCase
    var torchEnabled: bool
    /** Calls made to the torch use case, oldest first. */
    var torchRequests: seq<TorchRequest>
    /** UI events emitted, oldest first. */
    var events: seq<UiEvent>

    constructor (switchCamera: SwitchCameraUseCase)
      ensures this.switchCamera == switchCamera
      ensures !torchEnabled && torchRequests == [] && events == []
    {
      this.switchCamera := switchCamera;
      torchEnabled := false;
      torchRequests := [];
      events := [];
    }

    /** `switchCamera`: an event only when the use case fails, with
        "Failed to switch camera" as the default message. */
    method SwitchCamera(camera: string, fault: Option<Exception>)
      requires switchCamera.settings.Valid()
      modifies this`events, switchCamera.settings
      ensures switchCamera.settings.Valid()
      ensures FindCameraId(switchCamera.cameras, camera).Some? && fault.None? ==>
                switchCamera.settings.prefs == old(switchCamera.settings.prefs)[CameraKey := StringPref(camera)]
      ensures FindCameraId(switchCamera.cameras, camera).None? || fault.Some? ==>
                switchCamera.settings.prefs == old(switchCamera.settings.prefs)
      ensures FindCameraId(switchCamera.cameras, camera).Some? && fault.None? ==> events == old(events)
      ensures FindCameraId(switchCamera.cameras, camera).None? ==>
                events == old(events) + [Error("Camera not found: " + camera)]
      ensures FindCameraId(switchCamera.cameras, camera).Some? && fault.Some? ==>
                events == old(events) + [Error(MessageOr(fault.value, "Failed to switch camera"))]
    {
      var result := switchCamera.Invoke(camera, fault);
      if result.Failure? {
        events := events + [Error(FailureMessageOr(result, "Failed to switch camera"))];
      }
    }

    /** `toggleTorch`: asks the torch use case for the opposite of the
        current state; on success the flag takes that state, on failure the
        flag stays and an Error event is emitted. */
    method ToggleTorch(cameraId: string, thrown: Option<Exception>)
      modifies this`torchEnabled, this`torchRequests, this`events
      ensures torchRequests == old(torchRequests) + [TorchRequest(cameraId, !old(torchEnabled))]
      ensures torchEnabled == TorchAfter(old(torchEnabled), thrown)
      ensures thrown.None? ==> events == old(events)
      ensures thrown.Some? ==> events == old(events) + [Error(TorchFailedMessage)]
    {
      var newState := !torchEnabled;
      torchRequests := torchRequests + [TorchRequest(cameraId, newState)];
      var result := SetTorchMode(thrown);
      if result.Success? {
        torchEnabled := newState;
      } else {
        events := events + [Error(TorchFailedMessage)];
      }
    }
  }
}
