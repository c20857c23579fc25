/** The domain use cases (the files under domain/usecase): fixed sequences of store
    writes and stream-state updates, with the exception path of each. An
    exception thrown by a store write is a `fault` parameter naming the write
    that throws; that write and every later one do not happen. */
module UseCases {
  import opened Kotlin
  import opened Preferences
  import opened StreamStates
  import opened Cameras

  /** The five store writes of StartStreamUseCase, in the order they run. */
  datatype StartWrite = SaveHost | SavePort | SaveCamera | SaveStreamConfig | SaveStreamingState

  /** The position of a write in that order. */
  function WriteIndex(w: StartWrite): (k: nat)
    ensures k < StartWriteCount
  {
    match w
    case SaveHost => 0
    case SavePort => 1
    case SaveCamera => 2
    case SaveStreamConfig => 3
    case SaveStreamingState => 4
  }

  const StartWriteCount: nat := 5

  /** A store write that throws, and what it throws. */
  datatype StartFault = StartFault(at: StartWrite, error: Exception)

  /** How many writes complete before the fault, if any. */
  function WritesCompleted(fault: Option<StartFault>): (n: nat)
    ensures n <= StartWriteCount
    ensures fault.None? <==> n == StartWriteCount
  {
    match fault
    case None => StartWriteCount
    case Some(f) => WriteIndex(f.at)
  }

  /** The store after the first `n` writes of StartStreamUseCase. */
  function StartEdits(p: Store, host: string, port: Int32, camera: string, config: StreamConfig, n: nat): (r: Store)
    requires n <= StartWriteCount
  {
    var p1 := if 1 <= n then p[HostKey := StringPref(host)] else p;
    var p2 := if 2 <= n then p1[PortKey := IntPref(port)] else p1;
    var p3 := if 3 <= n then p2[CameraKey := StringPref(camera)] else p2;
    var p4 := if 4 <= n then WithStreamConfig(p3, config) else p3;
    if 5 <= n then p4[IsStreamingKey := BoolPref(true)] else p4
  }

  /** After all five writes the app settings read back as the given host,
      port and camera, with streaming on. */
  lemma StartSavesAppSettings(p: Store, host: string, port: Int32, camera: string, config: StreamConfig)
    ensures AppSettingsOf(StartEdits(p, host, port, camera, config, StartWriteCount)) == AppSettings(host, port, camera, true)
  {
    var p1 := p[HostKey := StringPref(host)];
    var p2 := p1[PortKey := IntPref(port)];
    var p3 := p2[CameraKey := StringPref(camera)];
    var p4 := WithStreamConfig(p3, config);
    HostReadBack(p, host);
    PortReadBack(p1, port);
    CameraReadBack(p2, camera);
    StreamConfigLeavesAppSettings(p3, config);
    StreamingStateReadBack(p4, true);
  }

  /** After all five writes the stream configuration reads back as given when
      it carries a bitrate; a null bitrate keeps the one stored before. */
  lemma StartSavesStreamConfig(p: Store, host: string, port: Int32, camera: string, config: StreamConfig)
    ensures config.avcBitrate.Some? ==>
              StreamConfigOf(StartEdits(p, host, port, camera, config, StartWriteCount)) == config
    ensures config.avcBitrate.None? ==>
              StreamConfigOf(StartEdits(p, host, port, camera, config, StartWriteCount)) ==
              config.(avcBitrate := StreamConfigOf(p).avcBitrate)
  {
    var p1 := p[HostKey := StringPref(host)];
    var p2 := p1[PortKey := IntPref(port)];
    var p3 := p2[CameraKey := StringPref(camera)];
    var p4 := WithStreamConfig(p3, config);
    HostReadBack(p, host);
    PortReadBack(p1, port);
    CameraReadBack(p2, camera);
    StreamingStateReadBack(p4, true);
    if config.avcBitrate.Some? {
      StreamConfigRoundTrip(p3, config);
    } else {
      NullBitrateKeepsStored(p3, config);
    }
  }

  /** A fault does not roll back the writes that completed before it: each
      of host, port and camera reads back as given once its write ran. */
  lemma NoRollback(p: Store, host: string, port: Int32, camera: string, config: StreamConfig, n: nat)
    requires n <= StartWriteCount
    ensures 1 <= n ==> AppSettingsOf(StartEdits(p, host, port, camera, config, n)).host == host
    ensures 2 <= n ==> AppSettingsOf(StartEdits(p, host, port, camera, config, n)).port == port
    ensures 3 <= n ==> AppSettingsOf(StartEdits(p, host, port, camera, config, n)).camera == camera
    ensures n == 0 ==> StartEdits(p, host, port, camera, config, n) == p
  {
    var p1 := p[HostKey := StringPref(host)];
    var p2 := p1[PortKey := IntPref(port)];
    var p3 := p2[CameraKey := StringPref(camera)];
    var p4 := WithStreamConfig(p3, config);
    if 1 <= n {
      HostReadBack(p, host);
    }
    if 2 <= n {
      PortReadBack(p1, port);
    }
    if 3 <= n {
      CameraReadBack(p2, camera);
    }
    if 4 <= n {
      StreamConfigLeavesAppSettings(p3, config);
    }
    if 5 <= n {
      StreamingStateReadBack(p4, true);
    }
  }

  /** The stream state the catch block records. */
  function StartFailedState(e: Exception): (s: StreamState)
    ensures !s.isActive && s.host == "" && s.port == 0 && s.camera == ""
    ensures s.error == Some(MessageOr(e, "Failed to start stream"))
  {
    StreamState(false, "", 0, "", Some(MessageOr(e, "Failed to start stream")))
  }

  class StartStreamUseCase {
    const settings: PreferencesManager
    const streams: StreamRepository

    constructor (settings: PreferencesManager, streams: StreamRepository)
      ensures this.settings == settings && this.streams == streams
    {
      this.settings := settings;
      this.streams := streams;
    }

    /** `invoke`: saves host, port, camera, the configuration and the
        streaming flag, then records an active stream; an exception records
        an inactive stream carrying the exception's message and is returned. */
    method Invoke(host: string, port: Int32, camera: string, config: StreamConfig, fault: Option<StartFault>)
      returns (r: Result<()>)
      requires settings.Valid()
      modifies settings, streams
      ensures settings.Valid()
      ensures settings.prefs == StartEdits(old(settings.prefs), host, port, camera, config, WritesCompleted(fault))
      ensures fault.None? ==> r == Success(()) && streams.state == StreamState(true, host, port, camera, None)
      ensures fault.Some? ==> r == Failure(fault.value.error) && streams.state == StartFailedState(fault.value.error)
    {
      ghost var p := settings.prefs;
      var n := WritesCompleted(fault);
      label saving: {
        if n == 0 { break saving; }
        settings.UpdateHost(host);
        if n == 1 { break saving; }
        settings.UpdatePort(port);
        if n == 2 { break saving; }
        settings.UpdateCamera(camera);
        if n == 3 { break saving; }
        settings.UpdateStreamConfig(config);
        if n == 4 { break saving; }
        settings.UpdateStreamingState(true);
        streams.UpdateStreamState(true, host := host, port := port, camera := camera);
        return Success(());
      }
      var e := fault.value.error;
      streams.UpdateStreamState(false, error := Some(MessageOr(e, "Failed to start stream")));
      r := Failure(e);
    }
  }

  class StopStreamUseCase {
    const settings: PreferencesManager
    const streams: StreamRepository

    constructor (settings: PreferencesManager, streams: StreamRepository)
      ensures this.settings == settings && this.streams == streams
    {
      this.settings := settings;
      this.streams := streams;
    }

    /** `invoke`: turns the streaming flag off and resets the stream state to
        its defaults; when the store write throws, nothing changes and the
        exception is returned. */
    method Invoke(fault: Option<Exception>) returns (r: Result<()>)
      requires settings.Valid()
      modifies settings, streams
      ensures settings.Valid()
      ensures fault.None? ==>
                && r == Success(())
                && settings.prefs == old(settings.prefs)[IsStreamingKey := BoolPref(false)]
                && streams.state == StreamState(false, "", 0, "", None)
      ensures fault.Some? ==>
                r == Failure(fault.value) && settings.prefs == old(settings.prefs) && streams.state == old(streams.state)
    {
      if fault.Some? {
        return Failure(fault.value);
      }
      settings.UpdateStreamingState(false);
      streams.UpdateStreamState(false);
      r := Success(());
    }
  }

  /** The exception for a selector that names no camera. */
  function CameraNotFound(selector: string): (e: Exception)
    ensures e.message == Some("Camera not found: " + selector)
  {
    Exception(Some("Camera not found: " + selector))
  }

  class SwitchCameraUseCase {
    const settings: PreferencesManager
    const cameras: CameraSystem

    constructor (settings: PreferencesManager, cameras: CameraSystem)
      ensures this.settings == settings && this.cameras == cameras
    {
      this.settings := settings;
      this.cameras := cameras;
    }

    /** `invoke`: an unknown selector fails with "Camera not found: …" and
        stores nothing; otherwise the selector as given (not the id it
        resolved to) is stored and the resolved id returned, unless the store
        write throws. */
    method Invoke(selector: string, fault: Option<Exception>) returns (r: Result<string>)
      requires settings.Valid()
      modifies settings
      ensures settings.Valid()
      ensures FindCameraId(cameras, selector).None? ==>
                r == Failure(CameraNotFound(selector)) && settings.prefs == old(settings.prefs)
      ensures FindCameraId(cameras, selector).Some? && fault.Some? ==>
                r == Failure(fault.value) && settings.prefs == old(settings.prefs)
      ensures FindCameraId(cameras, selector).Some? && fault.None? ==>
                && r == Success(FindCameraId(cameras, selector).value)
                && settings.prefs == old(settings.prefs)[CameraKey := StringPref(selector)]
    {
      var cameraId := FindCameraId(cameras, selector);
      if cameraId.None? {
        return Failure(CameraNotFound(selector));
      }
      if fault.Some? {
        return Failure(fault.value);
      }
      settings.UpdateCamera(selector);
      r := Success(cameraId.value);
    }
  }

  /** The stored camera and the returned id can differ: "BACK" on a device
      whose only camera "0" faces back resolves to "0", while "BACK" is what
      the store keeps. */
  lemma StoredSelectorIsNotResolvedId()
    ensures var sys := CameraSystem(Success(["0"]), map["0" := Characteristics(Some(LENS_FACING_BACK), None, None)]);
            FindCameraId(sys, "BACK") == Some("0")
  {
    var sys := CameraSystem(Success(["0"]), map["0" := Characteristics(Some(LENS_FACING_BACK), None, None)]);
    assert Lowercase("BACK") == "back";
  }
}
