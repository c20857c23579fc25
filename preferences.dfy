/** The DataStore-backed preferences store (PreferencesManager.kt): a map
    from typed keys to values, two records read from it with defaults, and
    the `update*` edits. */
module Preferences {
  import opened Kotlin

  /** The preference keys (PreferenceKeys); each has a fixed type. */
  datatype Key = HostKey | PortKey | WidthKey | HeightKey | CameraKey | JpegQualityKey | FpsKey
               | UseAvcKey | AvcBitrateKey | IsStreamingKey | HttpsRunningKey

  /** The name each key is stored under. */
  function KeyName(k: Key): (name: string)
  {
    match k
    case HostKey => "host"
    case PortKey => "port"
    case WidthKey => "width"
    case HeightKey => "height"
    case CameraKey => "camera"
    case JpegQualityKey => "jpeg_quality"
    case FpsKey => "fps"
    case UseAvcKey => "use_avc"
    case AvcBitrateKey => "avc_bitrate"
    case IsStreamingKey => "is_streaming"
    case HttpsRunningKey => "https_running"
  }

  /** No two keys share a stored name, so a map over keys stands for the
      name-keyed DataStore file. */
  lemma KeyNamesDistinct(a: Key, b: Key)
    requires a != b
    ensures KeyName(a) != KeyName(b)
  {
  }

  /** A stored preference value; DataStore keys are typed. */
  datatype Pref = StringPref(s: string) | IntPref(i: Int32) | BoolPref(b: bool)

  type Store = map<Key, Pref>

  /** Every key this store writes holds a value of the key's declared type. */
  ghost predicate WellTyped(p: Store)
  {
    && (HostKey in p ==> p[HostKey].StringPref?)
    && (CameraKey in p ==> p[CameraKey].StringPref?)
    && (PortKey in p ==> p[PortKey].IntPref?)
    && (WidthKey in p ==> p[WidthKey].IntPref?)
    && (HeightKey in p ==> p[HeightKey].IntPref?)
    && (JpegQualityKey in p ==> p[JpegQualityKey].IntPref?)
    && (FpsKey in p ==> p[FpsKey].IntPref?)
    && (AvcBitrateKey in p ==> p[AvcBitrateKey].IntPref?)
    && (UseAvcKey in p ==> p[UseAvcKey].BoolPref?)
    && (IsStreamingKey in p ==> p[IsStreamingKey].BoolPref?)
    && (HttpsRunningKey in p ==> p[HttpsRunningKey].BoolPref?)
  }

  /** `preferences[key] ?: default` for a String key. */
  function StringOr(p: Store, key: Key, default: string): (r: string)
    ensures key in p && p[key].StringPref? ==> r == p[key].s
    ensures key !in p ==> r == default
  {
    if key in p && p[key].StringPref? then p[key].s else default
  }

  /** `preferences[key] ?: default` for an Int key. */
  function IntOr(p: Store, key: Key, default: Int32): (r: Int32)
    ensures key in p && p[key].IntPref? ==> r == p[key].i
    ensures key !in p ==> r == default
  {
    if key in p && p[key].IntPref? then p[key].i else default
  }

  /** `preferences[key] ?: default` for a Boolean key. */
  function BoolOr(p: Store, key: Key, default: bool): (r: bool)
    ensures key in p && p[key].BoolPref? ==> r == p[key].b
    ensures key !in p ==> r == default
  {
    if key in p && p[key].BoolPref? then p[key].b else default
  }

  /** `preferences[key]` for an Int key, null when absent. */
  function IntAt(p: Store, key: Key): (r: Option<Int32>)
    ensures r.Some? <==> key in p && p[key].IntPref?
    ensures r.Some? ==> r.value == p[key].i
  {
    if key in p && p[key].IntPref? then Some(p[key].i) else None
  }

  /** data/model/AppSettings.kt. */
  datatype AppSettings = AppSettings(host: string, port: Int32, camera: string, isStreaming: bool)

  const DefaultAppSettings: AppSettings := AppSettings("0.0.0.0", 4747, "back", false)

  /** data/model/StreamConfig.kt. */
  datatype StreamConfig = StreamConfig(width: Int32, height: Int32, jpegQuality: Int32, fps: Int32,
                                       useAvc: bool, avcBitrate: Option<Int32>)

  const DefaultStreamConfig: StreamConfig := StreamConfig(1080, 1920, 85, 60, false, None)

  /** appSettingsFlow's mapping of a snapshot: each field read with its default. */
  function AppSettingsOf(p: Store): (s: AppSettings)
    ensures HostKey in p && p[HostKey].StringPref? ==> s.host == p[HostKey].s
    ensures HostKey !in p ==> s.host == "0.0.0.0"
    ensures PortKey in p && p[PortKey].IntPref? ==> s.port == p[PortKey].i
    ensures PortKey !in p ==> s.port == 4747
    ensures CameraKey in p && p[CameraKey].StringPref? ==> s.camera == p[CameraKey].s
    ensures CameraKey !in p ==> s.camera == "back"
    ensures IsStreamingKey in p && p[IsStreamingKey].BoolPref? ==> s.isStreaming == p[IsStreamingKey].b
    ensures IsStreamingKey !in p ==> !s.isStreaming
  {
    AppSettings(StringOr(p, HostKey, DefaultAppSettings.host),
                IntOr(p, PortKey, DefaultAppSettings.port),
                StringOr(p, CameraKey, DefaultAppSettings.camera),
                BoolOr(p, IsStreamingKey, DefaultAppSettings.isStreaming))
  }

  /** streamConfigFlow's mapping of a snapshot: the bitrate has no default. */
  function StreamConfigOf(p: Store): (c: StreamConfig)
    ensures WidthKey in p && p[WidthKey].IntPref? ==> c.width == p[WidthKey].i
    ensures WidthKey !in p ==> c.width == 1080
    ensures HeightKey in p && p[HeightKey].IntPref? ==> c.height == p[HeightKey].i
    ensures HeightKey !in p ==> c.height == 1920
    ensures JpegQualityKey in p && p[JpegQualityKey].IntPref? ==> c.jpegQuality == p[JpegQualityKey].i
    ensures JpegQualityKey !in p ==> c.jpegQuality == 85
    ensures FpsKey in p && p[FpsKey].IntPref? ==> c.fps == p[FpsKey].i
    ensures FpsKey !in p ==> c.fps == 60
    ensures UseAvcKey in p && p[UseAvcKey].BoolPref? ==> c.useAvc == p[UseAvcKey].b
    ensures UseAvcKey !in p ==> !c.useAvc
    ensures c.avcBitrate.Some? <==> AvcBitrateKey in p && p[AvcBitrateKey].IntPref?
    ensures c.avcBitrate.Some? ==> c.avcBitrate.value == p[AvcBitrateKey].i
  {
    StreamConfig(IntOr(p, WidthKey, DefaultStreamConfig.width),
                 IntOr(p, HeightKey, DefaultStreamConfig.height),
                 IntOr(p, JpegQualityKey, DefaultStreamConfig.jpegQuality),
                 IntOr(p, FpsKey, DefaultStreamConfig.fps),
                 BoolOr(p, UseAvcKey, DefaultStreamConfig.useAvc),
                 IntAt(p, AvcBitrateKey))
  }

  /** What `dataStore.data` delivers: a snapshot, or a read that threw. */
  datatype Snapshot = Data(prefs: Store) | ReadFailed(error: Exception, isIOException: bool)

  /** The `.catch` of both flows: an IOException reads as the empty store,
      any other exception is rethrown. */
  function Caught(r: Snapshot): (res: Result<Store>)
    ensures r.Data? ==> res == Success(r.prefs)
    ensures r.ReadFailed? && r.isIOException ==> res == Success(map[])
    ensures r.ReadFailed? && !r.isIOException ==> res == Failure(r.error)
  {
    match r
    case Data(p) => Success(p)
    case ReadFailed(e, io) => if io then Success(map[]) else Failure(e)
  }

  /** appSettingsFlow. */
  function AppSettingsFlow(r: Snapshot): (res: Result<AppSettings>)
    ensures res.Success? <==> Caught(r).Success?
    ensures res.Success? ==> res.value == AppSettingsOf(Caught(r).value)
  {
    match Caught(r)
    case Success(p) => Success(AppSettingsOf(p))
    case Failure(e) => Failure(e)
  }

  /** streamConfigFlow. */
  function StreamConfigFlow(r: Snapshot): (res: Result<StreamConfig>)
    ensures res.Success? <==> Caught(r).Success?
    ensures res.Success? ==> res.value == StreamConfigOf(Caught(r).value)
  {
    match Caught(r)
    case Success(p) => Success(StreamConfigOf(p))
    case Failure(e) => Failure(e)
  }

  /** An empty store, or a read that fails with an IOException, yields every default. */
  lemma DefaultsWhenEmpty(e: Exception)
    ensures AppSettingsFlow(Data(map[])) == Success(DefaultAppSettings)
    ensures StreamConfigFlow(Data(map[])) == Success(DefaultStreamConfig)
    ensures AppSettingsFlow(ReadFailed(e, true)) == Success(DefaultAppSettings)
    ensures StreamConfigFlow(ReadFailed(e, true)) == Success(DefaultStreamConfig)
  {
  }

  /** updateStreamConfig's edit: five keys always, the bitrate only when it is not null. */
  function WithStreamConfig(p: Store, c: StreamConfig): (r: Store)
    ensures WellTyped(p) ==> WellTyped(r)
  {
    var q := p[WidthKey := IntPref(c.width)][HeightKey := IntPref(c.height)]
              [JpegQualityKey := IntPref(c.jpegQuality)][FpsKey := IntPref(c.fps)][UseAvcKey := BoolPref(c.useAvc)];
    if c.avcBitrate.Some? then q[AvcBitrateKey := IntPref(c.avcBitrate.value)] else q
  }

  /** updateAvcBitrate's edit: a null bitrate removes the key. */
  function WithAvcBitrate(p: Store, bitrate: Option<Int32>): (r: Store)
    ensures WellTyped(p) ==> WellTyped(r)
  {
    if bitrate.Some? then p[AvcBitrateKey := IntPref(bitrate.value)] else p - {AvcBitrateKey}
  }

  /** updateHost: read back by appSettingsFlow; nothing else changes. */
  lemma HostReadBack(p: Store, host: string)
    ensures AppSettingsOf(p[HostKey := StringPref(host)]) == AppSettingsOf(p).(host := host)
    ensures StreamConfigOf(p[HostKey := StringPref(host)]) == StreamConfigOf(p)
  {
  }

  /** updatePort: read back by appSettingsFlow; nothing else changes. */
  lemma PortReadBack(p: Store, port: Int32)
    ensures AppSettingsOf(p[PortKey := IntPref(port)]) == AppSettingsOf(p).(port := port)
    ensures StreamConfigOf(p[PortKey := IntPref(port)]) == StreamConfigOf(p)
  {
  }

  /** updateCamera: read back by appSettingsFlow; nothing else changes. */
  lemma CameraReadBack(p: Store, camera: string)
    ensures AppSettingsOf(p[CameraKey := StringPref(camera)]) == AppSettingsOf(p).(camera := camera)
    ensures StreamConfigOf(p[CameraKey := StringPref(camera)]) == StreamConfigOf(p)
  {
  }

  /** updateStreamingState: read back by appSettingsFlow; nothing else changes. */
  lemma StreamingStateReadBack(p: Store, isStreaming: bool)
    ensures AppSettingsOf(p[IsStreamingKey := BoolPref(isStreaming)]) == AppSettingsOf(p).(isStreaming := isStreaming)
    ensures StreamConfigOf(p[IsStreamingKey := BoolPref(isStreaming)]) == StreamConfigOf(p)
  {
  }

  /** updateJpegQuality: read back by streamConfigFlow; nothing else changes. */
  lemma JpegQualityReadBack(p: Store, quality: Int32)
    ensures StreamConfigOf(p[JpegQualityKey := IntPref(quality)]) == StreamConfigOf(p).(jpegQuality := quality)
    ensures AppSettingsOf(p[JpegQualityKey := IntPref(quality)]) == AppSettingsOf(p)
  {
  }

  /** updateFps: read back by streamConfigFlow; nothing else changes. */
  lemma FpsReadBack(p: Store, fps: Int32)
    ensures StreamConfigOf(p[FpsKey := IntPref(fps)]) == StreamConfigOf(p).(fps := fps)
    ensures AppSettingsOf(p[FpsKey := IntPref(fps)]) == AppSettingsOf(p)
  {
  }

  /** updateUseAvc: read back by streamConfigFlow; nothing else changes. */
  lemma UseAvcReadBack(p: Store, useAvc: bool)
    ensures StreamConfigOf(p[UseAvcKey := BoolPref(useAvc)]) == StreamConfigOf(p).(useAvc := useAvc)
    ensures AppSettingsOf(p[UseAvcKey := BoolPref(useAvc)]) == AppSettingsOf(p)
  {
  }

  /** updateResolution changes the width and the height only. */
  lemma ResolutionReadBack(p: Store, width: Int32, height: Int32)
    ensures StreamConfigOf(p[WidthKey := IntPref(width)][HeightKey := IntPref(height)])
            == StreamConfigOf(p).(width := width, height := height)
    ensures AppSettingsOf(p[WidthKey := IntPref(width)][HeightKey := IntPref(height)]) == AppSettingsOf(p)
  {
  }

  /** The HTTPS-running flag is stored but read by neither record. */
  lemma HttpsRunningNotRead(p: Store, running: bool)
    ensures AppSettingsOf(p[HttpsRunningKey := BoolPref(running)]) == AppSettingsOf(p)
    ensures StreamConfigOf(p[HttpsRunningKey := BoolPref(running)]) == StreamConfigOf(p)
  {
  }

  /** updateAvcBitrate(null) makes the bitrate read back as null; a bitrate is read back as written. */
  lemma AvcBitrateReadBack(p: Store, bitrate: Option<Int32>)
    ensures StreamConfigOf(WithAvcBitrate(p, bitrate)) == StreamConfigOf(p).(avcBitrate := bitrate)
    ensures AppSettingsOf(WithAvcBitrate(p, bitrate)) == AppSettingsOf(p)
  {
  }

  /** After updateStreamConfig(c) with a bitrate, the configuration reads back as c. */
  lemma StreamConfigRoundTrip(p: Store, c: StreamConfig)
    requires c.avcBitrate.Some?
    ensures StreamConfigOf(WithStreamConfig(p, c)) == c
  {
  }

  /** updateStreamConfig(c) with a null bitrate leaves whatever bitrate was
      stored before, so the configuration does not read back as c. */
  lemma NullBitrateKeepsStored(p: Store, c: StreamConfig)
    requires c.avcBitrate.None?
    ensures StreamConfigOf(WithStreamConfig(p, c)) == c.(avcBitrate := StreamConfigOf(p).avcBitrate)
  {
  }

  /** updateStreamConfig leaves the app settings as they were. */
  lemma StreamConfigLeavesAppSettings(p: Store, c: StreamConfig)
    ensures AppSettingsOf(WithStreamConfig(p, c)) == AppSettingsOf(p)
  {
  }

  /** The store: the map the DataStore file holds. */
  class PreferencesManager {
    var prefs: Store

    ghost predicate Valid()
      reads this
    {
      WellTyped(prefs)
    }

    /** A manager over the store as it was persisted. */
    constructor (persisted: Store)
      requires WellTyped(persisted)
      ensures Valid() && prefs == persisted
    {
      prefs := persisted;
    }

    method UpdateHost(host: string)
      requires Valid()
      modifies this
      ensures Valid() && prefs == old(prefs)[HostKey := StringPref(host)]
    {
      prefs := prefs[HostKey := StringPref(host)];
    }

    method UpdatePort(port: Int32)
      requires Valid()
      modifies this
      ensures Valid() && prefs == old(prefs)[PortKey := IntPref(port)]
    {
      prefs := prefs[PortKey := IntPref(port)];
    }

    method UpdateCamera(camera: string)
      requires Valid()
      modifies this
      ensures Valid() && prefs == old(prefs)[CameraKey := StringPref(camera)]
    {
      prefs := prefs[CameraKey := StringPref(camera)];
    }

    method UpdateStreamingState(isStreaming: bool)
      requires Valid()
      modifies this
      ensures Valid() && prefs == old(prefs)[IsStreamingKey := BoolPref(isStreaming)]
    {
      prefs := prefs[IsStreamingKey := BoolPref(isStreaming)];
    }

    method UpdateHttpsRunningState(isRunning: bool)
      requires Valid()
      modifies this
      ensures Valid() && prefs == old(prefs)[HttpsRunningKey := BoolPref(isRunning)]
    {
      prefs := prefs[HttpsRunningKey := BoolPref(isRunning)];
    }

    method UpdateStreamConfig(config: StreamConfig)
      requires Valid()
      modifies this
      ensures Valid() && prefs == WithStreamConfig(old(prefs), config)
    {
      prefs := WithStreamConfig(prefs, config);
    }

    method UpdateResolution(width: Int32, height: Int32)
      requires Valid()
      modifies this
      ensures Valid() && prefs == old(prefs)[WidthKey := IntPref(width)][HeightKey := IntPref(height)]
    {
      prefs := prefs[WidthKey := IntPref(width)];
      prefs := prefs[HeightKey := IntPref(height)];
    }

    method UpdateJpegQuality(quality: Int32)
      requires Valid()
      modifies this
      ensures Valid() && prefs == old(prefs)[JpegQualityKey := IntPref(quality)]
    {
      prefs := prefs[JpegQualityKey := IntPref(quality)];
    }

    method UpdateFps(fps: Int32)
      requires Valid()
      modifies this
      ensures Valid() && prefs == old(prefs)[FpsKey := IntPref(fps)]
    {
      prefs := prefs[FpsKey := IntPref(fps)];
    }

    method UpdateUseAvc(useAvc: bool)
      requires Valid()
      modifies this
      ensures Valid() && prefs == old(prefs)[UseAvcKey := BoolPref(useAvc)]
    {
      prefs := prefs[UseAvcKey := BoolPref(useAvc)];
    }

    method UpdateAvcBitrate(bitrate: Option<Int32>)
      requires Valid()
      modifies this
      ensures Valid() && prefs == WithAvcBitrate(old(prefs), bitrate)
    {
      prefs := WithAvcBitrate(prefs, bitrate);
    }
  }
}
