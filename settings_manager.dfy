/** The in-memory settings holder (SettingsManager.kt): one field per setting,
    each overwritten by its own setter, and a process-wide instance. */
module Settings {
  import opened Kotlin

  /** `value.coerceIn(lo, hi)`: the nearest value of [lo, hi]. */
  function CoerceIn(value: Int32, lo: Int32, hi: Int32): (r: Int32)
    requires lo <= hi
    ensures lo <= r <= hi
    ensures lo <= value <= hi ==> r == value
    ensures value < lo ==> r == lo
    ensures hi < value ==> r == hi
  {
    if value < lo then lo else if hi < value then hi else value
  }

  /** Clamping a clamped value changes nothing, so `setFocus` applied to the
      current focus leaves it as it is. */
  lemma CoerceInIdempotent(value: Int32, lo: Int32, hi: Int32)
    requires lo <= hi
    ensures CoerceIn(CoerceIn(value, lo, hi), lo, hi) == CoerceIn(value, lo, hi)
  {
  }

  const MinFocus: Int32 := 0
  const MaxFocus: Int32 := 100

  class SettingsManager {
    var isStreaming: bool
    var httpsRunning: bool
    var camera: string
    var port: Int32
    var width: Int32
    var height: Int32
    var fps: Int32
    var jpegQuality: Int32
    var useAvc: bool
    /** Bitrate in kbps for the AVC path; -1 means not set. */
    var avcBitrate: Int32
    var host: string
    var torchEnabled: bool
    var autoFocus: bool
    var exposure: Int32
    /** Manual focus, always within 0..100. */
    var focus: Int32
    var autoExposure: bool

    /** The focus clamp is the one invariant the setters keep. */
    ghost predicate Valid()
      reads this
    {
      MinFocus <= focus <= MaxFocus
    }

    /** The values a fresh instance starts with. */
    ghost predicate Defaults()
      reads this
    {
      && !isStreaming && !httpsRunning && camera == "back"
      && port == 4747 && width == 1080 && height == 1920 && fps == 30
      && jpegQuality == 85 && !useAvc && avcBitrate == -1 && host == "0.0.0.0"
      && !torchEnabled && autoFocus && exposure == 0 && focus == 0 && autoExposure
    }

    constructor ()
      ensures Defaults() && Valid()
    {
      isStreaming := false;
      httpsRunning := false;
      camera := "back";
      port := 4747;
      width := 1080;
      height := 1920;
      fps := 30;
      jpegQuality := 85;
      useAvc := false;
      avcBitrate := -1;
      host := "0.0.0.0";
      torchEnabled := false;
      autoFocus := true;
      exposure := 0;
      focus := 0;
      autoExposure := true;
    }

    method SetStreaming(value: bool)
      modifies this`isStreaming
      ensures isStreaming == value
    {
      isStreaming := value;
    }

    method SetCamera(value: string)
      modifies this`camera
      ensures camera == value
    {
      camera := value;
    }

    method SetPort(value: Int32)
      modifies this`port
      ensures port == value
    {
      port := value;
    }

    method SetWidth(value: Int32)
      modifies this`width
      ensures width == value
    {
      width := value;
    }

    method SetHeight(value: Int32)
      modifies this`height
      ensures height == value
    {
      height := value;
    }

    method SetFps(value: Int32)
      modifies this`fps
      ensures fps == value
    {
      fps := value;
    }

    method SetJpegQuality(value: Int32)
      modifies this`jpegQuality
      ensures jpegQuality == value
    {
      jpegQuality := value;
    }

    method SetUseAvc(value: bool)
      modifies this`useAvc
      ensures useAvc == value
    {
      useAvc := value;
    }

    method SetAvcBitrate(value: Int32)
      modifies this`avcBitrate
      ensures avcBitrate == value
    {
      avcBitrate := value;
    }

    method SetHost(value: string)
      modifies this`host
      ensures host == value
    {
      host := value;
    }

    method SetTorchEnabled(value: bool)
      modifies this`torchEnabled
      ensures torchEnabled == value
    {
      torchEnabled := value;
    }

    method SetAutoFocus(value: bool)
      modifies this`autoFocus
      ensures autoFocus == value
    {
      autoFocus := value;
    }

    method SetExposure(value: Int32)
      modifies this`exposure
      ensures exposure == value
    {
      exposure := value;
    }

    /** Stores the value clamped to 0..100: in range it is kept, below it
        becomes 0, above it becomes 100. */
    method SetFocus(value: Int32)
      modifies this`focus
      ensures Valid()
      ensures focus == CoerceIn(value, MinFocus, MaxFocus)
    {
      focus := CoerceIn(value, MinFocus, MaxFocus);
    }

    method SetAutoExposure(value: bool)
      modifies this`autoExposure
      ensures autoExposure == value
    {
      autoExposure := value;
    }
  }

  /** The companion object's `INSTANCE` slot. */
  class SettingsHolder {
    var instance: SettingsManager?

    constructor ()
      ensures instance == null
    {
      instance := null;
    }

    /** `getInstance`: the stored instance once there is one; otherwise a
        new instance with the default values, which is stored and returned. */
    method GetInstance() returns (m: SettingsManager)
      modifies this
      ensures instance == m
      ensures old(instance) != null ==> m == old(instance)
      ensures old(instance) == null ==> fresh(m) && m.Defaults() && m.Valid()
    {
      if instance == null {
        m := new SettingsManager();
        instance := m;
      } else {
        m := instance;
      }
    }
  }

  /** Two calls in a row hand out the same object. */
  method GetInstanceTwice(holder: SettingsHolder) returns (a: SettingsManager, b: SettingsManager)
    modifies holder
    ensures a == b && holder.instance == a
  {
    a := holder.GetInstance();
    b := holder.GetInstance();
  }
}
