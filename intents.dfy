/** The slice of android.content.Intent the app uses to command the stream
    service: an action and typed extras read back with defaults. */
module Intents {
  import opened Kotlin

  const ACTION_START: string := "com.example.handycam.ACTION_START"
  const ACTION_STOP: string := "com.example.handycam.ACTION_STOP"
  const ACTION_SET_CAMERA: string := "com.example.handycam.ACTION_SET_CAMERA"

  /** The extra names the app puts into or reads from its intents. */
  datatype ExtraKey = ExtraHost | ExtraPort | ExtraWidth | ExtraHeight | ExtraCamera | ExtraJpegQuality | ExtraTargetFps | ExtraUseAvc | ExtraAvcBitrate

  /** The string each extra is stored under. */
  function ExtraName(k: ExtraKey): (name: string)
  {
    match k
    case ExtraHost => "host"
    case ExtraPort => "port"
    case ExtraWidth => "width"
    case ExtraHeight => "height"
    case ExtraCamera => "camera"
    case ExtraJpegQuality => "jpegQuality"
    case ExtraTargetFps => "targetFps"
    case ExtraUseAvc => "useAvc"
    case ExtraAvcBitrate => "avcBitrate"
  }

  /** No two extras share a name, so a map over ExtraKey stands for the
      name-keyed bundle. */
  lemma ExtraNamesDistinct(a: ExtraKey, b: ExtraKey)
    requires a != b
    ensures ExtraName(a) != ExtraName(b)
  {
  }

  /** An extra as `putExtra` stores it: the value keeps its type. */
  datatype Extra = StringExtra(s: string) | IntExtra(i: Int32) | BoolExtra(b: bool)

  datatype Intent = Intent(action: Option<string>, extras: map<ExtraKey, Extra>)
  {
    /** `putExtra(key, value)`: sets that key, keeps every other one. */
    function PutExtra(key: ExtraKey, value: Extra): (r: Intent)
      ensures r.action == action
      ensures key in r.extras && r.extras[key] == value
      ensures forall k :: k != key ==> (k in r.extras <==> k in extras)
      ensures forall k :: k != key && k in extras ==> r.extras[k] == extras[k]
    {
      Intent(action, extras[key := value])
    }

    /** `getStringExtra(key)`: null when the key is missing or holds another type. */
    function GetStringExtra(key: ExtraKey): (r: Option<string>)
      ensures r.Some? <==> key in extras && extras[key].StringExtra?
      ensures r.Some? ==> extras[key] == StringExtra(r.value)
    {
      if key in extras && extras[key].StringExtra? then Some(extras[key].s) else None
    }

    /** `getIntExtra(key, default)`: the default when the key is missing or holds another type. */
    function GetIntExtra(key: ExtraKey, default: Int32): (r: Int32)
      ensures key in extras && extras[key].IntExtra? ==> r == extras[key].i
      ensures !(key in extras && extras[key].IntExtra?) ==> r == default
    {
      if key in extras && extras[key].IntExtra? then extras[key].i else default
    }
  }

  /** An intent carrying only an action, as `Intent(context, cls).apply { action = … }` builds it. */
  function WithAction(action: string): (r: Intent)
    ensures r.action == Some(action) && r.extras == map[]
  {
    Intent(Some(action), map[])
  }
}
