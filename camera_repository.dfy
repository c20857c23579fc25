/** Camera lookups (CameraRepository.kt) over an abstract camera manager:
    the list of camera ids and each camera's characteristics. */
module Cameras {
  import opened Kotlin

  /** CameraCharacteristics.LENS_FACING_* as the platform defines them. */
  const LENS_FACING_FRONT: int := 0
  const LENS_FACING_BACK: int := 1
  const LENS_FACING_EXTERNAL: int := 2

  /** The characteristics the repository reads; each may be absent (null). */
  datatype Characteristics = Characteristics(
    lensFacing: Option<int>,
    flashAvailable: Option<bool>,
    focalLengths: Option<seq<real>>)

  /** The camera manager as the repository sees it: `cameraIdList`, which
      may throw, and `getCameraCharacteristics`, which throws for an id
      missing from the map. */
  datatype CameraSystem = CameraSystem(
    idList: Result<seq<string>>,
    characteristics: map<string, Characteristics>)

  /** `CameraInfo`. */
  datatype CameraInfo = CameraInfo(id: string, displayName: string, facing: string, focalLength: Option<string>)

  /** `lowercase()` on the ASCII letters. */
  function Lowercase(s: string): (r: string)
    ensures |r| == |s|
    ensures forall i :: 0 <= i < |s| && 'A' <= s[i] <= 'Z' ==> r[i] as int == s[i] as int + 32
    ensures forall i :: 0 <= i < |s| && !('A' <= s[i] <= 'Z') ==> r[i] == s[i]
  {
    seq(|s|, i requires 0 <= i < |s| => if 'A' <= s[i] <= 'Z' then (s[i] as int + 32) as char else s[i])
  }

  /** `ids.firstOrNull { facing of id == facing }`, where a lookup that throws
      before a match is found makes the whole search yield null. */
  function FirstFacing(ids: seq<string>, chars: map<string, Characteristics>, facing: int): (r: Option<string>)
    ensures r.Some? ==> r.value in ids && r.value in chars && chars[r.value].lensFacing == Some(facing)
  {
    if ids == [] || ids[0] !in chars then None
    else if chars[ids[0]].lensFacing == Some(facing) then Some(ids[0])
    else FirstFacing(ids[1..], chars, facing)
  }

  /** `ids[i]` is the first id in list order facing `facing`, and every id up
      to it could be looked up. */
  ghost predicate FirstMatchAt(ids: seq<string>, chars: map<string, Characteristics>, facing: int, i: int)
  {
    && 0 <= i < |ids|
    && (forall j :: 0 <= j <= i ==> ids[j] in chars)
    && chars[ids[i]].lensFacing == Some(facing)
    && (forall j :: 0 <= j < i ==> chars[ids[j]].lensFacing != Some(facing))
  }

  lemma MatchShifts(ids: seq<string>, chars: map<string, Characteristics>, facing: int, i: int)
    requires 1 <= i && ids != [] && ids[0] in chars && chars[ids[0]].lensFacing != Some(facing)
    ensures FirstMatchAt(ids, chars, facing, i) <==> FirstMatchAt(ids[1..], chars, facing, i - 1)
  {
    if FirstMatchAt(ids[1..], chars, facing, i - 1) {
      forall j | 0 <= j <= i
        ensures ids[j] in chars
      {
        if j > 0 {
          assert ids[j] == ids[1..][j - 1];
        }
      }
      forall j | 0 <= j < i
        ensures chars[ids[j]].lensFacing != Some(facing)
      {
        if j > 0 {
          assert ids[j] == ids[1..][j - 1];
        }
      }
    }
  }

  /** The search finds exactly the first camera in list order with the
      requested facing, and nothing when a lookup fails before it. */
  lemma {:induction false} FirstFacingIsFirst(ids: seq<string>, chars: map<string, Characteristics>, facing: int, id: string)
    ensures FirstFacing(ids, chars, facing) == Some(id) <==> exists i :: FirstMatchAt(ids, chars, facing, i) && ids[i] == id
    decreases |ids|
  {
    if ids == [] {
    } else if ids[0] !in chars {
      assert forall i :: !FirstMatchAt(ids, chars, facing, i);
    } else if chars[ids[0]].lensFacing == Some(facing) {
      assert FirstMatchAt(ids, chars, facing, 0);
      assert forall i :: FirstMatchAt(ids, chars, facing, i) ==> i == 0;
    } else {
      FirstFacingIsFirst(ids[1..], chars, facing, id);
      assert !FirstMatchAt(ids, chars, facing, 0);
      forall i | 1 <= i {
        MatchShifts(ids, chars, facing, i);
      }
      if exists i :: FirstMatchAt(ids, chars, facing, i) && ids[i] == id {
        var i :| FirstMatchAt(ids, chars, facing, i) && ids[i] == id;
        assert ids[1..][i - 1] == id;
      }
      if exists k :: FirstMatchAt(ids[1..], chars, facing, k) && ids[1..][k] == id {
        var k :| FirstMatchAt(ids[1..], chars, facing, k) && ids[1..][k] == id;
        assert FirstMatchAt(ids, chars, facing, k + 1) && ids[k + 1] == id;
      }
    }
  }

  /** `findCameraId`: "back" and "front" (in any ASCII case) pick the first
      camera with that facing; any other selector is returned as given when
      it is one of the ids; a failure anywhere yields null. */
  function FindCameraId(sys: CameraSystem, selector: string): (r: Option<string>)
    ensures r.Some? ==> sys.idList.Success? && r.value in sys.idList.value
    ensures sys.idList.Failure? ==> r.None?
    ensures sys.idList.Success? && Lowercase(selector) != "back" && Lowercase(selector) != "front" ==>
              r == if selector in sys.idList.value then Some(selector) else None
  {
    match sys.idList
    case Failure(_) => None
    case Success(ids) =>
      var key := Lowercase(selector);
      if key == "back" then FirstFacing(ids, sys.characteristics, LENS_FACING_BACK)
      else if key == "front" then FirstFacing(ids, sys.characteristics, LENS_FACING_FRONT)
      else if selector in ids then Some(selector)
      else None
  }

  /** A selector reading "back" resolves to exactly the first back-facing
      camera; one reading "front" to the first front-facing one. */
  lemma FindFacingSelectsFirst(sys: CameraSystem, selector: string, id: string)
    requires sys.idList.Success?
    requires Lowercase(selector) == "back" || Lowercase(selector) == "front"
    ensures var facing := if Lowercase(selector) == "back" then LENS_FACING_BACK else LENS_FACING_FRONT;
            FindCameraId(sys, selector) == Some(id) <==>
              exists i :: FirstMatchAt(sys.idList.value, sys.characteristics, facing, i) && sys.idList.value[i] == id
  {
    var facing := if Lowercase(selector) == "back" then LENS_FACING_BACK else LENS_FACING_FRONT;
    FirstFacingIsFirst(sys.idList.value, sys.characteristics, facing, id);
  }

  /** The facing name `getAvailableCameras` shows. */
  function FacingName(lensFacing: Option<int>): (name: string)
    ensures name == "back" <==> lensFacing == Some(LENS_FACING_BACK)
    ensures name == "front" <==> lensFacing == Some(LENS_FACING_FRONT)
    ensures name == "external" <==> lensFacing == Some(LENS_FACING_EXTERNAL)
    ensures name == "unknown" <==> !(lensFacing.Some? && lensFacing.value in {LENS_FACING_BACK, LENS_FACING_FRONT, LENS_FACING_EXTERNAL})
  {
    match lensFacing
    case Some(f) =>
      if f == LENS_FACING_BACK then "back"
      else if f == LENS_FACING_FRONT then "front"
      else if f == LENS_FACING_EXTERNAL then "external"
      else "unknown"
    case None => "unknown"
  }

  /** One camera's entry; `format` stands for the "%.1fmm" formatting of the
      first focal length. */
  function InfoOf(id: string, c: Characteristics, format: real -> string): (info: CameraInfo)
    ensures info.id == id && info.facing == FacingName(c.lensFacing)
    ensures info.displayName == info.facing + " (" + id + ")"
    ensures info.focalLength.Some? <==> c.focalLengths.Some? && c.focalLengths.value != []
    ensures info.focalLength.Some? ==> info.focalLength.value == format(c.focalLengths.value[0])
  {
    var facing := FacingName(c.lensFacing);
    var focal := match c.focalLengths
      case Some(fs) => if fs == [] then None else Some(format(fs[0]))
      case None => None;
    CameraInfo(id, facing + " (" + id + ")", facing, focal)
  }

  /** Every listed id can be looked up. */
  predicate AllKnown(ids: seq<string>, chars: map<string, Characteristics>)
  {
    forall i | 0 <= i < |ids| :: ids[i] in chars
  }

  /** `getAvailableCameras`: one entry per id in list order, or the empty
      list when enumerating or any lookup throws. */
  function GetAvailableCameras(sys: CameraSystem, format: real -> string): (r: seq<CameraInfo>)
    ensures sys.idList.Failure? ==> r == []
    ensures sys.idList.Success? && !AllKnown(sys.idList.value, sys.characteristics) ==> r == []
    ensures sys.idList.Success? && AllKnown(sys.idList.value, sys.characteristics) ==>
              |r| == |sys.idList.value| &&
              forall i :: 0 <= i < |r| ==>
                r[i] == InfoOf(sys.idList.value[i], sys.characteristics[sys.idList.value[i]], format)
  {
    match sys.idList
    case Failure(_) => []
    case Success(ids) =>
      if AllKnown(ids, sys.characteristics) then
        seq(|ids|, i requires 0 <= i < |ids| && AllKnown(ids, sys.characteristics) =>
          InfoOf(ids[i], sys.characteristics[ids[i]], format))
      else []
  }

  /** The camera "back" resolves to is listed with facing "back" whenever
      the listing succeeds. */
  lemma BackCameraIsListedAsBack(sys: CameraSystem, selector: string, format: real -> string)
    requires Lowercase(selector) == "back"
    requires sys.idList.Success? && AllKnown(sys.idList.value, sys.characteristics)
    requires FindCameraId(sys, selector).Some?
    ensures exists i :: 0 <= i < |GetAvailableCameras(sys, format)| &&
              GetAvailableCameras(sys, format)[i].id == FindCameraId(sys, selector).value &&
              GetAvailableCameras(sys, format)[i].facing == "back"
  {
    var ids := sys.idList.value;
    var id := FindCameraId(sys, selector).value;
    FirstFacingIsFirst(ids, sys.characteristics, LENS_FACING_BACK, id);
    var i :| FirstMatchAt(ids, sys.characteristics, LENS_FACING_BACK, i) && ids[i] == id;
    assert GetAvailableCameras(sys, format)[i].id == id;
  }

  /** `isTorchAvailable`: true only when the camera can be looked up and
      reports a flash unit; a lookup that throws gives false. */
  function IsTorchAvailable(sys: CameraSystem, id: string): (r: bool)
    ensures r ==> id in sys.characteristics
    ensures id !in sys.characteristics ==> !r
    ensures id in sys.characteristics ==> (r <==> sys.characteristics[id].flashAvailable == Some(true))
  {
    id in sys.characteristics && sys.characteristics[id].flashAvailable == Some(true)
  }

  /** `setTorchMode`: the manager call either returns or throws `thrown`. */
  function SetTorchMode(thrown: Option<Exception>): (r: Result<()>)
    ensures r.Success? <==> thrown.None?
    ensures r.Failure? ==> r.error == thrown.value
  {
    match thrown
    case None => Success(())
    case Some(e) => Failure(e)
  }
}
