/** The stream-state repository (StreamRepository.kt): a single state record
    that every update replaces wholesale. */
module StreamStates {
  import opened Kotlin

  /** `StreamState`, with the data class's default for every field. */
  datatype StreamState = StreamState(
    isActive: bool := false,
    host: string := "",
    port: Int32 := 0,
    camera: string := "",
    error: Option<string> := None)

  /** The state with its error cleared: `copy(error = null)`. */
  function Cleared(s: StreamState): (r: StreamState)
    ensures r.error == None
    ensures r.isActive == s.isActive && r.host == s.host && r.port == s.port && r.camera == s.camera
  {
    s.(error := None)
  }

  /** Clearing twice is clearing once. */
  lemma ClearedIdempotent(s: StreamState)
    ensures Cleared(Cleared(s)) == Cleared(s)
  {
  }

  /** A state without an error is not changed by clearing it. */
  lemma ClearedWithoutError(s: StreamState)
    requires s.error == None
    ensures Cleared(s) == s
  {
  }

  class StreamRepository {
    var state: StreamState

    constructor ()
      ensures state == StreamState(false, "", 0, "", None)
    {
      state := StreamState();
    }

    /** Replaces the whole record; an argument left out takes its default,
        never the value the old state had. */
    method UpdateStreamState(isActive: bool, host: string := "", port: Int32 := 0,
                             camera: string := "", error: Option<string> := None)
      modifies this
      ensures state == StreamState(isActive, host, port, camera, error)
    {
      state := StreamState(isActive := isActive, host := host, port := port, camera := camera, error := error);
    }

    method ClearError()
      modifies this
      ensures state == Cleared(old(state))
    {
      state := Cleared(state);
    }
  }

  /** `updateStreamState(isActive = false)` after any state yields the initial
      state: nothing of the old host, port, camera or error survives. */
  method UpdateForgetsOldState(repo: StreamRepository)
    modifies repo
    ensures repo.state == StreamState(false, "", 0, "", None)
  {
    repo.UpdateStreamState(false);
  }
}
