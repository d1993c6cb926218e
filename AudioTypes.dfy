/** The enums of `MT::Core::Audio` (src/core/audio/AudioTypes.hpp) and their
    `to_string` overloads. Both enums are `enum class : uint8_t`, so a value of
    either type may hold any byte; the mappings are therefore modelled on the
    raw code, and `"unknown"` is the answer for every byte that names no
    enumerator. */
module AudioTypes {
  import opened Numeric
  import opened Wrappers

  /** Backend failure kinds, numbered in the order of the steps of
      `AudioBackend::Create` (NONE = 0 … RENDER_CLIENT = 7). */
  datatype BackendError =
    | NONE | COM_INIT | DEVICE_ENUM | DEVICE | CLIENT_ACTIVE | FORMAT | CLIENT_INIT | RENDER_CLIENT
  {
    /** The enumerator's underlying `uint8_t` value. */
    function Code(): (c: uint8)
      ensures c <= 7
    {
      match this
      case NONE => 0
      case COM_INIT => 1
      case DEVICE_ENUM => 2
      case DEVICE => 3
      case CLIENT_ACTIVE => 4
      case FORMAT => 5
      case CLIENT_INIT => 6
      case RENDER_CLIENT => 7
    }
  }

  /** The enumerator whose value is `c`, if there is one. */
  function ErrorFromCode(c: uint8): (r: Option<BackendError>)
    ensures r.Some? <==> c <= 7
    ensures r.Some? ==> r.value.Code() == c
  {
    if c == 0 then Some(NONE)
    else if c == 1 then Some(COM_INIT)
    else if c == 2 then Some(DEVICE_ENUM)
    else if c == 3 then Some(DEVICE)
    else if c == 4 then Some(CLIENT_ACTIVE)
    else if c == 5 then Some(FORMAT)
    else if c == 6 then Some(CLIENT_INIT)
    else if c == 7 then Some(RENDER_CLIENT)
    else None
  }

  /** `to_string(BackendError)`: each enumerator's own name; `"unknown"` for
      every other byte. */
  function ErrorToString(c: uint8): (s: string)
    ensures s == "unknown" <==> ErrorFromCode(c).None?
  {
    if c == 0 then "NONE"
    else if c == 1 then "COM_INIT"
    else if c == 2 then "DEVICE_ENUM"
    else if c == 3 then "DEVICE"
    else if c == 4 then "CLIENT_ACTIVE"
    else if c == 5 then "FORMAT"
    else if c == 6 then "CLIENT_INIT"
    else if c == 7 then "RENDER_CLIENT"
    else "unknown"
  }

  /** Lifecycle state of the playback stream (STOPPED = 0, PLAYING = 1, PAUSED = 2). */
  datatype PlaybackState = STOPPED | PLAYING | PAUSED
  {
    function Code(): (c: uint8)
      ensures c <= 2
    {
      match this
      case STOPPED => 0
      case PLAYING => 1
      case PAUSED => 2
    }
  }

  function StateFromCode(c: uint8): (r: Option<PlaybackState>)
    ensures r.Some? <==> c <= 2
    ensures r.Some? ==> r.value.Code() == c
  {
    if c == 0 then Some(STOPPED)
    else if c == 1 then Some(PLAYING)
    else if c == 2 then Some(PAUSED)
    else None
  }

  /** `to_string(PlaybackState)`: each state's own name; `"unknown"` for every
      other byte. */
  function StateToString(c: uint8): (s: string)
    ensures s == "unknown" <==> StateFromCode(c).None?
  {
    if c == 0 then "STOPPED"
    else if c == 1 then "PLAYING"
    else if c == 2 then "PAUSED"
    else "unknown"
  }

  /** Every enumerator is recovered from its code, so distinct enumerators have
      distinct codes. */
  lemma ErrorCodeRoundTrip(e: BackendError)
    ensures ErrorFromCode(e.Code()) == Some(e)
  {
  }

  lemma StateCodeRoundTrip(p: PlaybackState)
    ensures StateFromCode(p.Code()) == Some(p)
  {
  }

  /** Distinct declared error codes have distinct names. */
  lemma ErrorToStringInjective(a: uint8, b: uint8)
    requires a <= 7 && b <= 7
    requires ErrorToString(a) == ErrorToString(b)
    ensures a == b
  {
  }

  /** Distinct declared states have distinct names. */
  lemma StateToStringInjective(a: uint8, b: uint8)
    requires a <= 2 && b <= 2
    requires StateToString(a) == StateToString(b)
    ensures a == b
  {
  }
}
