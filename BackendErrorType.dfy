/** `MT::Core::BackendError` (src/core/BackendErrorType.hpp): the error enum that
    `AudioBackend::Create` returns, a second declaration of the same eight
    codes as `MT::Core::Audio::BackendError`, with its own `to_string`. */
module BackendErrorType {
  import opened Numeric
  import opened Wrappers
  import AudioTypes

  /** NONE = 0 … RENDER_CLIENT = 7, one code per step of `Create`. */
  datatype BackendError =
    | NONE | COM_INIT | DEVICE_ENUM | DEVICE | CLIENT_ACTIVE | FORMAT | CLIENT_INIT | RENDER_CLIENT
  {
    function Code(): (c: uint8)
      ensures c <= 7
    {
      match this
      case NONE => 0
      case COM_INIT => 1
      case DEVICE_ENUM => 2
      case DEVICE => 3
      case CLIENT_ACTIVE => 4
      case FORMAT => 5
      case CLIENT_INIT => 6
      case RENDER_CLIENT => 7
    }
  }

  function FromCode(c: uint8): (r: Option<BackendError>)
    ensures r.Some? <==> c <= 7
    ensures r.Some? ==> r.value.Code() == c
  {
    if c == 0 then Some(NONE)
    else if c == 1 then Some(COM_INIT)
    else if c == 2 then Some(DEVICE_ENUM)
    else if c == 3 then Some(DEVICE)
    else if c == 4 then Some(CLIENT_ACTIVE)
    else if c == 5 then Some(FORMAT)
    else if c == 6 then Some(CLIENT_INIT)
    else if c == 7 then Some(RENDER_CLIENT)
    else None
  }

  /** `to_string(MT::Core::BackendError)`: the enumerator's name, `"unknown"`
      for a byte that names none. */
  function ToString(c: uint8): (s: string)
    ensures s == "unknown" <==> FromCode(c).None?
  {
    if c == 0 then "NONE"
    else if c == 1 then "COM_INIT"
    else if c == 2 then "DEVICE_ENUM"
    else if c == 3 then "DEVICE"
    else if c == 4 then "CLIENT_ACTIVE"
    else if c == 5 then "FORMAT"
    else if c == 6 then "CLIENT_INIT"
    else if c == 7 then "RENDER_CLIENT"
    else "unknown"
  }

  lemma CodeRoundTrip(e: BackendError)
    ensures FromCode(e.Code()) == Some(e)
  {
  }

  lemma ToStringInjective(a: uint8, b: uint8)
    requires a <= 7 && b <= 7
    requires ToString(a) == ToString(b)
    ensures a == b
  {
  }

  /** The two declarations of the enum agree: equal codes give equal names,
      and the same code denotes the same enumerator name. */
  lemma AgreesWithAudioTypes(c: uint8)
    ensures ToString(c) == AudioTypes.ErrorToString(c)
    ensures FromCode(c).Some? <==> AudioTypes.ErrorFromCode(c).Some?
  {
  }
}
