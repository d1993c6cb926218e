# Procedural Audio Engine: the render path, in Dafny

This project models the audio render path of Procedural-Audio-Engine, a small
C++ synthesiser that writes white noise into a WASAPI shared-mode output
stream. The model has four parts.

- **The WASAPI session** (`AudioBackend.dfy`). `AudioBackend` is a class with
  five nullable resource slots: the device enumerator, the device, the audio
  client, the mix format and the render client. It also has the cached buffer
  capacity `m_BufferFrameCount` and the playback state.
  - `Create` acquires the slots in a fixed order and stops at the first
    failure. Only the device, activation and mix-format failures roll back
    through `Shutdown`.
  - `Shutdown` releases whatever is non-null and always uninitialises COM.
  - The destructor calls `Shutdown` again.
  - `GetFramesAvailable`, `GetBuffer` and `ReleaseBuffer` do the frame
    accounting with the device.
  - Every COM/WASAPI call is an oracle: its outcome is a parameter. The calls
    whose order and number matter (acquisition attempts, releases, freeing
    the mix format, uninitialising COM, the buffer-size query, starting the
    stream, locking and unlocking the buffer, playback commands) are appended
    to the call log of a `Platform` object, so the model can count releases
    and check the order of calls. Queries whose only outcome is a value (the
    padding query, the format getter) are not logged.
- **The render tick and the key handler** (`Application.dfy`).
  - `Application::Update` borrows the device buffer (an `array<real>`). It
    fills frame after frame with a clamped noise sample at master gain, written
    to channel 0 and, when there are more channels, to channel 1. Then it hands
    the frames back.
  - `Application::OnKey` chooses a playback command from the key and the
    playback state.
  - The constructor starts playback.
- **Gain staging of one sound source** (`Sound.dfy`): a volume clamped to
  [0, 1], an unbounded decibel trim and a mute flag, combined into the total
  gain and the output sample.
- **The error and state enums** with their `to_string` mappings
  (`AudioTypes.dfy`, `BackendErrorType.dfy`). `Numeric.dfy` holds the
  fixed-width integer types, `std::clamp` and unsigned 32-bit subtraction.
  `Wrappers.dfy` holds `Option` and `Result`.

The model follows the code, also where the code does less than its own
comments or names suggest:

- **`Shutdown` is not idempotent.** Its comment (src/core/AudioBackend.cpp:101-103)
  says the backend is no longer usable afterwards, but the method is `const`
  and clears no field (src/core/AudioBackend.cpp:105-119). After a `Create`
  failure that already rolled back, the destructor releases the same
  interfaces and uninitialises COM a second time
  (`AudioBackend.RollbackThenDestroyReleasesTwice`,
  `AudioBackend.FormatFailureLifetime`).
- **`Create` rolls back only after three failures.** Its comment
  (src/core/AudioBackend.cpp:14-15) says partially initialised resources are
  released on failure, but only the device, activation and mix-format
  failures call `Shutdown` (src/core/AudioBackend.cpp:48, 60, 69). After the
  COM-init, enumerator, client-init and render-client failures it returns
  holding what it has acquired.
- **`StartPlayback` neither checks for a created session nor sets the state to
  PLAYING** (src/core/AudioBackend.cpp:127-137). It dereferences the audio
  client unchecked and writes only the cached capacity; no modelled code
  writes `m_State` (src/core/AudioBackend.hpp:49).
- **The render tick mixes no `Sound` objects** (src/Application.cpp:42-57). It
  scales one noise draw per frame by `m_MasterVolume × 10^(m_MasterVolumeDB / 20)`.
  The master volume is not clamped in `Application` itself.
- **`AsDecibels` is `log10(g)`, without the factor 20**
  (src/Utilities/Utils.hpp:19-22), so it is not the inverse of `AsGain`.

The key handler's `K` does nothing while the stream is PAUSED
(src/Application.cpp:89-96): it stops only a playing stream.

Two enums share the name `BackendError`: `MT::Core::BackendError` in
src/core/BackendErrorType.hpp and `MT::Core::Audio::BackendError` in
src/core/audio/AudioTypes.hpp. `Create` returns the first one, so the backend
model uses `BackendErrorType.BackendError`. `BackendErrorType.AgreesWithAudioTypes`
proves that the two give the same names for the same codes.

## Model

| member | source | states |
|---|---|---|
| Numeric.Clamp | src/Application.cpp:52 | `std::clamp`: the result lies in [lo, hi], is `v` inside the range and the nearer bound outside it |
| Numeric.WrappingSub | src/core/AudioBackend.cpp:231 | unsigned 32-bit subtraction: the plain difference when `b <= a`, the difference plus 2^32 otherwise |
| AudioTypes.BackendError.Code | src/core/audio/AudioTypes.hpp:6-16 | the error codes are 0..7 |
| AudioTypes.ErrorFromCode | src/core/audio/AudioTypes.hpp:6-16 | a byte names an error exactly when it is at most 7, and the error named has that code |
| AudioTypes.ErrorCodeRoundTrip | src/core/audio/AudioTypes.hpp:6-16 | every error is recovered from its code, so the codes are distinct |
| AudioTypes.ErrorToString | src/core/audio/AudioTypes.hpp:18-41 | `to_string` gives "unknown" exactly for the bytes that name no enumerator |
| AudioTypes.ErrorToStringInjective | src/core/audio/AudioTypes.hpp:18-41 | distinct declared error codes get distinct names |
| AudioTypes.PlaybackState.Code | src/core/audio/AudioTypes.hpp:43-48 | the state codes are 0..2 |
| AudioTypes.StateFromCode | src/core/audio/AudioTypes.hpp:43-48 | a byte names a state exactly when it is at most 2, and the state named has that code |
| AudioTypes.StateCodeRoundTrip | src/core/audio/AudioTypes.hpp:43-48 | every state is recovered from its code |
| AudioTypes.StateToString | src/core/audio/AudioTypes.hpp:50-63 | `to_string` gives "unknown" exactly for the bytes that name no state |
| AudioTypes.StateToStringInjective | src/core/audio/AudioTypes.hpp:50-63 | the three states get distinct names |
| BackendErrorType.BackendError.Code | src/core/BackendErrorType.hpp:5-15 | the error codes are 0..7 |
| BackendErrorType.FromCode | src/core/BackendErrorType.hpp:5-15 | a byte names an error exactly when it is at most 7, and the error named has that code |
| BackendErrorType.CodeRoundTrip | src/core/BackendErrorType.hpp:5-15 | every error is recovered from its code |
| BackendErrorType.ToString | src/core/BackendErrorType.hpp:17-40 | `to_string` gives "unknown" exactly for the bytes that name no enumerator |
| BackendErrorType.ToStringInjective | src/core/BackendErrorType.hpp:17-40 | distinct declared codes get distinct names |
| BackendErrorType.AgreesWithAudioTypes | src/core/BackendErrorType.hpp:17-40 | for every byte both `to_string` overloads give the same string, and both enums declare the same codes |
| AudioBackend.Step.Error | src/core/AudioBackend.cpp:24-93 | a failing step never reports NONE |
| AudioBackend.ErrorCodesFollowPipeline | src/core/AudioBackend.cpp:20-95 | the step at position `i` of the pipeline fails with code `i + 1`: the codes follow the order of the steps |
| AudioBackend.FirstFailure | src/core/AudioBackend.cpp:20-95 | the search finds a failing step with every earlier step successful, or finds none and every step succeeds |
| AudioBackend.FailingStep | src/core/AudioBackend.cpp:20-95 | the step where `Create` stops: every step before it succeeds, and it fails unless it is past the end |
| AudioBackend.FailingStepIsFirstFailure | src/core/AudioBackend.cpp:20-95 | the stopping step is the first failing step of the pipeline |
| AudioBackend.CreateError | src/core/AudioBackend.cpp:20-95 | the result is NONE exactly when no step fails |
| AudioBackend.StepsAttempted | src/core/AudioBackend.cpp:20-95 | `Create` performs between one and seven steps |
| AudioBackend.CreateSucceedsIff | src/core/AudioBackend.cpp:20-95 | `Create` returns NONE exactly when all seven steps succeed |
| AudioBackend.CreateErrorIsFirstFailure | src/core/AudioBackend.cpp:20-95 | `Create` returns step `i`'s code exactly when step `i` fails and every earlier step succeeded |
| AudioBackend.AudioBackend.Create | src/core/AudioBackend.cpp:20-95 | the returned code is that of the first failure, the slots hold what the performed steps acquired, capacity and state are unchanged, and the call log grows by the attempted steps and the rollback |
| AudioBackend.RollbackOnlyOnMiddleSteps | src/core/AudioBackend.cpp:24-93 | `Create` uninitialises COM exactly when it fails at DEVICE, CLIENT_ACTIVE or FORMAT, and releases nothing after any other outcome |
| AudioBackend.FormatFailureFromFresh | src/core/AudioBackend.cpp:64-71 | a FORMAT failure on a fresh backend makes five attempts, then releases the audio client, the device and the enumerator, but no render client, and uninitialises COM; no mix format is left held |
| AudioBackend.AudioBackend.Shutdown | src/core/AudioBackend.cpp:105-119 | releases render client, audio client, device and enumerator and frees the mix format, each only when held and in that order, then uninitialises COM; changes no backend field |
| AudioBackend.ShutdownReleasesHeld | src/core/AudioBackend.cpp:105-119 | `Shutdown` releases each held slot exactly once and no slot that is not held |
| AudioBackend.ShutdownUninitializesOnceLast | src/core/AudioBackend.cpp:105-119 | `Shutdown` uninitialises COM exactly once, as its last call |
| AudioBackend.AttemptsReleaseNothing | src/core/AudioBackend.cpp:20-95 | the acquisition calls of `Create` release nothing and uninitialise nothing |
| AudioBackend.AudioBackend.constructor | src/core/AudioBackend.hpp:42-49 | a new backend holds no slot, has capacity 0 and is STOPPED |
| AudioBackend.AudioBackend.Destroy | src/core/AudioBackend.hpp:22 | the destructor always runs `Shutdown` on the slots currently held |
| AudioBackend.RollbackThenDestroyReleasesTwice | src/core/AudioBackend.hpp:22 | after a failure that rolls back, the destructor releases the enumerator a second time and uninitialises COM a second time |
| AudioBackend.FormatFailureLifetime | src/core/AudioBackend.hpp:22 | construct, fail `Create` at the mix format, destroy: the enumerator is released twice and COM is uninitialised twice |
| AudioBackend.AudioBackend.StartPlayback | src/core/AudioBackend.cpp:127-137 | the stream is started only when the buffer-size query succeeds, the capacity then holds the queried size, and the state is not touched |
| AudioBackend.AudioBackend.Issue | src/core/AudioBackend.hpp:28-30 | stopping, pausing and resuming is recorded as a request, with no promise about the state it leaves |
| AudioBackend.AudioBackend.GetPlaybackState | src/core/AudioBackend.hpp:32 | reports the stored playback state |
| AudioBackend.AudioBackend.GetFormat | src/core/AudioBackend.cpp:145-153 | null exactly when no mix format is held, otherwise the held format |
| AudioBackend.AudioBackend.FramesAvailable | src/core/AudioBackend.cpp:218-232 | an error exactly without audio client, with capacity 0 or when the padding query fails; otherwise capacity minus padding modulo 2^32: with padding up to the capacity the plain difference, at most the capacity, and 0 (no error) when the buffer is full; a padding above the capacity wraps to a count above the capacity |
| AudioBackend.AudioBackend.AcquiredBuffer | src/core/AudioBackend.cpp:165-189 | a region is handed out exactly with a render client, available frames and a successful lock; it then carries the available count, and every failure yields the empty buffer |
| AudioBackend.AudioBackend.AcquireTrace | src/core/AudioBackend.cpp:165-189 | the device lock is attempted exactly with a render client and available frames, and for the available count |
| AudioBackend.AudioBackend.GetBuffer | src/core/AudioBackend.cpp:165-189 | returns the buffer described by `AcquiredBuffer` and makes only the lock call of `AcquireTrace`; changes no backend field |
| AudioBackend.AudioBackend.ReleaseBuffer | src/core/AudioBackend.cpp:196-206 | a no-op without render client; otherwise hands back exactly the given frame count |
| Sound.Sound.constructor | src/core/audio/Sound.cpp:10-13 | a new sound has volume `clamp(v, 0, 1)`, trim 0 dB and is unmuted, so its volume lies in [0, 1]; the argument defaults to volume 1, as declared at src/core/audio/Sound.h:9 |
| Sound.Sound.SetVolume | src/core/audio/Sound.cpp:21-25 | the volume becomes `clamp(v, 0, 1)`; trim and mute flag are unchanged |
| Sound.Sound.GetVolume | src/core/audio/Sound.cpp:27-30 | the volume lies in [0, 1] |
| Sound.Sound.GetVolumeAsDB | src/core/audio/Sound.cpp:32-35 | the volume through `AsDecibels` |
| Sound.Sound.Mute | src/core/audio/Sound.cpp:37-40 | sets the mute flag; volume and trim are unchanged, so the volume stays in [0, 1] |
| Sound.Sound.UnMute | src/core/audio/Sound.cpp:42-45 | clears the mute flag; volume and trim are unchanged, so the volume stays in [0, 1] |
| Sound.Sound.IsMuted | src/core/audio/Sound.cpp:47-50 | reports the mute flag |
| Sound.Sound.SetDBLevel | src/core/audio/Sound.cpp:52-55 | stores the trim unclamped; volume and mute flag are unchanged, so the volume stays in [0, 1] |
| Sound.Sound.GetDBLevel | src/core/audio/Sound.cpp:57-60 | reports the stored trim |
| Sound.Sound.GetDBAsGain | src/core/audio/Sound.cpp:62-65 | the trim through `AsGain` |
| Sound.Sound.TotalGain | src/core/audio/Sound.cpp:67-70 | 0 while muted, whatever the volume and trim; otherwise volume times the trim's gain |
| Sound.TotalGainWithinTrim | src/core/audio/Sound.cpp:67-70 | with a non-negative trim gain the total gain is non-negative and at most the trim gain |
| Sound.Sound.TotalDBLevel | src/core/audio/Sound.cpp:72-75 | the trim plus the volume in decibels |
| Sound.Sound.GetBuffer | src/core/audio/Sound.cpp:16-19 | a generator draw in [-1, 1) times the total gain: its magnitude is at most a non-negative total gain, and it is 0 while muted |
| Application.Sample | src/Application.cpp:47-52 | every sample lies in [-1, 1] |
| Application.SampleClamps | src/Application.cpp:47-52 | a sample is the scaled draw when that lies in [-1, 1], and the nearer bound otherwise |
| Application.FrameSamples | src/Application.cpp:42-57 | one sample per frame, each in [-1, 1] |
| Application.FrameSamplesAt | src/Application.cpp:47-52 | frame `i`'s sample is the clamped, scaled draw `i` |
| Application.Rendered | src/Application.cpp:42-57 | the buffer keeps its length as frames are written |
| Application.RenderedAt | src/Application.cpp:53-55 | after `n` frames, an index in channel 0 or 1 of a frame below `n` holds that frame's sample, and every other index keeps its old value |
| Application.RenderedBeyond | src/Application.cpp:42-57 | no index from `frames × nChannels` on is touched |
| Application.RenderedFrame | src/Application.cpp:53-55 | within frame `i`, channels 0 and 1 hold frame `i`'s sample and every further channel keeps its value |
| Application.RenderedInRange | src/Application.cpp:42-57 | every index that changes lies below `frames × nChannels` and holds a value in [-1, 1] |
| Application.RenderedStereoEqual | src/Application.cpp:53-55 | with more than one channel, channels 0 and 1 of a frame hold the identical sample |
| Application.Application.RenderFrame | src/Application.cpp:47-55 | one loop iteration writes the clamped, scaled draw to channel 0 and, with more than one channel, to channel 1, and nothing else |
| Application.Application.FillFrames | src/Application.cpp:42-57 | the frame loop leaves the buffer as `Rendered` describes for all `frames` frames |
| Application.Application.Update | src/Application.cpp:20-59 | without a format nothing is acquired; with no buffer or zero frames nothing is written or released; otherwise the buffer is locked and released once with the same frame count, and its contents are as `Rendered` describes |
| Application.KeyCommand | src/Application.cpp:71-97 | only presses act; `P` selects a command exactly when not STOPPED, `K` exactly when not PAUSED, and other keys select none |
| Application.KeyCommandFollowsTable | src/Application.cpp:81-96 | a key selects a command exactly when it is pressed and (key, state, command) is one of the four rows P/PLAYING/Pause, P/PAUSED/Resume, K/PLAYING/Stop, K/STOPPED/Start |
| Application.StartOnlyWhenStopped | src/Application.cpp:89-96 | only a stopped stream is started, and a stopped stream is never paused or resumed |
| Application.Application.OnKey | src/Application.cpp:71-97 | Escape asks to close the window; a key that selects nothing changes nothing; starting queries the capacity and starts the stream and leaves the playback state as it was; stop, pause and resume are issued as requested |
| Application.Application.constructor | src/Application.cpp:10-18 | master volume 1 and master trim 0 dB, then the backend starts playback |

## Left out

- Logging: every `std::cerr`/`std::println` line is left out.
- The window, the UI (`Application::Render`) and the GLFW callback glue are left out. Escape's request to close the window is the result of `OnKey`.
- Windows platform calls are oracles, not code. Each COM/WASAPI call becomes a success flag or an optional value. HRESULT values and reference counts are not modelled.
- A failing COM call is assumed to leave its output unchanged: a failing acquisition leaves its pointer null, so the slots record whether each call succeeded, and a failing `GetBufferSize` leaves `m_BufferFrameCount` as it was (src/core/AudioBackend.cpp:129). Nothing in the modelled sources guarantees either.
- Floating point: samples and gains are `real`. `float` rounding is not modelled, nor are overflow to infinity and NaN.
- Application.Sample: its bound [-1, 1] (and so `Application.RenderedInRange`) holds over reals only. In the source, a master trim `m_MasterVolumeDB` of 771 dB or more, which the UI allows (src/Application.cpp:66), makes `powf(10, dB / 20)` overflow to infinity (src/Application.cpp:48-49). With `m_MasterVolume` 0 the product is NaN, and `std::clamp` passes NaN through (src/Application.cpp:52), so NaN is written to the buffer.
- Sound.Sound.TotalGain: "0 while muted" holds over reals only. A muted sound with a trim of 771 dB or more computes `0.f × inf`, which is NaN (src/core/audio/Sound.cpp:69). The same holds for `Sound.Sound.GetBuffer` and `Sound.TotalGainWithinTrim`.
- `powf` and `log10f`: `AsGain` (src/Utilities/Utils.hpp:24-28), `AsDecibels` (src/Utilities/Utils.hpp:19-22) and the `powf(10, …)` in `Update` are functions passed in by the caller.
- Randomness: the generators' draws are supplied by the caller, one per frame in `Update` and one per call in `Sound::GetBuffer`. The generator that `GenerateSample` shares between all `Sound` instances is not modelled.
- The 1 ms `sleep_for` on an empty buffer is a timing effect only, so it is not modelled.
- AudioBackend.AudioBackend.Issue: `StopPlayback`, `PausePlayback` and `ResumePlayback` have no bodies in the modelled sources. The model records the request and assumes that the three commands change at most the playback state: the slots and `m_BufferFrameCount` are kept, which `Application.Application.OnKey` passes on. It promises nothing about the playback state they leave.
- AudioBackend.AudioBackend.AcquiredBuffer: when 0 frames are available (padding equal to the capacity) and the device lock succeeds, the source returns its uninitialised local `data` pointer with 0 frames (src/core/AudioBackend.cpp:173, 177-184), because a 0-frame `GetBuffer` need not write it. The model hands out the locked region with 0 frames instead. `Update` behaves the same either way: it writes nothing and releases nothing.
- AudioBackend.AudioBackend.GetPlaybackState: it has no body in the modelled sources and is taken to return `m_State`.
- AudioBackend.AudioBackend.StartPlayback: it uses the audio client without a null check, so the model requires the client to be held. Without it, the source's behaviour is undefined.
- Application.Application.Update: the index `i * nChannels` is computed on unbounded integers, so a `uint32_t` wrap-around of the product is not modelled. The model requires the written region, `frames × nChannels` values, to fit inside the buffer.
- Application.Application.FillFrames: it is a `while` loop over frames, equivalent to the source's `for` loop. The loop body is the separate method `RenderFrame`.
- A device format is assumed to have at least one channel.
- Multi-source mixing is not modelled, because no code in the modelled sources sums several `Sound`s.
- src/core/Application.cpp and src/core/Application.hpp are not part of this model. They are an older stub of the application class.
