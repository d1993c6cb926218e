/** The WASAPI session of src/core/AudioBackend.hpp and AudioBackend.cpp.

    Every COM/WASAPI call is replaced by an oracle: its outcome (success or
    failure, and the value it hands back) is a parameter of the operation
    that makes the call. The calls whose order and number matter (the
    acquisition attempts, releasing an interface, freeing the mix format,
    uninitialising COM, the buffer-size query, starting the stream, locking
    and unlocking the device buffer, and the playback commands) are appended,
    in order, to the log of a `Platform` object that stands for the COM
    runtime and the audio engine. Queries whose only outcome is a value (the
    padding query, the mix-format getter) are not logged. The backend's own fields
    are five nullable resource slots, the cached buffer capacity and the
    playback state. */
module AudioBackend {
  import opened Numeric
  import opened Wrappers
  import opened BackendErrorType
  import AudioTypes

  type PlaybackState = AudioTypes.PlaybackState

  /** A channel count of a format the audio engine hands out: at least one. */
  type ChannelCount = c: uint16 | c >= 1 witness 1

  /** The negotiated stream format (`WAVEFORMATEX`); the render path reads
      only the channel count. */
  datatype WaveFormat = WaveFormat(nChannels: ChannelCount, nSamplesPerSec: uint32, wBitsPerSample: uint16)

  /** The four COM interface slots that `Shutdown` releases. */
  datatype Slot = RenderClientSlot | AudioClientSlot | DeviceSlot | EnumeratorSlot

  /** The acquisition steps of `Create`, in the order it performs them. */
  datatype Step =
    | InitCom            // CoInitializeEx
    | CreateEnumerator   // CoCreateInstance(MMDeviceEnumerator)
    | GetDefaultDevice   // IMMDeviceEnumerator::GetDefaultAudioEndpoint
    | ActivateClient     // IMMDevice::Activate(IAudioClient)
    | GetMixFormat       // IAudioClient::GetMixFormat
    | InitializeClient   // IAudioClient::Initialize (shared mode)
    | GetRenderClient    // IAudioClient::GetService(IAudioRenderClient)
  {
    /** The code `Create` returns when this step fails. */
    function Error(): (e: BackendError)
      ensures e != NONE
    {
      match this
      case InitCom => COM_INIT
      case CreateEnumerator => DEVICE_ENUM
      case GetDefaultDevice => DEVICE
      case ActivateClient => CLIENT_ACTIVE
      case GetMixFormat => FORMAT
      case InitializeClient => CLIENT_INIT
      case GetRenderClient => RENDER_CLIENT
    }
  }

  const Pipeline: seq<Step> :=
    [InitCom, CreateEnumerator, GetDefaultDevice, ActivateClient, GetMixFormat, InitializeClient, GetRenderClient]

  /** Commands of the backend whose bodies are not part of the model. */
  datatype PlaybackCommand = Start | Stop | Pause | Resume

  /** One logged call into the platform. */
  datatype Call =
    | Attempt(step: Step)
    | Release(slot: Slot)
    | FreeMixFormat
    | Uninitialize
    | QueryBufferSize
    | StartStream
    | LockBuffer(frames: uint32)
    | UnlockBuffer(frames: uint32)
    | Requested(command: PlaybackCommand)

  /** How many times `calls` releases `slot`. */
  function ReleaseCount(calls: seq<Call>, slot: Slot): nat {
    multiset(calls)[Release(slot)]
  }

  /** The COM runtime and audio engine, seen through the calls made to them. */
  class Platform {
    var calls: seq<Call>

    constructor()
      ensures calls == []
    {
      calls := [];
    }
  }

  /** The five nullable slots of a backend, as a value. */
  datatype Slots = Slots(enumerator: bool, device: bool, audioClient: bool,
                         mixFormat: Option<WaveFormat>, renderClient: bool)

  const NoSlots: Slots := Slots(false, false, false, None, false)

  /** The outcome of each platform call `Create` makes. A failing call leaves
      its output pointer null; `GetMixFormat` fails exactly when it yields no
      format. */
  datatype CreateOracle = CreateOracle(comInit: bool, enumerator: bool, device: bool,
                                       activate: bool, mixFormat: Option<WaveFormat>,
                                       initialize: bool, renderClient: bool)
  {
    predicate Succeeds(s: Step) {
      match s
      case InitCom => comInit
      case CreateEnumerator => enumerator
      case GetDefaultDevice => device
      case ActivateClient => activate
      case GetMixFormat => mixFormat.Some?
      case InitializeClient => initialize
      case GetRenderClient => renderClient
    }
  }

  /** The index of the first failing step of `Pipeline` at or after `from`. */
  function FirstFailure(o: CreateOracle, from: nat): (r: Option<nat>)
    requires from <= |Pipeline|
    ensures r.Some? ==> from <= r.value < |Pipeline| && !o.Succeeds(Pipeline[r.value])
    ensures r.Some? ==> forall j :: from <= j < r.value ==> o.Succeeds(Pipeline[j])
    ensures r.None? ==> forall j :: from <= j < |Pipeline| ==> o.Succeeds(Pipeline[j])
    decreases |Pipeline| - from
  {
    if from == |Pipeline| then None
    else if !o.Succeeds(Pipeline[from]) then Some(from)
    else FirstFailure(o, from + 1)
  }

  /** The first `k` steps of the pipeline succeed. */
  predicate SucceedsUpTo(o: CreateOracle, k: nat) {
    && (k > 0 ==> o.comInit)
    && (k > 1 ==> o.enumerator)
    && (k > 2 ==> o.device)
    && (k > 3 ==> o.activate)
    && (k > 4 ==> o.mixFormat.Some?)
    && (k > 5 ==> o.initialize)
    && (k > 6 ==> o.renderClient)
  }

  /** The step at which `Create` stops: the first one that fails, or
      `|Pipeline|` when none does. */
  function FailingStep(o: CreateOracle): (k: nat)
    ensures k <= |Pipeline| && SucceedsUpTo(o, k)
    ensures k < |Pipeline| ==> !o.Succeeds(Pipeline[k])
  {
    if !o.comInit then 0
    else if !o.enumerator then 1
    else if !o.device then 2
    else if !o.activate then 3
    else if o.mixFormat.None? then 4
    else if !o.initialize then 5
    else if !o.renderClient then 6
    else 7
  }

  /** `FailingStep` is what a search of the pipeline for its first failing
      step finds. */
  lemma FailingStepIsFirstFailure(o: CreateOracle)
    ensures FirstFailure(o, 0) == if FailingStep(o) < |Pipeline| then Some(FailingStep(o)) else None
  {
    var k := FailingStep(o);
    forall j | 0 <= j < k
      ensures o.Succeeds(Pipeline[j])
    {
    }
  }

  /** What `Create` returns: NONE when every step succeeds, else the code of
      the first step that fails. */
  function CreateError(o: CreateOracle): (e: BackendError)
    ensures e == NONE <==> FailingStep(o) == |Pipeline|
  {
    var k := FailingStep(o);
    if k < |Pipeline| then Pipeline[k].Error() else NONE
  }

  /** How many steps `Create` performs: up to and including the first failure. */
  function StepsAttempted(o: CreateOracle): (n: nat)
    ensures 1 <= n <= |Pipeline|
  {
    var k := FailingStep(o);
    if k < |Pipeline| then k + 1 else |Pipeline|
  }

  /** The failures after which `Create` runs `Shutdown` before returning. */
  predicate RollsBack(e: BackendError) {
    e == DEVICE || e == CLIENT_ACTIVE || e == FORMAT
  }

  /** The slots after `Create`: each step that is performed writes its slot
      (null when it fails); the others keep their value from `before`. */
  function CreatedSlots(o: CreateOracle, before: Slots): Slots {
    var k := FailingStep(o);
    Slots(if k >= 1 then o.enumerator else before.enumerator,
          if k >= 2 then o.device else before.device,
          if k >= 3 then o.activate else before.audioClient,
          if k >= 4 then o.mixFormat else before.mixFormat,
          if k >= 6 then o.renderClient else before.renderClient)
  }

  /** What `Shutdown` does with the slots `s`: release the render client, the
      audio client, the device and the enumerator, free the mix format, each
      only when present, and always uninitialise COM. */
  function ShutdownTrace(s: Slots): seq<Call> {
    When(s.renderClient, Release(RenderClientSlot))
    + When(s.audioClient, Release(AudioClientSlot))
    + When(s.device, Release(DeviceSlot))
    + When(s.enumerator, Release(EnumeratorSlot))
    + When(s.mixFormat.Some?, FreeMixFormat)
    + [Uninitialize]
  }

  /** The call `c` when `b` holds, else nothing. */
  function When(b: bool, c: Call): seq<Call> {
    if b then [c] else []
  }

  /** The first `n` steps of the pipeline, as the calls that attempt them. */
  function Attempts(n: nat): (t: seq<Call>)
    requires n <= |Pipeline|
    ensures |t| == n
  {
    seq(n, i requires 0 <= i < n => Attempt(Pipeline[i]))
  }

  /** The `Shutdown` that `Create` runs after a device, activation or
      mix-format failure, on the slots it has filled by then. */
  function RollbackTrace(o: CreateOracle, before: Slots): seq<Call> {
    if RollsBack(CreateError(o)) then ShutdownTrace(CreatedSlots(o, before)) else []
  }

  /** The platform calls `Create` makes, starting from the slots `before`. */
  function CreateTrace(o: CreateOracle, before: Slots): seq<Call> {
    Attempts(StepsAttempted(o)) + RollbackTrace(o, before)
  }

  /** The platform calls `StartPlayback` makes for a buffer-size query result. */
  function StartTrace(bufferSize: Option<uint32>): seq<Call> {
    [QueryBufferSize] + (if bufferSize.Some? then [StartStream] else [])
  }

  /** `AudioBuffer`: a borrowed region of device memory and its frame count.
      The default value is the empty buffer `{nullptr, 0}`. */
  datatype AudioBuffer = AudioBuffer(data: Option<array<real>>, frames: uint32)

  const EmptyBuffer: AudioBuffer := AudioBuffer(None, 0)

  class AudioBackend {
    /** The COM runtime this backend talks to. */
    const platform: Platform

    var holdsEnumerator: bool
    var holdsDevice: bool
    var holdsAudioClient: bool
    var mixFormat: Option<WaveFormat>
    var holdsRenderClient: bool

    /** `m_BufferFrameCount`: the buffer capacity cached by `StartPlayback`. */
    var bufferFrameCount: uint32
    var state: PlaybackState

    function HeldSlots(): Slots
      reads this
    {
      Slots(holdsEnumerator, holdsDevice, holdsAudioClient, mixFormat, holdsRenderClient)
    }

    /** A new backend holds nothing, has capacity 0 and is STOPPED. */
    constructor(platform: Platform)
      ensures this.platform == platform
      ensures HeldSlots() == NoSlots
      ensures bufferFrameCount == 0 && state == AudioTypes.STOPPED
    {
      this.platform := platform;
      holdsEnumerator, holdsDevice, holdsAudioClient := false, false, false;
      mixFormat, holdsRenderClient := None, false;
      bufferFrameCount := 0;
      state := AudioTypes.STOPPED;
    }

    /** The destructor: always runs `Shutdown`. */
    method Destroy()
      modifies platform
      ensures platform.calls == old(platform.calls) + ShutdownTrace(HeldSlots())
    {
      Shutdown();
    }

    /** Acquires the session step by step, returning at the first failure.
        Failures of the device, activation and mix-format steps roll back
        through `Shutdown`; the others return with what is already held.
        `performed` counts the acquisition calls made so far. */
    method Create(o: CreateOracle) returns (err: BackendError)
      modifies this, platform
      ensures err == CreateError(o)
      ensures HeldSlots() == CreatedSlots(o, old(HeldSlots()))
      ensures bufferFrameCount == old(bufferFrameCount) && state == old(state)
      ensures platform.calls == old(platform.calls) + Attempts(StepsAttempted(o)) + RollbackTrace(o, old(HeldSlots()))
    {
      var performed := 1;  // CoInitializeEx
      if !o.comInit {
        platform.calls := platform.calls + Attempts(performed);
        return COM_INIT;
      }
      performed := performed + 1;  // CoCreateInstance(MMDeviceEnumerator)
      holdsEnumerator := o.enumerator;
      if !o.enumerator {
        platform.calls := platform.calls + Attempts(performed);
        return DEVICE_ENUM;
      }
      performed := performed + 1;  // GetDefaultAudioEndpoint
      holdsDevice := o.device;
      if !o.device {
        platform.calls := platform.calls + Attempts(performed);
        Shutdown();
        return DEVICE;
      }
      performed := performed + 1;  // Activate(IAudioClient)
      holdsAudioClient := o.activate;
      if !o.activate {
        platform.calls := platform.calls + Attempts(performed);
        Shutdown();
        return CLIENT_ACTIVE;
      }
      performed := performed + 1;  // GetMixFormat
      mixFormat := o.mixFormat;
      if o.mixFormat.None? {
        platform.calls := platform.calls + Attempts(performed);
        Shutdown();
        return FORMAT;
      }
      performed := performed + 1;  // Initialize (shared mode)
      if !o.initialize {
        platform.calls := platform.calls + Attempts(performed);
        return CLIENT_INIT;
      }
      performed := performed + 1;  // GetService(IAudioRenderClient)
      holdsRenderClient := o.renderClient;
      if !o.renderClient {
        platform.calls := platform.calls + Attempts(performed);
        return RENDER_CLIENT;
      }
      platform.calls := platform.calls + Attempts(performed);
      return NONE;
    }

    /** Releases every slot that is non-null and uninitialises COM. Like the
        `const` original it clears no field, so a second call releases the
        same slots again. */
    method Shutdown()
      modifies platform
      ensures platform.calls == old(platform.calls) + ShutdownTrace(HeldSlots())
    {
      var released := When(holdsRenderClient, Release(RenderClientSlot));
      released := released + When(holdsAudioClient, Release(AudioClientSlot));
      released := released + When(holdsDevice, Release(DeviceSlot));
      released := released + When(holdsEnumerator, Release(EnumeratorSlot));
      released := released + When(mixFormat.Some?, FreeMixFormat);
      released := released + [Uninitialize];
      platform.calls := platform.calls + released;
    }

    /** Queries and caches the buffer capacity, then starts the stream; when
        the query fails the stream is not started. The audio client is used
        without a null check, so it must be held. */
    method StartPlayback(bufferSize: Option<uint32>)
      requires holdsAudioClient
      modifies this`bufferFrameCount, platform
      ensures bufferFrameCount == if bufferSize.Some? then bufferSize.value else old(bufferFrameCount)
      ensures platform.calls == old(platform.calls) + StartTrace(bufferSize)
    {
      platform.calls := platform.calls + [QueryBufferSize];
      if bufferSize.None? {
        return;
      }
      bufferFrameCount := bufferSize.value;
      platform.calls := platform.calls + [StartStream];
    }

    /** `StopPlayback`, `PausePlayback` and `ResumePlayback` have no bodies in
        the modelled sources: the model records that the command was issued and
        says nothing about the state it leaves. */
    method Issue(cmd: PlaybackCommand)
      requires cmd != Start
      modifies this`state, platform
      ensures platform.calls == old(platform.calls) + [Requested(cmd)]
    {
      platform.calls := platform.calls + [Requested(cmd)];
    }

    function GetPlaybackState(): (s: PlaybackState)
      reads this
      ensures s == state
    {
      state
    }

    /** The mix format, or null while none is held. */
    function GetFormat(): (f: Option<WaveFormat>)
      reads this
      ensures f.None? <==> mixFormat.None?
      ensures f.Some? ==> f == mixFormat
    {
      mixFormat
    }

    /** Writable frames: capacity minus the padding the device reports, in
        unsigned 32-bit arithmetic. It is an error without an audio client,
        with capacity 0 or when the padding query fails. A padding up to the
        capacity gives the plain difference, at most the capacity, and 0 (not
        an error) when the buffer is full; a larger padding wraps around to a
        count above the capacity. */
    function FramesAvailable(padding: Option<uint32>): (r: Result<uint32, string>)
      reads this
      ensures r.Failure? <==> !holdsAudioClient || bufferFrameCount == 0 || padding.None?
      ensures r.Success? ==> r.value == WrappingSub(bufferFrameCount, padding.value)
      ensures r.Success? && padding.value > bufferFrameCount ==> r.value > bufferFrameCount
      ensures r.Success? && padding.value <= bufferFrameCount ==>
                r.value == bufferFrameCount - padding.value && r.value <= bufferFrameCount
      ensures r.Success? && padding.value == bufferFrameCount ==> r.value == 0
    {
      if !holdsAudioClient then Failure("Audio client is uninitialized!")
      else if bufferFrameCount == 0 then Failure("Frame buffer is empty!")
      else if padding.None? then Failure("Failed to retrieve the current padding.")
      else Success(WrappingSub(bufferFrameCount, padding.value))
    }

    /** The buffer `GetBuffer` hands out when the padding query answers
        `padding`, the device's `GetBuffer` succeeds iff `lockOk`, and the
        locked region is `memory`: the region with the available frame count,
        or the empty buffer on every failure. */
    function AcquiredBuffer(padding: Option<uint32>, lockOk: bool, memory: array<real>): (b: AudioBuffer)
      reads this
      ensures b.data.Some? <==> holdsRenderClient && FramesAvailable(padding).Success? && lockOk
      ensures b.data.Some? ==> b.data.value == memory && b.frames == FramesAvailable(padding).value
      ensures b.data.None? ==> b == EmptyBuffer
    {
      if !holdsRenderClient then EmptyBuffer
      else match FramesAvailable(padding)
        case Failure(_) => EmptyBuffer
        case Success(n) => if lockOk then AudioBuffer(Some(memory), n) else EmptyBuffer
    }

    /** The device call `GetBuffer` makes: a lock of the available frames,
        attempted only with a render client and a frame count. */
    function AcquireTrace(padding: Option<uint32>): (t: seq<Call>)
      reads this
      ensures t != [] <==> holdsRenderClient && FramesAvailable(padding).Success?
      ensures t != [] ==> t == [LockBuffer(FramesAvailable(padding).value)]
    {
      if holdsRenderClient && FramesAvailable(padding).Success?
      then [LockBuffer(FramesAvailable(padding).value)]
      else []
    }

    method GetBuffer(padding: Option<uint32>, lockOk: bool, memory: array<real>) returns (b: AudioBuffer)
      modifies platform
      ensures b == AcquiredBuffer(padding, lockOk, memory)
      ensures platform.calls == old(platform.calls) + AcquireTrace(padding)
    {
      if !holdsRenderClient {
        return EmptyBuffer;
      }
      var available := FramesAvailable(padding);
      if available.Success? {
        platform.calls := platform.calls + [LockBuffer(available.value)];
        if !lockOk {
          return EmptyBuffer;
        }
        return AudioBuffer(Some(memory), available.value);
      }
      return EmptyBuffer;
    }

    /** Hands `frames` back to the device unchanged; a no-op without a render
        client. */
    method ReleaseBuffer(frames: uint32)
      modifies platform
      ensures platform.calls == old(platform.calls) + (if holdsRenderClient then [UnlockBuffer(frames)] else [])
    {
      if !holdsRenderClient {
        return;
      }
      platform.calls := platform.calls + [UnlockBuffer(frames)];
    }
  }

  /** Whether the slots `s` hold `slot`. */
  predicate Holds(s: Slots, slot: Slot) {
    match slot
    case RenderClientSlot => s.renderClient
    case AudioClientSlot => s.audioClient
    case DeviceSlot => s.device
    case EnumeratorSlot => s.enumerator
  }

  /** The error codes follow the pipeline: step `i` fails with code `i + 1`. */
  lemma ErrorCodesFollowPipeline(i: nat)
    requires i < |Pipeline|
    ensures Pipeline[i].Error().Code() as int == i + 1
  {
  }

  /** `Create` reports NONE exactly when every step succeeds. */
  lemma CreateSucceedsIff(o: CreateOracle)
    ensures CreateError(o) == NONE <==> forall j :: 0 <= j < |Pipeline| ==> o.Succeeds(Pipeline[j])
  {
    FailingStepIsFirstFailure(o);
  }

  /** `Create` reports step `i`'s code exactly when step `i` fails and every
      earlier step succeeded. */
  lemma CreateErrorIsFirstFailure(o: CreateOracle, i: nat)
    requires i < |Pipeline|
    ensures CreateError(o) == Pipeline[i].Error() <==>
              !o.Succeeds(Pipeline[i]) && forall j :: 0 <= j < i ==> o.Succeeds(Pipeline[j])
  {
    var k := FailingStep(o);
    if !o.Succeeds(Pipeline[i]) && forall j :: 0 <= j < i ==> o.Succeeds(Pipeline[j]) {
      assert k == i;
    }
    if CreateError(o) == Pipeline[i].Error() {
      ErrorCodesFollowPipeline(i);
      if k < |Pipeline| {
        ErrorCodesFollowPipeline(k);
      }
      assert k == i;
      forall j | 0 <= j < i
        ensures o.Succeeds(Pipeline[j])
      {
      }
    }
  }

  /** `Shutdown` releases each held slot exactly once and no other. */
  lemma ShutdownReleasesHeld(s: Slots, slot: Slot)
    ensures ReleaseCount(ShutdownTrace(s), slot) == if Holds(s, slot) then 1 else 0
  {
    var x := Release(slot);
    ShutdownCounts(s, x);
    WhenCount(s.renderClient, Release(RenderClientSlot), x);
    WhenCount(s.audioClient, Release(AudioClientSlot), x);
    WhenCount(s.device, Release(DeviceSlot), x);
    WhenCount(s.enumerator, Release(EnumeratorSlot), x);
    WhenCount(s.mixFormat.Some?, FreeMixFormat, x);
  }

  /** `Shutdown` uninitialises COM exactly once, as its last call. */
  lemma ShutdownUninitializesOnceLast(s: Slots)
    ensures multiset(ShutdownTrace(s))[Uninitialize] == 1
    ensures ShutdownTrace(s)[|ShutdownTrace(s)| - 1] == Uninitialize
  {
    ShutdownCounts(s, Uninitialize);
    WhenCount(s.renderClient, Release(RenderClientSlot), Uninitialize);
    WhenCount(s.audioClient, Release(AudioClientSlot), Uninitialize);
    WhenCount(s.device, Release(DeviceSlot), Uninitialize);
    WhenCount(s.enumerator, Release(EnumeratorSlot), Uninitialize);
    WhenCount(s.mixFormat.Some?, FreeMixFormat, Uninitialize);
  }

  /** How often `Shutdown`'s calls hold `x`, piece by piece. */
  lemma ShutdownCounts(s: Slots, x: Call)
    ensures multiset(ShutdownTrace(s))[x] ==
              multiset(When(s.renderClient, Release(RenderClientSlot)))[x]
              + multiset(When(s.audioClient, Release(AudioClientSlot)))[x]
              + multiset(When(s.device, Release(DeviceSlot)))[x]
              + multiset(When(s.enumerator, Release(EnumeratorSlot)))[x]
              + multiset(When(s.mixFormat.Some?, FreeMixFormat))[x]
              + (if x == Uninitialize then 1 else 0)
  {
    var r := When(s.renderClient, Release(RenderClientSlot));
    var a := When(s.audioClient, Release(AudioClientSlot));
    var d := When(s.device, Release(DeviceSlot));
    var e := When(s.enumerator, Release(EnumeratorSlot));
    var f := When(s.mixFormat.Some?, FreeMixFormat);
    assert multiset(r + a) == multiset(r) + multiset(a);
    assert multiset(r + a + d) == multiset(r + a) + multiset(d);
    assert multiset(r + a + d + e) == multiset(r + a + d) + multiset(e);
    assert multiset(r + a + d + e + f) == multiset(r + a + d + e) + multiset(f);
    assert multiset(ShutdownTrace(s)) == multiset(r + a + d + e + f) + multiset{Uninitialize};
  }

  /** `When(b, c)` holds `x` once when `b` holds and `x` is `c`, else never. */
  lemma WhenCount(b: bool, c: Call, x: Call)
    ensures multiset(When(b, c))[x] == if b && x == c then 1 else 0
  {
  }

  /** The attempts of `Create` release nothing and uninitialise nothing. */
  lemma AttemptsReleaseNothing(n: nat, slot: Slot)
    requires n <= |Pipeline|
    ensures ReleaseCount(Attempts(n), slot) == 0
    ensures multiset(Attempts(n))[Uninitialize] == 0
  {
    assert forall c :: c in Attempts(n) ==> c.Attempt?;
  }

  /** `Create` uninitialises COM exactly when it fails at the device, the
      activation or the mix-format step; after every other outcome it has
      released nothing. */
  lemma RollbackOnlyOnMiddleSteps(o: CreateOracle, before: Slots, slot: Slot)
    ensures Uninitialize in CreateTrace(o, before) <==> RollsBack(CreateError(o))
    ensures !RollsBack(CreateError(o)) ==> ReleaseCount(CreateTrace(o, before), slot) == 0
  {
    var n := StepsAttempted(o);
    AttemptsReleaseNothing(n, slot);
    assert multiset(CreateTrace(o, before)) == multiset(Attempts(n)) + multiset(RollbackTrace(o, before));
    if RollsBack(CreateError(o)) {
      ShutdownReleasesHeld(CreatedSlots(o, before), slot);
    }
  }

  /** A fresh backend whose mix-format query fails: five calls are made, then
      the rollback releases the audio client, the device and the enumerator
      (no render client, none was acquired) and uninitialises COM, and no mix
      format is held afterwards. */
  lemma FormatFailureFromFresh(o: CreateOracle)
    requires CreateError(o) == FORMAT
    ensures CreateTrace(o, NoSlots) ==
              Attempts(5) + [Release(AudioClientSlot), Release(DeviceSlot), Release(EnumeratorSlot), Uninitialize]
    ensures CreatedSlots(o, NoSlots).mixFormat.None? && !CreatedSlots(o, NoSlots).renderClient
  {
    CreateErrorIsFirstFailure(o, 4);
    assert FailingStep(o) == 4;
  }

  /** A failure that rolls back, followed by the destructor's `Shutdown`,
      releases the enumerator twice and uninitialises COM twice: `Shutdown`
      clears no slot, so the second call repeats the first one's releases. */
  lemma RollbackThenDestroyReleasesTwice(o: CreateOracle)
    requires RollsBack(CreateError(o))
    ensures ReleaseCount(CreateTrace(o, NoSlots) + ShutdownTrace(CreatedSlots(o, NoSlots)), EnumeratorSlot) == 2
    ensures multiset(CreateTrace(o, NoSlots) + ShutdownTrace(CreatedSlots(o, NoSlots)))[Uninitialize] == 2
  {
    var after := CreatedSlots(o, NoSlots);
    var n := StepsAttempted(o);
    assert after.enumerator by {
      CreateErrorIsFirstFailure(o, 1);
      ErrorCodesFollowPipeline(1);
    }
    AttemptsReleaseNothing(n, EnumeratorSlot);
    ShutdownReleasesHeld(after, EnumeratorSlot);
    assert multiset(CreateTrace(o, NoSlots) + ShutdownTrace(after))
        == multiset(Attempts(n)) + multiset(ShutdownTrace(after)) + multiset(ShutdownTrace(after));
  }

  /** The lifetime of a backend whose `Create` fails at the mix-format step:
      construct, `Create`, destroy. The enumerator is released twice and COM
      is uninitialised twice. */
  method FormatFailureLifetime() returns (calls: seq<Call>)
    ensures ReleaseCount(calls, EnumeratorSlot) == 2
    ensures multiset(calls)[Uninitialize] == 2
  {
    var platform := new Platform();
    var backend := new AudioBackend(platform);
    var o := CreateOracle(true, true, true, true, None, true, true);
    var err := backend.Create(o);
    backend.Destroy();
    calls := platform.calls;
    assert calls == CreateTrace(o, NoSlots) + ShutdownTrace(CreatedSlots(o, NoSlots));
    RollbackThenDestroyReleasesTwice(o);
  }
}
