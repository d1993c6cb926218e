/** One sound source of `MT::Core::Audio` (src/core/audio/Sound.h, Sound.cpp):
    a linear volume clamped to [0, 1], an unbounded decibel trim and a mute
    flag, combined into one gain.

    The float helpers of src/Utilities/Utils.hpp are not interpreted here:
    `asGain` stands for `AsGain(dB) = powf(10, dB / 20)` and `asDecibels` for
    `AsDecibels(g) = log10f(g)`, and both are passed in by the caller. The
    process-wide noise generator behind `GenerateSample` is likewise a draw
    the caller supplies. */
module Sound {
  import opened Numeric

  /** Volume a `Sound` gets when constructed without an argument. */
  const DefaultVolume: real := 1.0

  /** A value `GenerateSample` can return: `uniform_real_distribution(-1, 1)`
      draws from the half-open range [-1, 1). */
  predicate IsNoiseSample(x: real) {
    -1.0 <= x < 1.0
  }

  class Sound {
    var volume: real
    var dbLevel: real
    var isMuted: bool

    /** The volume always lies in [0, 1]: every write goes through `SetVolume`. */
    ghost predicate Valid()
      reads this
    {
      0.0 <= volume <= 1.0
    }

    /** `Sound(volume = 1)`: the fields start at volume 0, trim 0 dB and
        unmuted, and the constructor then routes its argument through
        `SetVolume`. */
    constructor(volume: real := DefaultVolume)
      ensures Valid()
      ensures this.volume == Clamp(volume, 0.0, 1.0)
      ensures dbLevel == 0.0 && !isMuted
    {
      this.volume := 0.0;
      dbLevel := 0.0;
      isMuted := false;
      new;
      SetVolume(volume);
    }

    method SetVolume(v: real)
      modifies this
      ensures Valid()
      ensures volume == Clamp(v, 0.0, 1.0)
      ensures dbLevel == old(dbLevel) && isMuted == old(isMuted)
    {
      volume := Clamp(v, 0.0, 1.0);
    }

    function GetVolume(): (v: real)
      requires Valid()
      reads this
      ensures 0.0 <= v <= 1.0
      ensures v == volume
    {
      volume
    }

    /** The volume expressed in decibels, through `AsDecibels`. */
    function GetVolumeAsDB(asDecibels: real -> real): (db: real)
      reads this
      ensures db == asDecibels(volume)
    {
      asDecibels(volume)
    }

    method Mute()
      requires Valid()
      modifies this
      ensures Valid()
      ensures isMuted
      ensures volume == old(volume) && dbLevel == old(dbLevel)
    {
      isMuted := true;
    }

    method UnMute()
      requires Valid()
      modifies this
      ensures Valid()
      ensures !isMuted
      ensures volume == old(volume) && dbLevel == old(dbLevel)
    {
      isMuted := false;
    }

    function IsMuted(): (m: bool)
      reads this
      ensures m == isMuted
    {
      isMuted
    }

    /** Stores the trim as given: no clamping. */
    method SetDBLevel(db: real)
      requires Valid()
      modifies this
      ensures Valid()
      ensures dbLevel == db
      ensures volume == old(volume) && isMuted == old(isMuted)
    {
      dbLevel := db;
    }

    function GetDBLevel(): (db: real)
      reads this
      ensures db == dbLevel
    {
      dbLevel
    }

    /** The trim as a linear factor, through `AsGain`. */
    function GetDBAsGain(asGain: real -> real): (g: real)
      reads this
      ensures g == asGain(dbLevel)
    {
      asGain(dbLevel)
    }

    /** Volume times trim gain, or 0 while muted; `TotalGainWithinTrim`
        bounds it. */
    function TotalGain(asGain: real -> real): (g: real)
      reads this
      ensures isMuted ==> g == 0.0
      ensures !isMuted ==> g == volume * asGain(dbLevel)
    {
      (if isMuted then 0.0 else volume) * GetDBAsGain(asGain)
    }

    /** The trim plus the volume in decibels; informational, not used for mixing. */
    function TotalDBLevel(asDecibels: real -> real): (db: real)
      reads this
      ensures db == GetDBLevel() + GetVolumeAsDB(asDecibels)
    {
      dbLevel + GetVolumeAsDB(asDecibels)
    }

    /** One output value: the generator's draw `sample` scaled by the total
        gain. Its magnitude never exceeds a non-negative total gain, and it is
        0 while muted. */
    function GetBuffer(sample: real, asGain: real -> real): (out: real)
      requires Valid()
      requires IsNoiseSample(sample)
      reads this
      ensures out == sample * TotalGain(asGain)
      ensures TotalGain(asGain) >= 0.0 ==> -TotalGain(asGain) <= out <= TotalGain(asGain)
      ensures isMuted ==> out == 0.0
    {
      var g := TotalGain(asGain);
      MagnitudeBound(sample, g);
      sample * g
    }
  }

  /** With a non-negative trim gain the total gain is non-negative and never
      above the trim gain, since the volume is at most 1. */
  lemma TotalGainWithinTrim(s: Sound, asGain: real -> real)
    requires s.Valid()
    ensures asGain(s.dbLevel) >= 0.0 ==> 0.0 <= s.TotalGain(asGain) <= asGain(s.dbLevel)
  {
    if !s.isMuted {
      var g := asGain(s.dbLevel);
      MagnitudeBound(s.volume, g);
      assert g >= 0.0 ==> s.volume * g <= g;
      assert s.TotalGain(asGain) == s.volume * g;
    } else {
      assert s.TotalGain(asGain) == 0.0;
    }
  }

  /** A factor in [-1, 1] times a non-negative gain stays within that gain,
      and is non-negative when the factor is. */
  lemma MagnitudeBound(x: real, g: real)
    requires -1.0 <= x <= 1.0
    ensures g >= 0.0 ==> -g <= x * g <= g
    ensures g >= 0.0 && x >= 0.0 ==> 0.0 <= x * g
  {
    if g < 0.0 {
    } else if x >= 0.0 {
      assert x * g <= 1.0 * g;
    } else {
      assert x * g >= -1.0 * g;
    }
  }
}
