/**
 * Footsteps: the player's footstep sounds. The ground under the player
 * gives a surface (concrete, wood, grass or dirt); walking accumulates
 * distance, and every stride's worth of distance plays one step sample of
 * the surface, at most two per frame, with a surface-specific pitch range
 * and loudness. Random choices (which sample, which pitch) are oracle
 * inputs; asset handles are their asset paths.
 */
module Footsteps {
  import opened Wrappers
  import opened Numeric

  datatype Surface = Concrete | Wood | Grass | Dirt

  /**
   * The surface a floor texture stands for: the wood textures are wood,
   * grass and the carpets are grass, dirt is dirt, and every other name
   * (including no recognised name at all) is concrete.
   */
  function SurfaceFromTextureName(name: string): (r: Surface)
    ensures r == Wood <==> name == "wood_floor" || name == "wood_paneling"
    ensures r == Grass <==> name == "grass" || name == "carpet" || name == "carpet_b"
    ensures r == Dirt <==> name == "dirt"
  {
    if name == "wood_floor" || name == "wood_paneling" then Wood
    else if name == "grass" || name == "carpet" || name == "carpet_b" then Grass
    else if name == "dirt" then Dirt
    else Concrete
  }

  /** How loud a surface's steps are relative to the base volume: never louder than concrete. */
  function VolumeScale(s: Surface): (r: real)
    ensures 0.0 < r <= 1.0
    ensures r == 1.0 <==> s == Concrete
  {
    match s
    case Concrete => 1.0
    case Wood => 0.9
    case Grass => 0.8
    case Dirt => 0.86
  }

  /** The half-open pitch range `[lo, hi)` a surface's steps are played at: never empty. */
  function PitchRange(s: Surface): (r: (real, real))
    ensures 0.0 < r.0 < r.1
  {
    match s
    case Concrete => (0.94, 1.06)
    case Wood => (0.82, 0.94)
    case Grass => (0.90, 1.00)
    case Dirt => (0.88, 1.00)
  }

  /** The surface's name in logs and sample paths. */
  function SurfaceName(s: Surface): string
  {
    match s
    case Concrete => "concrete"
    case Wood => "wood"
    case Grass => "grass"
    case Dirt => "dirt"
  }

  /** Different surfaces have different names, so their sample paths never mix. */
  lemma SurfaceNamesDistinct(a: Surface, b: Surface)
    ensures SurfaceName(a) == SurfaceName(b) <==> a == b
  {
    if a != b {
      assert SurfaceName(a)[0] != SurfaceName(b)[0];
    }
  }

  const MinStride: real := 0.55
  const MaxStride: real := 1.75
  /** Below this ground speed the player counts as standing still. */
  const StillSpeed: real := 0.03
  const MaxStepsPerFrame: nat := 2

  /** The clamped speed ratio of `speed` to the controller's walk speed (at least 0.1). */
  function SpeedRatio(speed: real, walkSpeed: real): (r: real)
    ensures 0.25 <= r <= 1.6
  {
    Clamp(speed / MaxReal(walkSpeed, 0.1), 0.25, 1.6)
  }

  /**
   * The distance between two steps: the player's base stride scaled from
   * 0.72 (slow) up to 0.72 + 0.38 * 1.6 (fast) by the speed ratio, 16%
   * shorter when crouching, and always within [0.55, 1.75].
   */
  function StrideLengthForSpeed(speed: real, walkSpeed: real, crouching: bool, baseStride: real): (r: real)
    ensures MinStride <= r <= MaxStride
  {
    var stride := RawStride(baseStride, SpeedRatio(speed, walkSpeed));
    Clamp(if crouching then stride * 0.84 else stride, MinStride, MaxStride)
  }

  /** The speed ratio never falls when the speed rises. */
  lemma SpeedRatioMonotone(s1: real, s2: real, walkSpeed: real)
    requires s1 <= s2
    ensures SpeedRatio(s1, walkSpeed) <= SpeedRatio(s2, walkSpeed)
  {
    var w := MaxReal(walkSpeed, 0.1);
    assert s1 / w <= s2 / w by {
      assert s2 / w - s1 / w == (s2 - s1) / w;
    }
  }

  /** The stride before crouching and clamping: 0.72 to 1.328 base strides. */
  function RawStride(baseStride: real, ratio: real): real
  {
    baseStride * (0.72 + 0.38 * ratio)
  }

  /**
   * The unclamped stride grows with the speed ratio, is never negative, and
   * its crouching share (84%) keeps that order and is never longer.
   */
  lemma RawStrideMonotone(b: real, q1: real, q2: real)
    requires b >= 0.0 && 0.0 <= q1 <= q2
    ensures 0.0 <= RawStride(b, q1) <= RawStride(b, q2)
    ensures RawStride(b, q1) * 0.84 <= RawStride(b, q2) * 0.84
    ensures RawStride(b, q1) * 0.84 <= RawStride(b, q1)
  {
    var f1 := 0.72 + 0.38 * q1;
    var f2 := 0.72 + 0.38 * q2;
    MulMonotone(b, f1, f2);
    MulMonotone(b, 0.0, f1);
    MulMonotone(0.84, b * f1, b * f2);
    MulMonotone(b * f1, 0.84, 1.0);
  }

  /** Clamping keeps the order of its inputs. */
  lemma ClampMonotone(x: real, y: real, lo: real, hi: real)
    requires lo <= hi && x <= y
    ensures Clamp(x, lo, hi) <= Clamp(y, lo, hi)
  {
  }

  /** Moving faster never shortens the stride, and crouching never lengthens it. */
  lemma StrideMonotone(s1: real, s2: real, walkSpeed: real, crouching: bool, baseStride: real)
    requires s1 <= s2 && baseStride >= 0.0
    ensures StrideLengthForSpeed(s1, walkSpeed, crouching, baseStride)
      <= StrideLengthForSpeed(s2, walkSpeed, crouching, baseStride)
    ensures StrideLengthForSpeed(s1, walkSpeed, true, baseStride)
      <= StrideLengthForSpeed(s1, walkSpeed, false, baseStride)
  {
    var q1 := SpeedRatio(s1, walkSpeed);
    var q2 := SpeedRatio(s2, walkSpeed);
    SpeedRatioMonotone(s1, s2, walkSpeed);
    RawStrideMonotone(baseStride, q1, q2);
    var t1 := RawStride(baseStride, q1);
    var t2 := RawStride(baseStride, q2);
    if crouching {
      ClampMonotone(t1 * 0.84, t2 * 0.84, MinStride, MaxStride);
    } else {
      ClampMonotone(t1, t2, MinStride, MaxStride);
    }
    ClampMonotone(t1 * 0.84, t1, MinStride, MaxStride);
  }

  /**
   * One random sample out of `samples`, `pick` being the random index the
   * generator drew: none when there are no samples.
   */
  function SelectRandomStep(samples: seq<string>, pick: nat): (r: Option<string>)
    ensures r.None? <==> |samples| == 0
    ensures r.Some? ==> r.value in samples
    ensures pick < |samples| ==> r == Some(samples[pick])
  {
    if |samples| == 0 then None else Some(samples[pick % |samples|])
  }

  /**
   * The random draws behind one step: the sample index, and where in the
   * surface's pitch range the pitch falls, as a fraction in [0, 1).
   */
  datatype StepRoll = StepRoll(pick: nat, pitchFraction: real)

  predicate ValidRolls(rolls: seq<StepRoll>)
  {
    |rolls| >= MaxStepsPerFrame && forall k :: 0 <= k < |rolls| ==> 0.0 <= rolls[k].pitchFraction < 1.0
  }

  /** A played step: which sample, at which pitch and volume. */
  datatype Footstep = Footstep(sample: string, pitch: real, volume: real)

  /** The step a non-empty sample list plays for one roll on a surface. */
  function MakeStep(samples: seq<string>, surface: Surface, baseVolume: real, roll: StepRoll): (r: Footstep)
    requires |samples| > 0 && 0.0 <= roll.pitchFraction < 1.0
    ensures r.sample in samples
    ensures PitchRange(surface).0 <= r.pitch < PitchRange(surface).1
    ensures r.volume == baseVolume * VolumeScale(surface)
    ensures baseVolume >= 0.0 ==> 0.0 <= r.volume <= baseVolume
  {
    var range := PitchRange(surface);
    assert roll.pitchFraction * (range.1 - range.0) < range.1 - range.0;
    Footstep(SelectRandomStep(samples, roll.pick).value,
      range.0 + roll.pitchFraction * (range.1 - range.0),
      baseVolume * VolumeScale(surface))
  }

  /**
   * The step loop of one frame, from `emitted` steps already played: while
   * a stride's worth of distance is banked and fewer than two steps were
   * played, spend one stride; then stop if the surface has no samples,
   * otherwise play a step. Yields the distance left and the step count.
   */
  function StepLoop(overflow: real, stride: real, hasSamples: bool, emitted: nat): (r: (real, nat))
    requires emitted <= MaxStepsPerFrame && stride > 0.0
    ensures emitted <= r.1 <= MaxStepsPerFrame
    ensures hasSamples ==> r.0 + (r.1 - emitted) as real * stride == overflow
    ensures hasSamples ==> r.0 < stride || r.1 == MaxStepsPerFrame
    ensures !hasSamples ==> r.1 == emitted
    ensures !hasSamples && overflow >= stride && emitted < MaxStepsPerFrame ==> r.0 == overflow - stride
    ensures !hasSamples && (overflow < stride || emitted == MaxStepsPerFrame) ==> r.0 == overflow
    ensures overflow >= 0.0 ==> r.0 >= 0.0
    decreases MaxStepsPerFrame - emitted
  {
    if overflow >= stride && emitted < MaxStepsPerFrame then
      if !hasSamples then (overflow - stride, emitted)
      else StepLoop(overflow - stride, stride, true, emitted + 1)
    else (overflow, emitted)
  }

  /**
   * The frame's step loop itself: spend strides from `overflow` and play
   * steps from `samples` as `StepLoop` says, using roll `k` for step `k`.
   */
  method PlaySteps(overflow: real, stride: real, samples: seq<string>, surface: Surface, baseVolume: real, rolls: seq<StepRoll>)
    returns (left: real, steps: seq<Footstep>)
    requires stride > 0.0 && ValidRolls(rolls)
    ensures var f := StepLoop(overflow, stride, |samples| > 0, 0);
      left == f.0 && |steps| == f.1
    ensures forall k :: 0 <= k < |steps| ==> |samples| > 0 && steps[k] == MakeStep(samples, surface, baseVolume, rolls[k])
  {
    ghost var goal := StepLoop(overflow, stride, |samples| > 0, 0);
    left := overflow;
    steps := [];
    var emitted: nat := 0;
    var stopped := false;
    while !stopped && left >= stride && emitted < MaxStepsPerFrame
      invariant emitted <= MaxStepsPerFrame && |steps| == emitted
      invariant stopped ==> |samples| == 0 && goal == (left, emitted)
      invariant !stopped ==> StepLoop(left, stride, |samples| > 0, emitted) == goal
      invariant forall k :: 0 <= k < emitted ==> |samples| > 0 && steps[k] == MakeStep(samples, surface, baseVolume, rolls[k])
      decreases MaxStepsPerFrame - emitted, if stopped then 0 else 1
    {
      left := left - stride;
      var sample := SelectRandomStep(samples, rolls[emitted].pick);
      if sample.None? {
        stopped := true;
      } else {
        steps := steps + [MakeStep(samples, surface, baseVolume, rolls[emitted])];
        emitted := emitted + 1;
      }
    }
  }

  /** The ground under the player as the frame's ray cast found it. */
  datatype GroundProbe =
    | Airborne
    | NoHit
    | ExplicitSurface(surface: Surface)
    | Textured(texture: Option<string>)

  /** The player's footstep state. */
  class FootstepPlayer {
    var strideLength: real
    var distanceOverflow: real
    var baseVolume: real
    var activeSurface: Surface
    var activeMaterialName: string
    var lastLoggedMaterialName: string
    var concreteSamples: seq<string>
    var woodSamples: seq<string>
    var grassSamples: seq<string>
    var dirtSamples: seq<string>

    /** `Default`: a 1.1 stride, volume 0.45, on concrete, no samples. */
    constructor ()
      ensures strideLength == 1.1 && distanceOverflow == 0.0 && baseVolume == 0.45
      ensures activeSurface == Concrete && activeMaterialName == "" && lastLoggedMaterialName == ""
      ensures concreteSamples == [] && woodSamples == [] && grassSamples == [] && dirtSamples == []
    {
      strideLength := 1.1;
      distanceOverflow := 0.0;
      baseVolume := 0.45;
      activeSurface := Concrete;
      activeMaterialName := "";
      lastLoggedMaterialName := "";
      concreteSamples := [];
      woodSamples := [];
      grassSamples := [];
      dirtSamples := [];
    }

    /** The player's footsteps as the game sets them up: volume 0.5 and four samples per surface. */
    constructor Loaded()
      ensures strideLength == 1.1 && distanceOverflow == 0.0 && baseVolume == 0.5
      ensures activeSurface == Concrete && activeMaterialName == "" && lastLoggedMaterialName == ""
      ensures forall s :: |SamplesFor(s)| == 4 && SamplesFor(s) == SurfaceSamples(SurfaceName(s))
    {
      strideLength := 1.1;
      distanceOverflow := 0.0;
      baseVolume := 0.5;
      activeSurface := Concrete;
      activeMaterialName := "";
      lastLoggedMaterialName := "";
      concreteSamples := SurfaceSamples("concrete");
      woodSamples := SurfaceSamples("wood");
      grassSamples := SurfaceSamples("grass");
      dirtSamples := SurfaceSamples("dirt");
    }

    function SamplesFor(s: Surface): seq<string>
      reads this
    {
      match s
      case Concrete => concreteSamples
      case Wood => woodSamples
      case Grass => grassSamples
      case Dirt => dirtSamples
    }

    /**
     * One frame of footsteps. Off the ground the banked distance is
     * dropped; standing still it drains by `dt` down to 0; walking at
     * `speed` banks `speed * dt` and then plays the steps `StepLoop`
     * allows, each a `MakeStep` of the surface's samples with that step's
     * roll. Only the banked distance changes.
     */
    method HandleFootsteps(grounded: bool, speed: real, dt: real, walkSpeed: real, crouching: bool, rolls: seq<StepRoll>)
      returns (steps: seq<Footstep>)
      requires ValidRolls(rolls)
      modifies this
      ensures !grounded ==> distanceOverflow == 0.0 && steps == []
      ensures grounded && speed <= StillSpeed ==>
        distanceOverflow == MaxReal(old(distanceOverflow) - dt, 0.0) && steps == []
      ensures grounded && speed > StillSpeed ==>
        var samples := SamplesFor(activeSurface);
        var f := StepLoop(old(distanceOverflow) + speed * dt,
          StrideLengthForSpeed(speed, walkSpeed, crouching, strideLength), |samples| > 0, 0);
        distanceOverflow == f.0 && |steps| == f.1
        && forall k :: 0 <= k < |steps| ==> |samples| > 0 && steps[k] == MakeStep(samples, activeSurface, baseVolume, rolls[k])
      ensures |steps| <= MaxStepsPerFrame
      ensures strideLength == old(strideLength) && baseVolume == old(baseVolume)
      ensures activeSurface == old(activeSurface) && activeMaterialName == old(activeMaterialName)
      ensures lastLoggedMaterialName == old(lastLoggedMaterialName)
      ensures forall s :: SamplesFor(s) == old(SamplesFor(s))
    {
      steps := [];
      if !grounded {
        distanceOverflow := 0.0;
        return;
      }
      if speed <= StillSpeed {
        distanceOverflow := MaxReal(distanceOverflow - dt, 0.0);
        return;
      }
      var stride := StrideLengthForSpeed(speed, walkSpeed, crouching, strideLength);
      distanceOverflow, steps := PlaySteps(distanceOverflow + speed * dt, stride, SamplesFor(activeSurface), activeSurface, baseVolume, rolls);
    }

    /**
     * Log the material when it differs from the one logged last, and
     * remember it; `logged` says whether a line was written.
     */
    method LogMaterialChange() returns (logged: bool)
      modifies this
      ensures logged <==> old(lastLoggedMaterialName) != old(activeMaterialName)
      ensures lastLoggedMaterialName == activeMaterialName == old(activeMaterialName)
      ensures strideLength == old(strideLength) && distanceOverflow == old(distanceOverflow)
      ensures baseVolume == old(baseVolume) && activeSurface == old(activeSurface)
      ensures forall s :: SamplesFor(s) == old(SamplesFor(s))
    {
      logged := lastLoggedMaterialName != activeMaterialName;
      if logged {
        lastLoggedMaterialName := activeMaterialName;
      }
    }

    /**
     * Take in this frame's ground probe. Airborne or with nothing below,
     * the player is on concrete ("air" / "default_concrete") and nothing is
     * logged. A surface marker wins and names the material
     * "explicit_<surface>"; otherwise the texture name decides, and no
     * texture means concrete again. In those two cases a changed material
     * is logged.
     */
    method DetectSurface(probe: GroundProbe) returns (logged: bool)
      modifies this
      ensures probe.Airborne? ==> activeSurface == Concrete && activeMaterialName == "air" && !logged
      ensures probe.NoHit? ==> activeSurface == Concrete && activeMaterialName == "default_concrete" && !logged
      ensures probe.ExplicitSurface? ==>
        activeSurface == probe.surface && activeMaterialName == "explicit_" + SurfaceName(probe.surface)
      ensures probe.Textured? && probe.texture.Some? ==>
        activeSurface == SurfaceFromTextureName(probe.texture.value) && activeMaterialName == probe.texture.value
      ensures probe == Textured(None) ==> activeSurface == Concrete && activeMaterialName == "default_concrete"
      ensures probe.Airborne? || probe.NoHit? ==> lastLoggedMaterialName == old(lastLoggedMaterialName)
      ensures probe.ExplicitSurface? || probe.Textured? ==>
        (logged <==> old(lastLoggedMaterialName) != activeMaterialName) && lastLoggedMaterialName == activeMaterialName
      ensures strideLength == old(strideLength) && distanceOverflow == old(distanceOverflow)
      ensures baseVolume == old(baseVolume) && forall s :: SamplesFor(s) == old(SamplesFor(s))
    {
      logged := false;
      match probe {
        case Airborne =>
          activeSurface := Concrete;
          activeMaterialName := "air";
        case NoHit =>
          activeSurface := Concrete;
          activeMaterialName := "default_concrete";
        case ExplicitSurface(surface) =>
          activeSurface := surface;
          activeMaterialName := "explicit_" + SurfaceName(surface);
          logged := LogMaterialChange();
        case Textured(texture) =>
          if texture.Some? {
            activeSurface := SurfaceFromTextureName(texture.value);
            activeMaterialName := texture.value;
          } else {
            activeSurface := Concrete;
            activeMaterialName := "default_concrete";
          }
          logged := LogMaterialChange();
      }
    }
  }

  /** The four step samples of a surface: `audio/footsteps/<name>_01.ogg` up to `_04`. */
  function SurfaceSamples(name: string): (r: seq<string>)
    ensures |r| == 4
  {
    seq(4, i requires 0 <= i < 4 => "audio/footsteps/" + name + "_0" + [('1' as int + i) as char] + ".ogg")
  }
}
