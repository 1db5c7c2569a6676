/**
 * The non-DSP utilities of the voice synthesiser: the voice presets and
 * their parameters, preset parsing, the per-class consonant durations, the
 * formant lookahead, the sample-buffer helpers (silence, crossfaded append,
 * peak clamp) and the comb-filter ring buffer of the reverb.
 *
 * Samples are `real` (no rounding). The crossfade's square-root gain curve
 * is the parameter `sqrt`, since `real` has no square root.
 */
module Synth {
  import opened Wrappers
  import opened Text
  import opened Numeric
  import opened Phonetic

  const SampleRate: nat := 44100

  datatype VoiceParams = VoiceParams(
    language: Language,
    pitchHz: real,
    speed: real,
    breathiness: real,
    creepiness: real,
    whisperMix: real,
    distortion: real,
    reverbMix: real,
    volume: real)

  function DefaultEnglish(): VoiceParams
  {
    VoiceParams(English, 110.0, 1.0, 0.25, 0.45, 0.12, 0.10, 0.28, 0.75)
  }

  datatype VoicePreset = HostileEntity | LostChild | CorruptedTransmission | NeutralNpc

  /** Audible, English voices: positive pitch and speed, every mix level in `(0, 1)`. */
  predicate SaneParams(v: VoiceParams)
  {
    v.language == English && v.pitchHz > 0.0 && v.speed > 0.0
    && 0.0 < v.breathiness < 1.0 && 0.0 < v.creepiness < 1.0 && 0.0 < v.whisperMix < 1.0
    && 0.0 < v.distortion < 1.0 && 0.0 < v.reverbMix < 1.0 && 0.0 < v.volume <= 1.0
  }

  /** The parameter set of a preset; the neutral NPC speaks with the default English voice. */
  function Params(p: VoicePreset): (r: VoiceParams)
    ensures SaneParams(r)
    ensures p == NeutralNpc <==> r == DefaultEnglish()
  {
    match p
    case HostileEntity => VoiceParams(English, 78.0, 1.05, 0.18, 0.78, 0.16, 0.20, 0.34, 0.80)
    case LostChild => VoiceParams(English, 170.0, 1.10, 0.35, 0.35, 0.10, 0.06, 0.22, 0.70)
    case CorruptedTransmission => VoiceParams(English, 125.0, 1.35, 0.20, 0.68, 0.14, 0.14, 0.16, 0.70)
    case NeutralNpc => DefaultEnglish()
  }

  /** The preset a normalised (trimmed, lower-cased) name selects; any other name is the neutral NPC. */
  function PresetOfKey(key: string): VoicePreset
  {
    if key == "hostile_entity" || key == "hostile" then HostileEntity
    else if key == "lost_child" || key == "child" then LostChild
    else if key == "corrupted_transmission" || key == "glitch" then CorruptedTransmission
    else NeutralNpc
  }

  /** The name as `from_str` compares it: trimmed, then ASCII lower-cased. */
  function NormalKey(s: string): string
  {
    AsciiLower(Trim(s))
  }

  /** `VoicePreset::from_str`: never fails; unknown names select the neutral NPC. */
  function PresetFromStr(s: string): (r: Result<VoicePreset>)
    ensures r.Ok?
  {
    Ok(PresetOfKey(NormalKey(s)))
  }

  /** The canonical snake-case name of a preset. */
  function PresetName(p: VoicePreset): string
  {
    match p
    case HostileEntity => "hostile_entity"
    case LostChild => "lost_child"
    case CorruptedTransmission => "corrupted_transmission"
    case NeutralNpc => "neutral_npc"
  }

  predicate IsKeyChar(c: char) { 'a' <= c <= 'z' || c == '_' }

  /** A non-empty name of lower-case letters and underscores. */
  predicate IsKey(s: string)
  {
    |s| > 0 && forall k :: 0 <= k < |s| ==> IsKeyChar(s[k])
  }

  lemma KeyCharNotWhitespace(c: char)
    requires IsKeyChar(c)
    ensures !IsWhitespace(c)
  {
  }

  lemma KeyTrimmed(key: string)
    requires IsKey(key)
    ensures Trim(key) == key
  {
    KeyCharNotWhitespace(key[0]);
    KeyCharNotWhitespace(key[|key| - 1]);
  }

  lemma KeyLower(key: string)
    requires IsKey(key)
    ensures AsciiLower(key) == key
  {
  }

  /** A name already in normal form selects its preset as written. */
  lemma KeyIsNormal(key: string, p: VoicePreset)
    requires IsKey(key) && PresetOfKey(key) == p
    ensures PresetFromStr(key) == Ok(p)
  {
    KeyTrimmed(key);
    KeyLower(key);
  }

  /** Parsing a preset's canonical name gives that preset back. */
  lemma PresetNameRoundTrip(p: VoicePreset)
    ensures PresetFromStr(PresetName(p)) == Ok(p)
  {
    match p
    case HostileEntity => KeyIsNormal("hostile_entity", p);
    case LostChild => KeyIsNormal("lost_child", p);
    case CorruptedTransmission => KeyIsNormal("corrupted_transmission", p);
    case NeutralNpc => KeyIsNormal("neutral_npc", p);
  }

  lemma AsciiLowerWhitespace(c: char)
    ensures IsWhitespace(AsciiLowerChar(c)) <==> IsWhitespace(c)
  {
  }

  lemma AsciiLowerTail(s: string)
    requires |s| > 0
    ensures AsciiLower(s)[1..] == AsciiLower(s[1..])
    ensures AsciiLower(s)[..|s| - 1] == AsciiLower(s[..|s| - 1])
  {
  }

  /** Lower-casing commutes with `trim`: ASCII lower-casing never turns whitespace into anything else, or back. */
  lemma {:induction false} TrimLower(s: string)
    ensures Trim(AsciiLower(s)) == AsciiLower(Trim(s))
    decreases |s|
  {
    if |s| > 0 {
      AsciiLowerWhitespace(s[0]);
      AsciiLowerWhitespace(s[|s| - 1]);
      AsciiLowerTail(s);
      if IsWhitespace(s[0]) {
        TrimLower(s[1..]);
      } else if IsWhitespace(s[|s| - 1]) {
        TrimLower(s[..|s| - 1]);
      }
    }
  }

  lemma AsciiLowerIdempotent(s: string)
    ensures AsciiLower(AsciiLower(s)) == AsciiLower(s)
  {
  }

  /** Preset names are case-insensitive and ignore surrounding whitespace. */
  lemma PresetFromStrNormalises(s: string)
    ensures NormalKey(AsciiLower(s)) == NormalKey(s)
    ensures NormalKey(Trim(s)) == NormalKey(s)
  {
    TrimLower(s);
    AsciiLowerIdempotent(Trim(s));
    TrimIdempotent(s);
  }

  /** The base duration (seconds) of each consonant class, before the phoneme's multiplier. */
  function ConsonantBase(c: ConsonantClass): (r: real)
    ensures 0.020 <= r <= 0.070
  {
    match c
    case PlosiveVoiced => 0.020
    case PlosiveUnvoiced => 0.022
    case Affricate => 0.050
    case FricativeVoiced => 0.060
    case FricativeUnvoiced => 0.065
    case Nasal => 0.055
    case Liquid => 0.045
    case Lateral => 0.050
    case Tap => 0.025
    case Trill => 0.070
  }

  /** `consonant_duration`: the class's base time scaled by the multiplier. */
  function ConsonantDuration(c: ConsonantClass, mult: real): (r: real)
    ensures mult >= 0.0 ==> 0.020 * mult <= r <= 0.070 * mult
    ensures mult > 0.0 ==> r > 0.0
  {
    ConsonantBase(c) * mult
  }

  /** The trill is the longest consonant and the voiced plosive the shortest. */
  lemma ConsonantDurationExtremes(c: ConsonantClass, mult: real)
    requires mult >= 0.0
    ensures ConsonantDuration(PlosiveVoiced, mult) <= ConsonantDuration(c, mult) <= ConsonantDuration(Trill, mult)
  {
    var b := ConsonantBase(c);
    assert 0.020 * mult <= b * mult <= 0.070 * mult by {
      assert 0.020 <= b <= 0.070;
    }
  }

  /** A vowel phoneme that carries formants. */
  predicate HasVowelFormants(p: Phoneme)
  {
    p.ty == Vowel && p.formants.Some?
  }

  /**
   * `lookahead_formants`: the formants of the first vowel with formants among
   * the (up to three) phonemes after `idx`, else none.
   */
  method LookaheadFormants(ps: seq<Phoneme>, idx: nat) returns (r: Option<Formants>)
    ensures r.Some? ==> exists j :: (idx < j < Min(|ps|, idx + 4) && ps[j].ty == Vowel && ps[j].formants == r
                                     && forall k :: idx < k < j ==> !HasVowelFormants(ps[k]))
    ensures r.None? ==> forall j :: idx < j < Min(|ps|, idx + 4) ==> !HasVowelFormants(ps[j])
  {
    var end := Min(|ps|, idx + 4);
    var j := idx + 1;
    while j < end
      invariant idx + 1 <= j
      invariant forall k :: idx < k < j && k < end ==> !HasVowelFormants(ps[k])
    {
      if ps[j].ty == Vowel {
        if ps[j].formants.Some? {
          return ps[j].formants;
        }
      }
      j := j + 1;
    }
    return None;
  }

  /** The number of samples `push_silence` appends: `seconds` at 44.1 kHz, truncated, at least one. */
  function SilenceLength(seconds: real): (n: nat)
    ensures n >= 1
    ensures seconds * SampleRate as real >= 1.0 ==> n as real <= seconds * SampleRate as real < n as real + 1.0
    ensures seconds * SampleRate as real < 1.0 ==> n == 1
  {
    var x := seconds * SampleRate as real;
    if x >= 1.0 then x.Floor else 1
  }

  /** `push_silence`: appends `SilenceLength(seconds)` zero samples. */
  method PushSilence(dst: seq<real>, seconds: real) returns (out: seq<real>)
    ensures |out| == |dst| + SilenceLength(seconds)
    ensures out[..|dst|] == dst
    ensures forall k :: |dst| <= k < |out| ==> out[k] == 0.0
  {
    var n := SilenceLength(seconds);
    out := dst + seq(n, _ => 0.0);
  }

  /** How many samples the crossfade blends: none when either side is empty or the fade is 0. */
  function Overlap(dstLen: nat, segLen: nat, fade: nat): (ov: nat)
    ensures ov <= dstLen && ov <= segLen && ov <= fade
    ensures dstLen > 0 && segLen > 0 && fade > 0 ==> ov > 0
  {
    if segLen == 0 || dstLen == 0 || fade == 0 then 0 else Min(Min(fade, dstLen), segLen)
  }

  /** One blended sample at position `i` of an overlap of `ov`: equal-power fade-out of `d`, fade-in of `s`. */
  function Crossfade(d: real, s: real, i: nat, ov: nat, sqrt: real -> real): real
    requires ov > 0
  {
    var a := i as real / ov as real;
    d * sqrt(1.0 - a) + s * sqrt(a)
  }

  /**
   * `append_with_crossfade`: the last `Overlap` samples of `dst` are blended
   * with the first samples of `seg`, and the rest of `seg` is appended.
   */
  method AppendWithCrossfade(dst: seq<real>, seg: seq<real>, fade: nat, sqrt: real -> real) returns (out: seq<real>)
    ensures var ov := Overlap(|dst|, |seg|, fade);
      |out| == |dst| + |seg| - ov
      && out[..|dst| - ov] == dst[..|dst| - ov]
      && out[|dst|..] == seg[ov..]
      && forall i :: 0 <= i < ov ==> out[|dst| - ov + i] == Crossfade(dst[|dst| - ov + i], seg[i], i, ov, sqrt)
    ensures seg == [] ==> out == dst
    ensures seg != [] && (dst == [] || fade == 0) ==> out == dst + seg
  {
    if |seg| == 0 {
      return dst;
    }
    if |dst| == 0 || fade == 0 {
      return dst + seg;
    }
    var ov := Min(Min(fade, |dst|), |seg|);
    var start := |dst| - ov;
    out := dst;
    for i := 0 to ov
      invariant |out| == |dst|
      invariant out[..start] == dst[..start]
      invariant forall k :: 0 <= k < i ==> out[start + k] == Crossfade(dst[start + k], seg[k], k, ov, sqrt)
      invariant out[start + i..] == dst[start + i..]
    {
      out := out[start + i := Crossfade(out[start + i], seg[i], i, ov, sqrt)];
    }
    out := out + seg[ov..];
  }

  /** `clamp_peak`: every sample clamped, in place, into `[-lim, lim]` with `lim = clamp(maxAbs, 0, 1)`. */
  method ClampPeak(samples: array<real>, maxAbs: real)
    modifies samples
    ensures var lim := Clamp(maxAbs, 0.0, 1.0);
      forall k :: 0 <= k < samples.Length ==>
        -lim <= samples[k] <= lim && samples[k] == Clamp(old(samples[k]), -lim, lim)
  {
    var lim := Clamp(maxAbs, 0.0, 1.0);
    for k := 0 to samples.Length
      invariant forall j :: 0 <= j < k ==> samples[j] == Clamp(old(samples[j]), -lim, lim)
      invariant forall j :: k <= j < samples.Length ==> samples[j] == old(samples[j])
    {
      samples[k] := Clamp(samples[k], -lim, lim);
    }
  }

  /**
   * The reverb's comb filter: a ring buffer of delayed samples, each fed
   * back into itself scaled by `feedback`.
   */
  class Comb {
    var buf: array<real>
    var idx: nat
    var feedback: real

    ghost predicate Valid()
      reads this
    {
      idx < buf.Length && 0.0 <= feedback <= 0.98
    }

    /** A silent buffer of `max(size, 1)` cells, the feedback clamped to `[0, 0.98]`. */
    constructor(size: nat, fb: real)
      ensures Valid() && fresh(buf)
      ensures buf.Length == Max(size, 1) && idx == 0 && feedback == Clamp(fb, 0.0, 0.98)
      ensures forall k :: 0 <= k < buf.Length ==> buf[k] == 0.0
    {
      buf := new real[Max(size, 1)](_ => 0.0);
      idx := 0;
      feedback := Clamp(fb, 0.0, 0.98);
    }

    /** Returns the delayed sample, stores `x + y * feedback` in its cell and moves to the next cell. */
    method Process(x: real) returns (y: real)
      requires Valid()
      modifies this, buf
      ensures Valid() && buf == old(buf) && feedback == old(feedback)
      ensures y == old(buf[idx])
      ensures buf[old(idx)] == x + y * feedback
      ensures forall k :: 0 <= k < buf.Length && k != old(idx) ==> buf[k] == old(buf[k])
      ensures idx == (old(idx) + 1) % buf.Length
    {
      y := buf[idx];
      buf[idx] := x + y * feedback;
      idx := idx + 1;
      if idx >= buf.Length {
        idx := 0;
      }
    }
  }
}
