/**
 * Game settings: nine adjustable keys, each left/right press moving one
 * field by a fixed step inside its range or flipping a switch.
 */
module Settings {
  import opened Numeric

  datatype SettingKey =
    | MasterVolume
    | MusicVolume
    | UiSfxVolume
    | WorldSfxVolume
    | VoiceVolume
    | DialogueSpeed
    | UiScaleMode
    | UiScale
    | CursorMotion

  /** `SettingKey::ALL`, in menu order. */
  const AllKeys: seq<SettingKey> := [
    MasterVolume, MusicVolume, UiSfxVolume, WorldSfxVolume, VoiceVolume,
    DialogueSpeed, UiScaleMode, UiScale, CursorMotion]

  /** The menu label of a key. */
  function Label(key: SettingKey): string
  {
    match key
    case MasterVolume => "master volume"
    case MusicVolume => "music volume"
    case UiSfxVolume => "ui sfx volume"
    case WorldSfxVolume => "world sfx volume"
    case VoiceVolume => "voice volume"
    case DialogueSpeed => "dialogue speed"
    case UiScaleMode => "ui scale mode"
    case UiScale => "manual ui scale"
    case CursorMotion => "cursor motion"
  }

  /** The menu lists nine keys, each exactly once, and no two share a label. */
  lemma AllKeysComplete()
    ensures |AllKeys| == 9
    ensures forall k: SettingKey :: k in AllKeys
    ensures forall i, j :: 0 <= i < j < |AllKeys| ==> AllKeys[i] != AllKeys[j] && Label(AllKeys[i]) != Label(AllKeys[j])
  {
    forall k: SettingKey ensures k in AllKeys {
      match k
      case MasterVolume => assert AllKeys[0] == k;
      case MusicVolume => assert AllKeys[1] == k;
      case UiSfxVolume => assert AllKeys[2] == k;
      case WorldSfxVolume => assert AllKeys[3] == k;
      case VoiceVolume => assert AllKeys[4] == k;
      case DialogueSpeed => assert AllKeys[5] == k;
      case UiScaleMode => assert AllKeys[6] == k;
      case UiScale => assert AllKeys[7] == k;
      case CursorMotion => assert AllKeys[8] == k;
    }
  }

  /** The fields of `GameSettings`. */
  datatype Values = Values(
    masterVolume: real,
    musicVolume: real,
    uiSfxVolume: real,
    worldSfxVolume: real,
    voiceVolume: real,
    dialogueSpeed: real,
    uiScaleAuto: bool,
    manualUiScale: real,
    cursorMotion: bool)

  const VolumeStep: real := 0.05
  const VolumeMax: real := 1.5
  const SpeedStep: real := 0.1
  const SpeedMin: real := 0.5
  const SpeedMax: real := 2.0
  const ScaleStep: real := 0.05
  const ScaleMin: real := 0.6
  const ScaleMax: real := 2.0

  /** `Default`. */
  const DefaultValues: Values := Values(1.0, 0.85, 0.9, 0.95, 1.0, 1.0, true, 1.0, true)

  /** Every field inside its range. */
  predicate InRange(v: Values)
  {
    0.0 <= v.masterVolume <= VolumeMax && 0.0 <= v.musicVolume <= VolumeMax
    && 0.0 <= v.uiSfxVolume <= VolumeMax && 0.0 <= v.worldSfxVolume <= VolumeMax
    && 0.0 <= v.voiceVolume <= VolumeMax
    && SpeedMin <= v.dialogueSpeed <= SpeedMax && ScaleMin <= v.manualUiScale <= ScaleMax
  }

  /** A volume one step along `step`, kept in [0, 1.5]. */
  function StepVolume(x: real, step: real): real
  {
    Clamp(x + step * VolumeStep, 0.0, VolumeMax)
  }

  /**
   * `adjust`: only the sign of `direction` counts; zero changes nothing.
   * Volumes, speed and scale move by their step inside their range; the two
   * switches flip.
   */
  function Adjust(v: Values, key: SettingKey, direction: int): Values
  {
    var step := Signum(direction) as real;
    if step == 0.0 then v
    else match key
      case MasterVolume => v.(masterVolume := StepVolume(v.masterVolume, step))
      case MusicVolume => v.(musicVolume := StepVolume(v.musicVolume, step))
      case UiSfxVolume => v.(uiSfxVolume := StepVolume(v.uiSfxVolume, step))
      case WorldSfxVolume => v.(worldSfxVolume := StepVolume(v.worldSfxVolume, step))
      case VoiceVolume => v.(voiceVolume := StepVolume(v.voiceVolume, step))
      case DialogueSpeed => v.(dialogueSpeed := Clamp(v.dialogueSpeed + step * SpeedStep, SpeedMin, SpeedMax))
      case UiScaleMode => v.(uiScaleAuto := !v.uiScaleAuto)
      case UiScale => v.(manualUiScale := Clamp(v.manualUiScale + step * ScaleStep, ScaleMin, ScaleMax))
      case CursorMotion => v.(cursorMotion := !v.cursorMotion)
  }

  /** A zero direction changes nothing, and only the sign of a direction matters. */
  lemma AdjustBySign(v: Values, key: SettingKey, direction: int)
    ensures Adjust(v, key, 0) == v
    ensures Adjust(v, key, direction) == Adjust(v, key, Signum(direction))
  {
  }

  /** Whatever the settings were, the adjusted field ends up inside its range. */
  lemma AdjustLandsInRange(v: Values, key: SettingKey, direction: int)
    requires direction != 0
    ensures var r := Adjust(v, key, direction);
      (key == MasterVolume ==> 0.0 <= r.masterVolume <= VolumeMax)
      && (key == MusicVolume ==> 0.0 <= r.musicVolume <= VolumeMax)
      && (key == UiSfxVolume ==> 0.0 <= r.uiSfxVolume <= VolumeMax)
      && (key == WorldSfxVolume ==> 0.0 <= r.worldSfxVolume <= VolumeMax)
      && (key == VoiceVolume ==> 0.0 <= r.voiceVolume <= VolumeMax)
      && (key == DialogueSpeed ==> SpeedMin <= r.dialogueSpeed <= SpeedMax)
      && (key == UiScale ==> ScaleMin <= r.manualUiScale <= ScaleMax)
  {
  }

  /** Settings inside their ranges stay inside them. */
  lemma AdjustKeepsInRange(v: Values, key: SettingKey, direction: int)
    requires InRange(v)
    ensures InRange(Adjust(v, key, direction))
  {
  }

  /** The switches flip: adjusting twice restores them whatever the directions. */
  lemma SwitchesFlipBack(v: Values, key: SettingKey, d1: int, d2: int)
    requires key == UiScaleMode || key == CursorMotion
    requires d1 != 0 && d2 != 0
    ensures Adjust(v, key, d1) != v
    ensures Adjust(Adjust(v, key, d1), key, d2) == v
  {
  }

  /** The field a key controls, as a number (switches as 0 or 1). */
  function FieldOf(v: Values, key: SettingKey): real
  {
    match key
    case MasterVolume => v.masterVolume
    case MusicVolume => v.musicVolume
    case UiSfxVolume => v.uiSfxVolume
    case WorldSfxVolume => v.worldSfxVolume
    case VoiceVolume => v.voiceVolume
    case DialogueSpeed => v.dialogueSpeed
    case UiScaleMode => if v.uiScaleAuto then 1.0 else 0.0
    case UiScale => v.manualUiScale
    case CursorMotion => if v.cursorMotion then 1.0 else 0.0
  }

  /** Adjusting one key leaves the field of every other key alone. */
  lemma AdjustTouchesOnlyItsField(v: Values, key: SettingKey, other: SettingKey, direction: int)
    requires other != key
    ensures FieldOf(Adjust(v, key, direction), other) == FieldOf(v, other)
  {
  }

  /** A step up inside the range moves by exactly one step. */
  lemma VolumeStepsExactly(v: Values)
    requires 0.0 <= v.masterVolume <= VolumeMax - VolumeStep
    ensures Adjust(v, MasterVolume, 1).masterVolume == v.masterVolume + VolumeStep
    ensures Adjust(Adjust(v, MasterVolume, 1), MasterVolume, -1).masterVolume == v.masterVolume
  {
  }

  /** What `value_text` shows: a percentage (its number formatting is not modelled) or a word. */
  datatype ValueText = Percent(value: real) | Word(word: string)

  /** `value_text`. */
  function ValueTextOf(v: Values, key: SettingKey): (r: ValueText)
    ensures key == UiScaleMode ==> r == Word(if v.uiScaleAuto then "auto" else "manual")
    ensures key == CursorMotion ==> r == Word(if v.cursorMotion then "on" else "off")
    ensures key != UiScaleMode && key != CursorMotion ==> r == Percent(FieldOf(v, key) * 100.0)
  {
    match key
    case UiScaleMode => Word(if v.uiScaleAuto then "auto" else "manual")
    case CursorMotion => Word(if v.cursorMotion then "on" else "off")
    case _ => Percent(FieldOf(v, key) * 100.0)
  }

  /** `GameSettings`, adjusted in place by the settings menu. */
  class GameSettings {
    var values: Values

    /** `Default`: full master and voice volume, normal speed, automatic scale, cursor motion on. */
    constructor ()
      ensures values == DefaultValues && InRange(values)
    {
      values := DefaultValues;
    }

    /** `adjust`. */
    method AdjustSetting(key: SettingKey, direction: int)
      modifies this
      ensures values == Adjust(old(values), key, direction)
    {
      var step := Signum(direction) as real;
      if step == 0.0 {
        return;
      }
      match key {
        case MasterVolume => values := values.(masterVolume := Clamp(values.masterVolume + step * VolumeStep, 0.0, VolumeMax));
        case MusicVolume => values := values.(musicVolume := Clamp(values.musicVolume + step * VolumeStep, 0.0, VolumeMax));
        case UiSfxVolume => values := values.(uiSfxVolume := Clamp(values.uiSfxVolume + step * VolumeStep, 0.0, VolumeMax));
        case WorldSfxVolume => values := values.(worldSfxVolume := Clamp(values.worldSfxVolume + step * VolumeStep, 0.0, VolumeMax));
        case VoiceVolume => values := values.(voiceVolume := Clamp(values.voiceVolume + step * VolumeStep, 0.0, VolumeMax));
        case DialogueSpeed => values := values.(dialogueSpeed := Clamp(values.dialogueSpeed + step * SpeedStep, SpeedMin, SpeedMax));
        case UiScaleMode => values := values.(uiScaleAuto := !values.uiScaleAuto);
        case UiScale => values := values.(manualUiScale := Clamp(values.manualUiScale + step * ScaleStep, ScaleMin, ScaleMax));
        case CursorMotion => values := values.(cursorMotion := !values.cursorMotion);
      }
    }
  }
}
