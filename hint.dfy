/**
 * The on-screen hint: a one-line banner shown on request, optionally
 * glitching in, that can fade out over a given time or be hidden at once.
 * At most one hint is up; showing a new one replaces the old.
 */
module Hint {
  import opened Wrappers
  import opened Numeric
  import opened UiComponents

  const DefaultFontSize: real := 24.0
  const DefaultGlitchSecs: real := 0.48
  const DefaultFadeSecs: real := 0.36
  /** The smallest font size and the shortest fade a hint accepts. */
  const MinFontSize: real := 8.0
  const MinFadeSecs: real := 0.02

  datatype UiHintRequest = UiHintRequest(text: string, fontSize: real, glitchSecs: real)
  {
    /** Set the font size, never below 8. */
    function WithFontSize(size: real): (r: UiHintRequest)
      ensures r.text == text && r.glitchSecs == glitchSecs
      ensures r.fontSize >= MinFontSize && (size >= MinFontSize ==> r.fontSize == size)
      ensures size < MinFontSize ==> r.fontSize == MinFontSize
    {
      this.(fontSize := MaxReal(size, MinFontSize))
    }

    /** Set the glitch-in time, never negative. */
    function WithGlitchSecs(secs: real): (r: UiHintRequest)
      ensures r.text == text && r.fontSize == fontSize
      ensures r.glitchSecs >= 0.0 && (secs >= 0.0 ==> r.glitchSecs == secs)
      ensures secs < 0.0 ==> r.glitchSecs == 0.0
    {
      this.(glitchSecs := MaxReal(secs, 0.0))
    }
  }

  /** A request with the default size and glitch time. */
  function NewRequest(text: string): (r: UiHintRequest)
    ensures r.text == text && r.fontSize == DefaultFontSize && r.glitchSecs == DefaultGlitchSecs
  {
    UiHintRequest(text, DefaultFontSize, DefaultGlitchSecs)
  }

  /** A request that went through the builders keeps a font of at least 8 and a non-negative glitch time. */
  predicate WellFormedRequest(r: UiHintRequest)
  {
    r.fontSize >= MinFontSize && r.glitchSecs >= 0.0
  }

  /** Every chain of builder calls from `NewRequest` yields a well-formed request. */
  lemma BuildersKeepWellFormed(r: UiHintRequest, size: real, secs: real)
    requires WellFormedRequest(r)
    ensures WellFormedRequest(NewRequest(r.text))
    ensures WellFormedRequest(r.WithFontSize(size)) && WellFormedRequest(r.WithGlitchSecs(secs))
  {
  }

  /** A non-positive fade request means the default fade. */
  function FadeDuration(durationSecs: real): (r: real)
    ensures r > 0.0
    ensures durationSecs > 0.0 ==> r == durationSecs
    ensures durationSecs <= 0.0 ==> r == DefaultFadeSecs
  {
    if durationSecs <= 0.0 then DefaultFadeSecs else durationSecs
  }

  /** The fade timer's length: the fade duration, but at least 0.02 s. */
  function FadeTimerSecs(durationSecs: real): (r: real)
    ensures r >= MinFadeSecs
    ensures durationSecs >= MinFadeSecs ==> r == durationSecs
    ensures durationSecs <= 0.0 ==> r == DefaultFadeSecs
  {
    MaxReal(FadeDuration(durationSecs), MinFadeSecs)
  }

  /** Defaulting the duration twice is the same as once. */
  lemma FadeDurationIdempotent(durationSecs: real)
    ensures FadeDuration(FadeDuration(durationSecs)) == FadeDuration(durationSecs)
    ensures FadeTimerSecs(FadeDuration(durationSecs)) == FadeTimerSecs(durationSecs)
  {
  }

  /** A part of a positive whole is a share between 0 and 1 of it. */
  lemma ShareOfWhole(part: real, whole: real)
    requires 0.0 <= part <= whole && whole > 0.0
    ensures 0.0 <= part / whole <= 1.0
  {
    assert part / whole * whole == part;
  }

  datatype UiHintCommand = Show(request: UiHintRequest) | FadeOut(durationSecs: real) | Hide

  /** A running one-shot timer: its length and the time elapsed so far. */
  datatype HintTimer = HintTimer(duration: real, elapsed: real)

  /** The hint resource with the timers attached to its entities. */
  class UiHintRuntime {
    var root: Option<Entity>
    var text: Option<Entity>
    var frame: Option<Entity>
    /** The fade timer on the root, once a fade was asked for. */
    var fade: Option<HintTimer>
    /** The glitch timer on the text, when the hint glitches in. */
    var glitch: Option<HintTimer>

    /**
     * The three entities come and go together, the timers exist only on a
     * shown hint, and a fade timer is at least 0.02 s long and never runs
     * past its end.
     */
    ghost predicate Valid()
      reads this
    {
      (root.Some? <==> text.Some?) && (root.Some? <==> frame.Some?)
      && (root.None? ==> fade.None? && glitch.None?)
      && (fade.Some? ==> fade.value.duration >= MinFadeSecs && 0.0 <= fade.value.elapsed <= fade.value.duration)
      && (glitch.Some? ==> glitch.value.duration > 0.0)
    }

    constructor ()
      ensures Valid() && root.None?
    {
      root := None;
      text := None;
      frame := None;
      fade := None;
      glitch := None;
    }

    /** Take the hint down. */
    method CloseHint()
      modifies this
      ensures Valid()
      ensures root.None? && text.None? && frame.None? && fade.None? && glitch.None?
    {
      root := None;
      text := None;
      frame := None;
      fade := None;
      glitch := None;
    }

    /**
     * Show a hint built from `request` on freshly spawned entities, after
     * taking down any hint already up; it glitches in only for a positive
     * glitch time.
     */
    method OpenHint(request: UiHintRequest, newRoot: Entity, newFrame: Entity, newText: Entity)
      modifies this
      ensures Valid()
      ensures root == Some(newRoot) && text == Some(newText) && frame == Some(newFrame) && fade.None?
      ensures request.glitchSecs > 0.0 ==> glitch == Some(HintTimer(request.glitchSecs, 0.0))
      ensures request.glitchSecs <= 0.0 ==> glitch.None?
    {
      CloseHint();
      if request.glitchSecs > 0.0 {
        glitch := Some(HintTimer(request.glitchSecs, 0.0));
      }
      root := Some(newRoot);
      text := Some(newText);
      frame := Some(newFrame);
    }

    /**
     * Apply one command. A fade is ignored unless a hint is up and its root
     * still exists (`rootAlive`); it (re)starts the fade timer.
     */
    method Apply(cmd: UiHintCommand, rootAlive: bool, newRoot: Entity, newFrame: Entity, newText: Entity)
      requires Valid()
      modifies this
      ensures Valid()
      ensures cmd.Show? ==>
        root == Some(newRoot) && text == Some(newText) && frame == Some(newFrame) && fade.None?
        && (cmd.request.glitchSecs > 0.0 ==> glitch == Some(HintTimer(cmd.request.glitchSecs, 0.0)))
        && (cmd.request.glitchSecs <= 0.0 ==> glitch.None?)
      ensures cmd.Hide? ==> root.None? && text.None? && frame.None? && fade.None? && glitch.None?
      ensures cmd.FadeOut? && (old(root).None? || !rootAlive) ==> unchanged(this)
      ensures cmd.FadeOut? && old(root).Some? && rootAlive ==>
        fade == Some(HintTimer(FadeTimerSecs(cmd.durationSecs), 0.0))
        && root == old(root) && text == old(text) && frame == old(frame) && glitch == old(glitch)
    {
      match cmd {
        case Show(request) => OpenHint(request, newRoot, newFrame, newText);
        case FadeOut(durationSecs) =>
          if root.Some? && rootAlive {
            var secs := if durationSecs <= 0.0 then DefaultFadeSecs else durationSecs;
            fade := Some(HintTimer(MaxReal(secs, MinFadeSecs), 0.0));
          }
        case Hide => CloseHint();
      }
    }

    /**
     * One frame of the fade: the timer advances by `dt` up to its end, the
     * hint's opacity is the share of the fade still to go, and the hint is
     * taken down when the timer finishes. Without a fade nothing happens.
     */
    method AnimateFade(dt: real) returns (alpha: Option<real>)
      requires Valid() && dt >= 0.0
      modifies this
      ensures Valid()
      ensures old(root).None? || old(fade).None? ==> alpha.None? && unchanged(this)
      ensures alpha.Some? ==> 0.0 <= alpha.value <= 1.0
      ensures old(root).Some? && old(fade).Some? ==>
        var t := old(fade).value;
        var elapsed := MinReal(t.elapsed + dt, t.duration);
        alpha == Some(1.0 - elapsed / t.duration)
        && (elapsed >= t.duration ==> root.None? && text.None? && frame.None? && fade.None? && glitch.None?)
        && (elapsed < t.duration ==>
              (root == old(root) && text == old(text) && frame == old(frame)
               && glitch == old(glitch) && fade == Some(HintTimer(t.duration, elapsed))))
    {
      alpha := None;
      if root.None? || fade.None? {
        return;
      }
      var t := fade.value;
      var elapsed := MinReal(t.elapsed + dt, t.duration);
      ShareOfWhole(elapsed, t.duration);
      fade := Some(HintTimer(t.duration, elapsed));
      alpha := Some(1.0 - elapsed / t.duration);
      if elapsed >= t.duration {
        CloseHint();
      }
    }
  }
}
