/**
 * Doors: a usable door toggles between open and closed unless it is closed
 * and locked, plays one sound per use, starts a swing animation when it
 * moves, and may fire a dialogue hook the first time (or every time) it is
 * used. The end door shows one of two win endings.
 */
module Door {
  import opened Wrappers
  import RatTypes

  const DefaultAnimationSecs: real := 0.8

  /** Which of the door's three sounds a use plays. */
  datatype DoorSound = LockedSound | OpenSound | CloseSound

  /** The swing animation attached to a moving door. */
  datatype DoorAnimationTimer = DoorAnimationTimer(duration: real, elapsed: real, opening: bool)

  /** A fresh swing animation towards open (`open`) or closed. */
  function NewAnimation(seconds: real, open: bool): (r: DoorAnimationTimer)
    ensures r.opening == open && r.duration == seconds && r.elapsed == 0.0
  {
    DoorAnimationTimer(seconds, 0.0, open)
  }

  /** The hook a door fires when used, and whether it fires on every use. */
  datatype EmitHook = EmitHook(hook: Option<string>, hookRepeat: bool)

  /** What one use does: the new open state, the sound, and the swing direction if it moves. */
  datatype UseOutcome = UseOutcome(open: bool, sound: DoorSound, swing: Option<bool>)

  function Use(open: bool, locked: bool): UseOutcome
  {
    if open then UseOutcome(false, CloseSound, Some(false))
    else if locked then UseOutcome(false, LockedSound, None)
    else UseOutcome(true, OpenSound, Some(true))
  }

  /**
   * An open door closes; a closed locked door stays shut and rattles; a
   * closed unlocked door opens. The door swings exactly when its state
   * changes, and towards its new state.
   */
  lemma UseRules(open: bool, locked: bool)
    ensures var u := Use(open, locked);
      (u.open <==> !open && !locked)
      && (u.sound == LockedSound <==> !open && locked)
      && (u.sound == OpenSound <==> u.open)
      && (u.swing.Some? <==> u.open != open)
      && (u.swing.Some? ==> u.swing.value == u.open)
  {
  }

  /** The open state after `n` uses. */
  function OpenAfter(open: bool, locked: bool, n: nat): bool
    decreases n
  {
    if n == 0 then open else OpenAfter(Use(open, locked).open, locked, n - 1)
  }

  /** A closed locked door never opens, however often it is used. */
  lemma {:induction false} LockedStaysShut(locked: bool, n: nat)
    requires locked
    ensures !OpenAfter(false, locked, n)
    decreases n
  {
    if n > 0 {
      LockedStaysShut(locked, n - 1);
    }
  }

  /** An unlocked door alternates: an even number of uses brings it back. */
  lemma {:induction false} UnlockedAlternates(open: bool, n: nat)
    ensures OpenAfter(open, false, n) == (if n % 2 == 0 then open else !open)
    decreases n
  {
    if n > 0 {
      UnlockedAlternates(!open, n - 1);
    }
  }

  /** Whether a use with this counter fires the hook (when the door has one). */
  predicate HookDue(counter: nat, hookRepeat: bool)
  {
    counter == 0 || hookRepeat
  }

  /** How many hook messages `n` uses send, starting from `counter`. */
  function HooksSent(counter: nat, emit: EmitHook, n: nat): nat
    decreases n
  {
    if n == 0 then 0
    else
      var due := HookDue(counter, emit.hookRepeat);
      (if due && emit.hook.Some? then 1 else 0) + HooksSent(if due then counter + 1 else counter, emit, n - 1)
  }

  /**
   * Without repeat, a door's hook fires at most once over any number of
   * uses, and never again once the counter has moved; with repeat it
   * fires on every use.
   */
  lemma {:induction false} HookFiresOnce(counter: nat, emit: EmitHook, n: nat)
    ensures !emit.hookRepeat ==> HooksSent(counter, emit, n) <= 1
    ensures !emit.hookRepeat && counter > 0 ==> HooksSent(counter, emit, n) == 0
    ensures emit.hookRepeat && emit.hook.Some? ==> HooksSent(counter, emit, n) == n
    decreases n
  {
    if n > 0 {
      var due := HookDue(counter, emit.hookRepeat);
      HookFiresOnce(if due then counter + 1 else counter, emit, n - 1);
    }
  }

  /** A rotating door with its hook counter and any running swing. */
  class DoorEntity {
    var open: bool
    var locked: bool
    var soundLocked: string
    var soundOpen: string
    var soundClose: string
    var hookCounter: nat
    var animation: Option<DoorAnimationTimer>

    /** The default door: closed, unlocked, with the stock sounds. */
    constructor ()
      ensures !open && !locked && hookCounter == 0 && animation.None?
      ensures soundLocked == "audio/door_locked.ogg" && soundOpen == "audio/door_open.ogg"
      ensures soundClose == "audio/door_close.ogg"
    {
      open := false;
      locked := false;
      soundLocked := "audio/door_locked.ogg";
      soundOpen := "audio/door_open.ogg";
      soundClose := "audio/door_close.ogg";
      hookCounter := 0;
      animation := None;
    }

    function SoundPath(s: DoorSound): string
      reads this
    {
      match s
      case LockedSound => soundLocked
      case OpenSound => soundOpen
      case CloseSound => soundClose
    }

    /**
     * The player uses the door: fire the hook if due (counting the use
     * either way), then move the door as `Use` says, restarting the swing
     * animation when it moves, and play exactly one sound.
     */
    method OnUseDoor(emit: EmitHook, animationSecs: real) returns (hooks: seq<RatTypes.RatHookTriggered>, sample: string)
      modifies this
      ensures var u := Use(old(open), old(locked));
        open == u.open && locked == old(locked) && sample == old(SoundPath(u.sound))
        && (u.swing.Some? ==> animation == Some(NewAnimation(animationSecs, u.open)))
        && (u.swing.None? ==> animation == old(animation))
      ensures HookDue(old(hookCounter), emit.hookRepeat) ==> hookCounter == old(hookCounter) + 1
      ensures !HookDue(old(hookCounter), emit.hookRepeat) ==> hookCounter == old(hookCounter)
      ensures hooks == if HookDue(old(hookCounter), emit.hookRepeat) && emit.hook.Some?
        then [RatTypes.RatHookTriggered(emit.hook.value, "", "", None, None)] else []
      ensures |hooks| == HooksSent(old(hookCounter), emit, 1)
      ensures soundLocked == old(soundLocked) && soundOpen == old(soundOpen) && soundClose == old(soundClose)
    {
      hooks := [];
      if hookCounter == 0 || emit.hookRepeat {
        if emit.hook.Some? {
          hooks := [RatTypes.RatHookTriggered(emit.hook.value, "", "", None, None)];
        }
        hookCounter := hookCounter + 1;
      }
      if open {
        open := false;
        animation := Some(NewAnimation(animationSecs, open));
        sample := soundClose;
      } else if locked {
        sample := soundLocked;
      } else {
        open := true;
        animation := Some(NewAnimation(animationSecs, open));
        sample := soundOpen;
      }
    }
  }

  /** The game's phases. */
  datatype Phase = Explore | Main | Win | Lose

  /**
   * The ending the end door shows: none outside the win phase; in it,
   * "win_spared" when some NPC is the human suspect (`humanSuspect[i]`
   * says whether NPC i is), else "win_killed".
   */
  function EndDoorEnding(phase: Phase, humanSuspect: seq<bool>): (r: Option<string>)
    ensures phase != Win <==> r.None?
    ensures r == Some("win_spared") <==> phase == Win && exists i :: 0 <= i < |humanSuspect| && humanSuspect[i]
    ensures r == Some("win_killed") <==> phase == Win && forall i :: 0 <= i < |humanSuspect| ==> !humanSuspect[i]
  {
    if phase != Win then None
    else if true in humanSuspect then Some("win_spared")
    else Some("win_killed")
  }
}
