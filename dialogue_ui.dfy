/**
 * The dialogue box of the game UI: a typewriter that reveals the line one
 * character at a time, a one-slot option carousel cycled with the arrows,
 * the prompt shown under the line, and the translation of "advance" input
 * into commands for the dialogue engine.
 */
module DialogueUi {
  import opened Wrappers
  import opened Numeric
  import opened Text
  import opened UiComponents
  import RatTypes

  /** Reveal pacing bounds for one character, in seconds. */
  const MinCharInterval: real := 0.008
  const MaxCharInterval: real := 0.070
  /** The carousel slide animation length after a cycle, in seconds. */
  const SlotAnimSecs: real := 0.16
  /** Extra share of one interval that a punctuation mark waits. */
  const PunctuationPause: real := 0.55

  /**
   * The seconds between two revealed characters: the requested duration
   * (at least 0.1 s) spread over the characters (at least one), divided by
   * the player's speed setting (clamped to [0.5, 2]) and clamped.
   */
  function CharInterval(revealDurationSecs: real, charCount: nat, dialogueSpeed: real): (r: real)
    ensures MinCharInterval <= r <= MaxCharInterval
  {
    var count := Max(charCount, 1) as real;
    var speed := Clamp(dialogueSpeed, 0.5, 2.0);
    Clamp(MaxReal(revealDurationSecs, 0.10) / count / speed, MinCharInterval, MaxCharInterval)
  }

  /** A longer line never reveals more slowly per character. */
  lemma CharIntervalShrinksWithLength(revealDurationSecs: real, n1: nat, n2: nat, dialogueSpeed: real)
    requires n1 <= n2
    ensures CharInterval(revealDurationSecs, n2, dialogueSpeed) <= CharInterval(revealDurationSecs, n1, dialogueSpeed)
  {
    var d := MaxReal(revealDurationSecs, 0.10);
    var c1 := Max(n1, 1) as real;
    var c2 := Max(n2, 1) as real;
    var speed := Clamp(dialogueSpeed, 0.5, 2.0);
    DivByLargerIsSmaller(d, c1, c2);
    DivMonotone(d / c2, d / c1, speed);
  }

  /** The characters after which the typewriter pauses a little longer. */
  predicate IsPausePunctuation(ch: char)
  {
    ch == '.' || ch == ',' || ch == ';' || ch == ':' || ch == '!' || ch == '?'
  }

  /** How many pause marks a revealed stretch holds. */
  function PauseCount(s: seq<char>): (r: nat)
    ensures r <= |s|
  {
    if s == [] then 0 else (if IsPausePunctuation(s[0]) then 1 else 0) + PauseCount(s[1..])
  }

  /**
   * The count is what it says: none exactly when the stretch has no pause
   * mark, all of it exactly when every character is one.
   */
  lemma {:induction false} PauseCountMeaning(s: seq<char>)
    ensures PauseCount(s) == 0 <==> forall i :: 0 <= i < |s| ==> !IsPausePunctuation(s[i])
    ensures PauseCount(s) == |s| <==> forall i :: 0 <= i < |s| ==> IsPausePunctuation(s[i])
  {
    if s != [] {
      PauseCountMeaning(s[1..]);
      assert forall i :: 1 <= i < |s| ==> s[i] == s[1..][i - 1];
    }
  }

  /** The timer cost of revealing one character. */
  function Paid(ch: char, interval: real): real
  {
    if IsPausePunctuation(ch) then interval + interval * PunctuationPause else interval
  }

  /** The timer cost of revealing a stretch of characters. */
  function Spent(s: seq<char>, interval: real): real
  {
    if s == [] then 0.0 else Paid(s[0], interval) + Spent(s[1..], interval)
  }

  /**
   * One frame of the typewriter after the frame time has been added to
   * `timer`: while a whole interval has accumulated and characters remain,
   * reveal one and pay its cost. The result is the new revealed count and
   * the remaining timer.
   */
  function Typewriter(chars: seq<char>, revealed: nat, timer: real, interval: real): (r: (nat, real))
    requires revealed <= |chars|
    ensures revealed <= r.0 <= |chars|
    ensures r.0 == |chars| || r.1 < interval
    ensures r.0 > revealed <==> timer >= interval && revealed < |chars|
    decreases |chars| - revealed
  {
    if timer >= interval && revealed < |chars| then
      Typewriter(chars, revealed + 1, timer - Paid(chars[revealed], interval), interval)
    else (revealed, timer)
  }

  /** The timer left is the timer given minus the cost of what was revealed. */
  lemma {:induction false} TypewriterSpends(chars: seq<char>, revealed: nat, timer: real, interval: real)
    requires revealed <= |chars|
    ensures var r := Typewriter(chars, revealed, timer, interval);
      r.1 == timer - Spent(chars[revealed..r.0], interval)
    decreases |chars| - revealed
  {
    var r := Typewriter(chars, revealed, timer, interval);
    if timer >= interval && revealed < |chars| {
      TypewriterSpends(chars, revealed + 1, timer - Paid(chars[revealed], interval), interval);
      assert chars[revealed..r.0][1..] == chars[revealed + 1..r.0];
    } else {
      assert chars[revealed..r.0] == [];
    }
  }

  /** Each character costs one interval, and a pause mark 0.55 of one more. */
  lemma {:induction false} SpentFormula(s: seq<char>, interval: real)
    ensures Spent(s, interval) == interval * (|s| as real + PunctuationPause * PauseCount(s) as real)
  {
    if s != [] {
      SpentFormula(s[1..], interval);
      var p := if IsPausePunctuation(s[0]) then 1.0 else 0.0;
      var rest := PauseCount(s[1..]) as real;
      assert PauseCount(s) as real == p + rest;
      assert Paid(s[0], interval) == interval * (1.0 + PunctuationPause * p);
      assert |s| as real == |s[1..]| as real + 1.0;
    }
  }

  /**
   * The typewriter's books balance: the timer left equals the timer given
   * minus one interval per revealed character and the pause share per
   * revealed punctuation mark.
   */
  lemma TypewriterAccounting(chars: seq<char>, revealed: nat, timer: real, interval: real)
    requires revealed <= |chars|
    ensures var r := Typewriter(chars, revealed, timer, interval);
      r.1 == timer - interval * ((r.0 - revealed) as real + PunctuationPause * PauseCount(chars[revealed..r.0]) as real)
  {
    var r := Typewriter(chars, revealed, timer, interval);
    TypewriterSpends(chars, revealed, timer, interval);
    SpentFormula(chars[revealed..r.0], interval);
  }

  /**
   * The option selected after cycling by `dir` through `len` options:
   * the Euclidean remainder that Rust's `rem_euclid` computes.
   */
  function Cycled(idx: nat, dir: int, len: nat): (r: nat)
    requires len > 0
    ensures r < len
    ensures idx < len && dir == 1 ==> r == (if idx + 1 == len then 0 else idx + 1)
    ensures idx < len && dir == -1 ==> r == (if idx == 0 then len - 1 else idx - 1)
  {
    (idx + dir) % len
  }

  /** Stepping forward and then back returns to the same option. */
  lemma CycleRoundTrip(idx: nat, len: nat)
    requires idx < len
    ensures Cycled(Cycled(idx, 1, len), -1, len) == idx
    ensures Cycled(Cycled(idx, -1, len), 1, len) == idx
  {
  }

  /**
   * The quick action an option offers, judged on its trimmed, ASCII
   * lower-cased text: "show item" wins over "leave", which "leave" or
   * "go." selects.
   */
  function QuickActionLabel(text: string): (r: Option<string>)
    ensures var n := AsciiLower(Trim(text));
      (r == Some("show item") <==> Contains(n, "show item"))
      && (r == Some("leave") <==> !Contains(n, "show item") && (Contains(n, "leave") || Contains(n, "go.")))
      && (r == None <==> !Contains(n, "show item") && !Contains(n, "leave") && !Contains(n, "go."))
  {
    var normalized := AsciiLower(Trim(text));
    if Contains(normalized, "show item") then Some("show item")
    else if Contains(normalized, "leave") || Contains(normalized, "go.") then Some("leave")
    else None
  }

  /** Whether any option offers a quick action. */
  function HasQuickActions(options: seq<UiDialogueOption>): (r: bool)
    ensures r <==> exists i :: 0 <= i < |options| && QuickActionLabel(options[i].text).Some?
  {
    if options == [] then false
    else
      var rest := HasQuickActions(options[1..]);
      assert forall i :: 0 < i < |options| ==> options[i] == options[1..][i - 1];
      QuickActionLabel(options[0].text).Some? || rest
  }

  /** The five hints the dialogue shows under the line. */
  datatype Prompt = SkipPrompt | ContinuePrompt | ChooseQuickPrompt | SwitchQuickPrompt | SwitchPrompt

  /** The words of each hint. */
  function PromptText(p: Prompt): string
  {
    match p
    case SkipPrompt => "e/enter/click: skip"
    case ContinuePrompt => "e/enter/click: continue"
    case ChooseQuickPrompt => "enter: choose | click: quick action"
    case SwitchQuickPrompt => "a/d or arrows: switch | enter: choose | click: quick action"
    case SwitchPrompt => "a/d or arrows: switch | enter: choose"
  }

  /** The hint under the dialogue for the current reveal and options. */
  function PromptFor(revealed: nat, textLen: nat, options: seq<UiDialogueOption>): Prompt
  {
    var quick := HasQuickActions(options);
    if revealed < textLen then SkipPrompt
    else if |options| == 0 then ContinuePrompt
    else if |options| == 1 then (if quick then ChooseQuickPrompt else ContinuePrompt)
    else if quick then SwitchQuickPrompt
    else SwitchPrompt
  }

  /**
   * The prompt tells the player what input does: "skip" exactly while text
   * is still being revealed, "switch" exactly when several options are on
   * offer, "quick action" exactly when some offered option has one, and
   * "continue" otherwise.
   */
  lemma PromptRules(revealed: nat, textLen: nat, options: seq<UiDialogueOption>)
    ensures var p := PromptFor(revealed, textLen, options);
      var done := revealed >= textLen;
      (p == SkipPrompt <==> !done)
      && (p in {SwitchPrompt, SwitchQuickPrompt} <==> done && |options| >= 2)
      && (p in {ChooseQuickPrompt, SwitchQuickPrompt} <==> done && |options| >= 1 && HasQuickActions(options))
      && (p == ContinuePrompt <==> done && (|options| == 0 || (|options| == 1 && !HasQuickActions(options))))
  {
  }

  /** What the dialogue box's input handling sends out. */
  datatype DialogueMessage = ToUi(ui: UiDialogueCommand) | ToRat(rat: RatTypes.RatCommand)

  /** The keys pressed this frame that the dialogue listens to. */
  datatype DialogueKeys = DialogueKeys(escape: bool, left: bool, right: bool, confirm: bool)

  /** One open dialogue box. */
  class DialogueSession {
    var textChars: seq<char>
    var options: seq<UiDialogueOption>
    var selectedOption: nat
    var revealed: nat
    var revealTimer: real
    var charInterval: real
    /** The carousel slide animation: time left and direction. */
    var slotAnim: (real, real)
    /** The characters currently shown on the line row. */
    var row: seq<char>
    var prompt: string

    /**
     * The row shows exactly the revealed prefix, the selection is a valid
     * option (or 0 without options), the pacing is within its bounds and
     * the prompt always matches the state.
     */
    ghost predicate Valid()
      reads this
    {
      revealed <= |textChars|
      && row == textChars[..revealed]
      && (if options == [] then selectedOption == 0 else selectedOption < |options|)
      && MinCharInterval <= charInterval <= MaxCharInterval
      && prompt == PromptText(PromptFor(revealed, |textChars|, options))
    }

    /** A fresh box for a request, with nothing revealed yet. */
    constructor (req: UiDialogueRequest, dialogueSpeed: real)
      ensures Valid()
      ensures textChars == req.text && options == req.options
      ensures selectedOption == 0 && revealed == 0 && revealTimer == 0.0 && row == []
      ensures charInterval == CharInterval(req.revealDurationSecs, |req.text|, dialogueSpeed)
      ensures slotAnim == (0.0, 0.0)
    {
      textChars := req.text;
      options := req.options;
      selectedOption := 0;
      revealed := 0;
      revealTimer := 0.0;
      charInterval := CharInterval(req.revealDurationSecs, |req.text|, dialogueSpeed);
      slotAnim := (0.0, 0.0);
      row := [];
      prompt := PromptText(PromptFor(0, |req.text|, req.options));
    }

    /** Re-derive the prompt from the current state. */
    method RefreshPrompt()
      modifies this
      ensures prompt == PromptText(PromptFor(revealed, |textChars|, options))
      ensures textChars == old(textChars) && options == old(options) && selectedOption == old(selectedOption)
      ensures revealed == old(revealed) && revealTimer == old(revealTimer) && charInterval == old(charInterval)
      ensures slotAnim == old(slotAnim) && row == old(row)
    {
      prompt := PromptText(PromptFor(revealed, |textChars|, options));
    }

    /** Start the line over: nothing shown, timer and selection at 0. */
    method ResetText()
      requires MinCharInterval <= charInterval <= MaxCharInterval
      modifies this
      ensures Valid()
      ensures revealed == 0 && revealTimer == 0.0 && selectedOption == 0 && row == []
      ensures textChars == old(textChars) && options == old(options)
      ensures charInterval == old(charInterval) && slotAnim == old(slotAnim)
    {
      row := [];
      revealed := 0;
      revealTimer := 0.0;
      selectedOption := 0;
      RefreshPrompt();
    }

    /** Show the whole line at once. */
    method RevealAllChars()
      modifies this
      ensures revealed == |textChars| && row == textChars
      ensures textChars == old(textChars) && options == old(options) && selectedOption == old(selectedOption)
      ensures revealTimer == old(revealTimer) && charInterval == old(charInterval)
      ensures slotAnim == old(slotAnim) && prompt == old(prompt)
    {
      var shown: seq<char> := [];
      for i := 0 to |textChars|
        invariant shown == textChars[..i]
      {
        shown := shown + [textChars[i]];
      }
      row := shown;
      revealed := |textChars|;
    }

    /**
     * Cycle the option carousel by `dir`: with fewer than two options
     * nothing happens; otherwise the selection wraps around and the slide
     * animation restarts in the direction of `dir`.
     */
    method CycleOption(dir: int)
      requires Valid()
      modifies this
      ensures Valid()
      ensures |options| < 2 ==> selectedOption == old(selectedOption) && slotAnim == old(slotAnim)
      ensures |options| >= 2 ==>
        selectedOption == Cycled(old(selectedOption), dir, |options|) && slotAnim == (SlotAnimSecs, Signum(dir) as real)
      ensures textChars == old(textChars) && options == old(options) && revealed == old(revealed)
      ensures revealTimer == old(revealTimer) && row == old(row) && charInterval == old(charInterval)
    {
      if |options| < 2 {
        return;
      }
      selectedOption := Cycled(selectedOption, dir, |options|);
      slotAnim := (SlotAnimSecs, Signum(dir) as real);
      RefreshPrompt();
    }

    /**
     * One frame of the typewriter: with text left, add the frame time and
     * reveal characters while whole intervals have accumulated; the prompt
     * is refreshed once the line is complete.
     */
    method UpdateTypewriter(dt: real)
      requires Valid()
      modifies this
      ensures Valid()
      ensures old(revealed) >= |textChars| ==> revealed == old(revealed) && revealTimer == old(revealTimer)
      ensures old(revealed) < |textChars| ==>
        (revealed, revealTimer) == Typewriter(textChars, old(revealed), old(revealTimer) + dt, charInterval)
      ensures old(revealed) <= revealed
      ensures textChars == old(textChars) && options == old(options) && selectedOption == old(selectedOption)
      ensures charInterval == old(charInterval) && slotAnim == old(slotAnim)
    {
      if revealed >= |textChars| {
        return;
      }
      var chars := textChars;
      var interval := charInterval;
      var n := revealed;
      var timer := revealTimer + dt;
      var shown := row;
      while timer >= interval && n < |chars|
        invariant revealed <= n <= |chars|
        invariant shown == chars[..n]
        invariant Typewriter(chars, n, timer, interval) == Typewriter(chars, revealed, revealTimer + dt, interval)
        decreases |chars| - n
      {
        timer := timer - interval;
        var ch := chars[n];
        shown := shown + [ch];
        n := n + 1;
        if IsPausePunctuation(ch) {
          timer := timer - interval * PunctuationPause;
        }
      }
      row := shown;
      revealed := n;
      revealTimer := timer;
      if n >= |chars| {
        RefreshPrompt();
      }
    }
  }

  /** The dialogue box resource: at most one open session. */
  class UiDialogueRuntime {
    var session: Option<DialogueSession>
    /** Whether a dialogue box is open, as other systems see it. */
    var active: bool

    ghost function Footprint(): set<object>
      reads this
    {
      if session.Some? then {this, session.value} else {this}
    }

    ghost predicate Valid()
      reads Footprint()
    {
      (active <==> session.Some?) && (session.Some? ==> session.value.Valid())
    }

    constructor ()
      ensures Valid() && session == None && !active
    {
      session := None;
      active := false;
    }

    /** Close the box, if any. */
    method CloseSession()
      modifies this
      ensures Valid() && session == None && !active
    {
      session := None;
      active := false;
    }

    /** Open a box for `req`, replacing any box that was open. */
    method Start(req: UiDialogueRequest, dialogueSpeed: real)
      modifies this
      ensures Valid() && active && session.Some? && fresh(session.value)
      ensures session.value.textChars == req.text && session.value.options == req.options
      ensures session.value.revealed == 0 && session.value.selectedOption == 0
      ensures session.value.revealTimer == 0.0 && session.value.row == [] && session.value.slotAnim == (0.0, 0.0)
      ensures session.value.charInterval == CharInterval(req.revealDurationSecs, |req.text|, dialogueSpeed)
    {
      CloseSession();
      var s := new DialogueSession(req, dialogueSpeed);
      s.ResetText();
      active := true;
      session := Some(s);
    }

    /**
     * The Advance command: without a box nothing happens; on a partly
     * revealed line it reveals all of it and says nothing; on a complete
     * line it asks the engine to advance (no options) or to choose the
     * selected option.
     */
    method Advance() returns (out: seq<RatTypes.RatCommand>)
      requires Valid()
      modifies Footprint()
      ensures Valid() && session == old(session) && active == old(active)
      ensures session.None? ==> out == []
      ensures session.Some? ==> var s := session.value;
        (old(s.revealed) < |s.textChars| ==> out == [] && s.revealed == |s.textChars|)
        && (old(s.revealed) >= |s.textChars| ==>
          s.revealed == old(s.revealed) && out == (if s.options == [] then [RatTypes.RatCommand.Advance] else [RatTypes.RatCommand.Choose(s.selectedOption)]))
      ensures session.Some? ==> var s := session.value;
        s.textChars == old(s.textChars) && s.options == old(s.options) && s.selectedOption == old(s.selectedOption)
    {
      out := [];
      if session.None? {
        return;
      }
      var s := session.value;
      if s.revealed < |s.textChars| {
        s.RevealAllChars();
        s.RefreshPrompt();
        return;
      }
      if s.options == [] {
        out := [RatTypes.RatCommand.Advance];
      } else {
        out := [RatTypes.RatCommand.Choose(s.selectedOption)];
      }
    }

    /** Apply one command from the rest of the UI. */
    method Apply(cmd: UiDialogueCommand, dialogueSpeed: real) returns (out: seq<RatTypes.RatCommand>)
      requires Valid()
      modifies Footprint()
      ensures Valid()
      ensures cmd.Start? ==> out == [] && active && session.Some? && fresh(session.value)
      ensures cmd.Start? ==> var s := session.value;
        s.textChars == cmd.request.text && s.options == cmd.request.options
        && s.revealed == 0 && s.selectedOption == 0 && s.revealTimer == 0.0 && s.row == [] && s.slotAnim == (0.0, 0.0)
        && s.charInterval == CharInterval(cmd.request.revealDurationSecs, |cmd.request.text|, dialogueSpeed)
      ensures cmd.Close? ==> out == [] && !active && session == None
      ensures cmd.Advance? ==> session == old(session) && active == old(active) && (session.None? ==> out == [])
      ensures cmd.Advance? && session.Some? ==> var s := session.value;
        s.textChars == old(s.textChars) && s.options == old(s.options) && s.selectedOption == old(s.selectedOption)
        && (old(s.revealed) < |s.textChars| ==> out == [] && s.revealed == |s.textChars|)
        && (old(s.revealed) >= |s.textChars| ==>
          s.revealed == old(s.revealed) && out == (if s.options == [] then [RatTypes.RatCommand.Advance] else [RatTypes.RatCommand.Choose(s.selectedOption)]))
    {
      out := [];
      match cmd {
        case Start(req) => Start(req, dialogueSpeed);
        case Advance => out := Advance();
        case Close => CloseSession();
      }
    }

    /**
     * The keyboard shortcuts while a box is open: Escape closes the
     * dialogue; while text is being revealed, confirm asks for the rest of
     * it; on a complete line without options confirm advances; with
     * options left/right cycle the carousel and confirm chooses.
     */
    method HandleShortcuts(keys: DialogueKeys) returns (out: seq<DialogueMessage>)
      requires Valid()
      modifies Footprint()
      ensures Valid() && session == old(session) && active == old(active)
      ensures !active ==> out == []
      ensures active && keys.escape ==> out == [ToRat(RatTypes.RatCommand.Close)]
      ensures active ==> var s := session.value;
        s.revealed == old(s.revealed) && s.textChars == old(s.textChars) && s.options == old(s.options)
        && s.revealTimer == old(s.revealTimer) && s.charInterval == old(s.charInterval)
      ensures active && (keys.escape || old(session.value.revealed) < |session.value.textChars| || session.value.options == []) ==>
        session.value.selectedOption == old(session.value.selectedOption) && session.value.slotAnim == old(session.value.slotAnim)
      ensures active && !keys.escape ==> var s := session.value;
        (old(s.revealed) < |s.textChars| ==>
          out == (if keys.confirm then [ToUi(UiDialogueCommand.Advance)] else []))
        && (old(s.revealed) >= |s.textChars| && s.options == [] ==>
          out == (if keys.confirm then [ToRat(RatTypes.RatCommand.Advance)] else []))
        && (old(s.revealed) >= |s.textChars| && s.options != [] ==>
          var n := |s.options|;
          var afterLeft := if keys.left && n >= 2 then Cycled(old(s.selectedOption), -1, n) else old(s.selectedOption);
          var afterRight := if keys.right && n >= 2 then Cycled(afterLeft, 1, n) else afterLeft;
          s.selectedOption == afterRight
          && s.slotAnim == (if keys.right && n >= 2 then (SlotAnimSecs, 1.0)
                            else if keys.left && n >= 2 then (SlotAnimSecs, -1.0)
                            else old(s.slotAnim))
          && out == (if keys.confirm then [ToRat(RatTypes.RatCommand.Choose(afterRight))] else []))
    {
      out := [];
      if !active {
        return;
      }
      if keys.escape {
        out := [ToRat(RatTypes.RatCommand.Close)];
        return;
      }
      var s := session.value;
      if s.revealed < |s.textChars| {
        if keys.confirm {
          out := [ToUi(UiDialogueCommand.Advance)];
        }
        return;
      }
      if s.options == [] {
        if keys.confirm {
          out := [ToRat(RatTypes.RatCommand.Advance)];
        }
        return;
      }
      if keys.left {
        s.CycleOption(-1);
      }
      if keys.right {
        s.CycleOption(1);
      }
      if keys.confirm {
        out := [ToRat(RatTypes.RatCommand.Choose(s.selectedOption))];
      }
    }
  }
}
