/**
 * The ratspinner dialogue state machine: the library of registered scripts,
 * the active dialogue `(script, node, overlay)` and the messages each
 * command sends: hook notifications, dialogue box commands, voice
 * commands and discovery commands, one output stream per message kind.
 *
 * The discovery database is seen through `DiscoveryView`: the item list,
 * whether an item was already shown to a speaker, and the speech duration
 * estimate. The last two are not part of this model and are parameters.
 */
module RatDialogue {
  import opened Wrappers
  import opened RatTypes
  import opened UiComponents
  import Synth

  datatype Overlay = NoOverlay | InventoryPicker | ItemResponse

  /** `ActiveDialogue`; `headless` stands for a presentation that shows no dialogue box and speaks nothing. */
  datatype ActiveDialogue = ActiveDialogue(
    scriptId: string,
    nodeId: string,
    target: Option<Entity>,
    headless: bool,
    overlay: Overlay)

  /** The runtime's `active` dialogue together with the public `RatDialogueState.active` flag. */
  datatype Session = Session(active: Option<ActiveDialogue>, dialogueActive: bool)

  datatype VoiceMessage = StopVoice | Speak(text: string, voice: Synth.VoicePreset, target: Option<Entity>)

  datatype InteractionAction = Inspected | Shared
  datatype InteractionActor = Player | Speaker(name: string)

  /** A discovery command: one of the database commands, or an interaction record. */
  datatype DiscoveryMessage =
    | DbCommand(command: UiDiscoveryCommand)
    | RecordInteraction(
        kind: DiscoveryKind,
        id: string,
        action: InteractionAction,
        actor: InteractionActor,
        scriptId: string,
        nodeId: string,
        optionId: Option<string>,
        note: string)

  /** Messages written during one command, per writer, in write order. */
  datatype Outbox = Outbox(
    hooks: seq<RatHookTriggered>,
    ui: seq<UiDialogueCommand>,
    voice: seq<VoiceMessage>,
    discovery: seq<DiscoveryMessage>)

  const NoOutput: Outbox := Outbox([], [], [], [])

  /** The messages of `a` followed by those of `b`, writer by writer. */
  function Then(a: Outbox, b: Outbox): Outbox
  {
    Outbox(a.hooks + b.hooks, a.ui + b.ui, a.voice + b.voice, a.discovery + b.discovery)
  }

  datatype Step = Step(session: Session, out: Outbox)

  /** What the dialogue runtime reads from the discovery database. */
  datatype DiscoveryView = DiscoveryView(
    items: seq<DiscoveryEntry>,
    sharedWithSpeaker: (string, string, string) -> bool,
    estimateSecs: (string, Synth.VoicePreset) -> real)

  type Library = map<string, RatScript>

  // ---------------------------------------------------------------------
  // Pure pieces
  // ---------------------------------------------------------------------

  /** `is_headless`: only an active, headless dialogue is headless. */
  predicate IsHeadless(active: Option<ActiveDialogue>)
  {
    active.Some? && active.value.headless
  }

  /** The node the active dialogue stands on, if its script and node exist. */
  function CurrentNode(lib: Library, a: ActiveDialogue): (r: Option<RatNode>)
    ensures r.Some? <==> a.scriptId in lib && a.nodeId in lib[a.scriptId].nodes
  {
    if a.scriptId in lib && a.nodeId in lib[a.scriptId].nodes then Some(lib[a.scriptId].nodes[a.nodeId]) else None
  }

  /** One hook message per hook, in order, all naming the active script, node and target. */
  function HookMessages(hooks: seq<string>, a: ActiveDialogue, optionId: Option<string>): (r: seq<RatHookTriggered>)
    ensures |r| == |hooks|
    ensures forall i :: 0 <= i < |hooks| ==> r[i] == RatHookTriggered(hooks[i], a.scriptId, a.nodeId, optionId, a.target)
  {
    seq(|hooks|, i requires 0 <= i < |hooks| => RatHookTriggered(hooks[i], a.scriptId, a.nodeId, optionId, a.target))
  }

  const BackOption: UiDialogueOption := UiDialogueOption("back", None, None, false, true)

  /** `dialogue_options_for_node`: the node's options, then "Show item..." (usable only with items). */
  function OptionsForNode(node: RatNode, items: seq<DiscoveryEntry>): seq<UiDialogueOption>
  {
    seq(|node.options|, i requires 0 <= i < |node.options| => UiDialogueOption(node.options[i].text, None, None, false, true))
    + [UiDialogueOption("Show item...", None, None, false, items != [])]
  }

  lemma OptionsForNodeRules(node: RatNode, items: seq<DiscoveryEntry>)
    ensures |OptionsForNode(node, items)| == |node.options| + 1
    ensures forall i :: 0 <= i < |node.options| ==>
      OptionsForNode(node, items)[i].text == node.options[i].text && OptionsForNode(node, items)[i].enabled
    ensures OptionsForNode(node, items)[|node.options|].text == "Show item..."
    ensures OptionsForNode(node, items)[|node.options|].enabled <==> items != []
  {
  }

  /** The dialogue box request for a node. */
  function NodeRequest(node: RatNode, items: seq<DiscoveryEntry>, revealSecs: real): UiDialogueRequest
  {
    UiDialogueRequest(Standard, node.speaker, node.text, node.portraitPath, None, OptionsForNode(node, items), revealSecs)
  }

  function PickerOption(view: DiscoveryView, e: DiscoveryEntry, scriptId: string, speaker: string): UiDialogueOption
  {
    UiDialogueOption(e.title, Some(PreviewOf(e)), Some(e.id), view.sharedWithSpeaker(e.id, scriptId, speaker), true)
  }

  /** `open_inventory_picker`'s request: one option per item, then "back"; the first option's preview is shown. */
  function PickerRequest(view: DiscoveryView, scriptId: string, speaker: string): UiDialogueRequest
  {
    var items := view.items;
    var options := seq(|items|, i requires 0 <= i < |items| => PickerOption(view, items[i], scriptId, speaker)) + [BackOption];
    UiDialogueRequest(Inventory, "inventory", "pick an item to show", DefaultPortrait, options[0].preview, options, 0.0)
  }

  lemma PickerRequestRules(view: DiscoveryView, scriptId: string, speaker: string)
    ensures var r := PickerRequest(view, scriptId, speaker);
      |r.options| == |view.items| + 1 && r.options[|view.items|] == BackOption
      && (forall i :: 0 <= i < |view.items| ==>
            r.options[i].itemId == Some(view.items[i].id) && r.options[i].preview == Some(PreviewOf(view.items[i]))
            && r.options[i].seen == view.sharedWithSpeaker(view.items[i].id, scriptId, speaker))
      && r.preview == (if view.items == [] then None else Some(PreviewOf(view.items[0])))
      && r.mode == Inventory && r.revealDurationSecs == 0.0
  {
  }

  /** The speaker's reaction to being shown an item. */
  function ItemLine(title: string, alreadyShared: bool): string
  {
    "hmm... " + title + ". " + (if alreadyShared then "i remember this" else "what is this?")
  }

  /** `show_item_response`'s request: the reaction line, the item's card and a single "back" option. */
  function ItemResponseRequest(node: RatNode, item: DiscoveryEntry, line: string, revealSecs: real): UiDialogueRequest
  {
    UiDialogueRequest(Standard, node.speaker, line, node.portraitPath, Some(PreviewOf(item)), [BackOption], revealSecs)
  }

  // ---------------------------------------------------------------------
  // Transitions
  // ---------------------------------------------------------------------

  /** The active dialogue moved to another node, with no overlay. */
  function MoveTo(s: Session, nodeId: string): Session
    requires s.active.Some?
  {
    s.(active := Some(s.active.value.(nodeId := nodeId, overlay := NoOverlay)))
  }

  function WithOverlay(s: Session, overlay: Overlay): Session
    requires s.active.Some?
  {
    s.(active := Some(s.active.value.(overlay := overlay)))
  }

  /** `close_dialogue`: no dialogue any more; the box closes and the voice stops unless headless. */
  function CloseSpec(s: Session): Step
  {
    Step(Session(None, false), if IsHeadless(s.active) then NoOutput else Outbox([], [UiDialogueCommand.Close], [StopVoice], []))
  }

  /** `show_current_node`: the node's hooks, its dialogue box and, when speaking, its voice line. */
  function ShowSpec(lib: Library, s: Session, view: DiscoveryView, speak: bool): Step
  {
    if s.active.None? then CloseSpec(s)
    else
      var a := s.active.value;
      match CurrentNode(lib, a)
      case None => CloseSpec(s)
      case Some(node) =>
        var secs := if speak then view.estimateSecs(node.text, node.voice) else 0.0;
        Step(s, Outbox(
          HookMessages(node.hooks, a, None),
          if a.headless then [] else [UiDialogueCommand.Start(NodeRequest(node, view.items, secs))],
          if speak && !a.headless then [StopVoice, Speak(node.text, node.voice, a.target)] else [],
          []))
  }

  /** `start_dialogue`: an unknown script is ignored; otherwise the entry node is shown. */
  function StartSpec(lib: Library, s: Session, start: RatStart, view: DiscoveryView): Step
  {
    if start.scriptId !in lib then Step(s, NoOutput)
    else
      var script := lib[start.scriptId];
      var started := Session(Some(ActiveDialogue(start.scriptId, script.entry, start.target, start.headless, NoOverlay)), true);
      var record := RecordInteraction(Npc, script.id, Inspected, Player, script.id, script.entry, None, "dialogue.start");
      var shown := ShowSpec(lib, started, view, true);
      Step(shown.session, Then(Outbox([], [], [], [record]), shown.out))
  }

  /** `advance_dialogue` on a node without options: follow `next`, or close. */
  function AdvanceWithoutOptions(lib: Library, s: Session, view: DiscoveryView, node: RatNode): Step
    requires s.active.Some?
  {
    if node.next.Some? then ShowSpec(lib, MoveTo(s, node.next.value), view, true) else CloseSpec(s)
  }

  /** `advance_dialogue`. */
  function AdvanceSpec(lib: Library, s: Session, view: DiscoveryView): Step
  {
    if s.active.None? then Step(s, NoOutput)
    else
      match CurrentNode(lib, s.active.value)
      case None => CloseSpec(s)
      case Some(node) =>
        if node.options != [] then ChooseSpec(lib, s, view, 0)
        else AdvanceWithoutOptions(lib, s, view, node)
  }

  /** Showing `item` in the inventory picker. */
  function ShowItemSpec(lib: Library, s: Session, view: DiscoveryView, node: RatNode, item: DiscoveryEntry): Step
    requires s.active.Some? && s.active.value.scriptId in lib
  {
    var a := s.active.value;
    var fired := Outbox([RatHookTriggered("dialogue.show_item", a.scriptId, a.nodeId, Some(item.id), a.target)], [], [], []);
    var responseId := "response_" + item.id;
    if responseId in lib[a.scriptId].nodes then
      var shown := ShowSpec(lib, MoveTo(s, responseId), view, true);
      Step(shown.session, Then(fired, shown.out))
    else
      var line := ItemLine(item.title, view.sharedWithSpeaker(item.id, a.scriptId, node.speaker));
      var record := RecordInteraction(Item, item.id, Shared, Speaker(node.speaker), a.scriptId, a.nodeId, Some(item.id), "dialogue.show_item");
      Step(WithOverlay(s, ItemResponse), Then(fired, Outbox(
        [],
        if a.headless then [] else [UiDialogueCommand.Start(ItemResponseRequest(node, item, line, view.estimateSecs(line, node.voice)))],
        if a.headless then [] else [StopVoice, Speak(line, node.voice, a.target)],
        [DbCommand(SetSeen(Item, item.id, true)), record])))
  }

  /** The option a choice takes: the chosen one, or the first when the index is out of range. */
  function ChosenOption(node: RatNode, index: nat): RatOption
    requires node.options != []
  {
    if index < |node.options| then node.options[index] else node.options[0]
  }

  /** `choose_option`. */
  function ChooseSpec(lib: Library, s: Session, view: DiscoveryView, index: nat): Step
  {
    if s.active.None? then Step(s, NoOutput)
    else
      var a := s.active.value;
      match CurrentNode(lib, a)
      case None => CloseSpec(s)
      case Some(node) =>
        if a.overlay == InventoryPicker then
          if index < |view.items| then ShowItemSpec(lib, s, view, node, view.items[index])
          else ShowSpec(lib, WithOverlay(s, NoOverlay), view, true)
        else if a.overlay == ItemResponse then ShowSpec(lib, WithOverlay(s, NoOverlay), view, true)
        else if index == |node.options| then
          if view.items == [] then Step(s, NoOutput)
          else Step(WithOverlay(s, InventoryPicker), Outbox(
            [],
            if a.headless then [] else [UiDialogueCommand.Start(PickerRequest(view, a.scriptId, node.speaker))],
            if a.headless then [] else [StopVoice],
            []))
        else if node.options == [] then AdvanceWithoutOptions(lib, s, view, node)
        else
          var option := ChosenOption(node, index);
          var fired := Outbox(HookMessages(option.hooks, a, option.id), [], [], []);
          var next := if option.next.Some? then option.next else node.next;
          var rest := if next.Some? then ShowSpec(lib, MoveTo(s, next.value), view, true) else CloseSpec(s);
          Step(rest.session, Then(fired, rest.out))
  }

  /** The whole runtime: library and session. */
  datatype Runtime = Runtime(library: Library, session: Session)

  datatype Outcome = Outcome(runtime: Runtime, out: Outbox)

  /** One command of `handle_rat_commands`. */
  function HandleSpec(rt: Runtime, cmd: RatCommand, view: DiscoveryView): Outcome
  {
    var lib := rt.library;
    match cmd
    case Register(script) => Outcome(rt.(library := lib[script.id := script]), NoOutput)
    case Start(start) => var st := StartSpec(lib, rt.session, start, view); Outcome(Runtime(lib, st.session), st.out)
    case Advance => var st := AdvanceSpec(lib, rt.session, view); Outcome(Runtime(lib, st.session), st.out)
    case Choose(index) => var st := ChooseSpec(lib, rt.session, view, index); Outcome(Runtime(lib, st.session), st.out)
    case Close =>
      var ui := if IsHeadless(rt.session.active) then [] else [UiDialogueCommand.Close];
      Outcome(Runtime(lib, Session(None, false)), Outbox([], ui, [StopVoice], []))
  }

  /** Commands handled one after another, their messages collected in order. */
  function HandleAllSpec(rt: Runtime, cmds: seq<RatCommand>, view: DiscoveryView): Outcome
    decreases |cmds|
  {
    if cmds == [] then Outcome(rt, NoOutput)
    else
      var front := HandleAllSpec(rt, cmds[..|cmds| - 1], view);
      var last := HandleSpec(front.runtime, cmds[|cmds| - 1], view);
      Outcome(last.runtime, Then(front.out, last.out))
  }

  // ---------------------------------------------------------------------
  // Properties
  // ---------------------------------------------------------------------

  /** `RatDialogueState.active` mirrors whether a dialogue is active. */
  predicate Consistent(s: Session)
  {
    s.dialogueActive <==> s.active.Some?
  }

  lemma ShowKeepsConsistent(lib: Library, s: Session, view: DiscoveryView, speak: bool)
    requires Consistent(s)
    ensures Consistent(ShowSpec(lib, s, view, speak).session)
  {
  }

  /** Every command keeps the flag and the active dialogue in step. */
  lemma HandleKeepsConsistent(rt: Runtime, cmd: RatCommand, view: DiscoveryView)
    requires Consistent(rt.session)
    ensures Consistent(HandleSpec(rt, cmd, view).runtime.session)
  {
    var s := rt.session;
    if s.active.Some? {
      ShowKeepsConsistent(rt.library, WithOverlay(s, NoOverlay), view, true);
    }
  }

  lemma {:induction false} HandleAllKeepsConsistent(rt: Runtime, cmds: seq<RatCommand>, view: DiscoveryView)
    requires Consistent(rt.session)
    ensures Consistent(HandleAllSpec(rt, cmds, view).runtime.session)
    decreases |cmds|
  {
    if cmds != [] {
      HandleAllKeepsConsistent(rt, cmds[..|cmds| - 1], view);
      HandleKeepsConsistent(HandleAllSpec(rt, cmds[..|cmds| - 1], view).runtime, cmds[|cmds| - 1], view);
    }
  }

  /** Closing ends the dialogue; the box and the voice are told only when it was shown. */
  lemma CloseRules(s: Session)
    ensures CloseSpec(s).session.active.None? && !CloseSpec(s).session.dialogueActive
    ensures CloseSpec(s).out.hooks == [] && CloseSpec(s).out.discovery == []
    ensures IsHeadless(s.active) ==> CloseSpec(s).out.ui == [] && CloseSpec(s).out.voice == []
    ensures !IsHeadless(s.active) ==> CloseSpec(s).out.ui == [UiDialogueCommand.Close] && CloseSpec(s).out.voice == [StopVoice]
  {
  }

  /**
   * Starting an unknown script changes nothing; a known one stands on its
   * entry node with no overlay, records the interaction and, when the entry
   * node exists, stays active.
   */
  lemma StartRules(lib: Library, s: Session, start: RatStart, view: DiscoveryView)
    ensures start.scriptId !in lib ==> StartSpec(lib, s, start, view) == Step(s, NoOutput)
    ensures start.scriptId in lib && lib[start.scriptId].entry in lib[start.scriptId].nodes ==>
      var script := lib[start.scriptId];
      StartSpec(lib, s, start, view).session
        == Session(Some(ActiveDialogue(start.scriptId, script.entry, start.target, start.headless, NoOverlay)), true)
      && StartSpec(lib, s, start, view).out.discovery
        == [RecordInteraction(Npc, script.id, Inspected, Player, script.id, script.entry, None, "dialogue.start")]
      && StartSpec(lib, s, start, view).out.hooks == HookMessages(script.nodes[script.entry].hooks, StartSpec(lib, s, start, view).session.active.value, None)
  {
  }

  /**
   * `advance_dialogue`: on a node with options it is `choose_option(0)`;
   * otherwise `next` leads to that node with no overlay, and without `next`
   * the dialogue closes.
   */
  lemma AdvanceRules(lib: Library, s: Session, view: DiscoveryView)
    requires s.active.Some? && CurrentNode(lib, s.active.value).Some?
    ensures var node := CurrentNode(lib, s.active.value).value;
      (node.options != [] ==> AdvanceSpec(lib, s, view) == ChooseSpec(lib, s, view, 0))
      && (node.options == [] && node.next.None? ==> AdvanceSpec(lib, s, view).session == Session(None, false))
      && (node.options == [] && node.next.Some? && node.next.value in lib[s.active.value.scriptId].nodes ==>
            AdvanceSpec(lib, s, view).session == MoveTo(s, node.next.value))
  {
  }

  /** Without an active dialogue, advancing and choosing do nothing. */
  lemma InactiveIgnoresInput(lib: Library, s: Session, view: DiscoveryView, index: nat)
    requires s.active.None?
    ensures AdvanceSpec(lib, s, view) == Step(s, NoOutput)
    ensures ChooseSpec(lib, s, view, index) == Step(s, NoOutput)
  {
  }

  /**
   * Choosing the extra "Show item..." option opens the inventory picker
   * only when there are items; with none, nothing happens at all.
   */
  lemma ChooseShowItemRules(lib: Library, s: Session, view: DiscoveryView)
    requires s.active.Some? && s.active.value.overlay == NoOverlay && CurrentNode(lib, s.active.value).Some?
    ensures var index := |CurrentNode(lib, s.active.value).value.options|;
      (view.items == [] ==> ChooseSpec(lib, s, view, index) == Step(s, NoOutput))
      && (view.items != [] ==>
            ChooseSpec(lib, s, view, index).session == WithOverlay(s, InventoryPicker)
            && ChooseSpec(lib, s, view, index).out.hooks == [])
  {
  }

  /**
   * In the picker, a valid item announces `dialogue.show_item` first, then
   * jumps to `response_<id>` if the script has that node, or else shows the
   * item response overlay and marks the item as seen.
   */
  lemma PickerValidChoice(lib: Library, s: Session, view: DiscoveryView, index: nat)
    requires s.active.Some? && s.active.value.overlay == InventoryPicker && CurrentNode(lib, s.active.value).Some?
    requires index < |view.items|
    ensures var a := s.active.value;
      var item := view.items[index];
      var responseId := "response_" + item.id;
      var r := ChooseSpec(lib, s, view, index);
      r.out.hooks != [] && r.out.hooks[0] == RatHookTriggered("dialogue.show_item", a.scriptId, a.nodeId, Some(item.id), a.target)
      && (responseId in lib[a.scriptId].nodes ==> r.session == MoveTo(s, responseId))
      && (responseId !in lib[a.scriptId].nodes ==>
            r.session == WithOverlay(s, ItemResponse) && r.out.discovery[0] == DbCommand(SetSeen(Item, item.id, true)))
  {
  }

  /** In the picker, an out-of-range index, and in the item response, any index, go back to the node. */
  lemma OverlayFallsBack(lib: Library, s: Session, view: DiscoveryView, index: nat)
    requires s.active.Some? && CurrentNode(lib, s.active.value).Some?
    requires s.active.value.overlay == ItemResponse || (s.active.value.overlay == InventoryPicker && index >= |view.items|)
    ensures ChooseSpec(lib, s, view, index).session == WithOverlay(s, NoOverlay)
    ensures ChooseSpec(lib, s, view, index) == ShowSpec(lib, WithOverlay(s, NoOverlay), view, true)
  {
  }

  /** A choice past both the options and "Show item..." is a choice of the first option. */
  lemma OutOfRangeChoosesFirst(lib: Library, s: Session, view: DiscoveryView, index: nat)
    requires s.active.Some? && s.active.value.overlay == NoOverlay && CurrentNode(lib, s.active.value).Some?
    requires CurrentNode(lib, s.active.value).value.options != []
    requires index > |CurrentNode(lib, s.active.value).value.options|
    ensures ChooseSpec(lib, s, view, index) == ChooseSpec(lib, s, view, 0)
  {
  }

  /**
   * A normal choice sends all the option's hooks first; then the option's
   * `next`, else the node's, becomes the node with no overlay, and with
   * neither the dialogue closes.
   */
  lemma NormalChoiceRules(lib: Library, s: Session, view: DiscoveryView, index: nat)
    requires s.active.Some? && s.active.value.overlay == NoOverlay && CurrentNode(lib, s.active.value).Some?
    requires index < |CurrentNode(lib, s.active.value).value.options|
    ensures var a := s.active.value;
      var node := CurrentNode(lib, a).value;
      var option := node.options[index];
      var next := if option.next.Some? then option.next else node.next;
      var r := ChooseSpec(lib, s, view, index);
      |option.hooks| <= |r.out.hooks| && r.out.hooks[..|option.hooks|] == HookMessages(option.hooks, a, option.id)
      && (next.None? ==> r.session == Session(None, false))
      && (next.Some? && next.value in lib[a.scriptId].nodes ==> r.session == MoveTo(s, next.value))
  {
    var a := s.active.value;
    var node := CurrentNode(lib, a).value;
    var option := node.options[index];
    var fired := HookMessages(option.hooks, a, option.id);
    var r := ChooseSpec(lib, s, view, index);
    assert r.out.hooks[..|fired|] == fired;
  }

  /** A node without options treats any choice other than "Show item..." as advancing. */
  lemma ChoiceWithoutOptionsAdvances(lib: Library, s: Session, view: DiscoveryView, index: nat)
    requires s.active.Some? && s.active.value.overlay == NoOverlay && CurrentNode(lib, s.active.value).Some?
    requires CurrentNode(lib, s.active.value).value.options == [] && index != 0
    ensures ChooseSpec(lib, s, view, index) == AdvanceSpec(lib, s, view)
  {
  }

  /** A headless dialogue never sends a dialogue box command or a voice message. */
  lemma HeadlessIsSilent(lib: Library, s: Session, view: DiscoveryView, index: nat)
    requires IsHeadless(s.active)
    ensures ShowSpec(lib, s, view, true).out.ui == [] && ShowSpec(lib, s, view, true).out.voice == []
    ensures AdvanceSpec(lib, s, view).out.ui == [] && AdvanceSpec(lib, s, view).out.voice == []
    ensures ChooseSpec(lib, s, view, index).out.ui == [] && ChooseSpec(lib, s, view, index).out.voice == []
  {
    HeadlessChooseIsSilent(lib, s, view, index);
    HeadlessChooseIsSilent(lib, s, view, 0);
  }

  lemma HeadlessChooseIsSilent(lib: Library, s: Session, view: DiscoveryView, index: nat)
    requires IsHeadless(s.active)
    ensures ChooseSpec(lib, s, view, index).out.ui == [] && ChooseSpec(lib, s, view, index).out.voice == []
  {
    var a := s.active.value;
    if CurrentNode(lib, a).Some? {
      var node := CurrentNode(lib, a).value;
      if a.overlay == InventoryPicker && index < |view.items| {
        var responseId := "response_" + view.items[index].id;
        if responseId in lib[a.scriptId].nodes {
          assert IsHeadless(MoveTo(s, responseId).active);
        }
      } else if a.overlay == NoOverlay && index != |node.options| {
        if node.options == [] {
          if node.next.Some? {
            assert IsHeadless(MoveTo(s, node.next.value).active);
          }
        } else {
          var option := ChosenOption(node, index);
          var next := if option.next.Some? then option.next else node.next;
          if next.Some? {
            assert IsHeadless(MoveTo(s, next.value).active);
          }
        }
      }
    }
  }

  /** A headless start shows nothing and speaks nothing. */
  lemma HeadlessStartIsSilent(lib: Library, s: Session, start: RatStart, view: DiscoveryView)
    requires start.headless
    ensures StartSpec(lib, s, start, view).out.ui == [] && StartSpec(lib, s, start, view).out.voice == []
  {
  }

  // ---------------------------------------------------------------------
  // The runtime resource
  // ---------------------------------------------------------------------

  /** The script library, the active dialogue and the public dialogue flag. */
  class RatRuntime {
    var library: Library
    var active: Option<ActiveDialogue>
    var dialogueActive: bool

    function CurrentSession(): Session
      reads this
    {
      Session(active, dialogueActive)
    }

    function Model(): Runtime
      reads this
    {
      Runtime(library, CurrentSession())
    }

    /** Empty library, no dialogue. */
    constructor ()
      ensures library == map[] && active.None? && !dialogueActive
    {
      library := map[];
      active := None;
      dialogueActive := false;
    }

    /** `close_dialogue`. */
    method CloseDialogue() returns (out: Outbox)
      modifies this
      ensures library == old(library)
      ensures Step(CurrentSession(), out) == CloseSpec(old(CurrentSession()))
    {
      var headless := IsHeadless(active);
      active := None;
      dialogueActive := false;
      out := if headless then NoOutput else Outbox([], [UiDialogueCommand.Close], [StopVoice], []);
    }

    /** `show_current_node`. */
    method ShowCurrentNode(view: DiscoveryView, speak: bool) returns (out: Outbox)
      modifies this
      ensures library == old(library)
      ensures Step(CurrentSession(), out) == ShowSpec(library, old(CurrentSession()), view, speak)
    {
      if active.None? {
        out := CloseDialogue();
        return;
      }
      var a := active.value;
      if a.scriptId !in library || a.nodeId !in library[a.scriptId].nodes {
        out := CloseDialogue();
        return;
      }
      var node := library[a.scriptId].nodes[a.nodeId];
      out := Outbox(HookMessages(node.hooks, a, None), [], [], []);
      if !a.headless {
        var secs := if speak then view.estimateSecs(node.text, node.voice) else 0.0;
        out := out.(ui := [UiDialogueCommand.Start(NodeRequest(node, view.items, secs))]);
      }
      if speak && !a.headless {
        out := out.(voice := [StopVoice, Speak(node.text, node.voice, a.target)]);
      }
    }

    /** `start_dialogue`. */
    method StartDialogue(start: RatStart, view: DiscoveryView) returns (out: Outbox)
      modifies this
      ensures library == old(library)
      ensures Step(CurrentSession(), out) == StartSpec(library, old(CurrentSession()), start, view)
    {
      if start.scriptId !in library {
        return NoOutput;
      }
      var script := library[start.scriptId];
      active := Some(ActiveDialogue(start.scriptId, script.entry, start.target, start.headless, NoOverlay));
      var record := RecordInteraction(Npc, script.id, Inspected, Player, script.id, script.entry, None, "dialogue.start");
      dialogueActive := true;
      var shown := ShowCurrentNode(view, true);
      out := Then(Outbox([], [], [], [record]), shown);
    }

    /** The part of `advance_dialogue` for a node without options. */
    method AdvancePastNode(view: DiscoveryView, node: RatNode) returns (out: Outbox)
      requires active.Some?
      modifies this
      ensures library == old(library)
      ensures Step(CurrentSession(), out) == AdvanceWithoutOptions(library, old(CurrentSession()), view, node)
    {
      if node.next.Some? {
        active := Some(active.value.(nodeId := node.next.value, overlay := NoOverlay));
        out := ShowCurrentNode(view, true);
      } else {
        out := CloseDialogue();
      }
    }

    /** `advance_dialogue`. */
    method AdvanceDialogue(view: DiscoveryView) returns (out: Outbox)
      modifies this
      ensures library == old(library)
      ensures Step(CurrentSession(), out) == AdvanceSpec(library, old(CurrentSession()), view)
    {
      if active.None? {
        return NoOutput;
      }
      var a := active.value;
      if a.scriptId !in library || a.nodeId !in library[a.scriptId].nodes {
        out := CloseDialogue();
        return;
      }
      var node := library[a.scriptId].nodes[a.nodeId];
      if node.options != [] {
        out := ChooseOption(view, 0);
        return;
      }
      out := AdvancePastNode(view, node);
    }

    /** The inventory picker branch of `choose_option` for a valid item. */
    method ShowItem(view: DiscoveryView, node: RatNode, item: DiscoveryEntry) returns (out: Outbox)
      requires active.Some? && active.value.scriptId in library
      modifies this
      ensures library == old(library)
      ensures Step(CurrentSession(), out) == ShowItemSpec(library, old(CurrentSession()), view, node, item)
    {
      var a := active.value;
      var fired := Outbox([RatHookTriggered("dialogue.show_item", a.scriptId, a.nodeId, Some(item.id), a.target)], [], [], []);
      var responseId := "response_" + item.id;
      if responseId in library[a.scriptId].nodes {
        active := Some(a.(nodeId := responseId, overlay := NoOverlay));
        var shown := ShowCurrentNode(view, true);
        out := Then(fired, shown);
        return;
      }
      active := Some(a.(overlay := ItemResponse));
      var alreadyShared := view.sharedWithSpeaker(item.id, a.scriptId, node.speaker);
      var record := RecordInteraction(Item, item.id, Shared, Speaker(node.speaker), a.scriptId, a.nodeId, Some(item.id), "dialogue.show_item");
      var line := ItemLine(item.title, alreadyShared);
      var response := Outbox([], [], [], [DbCommand(SetSeen(Item, item.id, true)), record]);
      if !a.headless {
        response := response.(ui := [UiDialogueCommand.Start(ItemResponseRequest(node, item, line, view.estimateSecs(line, node.voice)))]);
        response := response.(voice := [StopVoice, Speak(line, node.voice, a.target)]);
      }
      out := Then(fired, response);
    }

    /** `choose_option`. */
    method ChooseOption(view: DiscoveryView, index: nat) returns (out: Outbox)
      modifies this
      ensures library == old(library)
      ensures Step(CurrentSession(), out) == ChooseSpec(library, old(CurrentSession()), view, index)
    {
      if active.None? {
        return NoOutput;
      }
      var a := active.value;
      if a.scriptId !in library || a.nodeId !in library[a.scriptId].nodes {
        out := CloseDialogue();
        return;
      }
      var node := library[a.scriptId].nodes[a.nodeId];
      if a.overlay == InventoryPicker {
        if index < |view.items| {
          out := ShowItem(view, node, view.items[index]);
          return;
        }
        active := Some(a.(overlay := NoOverlay));
        out := ShowCurrentNode(view, true);
        return;
      }
      if a.overlay == ItemResponse {
        active := Some(a.(overlay := NoOverlay));
        out := ShowCurrentNode(view, true);
        return;
      }
      if index == |node.options| {
        if view.items == [] {
          return NoOutput;
        }
        out := NoOutput;
        if !a.headless {
          out := out.(ui := [UiDialogueCommand.Start(PickerRequest(view, a.scriptId, node.speaker))]);
        }
        active := Some(a.(overlay := InventoryPicker));
        if !a.headless {
          out := out.(voice := [StopVoice]);
        }
        return;
      }
      if node.options == [] {
        out := AdvancePastNode(view, node);
        return;
      }
      var option := if index < |node.options| then node.options[index] else node.options[0];
      var fired := Outbox(HookMessages(option.hooks, a, option.id), [], [], []);
      var next := if option.next.Some? then option.next else node.next;
      var rest: Outbox;
      if next.Some? {
        active := Some(a.(nodeId := next.value, overlay := NoOverlay));
        rest := ShowCurrentNode(view, true);
      } else {
        rest := CloseDialogue();
      }
      out := Then(fired, rest);
    }

    /** One message of `handle_rat_commands`. */
    method Handle(cmd: RatCommand, view: DiscoveryView) returns (out: Outbox)
      modifies this
      ensures Outcome(Model(), out) == HandleSpec(old(Model()), cmd, view)
    {
      match cmd
      case Register(script) =>
        library := library[script.id := script];
        out := NoOutput;
      case Start(start) =>
        out := StartDialogue(start, view);
      case Advance =>
        out := AdvanceDialogue(view);
      case Choose(index) =>
        out := ChooseOption(view, index);
      case Close =>
        var headless := IsHeadless(active);
        active := None;
        dialogueActive := false;
        out := Outbox([], if headless then [] else [UiDialogueCommand.Close], [StopVoice], []);
    }

    /** `handle_rat_commands`: every message of the frame, in order. */
    method HandleAll(cmds: seq<RatCommand>, view: DiscoveryView) returns (out: Outbox)
      modifies this
      ensures Outcome(Model(), out) == HandleAllSpec(old(Model()), cmds, view)
    {
      out := NoOutput;
      for i := 0 to |cmds|
        invariant Outcome(Model(), out) == HandleAllSpec(old(Model()), cmds[..i], view)
      {
        assert cmds[..i + 1][..i] == cmds[..i];
        var more := Handle(cmds[i], view);
        out := Then(out, more);
      }
      assert cmds[..|cmds|] == cmds;
    }

    /**
     * `seed_builtin_script`: unless a script "npc.default" is registered,
     * register Mr. D.'s greeting with its three options and two answers.
     */
    method SeedBuiltinScript()
      modifies this
      ensures active == old(active) && dialogueActive == old(dialogueActive)
      ensures "npc.default" in old(library) ==> library == old(library)
      ensures "npc.default" !in old(library) ==>
        library.Keys == old(library).Keys + {"npc.default"}
        && (forall k :: k in old(library) ==> library[k] == old(library)[k])
        && WellFormed(library["npc.default"]) && library["npc.default"].entry == "greeting"
        && library["npc.default"].nodes.Keys == {"greeting", "identity", "place"}
        && |library["npc.default"].nodes["greeting"].options| == 3
    {
      if "npc.default" in library {
        return;
      }
      var script := BuiltinScript();
      library := library[script.id := script];
    }
  }

  /** Mr. D.'s greeting: three options, two of which lead to answers that return to it. */
  function GreetingNode(): (n: RatNode)
    ensures n.id == "greeting" && |n.options| == 3
  {
    NewNode("greeting").WithSpeaker("mr. d.").WithPortrait(DefaultPortrait)
      .WithText("hey there! i'm mr d.").WithHook("npc.default.greeting")
      .WithOption(NewOption("who are you?").WithId("ask_identity").Goto("identity").WithHook("npc.default.option.identity"))
      .WithOption(NewOption("what happened here?").WithId("ask_place").Goto("place").WithHook("npc.default.option.place"))
      .WithOption(NewOption("i should go.").WithId("leave").WithHook("npc.default.option.leave"))
  }

  /** The built-in script "npc.default": greeting, identity and place, entered at the greeting. */
  method BuiltinScript() returns (script: RatScript)
    ensures script.id == "npc.default" && WellFormed(script) && script.entry == "greeting"
    ensures script.nodes.Keys == {"greeting", "identity", "place"}
    ensures |script.nodes["greeting"].options| == 3
  {
    var greeting := GreetingNode();
    var identity := NewNode("identity").WithSpeaker("mr. d.").WithPortrait(DefaultPortrait)
      .WithText("i am mr d!!!!!").WithNext("greeting");
    var place := NewNode("place").WithSpeaker("mr. d.").WithPortrait(DefaultPortrait)
      .WithText("its doom time").WithNext("greeting");
    var builder := NewScriptBuilder("npc.default").WithEntry("greeting").WithNode(greeting).WithNode(identity).WithNode(place);
    script := builder.Build();
    assert IdsOf(builder.nodes) == {"greeting", "identity", "place"} by {
      assert builder.nodes == [greeting, identity, place];
      assert builder.nodes[0].id == "greeting" && builder.nodes[1].id == "identity" && builder.nodes[2].id == "place";
    }
    NodesMapLastWins(builder.nodes, 0);
  }
}
