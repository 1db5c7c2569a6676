/**
 * The inventory screen's runtime state: which slot is selected, which
 * revision of the discovery database the open screen shows, and the state
 * of a drag in progress. Keyboard shortcuts move the selection, drop or
 * reorder items; a mouse release finishes a drag.
 */
module InventoryUi {
  import opened Wrappers
  import opened Numeric
  import opened UiComponents

  const DropZoneMargin: real := 72.0
  const DragStartThreshold: real := 8.0

  /** `cursor_in_drop_zone`: within the margin of any window edge. */
  predicate CursorInDropZone(x: real, y: real, width: real, height: real)
  {
    x <= DropZoneMargin || y <= DropZoneMargin || x >= width - DropZoneMargin || y >= height - DropZoneMargin
  }

  /** The drop zone is exactly the complement of the window's inner rectangle. */
  lemma DropZoneIsBorderStrip(x: real, y: real, width: real, height: real)
    ensures !CursorInDropZone(x, y, width, height) <==>
      DropZoneMargin < x < width - DropZoneMargin && DropZoneMargin < y < height - DropZoneMargin
  {
  }

  /** Messages the inventory writes: discovery commands and its own open/close commands. */
  datatype InventoryMessage =
    | DropItem(id: string)
    | MoveItem(id: string, toIndex: nat)
    | SetSeenItem(id: string)
    | OpenInventory
    | CloseInventory

  /** The keys pressed this frame (arrow and WASD keys count alike). */
  datatype Keys = Keys(
    escape: bool,
    left: bool,
    right: bool,
    up: bool,
    down: bool,
    drop: bool,
    reorderBack: bool,
    reorderForward: bool)

  // ---------------------------------------------------------------------
  // Keyboard shortcuts
  // ---------------------------------------------------------------------

  /** The selection clamped to the last slot. */
  function ClampSelection(selected: nat, len: nat): (r: nat)
    ensures len > 0 ==> r < len
    ensures selected < len ==> r == selected
  {
    Min(selected, SaturatingSub(len, 1))
  }

  /** Left: one slot back if there is one. */
  function StepLeft(sel: nat): nat { if sel > 0 then sel - 1 else sel }

  /** Right: one slot on if there is one. */
  function StepRight(sel: nat, len: nat): nat { if sel + 1 < len then sel + 1 else sel }

  /** Up: one row (three slots) back, stopping at the first slot. */
  function StepUp(sel: nat): nat { SaturatingSub(sel, 3) }

  /** Down: one row on, stopping at the last slot. */
  function StepDown(sel: nat, len: nat): nat
    requires len > 0
  {
    Min(sel + 3, len - 1)
  }

  /** The four movement keys applied in the source's order: left, right, up, down. */
  function Navigate(sel: nat, keys: Keys, len: nat): (r: nat)
    requires sel < len
  {
    var s1 := if keys.left then StepLeft(sel) else sel;
    var s2 := if keys.right then StepRight(s1, len) else s1;
    var s3 := if keys.up then StepUp(s2) else s2;
    if keys.down then StepDown(s3, len) else s3
  }

  /**
   * Whether some movement key moved the selection. Left then right can
   * move it and back, so this is not the same as a changed selection.
   */
  predicate NavigateMoved(sel: nat, keys: Keys, len: nat)
    requires sel < len
  {
    var s1 := if keys.left then StepLeft(sel) else sel;
    var s2 := if keys.right then StepRight(s1, len) else s1;
    var s3 := if keys.up then StepUp(s2) else s2;
    s1 != sel || s2 != s1 || s3 != s2 || (keys.down && StepDown(s3, len) != s3)
  }

  /** Every movement keeps the selection on a slot; each arrow moves as the source says. */
  lemma NavigateRules(sel: nat, keys: Keys, len: nat)
    requires sel < len
    ensures Navigate(sel, keys, len) < len
    ensures StepLeft(sel) == (if sel > 0 then sel - 1 else sel)
    ensures StepRight(sel, len) == (if sel + 1 < len then sel + 1 else sel)
    ensures StepUp(sel) == (if sel >= 3 then sel - 3 else 0)
    ensures StepDown(sel, len) == (if sel + 3 < len then sel + 3 else len - 1)
    ensures !keys.left && !keys.right && !keys.up && !keys.down ==> Navigate(sel, keys, len) == sel && !NavigateMoved(sel, keys, len)
    ensures Navigate(sel, keys, len) != sel ==> NavigateMoved(sel, keys, len)
  {
  }

  /** The outcome of one frame of shortcuts: the new selection and the messages sent. */
  datatype ShortcutOutcome = ShortcutOutcome(selected: nat, messages: seq<InventoryMessage>)

  /** Dropping the selected slot: the selection steps back when it was on the last slot. */
  function SelectionAfterDrop(sel: nat, len: nat): nat
  {
    if sel >= SaturatingSub(len, 1) then SaturatingSub(sel, 1) else sel
  }

  /** `handle_inventory_shortcuts`. */
  function Shortcuts(open: bool, selected: nat, keys: Keys, items: seq<DiscoveryEntry>): ShortcutOutcome
  {
    if !open then ShortcutOutcome(selected, [])
    else if keys.escape then ShortcutOutcome(selected, [CloseInventory])
    else if items == [] then ShortcutOutcome(selected, [])
    else
      var len := |items|;
      var clamped := ClampSelection(selected, len);
      var sel := Navigate(clamped, keys, len);
      var changed := NavigateMoved(clamped, keys, len);
      if keys.drop then
        ShortcutOutcome(SelectionAfterDrop(sel, len), [DropItem(items[sel].id), OpenInventory])
      else
        var back := SaturatingSub(sel, 1);
        if keys.reorderBack && back != sel then
          ShortcutOutcome(back, [MoveItem(items[sel].id, back), OpenInventory])
        else
          var forward := Min(sel + 1, len - 1);
          if keys.reorderForward && forward != sel then
            ShortcutOutcome(forward, [MoveItem(items[sel].id, forward), OpenInventory])
          else
            ShortcutOutcome(sel, if changed then [OpenInventory] else [])
  }

  /**
   * With items, the selection after any shortcut is a slot; a drop names the
   * selected item, and a reorder moves it one slot back or on and follows it.
   */
  lemma ShortcutRules(selected: nat, keys: Keys, items: seq<DiscoveryEntry>)
    requires items != [] && !keys.escape
    ensures var r := Shortcuts(true, selected, keys, items);
      var sel := Navigate(ClampSelection(selected, |items|), keys, |items|);
      r.selected < |items|
      && (keys.drop ==> r.messages == [DropItem(items[sel].id), OpenInventory])
      && (!keys.drop && keys.reorderBack && sel > 0 ==>
            r.selected == sel - 1 && r.messages == [MoveItem(items[sel].id, sel - 1), OpenInventory])
      && (!keys.drop && !(keys.reorderBack && sel > 0) && keys.reorderForward && sel + 1 < |items| ==>
            r.selected == sel + 1 && r.messages == [MoveItem(items[sel].id, sel + 1), OpenInventory])
      && (forall k :: 0 <= k < |r.messages| && r.messages[k].MoveItem? ==> r.messages[k].toIndex != sel)
  {
  }

  /** Escape closes; a closed inventory or an empty list ignores the keys. */
  lemma ShortcutGuards(selected: nat, keys: Keys, items: seq<DiscoveryEntry>)
    ensures Shortcuts(false, selected, keys, items) == ShortcutOutcome(selected, [])
    ensures keys.escape ==> Shortcuts(true, selected, keys, items) == ShortcutOutcome(selected, [CloseInventory])
    ensures !keys.escape && items == [] ==> Shortcuts(true, selected, keys, items) == ShortcutOutcome(selected, [])
  {
  }

  // ---------------------------------------------------------------------
  // Mouse release
  // ---------------------------------------------------------------------

  /** The end of a drag or a click when the left button is released. */
  function Release(selected: nat, original: Option<nat>, wasDragging: bool, dropZone: bool,
                   hover: Option<nat>, items: seq<DiscoveryEntry>): ShortcutOutcome
  {
    if original.None? || original.value >= |items| then ShortcutOutcome(selected, [])
    else
      var o := original.value;
      var item := items[o];
      if wasDragging && dropZone then
        ShortcutOutcome(SelectionAfterDrop(selected, |items|), [DropItem(item.id), OpenInventory])
      else if wasDragging then
        if hover.None? then ShortcutOutcome(selected, [])
        else if hover.value != o && hover.value < |items| then
          ShortcutOutcome(hover.value, [MoveItem(item.id, hover.value), OpenInventory])
        else ShortcutOutcome(o, [SetSeenItem(item.id)])
      else if hover == Some(o) then ShortcutOutcome(o, [SetSeenItem(item.id), OpenInventory])
      else ShortcutOutcome(selected, [])
  }

  /**
   * A drag released over the drop zone drops the dragged item; released on
   * another slot it moves the item there and selects that slot; a click
   * (no drag) on the same slot marks the item seen.
   */
  lemma ReleaseRules(selected: nat, o: nat, dropZone: bool, hover: Option<nat>, items: seq<DiscoveryEntry>)
    requires o < |items|
    ensures dropZone ==> Release(selected, Some(o), true, dropZone, hover, items).messages == [DropItem(items[o].id), OpenInventory]
    ensures !dropZone && hover.Some? && hover.value != o && hover.value < |items| ==>
      Release(selected, Some(o), true, dropZone, hover, items) == ShortcutOutcome(hover.value, [MoveItem(items[o].id, hover.value), OpenInventory])
    ensures !dropZone && hover == Some(o) ==>
      Release(selected, Some(o), true, dropZone, hover, items) == ShortcutOutcome(o, [SetSeenItem(items[o].id)])
    ensures Release(selected, Some(o), false, dropZone, Some(o), items) == ShortcutOutcome(o, [SetSeenItem(items[o].id), OpenInventory])
    ensures forall k :: 0 <= k < |Release(selected, Some(o), true, dropZone, hover, items).messages| ==>
      var m := Release(selected, Some(o), true, dropZone, hover, items).messages[k];
      m.MoveItem? ==> m.toIndex < |items| && m.toIndex != o
  {
  }

  // ---------------------------------------------------------------------
  // The runtime resource
  // ---------------------------------------------------------------------

  /** The preview panel's entities and flags, created while the screen is built. */
  datatype PreviewHandles = PreviewHandles(
    viewport: Option<Entity>,
    labelText: Option<Entity>,
    cardRoot: Option<Entity>,
    pivot: Option<Entity>,
    worldRoot: Option<Entity>,
    modelRoot: Option<Entity>,
    camera: Option<Entity>,
    framed: bool,
    dragging: bool,
    imageTarget: Option<nat>)

  const NoPreview: PreviewHandles := PreviewHandles(None, None, None, None, None, None, None, false, false, None)

  /** A drag in progress: the hovered and the original slot, where it started, its ghost and the drop zone flag. */
  datatype DragState = DragState(
    draggedIndex: Option<nat>,
    originalIndex: Option<nat>,
    startCursor: Option<(real, real)>,
    visual: Option<Entity>,
    dropZoneActive: bool)

  const NoDrag: DragState := DragState(None, None, None, None, false)

  /**
   * `UiInventoryRuntime`. The source keeps the preview and drag fields flat
   * in the resource; here they are grouped in two records.
   */
  class UiInventoryRuntime {
    var root: Option<Entity>
    var selected: nat
    var lastRevision: nat
    var preview: PreviewHandles
    var drag: DragState

    /** `Default`: closed, first slot, revision 0, no preview and no drag. */
    constructor ()
      ensures root.None? && selected == 0 && lastRevision == 0 && preview == NoPreview && drag == NoDrag
    {
      root := None;
      selected := 0;
      lastRevision := 0;
      preview := NoPreview;
      drag := NoDrag;
    }

    /** `close_inventory`: no root, no preview, no drag; the selection and revision stay. */
    method Close()
      modifies this
      ensures root.None? && preview == NoPreview && drag == NoDrag
      ensures selected == old(selected) && lastRevision == old(lastRevision)
    {
      root := None;
      preview := NoPreview;
      drag := NoDrag;
    }

    /**
     * `open_inventory`: rebuild from scratch on the database's current
     * revision, with the selection clamped to the list; an unseen selected
     * item is marked seen.
     */
    method Open(items: seq<DiscoveryEntry>, revision: nat, newRoot: Entity) returns (messages: seq<InventoryMessage>)
      modifies this
      ensures root == Some(newRoot) && lastRevision == revision && preview == NoPreview && drag == NoDrag
      ensures selected == ClampSelection(old(selected), |items|)
      ensures messages == if selected < |items| && !items[selected].seen then [SetSeenItem(items[selected].id)] else []
    {
      Close();
      selected := Min(selected, SaturatingSub(|items|, 1));
      messages := [];
      if selected < |items| && !items[selected].seen {
        messages := [SetSeenItem(items[selected].id)];
      }
      root := Some(newRoot);
      lastRevision := revision;
    }

    /** `refresh_inventory_on_db_change`: an open screen is rebuilt exactly when the revision moved. */
    function RefreshRequested(revision: nat): (r: bool)
      reads this
      ensures r <==> root.Some? && lastRevision != revision
    {
      root.Some? && lastRevision != revision
    }

    /** `handle_inventory_shortcuts`. */
    method HandleShortcuts(keys: Keys, items: seq<DiscoveryEntry>) returns (messages: seq<InventoryMessage>)
      modifies this
      ensures ShortcutOutcome(selected, messages) == Shortcuts(old(root).Some?, old(selected), keys, items)
      ensures root == old(root) && lastRevision == old(lastRevision) && preview == old(preview) && drag == old(drag)
    {
      messages := [];
      if root.None? {
        return;
      }
      if keys.escape {
        messages := [CloseInventory];
        return;
      }
      if items == [] {
        return;
      }
      var len := |items|;
      var sel := Min(selected, SaturatingSub(len, 1));
      var changed;
      sel, changed := MoveSelection(sel, keys, len);
      messages, sel := DropOrReorder(sel, changed, keys, items);
      selected := sel;
    }

    /**
     * A press on a hovered slot selects it and starts a possible drag there;
     * with the screen closed nothing happens.
     */
    method PressSlot(index: nat, cursor: Option<(real, real)>)
      modifies this
      ensures root.None? ==> selected == old(selected) && drag == old(drag)
      ensures root.Some? ==> selected == index
      ensures root.Some? ==>
        drag == old(drag).(draggedIndex := Some(index), originalIndex := Some(index), startCursor := cursor)
      ensures root == old(root) && preview == old(preview)
    {
      if root.None? {
        return;
      }
      selected := index;
      drag := drag.(draggedIndex := Some(index), originalIndex := Some(index), startCursor := cursor);
    }

    /**
     * While the button is held: once the cursor is at least the threshold
     * away from where the press started (compared squared), the drag ghost
     * appears, but only on an open screen; with a ghost, the drag follows the
     * hovered slot and the drop zone.
     */
    method HoldDrag(cursor: Option<(real, real)>, hover: Option<nat>, inDropZone: bool, ghostEntity: Entity)
      modifies this
      ensures drag.originalIndex == old(drag.originalIndex) && drag.startCursor == old(drag.startCursor)
      ensures root == old(root) && selected == old(selected) && preview == old(preview)
      ensures old(drag.originalIndex).None? ==> drag == old(drag)
      ensures old(drag.originalIndex).Some? && old(drag.visual).Some? ==>
        drag == old(drag).(draggedIndex := hover, dropZoneActive := inDropZone)
      ensures drag.visual.Some? ==> old(drag.visual).Some? || (old(root).Some? && old(drag.startCursor).Some? && cursor.Some?)
    {
      if drag.originalIndex.None? {
        return;
      }
      var d := drag;
      if d.visual.None? && d.startCursor.Some? && cursor.Some? && root.Some? {
        var (sx, sy) := d.startCursor.value;
        var (cx, cy) := cursor.value;
        var dx := cx - sx;
        var dy := cy - sy;
        if dx * dx + dy * dy >= DragStartThreshold * DragStartThreshold {
          d := d.(visual := Some(ghostEntity));
        }
      }
      if d.visual.Some? {
        d := d.(draggedIndex := hover, dropZoneActive := inDropZone);
      }
      drag := d;
    }

    /**
     * The release branch of `handle_inventory_item_interactions`; afterwards
     * no drag remains. With the screen closed nothing happens.
     */
    method ReleaseMouse(hover: Option<nat>, items: seq<DiscoveryEntry>) returns (messages: seq<InventoryMessage>)
      modifies this
      ensures root.None? ==> messages == [] && selected == old(selected) && drag == old(drag)
      ensures root.Some? ==>
        ShortcutOutcome(selected, messages) == Release(old(selected), old(drag.originalIndex), old(drag.visual).Some?, old(drag.dropZoneActive), hover, items)
      ensures root.Some? ==> drag == NoDrag
      ensures root == old(root) && lastRevision == old(lastRevision) && preview == old(preview)
    {
      messages := [];
      if root.None? {
        return;
      }
      var wasDragging := drag.visual.Some?;
      var original := drag.originalIndex;
      if original.Some? && original.value < |items| {
        var o := original.value;
        var item := items[o];
        if wasDragging && drag.dropZoneActive {
          messages := [DropItem(item.id)];
          if selected >= SaturatingSub(|items|, 1) {
            selected := SaturatingSub(selected, 1);
          }
          messages := messages + [OpenInventory];
        } else if wasDragging {
          if hover.Some? {
            if hover.value != o && hover.value < |items| {
              messages := [MoveItem(item.id, hover.value), OpenInventory];
              selected := hover.value;
            } else {
              selected := o;
              messages := [SetSeenItem(item.id)];
            }
          }
        } else if hover == Some(o) {
          selected := o;
          messages := [SetSeenItem(item.id), OpenInventory];
        }
      }
      drag := NoDrag;
    }
  }

  /** The movement keys of the shortcuts, each moving only when it can. */
  method MoveSelection(start: nat, keys: Keys, len: nat) returns (sel: nat, changed: bool)
    requires start < len
    ensures sel == Navigate(start, keys, len) && changed == NavigateMoved(start, keys, len)
  {
    sel := start;
    changed := false;
    if keys.left && sel > 0 {
      sel := sel - 1;
      changed := true;
    }
    if keys.right && sel + 1 < len {
      sel := sel + 1;
      changed := true;
    }
    if keys.up {
      var prev := SaturatingSub(sel, 3);
      if prev != sel {
        sel := prev;
        changed := true;
      }
    }
    if keys.down {
      var next := Min(sel + 3, SaturatingSub(len, 1));
      if next != sel {
        sel := next;
        changed := true;
      }
    }
  }

  /** The drop and reorder part of the shortcuts, after the movement keys. */
  method DropOrReorder(sel: nat, changed: bool, keys: Keys, items: seq<DiscoveryEntry>)
    returns (messages: seq<InventoryMessage>, selected: nat)
    requires sel < |items|
    ensures ShortcutOutcome(selected, messages) ==
      if keys.drop then ShortcutOutcome(SelectionAfterDrop(sel, |items|), [DropItem(items[sel].id), OpenInventory])
      else if keys.reorderBack && SaturatingSub(sel, 1) != sel then
        ShortcutOutcome(SaturatingSub(sel, 1), [MoveItem(items[sel].id, SaturatingSub(sel, 1)), OpenInventory])
      else if keys.reorderForward && Min(sel + 1, |items| - 1) != sel then
        ShortcutOutcome(Min(sel + 1, |items| - 1), [MoveItem(items[sel].id, Min(sel + 1, |items| - 1)), OpenInventory])
      else ShortcutOutcome(sel, if changed then [OpenInventory] else [])
  {
    selected := sel;
    messages := [];
    if keys.drop {
      messages := [DropItem(items[selected].id)];
      if selected >= SaturatingSub(|items|, 1) {
        selected := SaturatingSub(selected, 1);
      }
      messages := messages + [OpenInventory];
      return;
    }
    if keys.reorderBack {
      var target := SaturatingSub(selected, 1);
      if target != selected {
        messages := [MoveItem(items[selected].id, target), OpenInventory];
        selected := target;
        return;
      }
    }
    if keys.reorderForward {
      var target := Min(selected + 1, SaturatingSub(|items|, 1));
      if target != selected {
        messages := [MoveItem(items[selected].id, target), OpenInventory];
        selected := target;
        return;
      }
    }
    if changed {
      messages := [OpenInventory];
    }
  }
}
