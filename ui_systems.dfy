/**
 * The UI systems with behaviour of their own: the discovery database (two
 * ordered lists of entries and a revision counter that wraps at 2^64), the
 * confirm popup flow, the gallery selection repair, the choice of the
 * scroll target under the cursor, the scroll step itself and the main menu
 * ticker's tip cycling.
 */
module UiSystems {
  import opened Wrappers
  import opened UiComponents
  import opened Numeric
  import Theme

  // ---------------------------------------------------------------------
  // Revision counter
  // ---------------------------------------------------------------------

  const U64Modulus: nat := 0x1_0000_0000_0000_0000

  /** `u64::wrapping_add(1)`. */
  function Bump(revision: nat): (r: nat)
    requires revision < U64Modulus
    ensures r < U64Modulus
    ensures r != revision
    ensures r == (revision + 1) % U64Modulus
  {
    if revision + 1 == U64Modulus then 0 else revision + 1
  }

  // ---------------------------------------------------------------------
  // Entry lists
  // ---------------------------------------------------------------------

  /** No entry before index `n` has id `id`. */
  predicate NoIdBefore(entries: seq<DiscoveryEntry>, id: string, n: nat)
    requires n <= |entries|
  {
    forall j :: 0 <= j < n ==> entries[j].id != id
  }

  predicate HasId(entries: seq<DiscoveryEntry>, id: string)
  {
    exists j :: 0 <= j < |entries| && entries[j].id == id
  }

  /** `iter().find(|it| it.id == id)`: the index of the first entry with that id. */
  function FindById(entries: seq<DiscoveryEntry>, id: string): (r: Option<nat>)
    ensures r.Some? ==> r.value < |entries| && entries[r.value].id == id && NoIdBefore(entries, id, r.value)
    ensures r.None? <==> !HasId(entries, id)
    decreases |entries|
  {
    if entries == [] then None
    else if entries[0].id == id then Some(0)
    else
      var t := FindById(entries[1..], id);
      if t.Some? then
        assert forall j :: 1 <= j <= t.value ==> entries[j] == entries[1..][j - 1];
        Some(t.value + 1)
      else
        assert forall j :: 1 <= j < |entries| ==> entries[j] == entries[1..][j - 1];
        None
  }

  /** `upsert` on one list: replace the first entry with the same id, else append. */
  function UpsertList(entries: seq<DiscoveryEntry>, entry: DiscoveryEntry): seq<DiscoveryEntry>
  {
    match FindById(entries, entry.id)
    case Some(i) => entries[i := entry]
    case None => entries + [entry]
  }

  /**
   * An entry with the same id is replaced where it stands, with every other
   * position unchanged; otherwise the entry is appended. Either way, looking
   * the id up afterwards finds the new entry.
   */
  lemma UpsertReplacesInPlace(entries: seq<DiscoveryEntry>, entry: DiscoveryEntry)
    ensures HasId(entries, entry.id) ==>
      var i := FindById(entries, entry.id).value;
      |UpsertList(entries, entry)| == |entries| && UpsertList(entries, entry)[i] == entry
      && forall j :: 0 <= j < |entries| && j != i ==> UpsertList(entries, entry)[j] == entries[j]
    ensures !HasId(entries, entry.id) ==> UpsertList(entries, entry) == entries + [entry]
    ensures var r := UpsertList(entries, entry); FindById(r, entry.id).Some? && r[FindById(r, entry.id).value] == entry
  {
    var r := UpsertList(entries, entry);
    match FindById(entries, entry.id)
    case Some(i) =>
      assert r[i].id == entry.id;
      assert forall j :: 0 <= j < i ==> r[j] == entries[j];
      assert NoIdBefore(r, entry.id, i);
    case None =>
      assert r[|entries|].id == entry.id;
      assert forall j :: 0 <= j < |entries| ==> r[j] == entries[j];
  }

  /** `retain(|it| it.id != id)`, defined from the back as the loop builds it. */
  function RemoveAll(entries: seq<DiscoveryEntry>, id: string): (r: seq<DiscoveryEntry>)
    ensures |r| <= |entries|
    decreases |entries|
  {
    if entries == [] then []
    else
      var last := entries[|entries| - 1];
      RemoveAll(entries[..|entries| - 1], id) + (if last.id != id then [last] else [])
  }

  /**
   * What `retain` keeps: every entry without that id, in order, and none with
   * it; so the length changes exactly when some entry had that id.
   */
  lemma {:induction false} RemoveAllSpec(entries: seq<DiscoveryEntry>, id: string)
    ensures forall k :: 0 <= k < |RemoveAll(entries, id)| ==> RemoveAll(entries, id)[k].id != id
    ensures forall k :: 0 <= k < |RemoveAll(entries, id)| ==> RemoveAll(entries, id)[k] in entries
    ensures |RemoveAll(entries, id)| == |entries| <==> !HasId(entries, id)
    ensures !HasId(entries, id) ==> RemoveAll(entries, id) == entries
    decreases |entries|
  {
    if entries != [] {
      var front := entries[..|entries| - 1];
      var last := entries[|entries| - 1];
      RemoveAllSpec(front, id);
      var r := RemoveAll(entries, id);
      assert r == RemoveAll(front, id) + (if last.id != id then [last] else []);
      forall k | 0 <= k < |r| ensures r[k].id != id && r[k] in entries {
        if k < |RemoveAll(front, id)| {
          assert r[k] == RemoveAll(front, id)[k];
          assert r[k] in front;
        }
      }
      assert entries == front + [last];
      if HasId(entries, id) && !HasId(front, id) {
        var j :| 0 <= j < |entries| && entries[j].id == id;
        if j < |front| {
          assert front[j].id == id;
        }
      }
      if HasId(front, id) {
        var j :| 0 <= j < |front| && front[j].id == id;
        assert entries[j].id == id;
      }
    }
  }

  /** No entry with another id is lost. */
  lemma {:induction false} RemoveAllKeepsOthers(entries: seq<DiscoveryEntry>, id: string)
    ensures forall k :: 0 <= k < |entries| && entries[k].id != id ==> entries[k] in RemoveAll(entries, id)
    decreases |entries|
  {
    if entries != [] {
      var front := entries[..|entries| - 1];
      var last := entries[|entries| - 1];
      RemoveAllKeepsOthers(front, id);
      var r := RemoveAll(entries, id);
      assert r == RemoveAll(front, id) + (if last.id != id then [last] else []);
      forall k | 0 <= k < |entries| && entries[k].id != id ensures entries[k] in r {
        if k < |front| {
          assert entries[k] == front[k];
          assert entries[k] in RemoveAll(front, id);
        }
      }
    }
  }

  /** Removing twice removes nothing more. */
  lemma RemoveAllIdempotent(entries: seq<DiscoveryEntry>, id: string)
    ensures RemoveAll(RemoveAll(entries, id), id) == RemoveAll(entries, id)
  {
    RemoveAllSpec(entries, id);
    RemoveAllSpec(RemoveAll(entries, id), id);
  }

  /** `set_seen` on one list: the first entry with that id gets the flag. */
  function SetSeenList(entries: seq<DiscoveryEntry>, id: string, seen: bool): (r: seq<DiscoveryEntry>)
    ensures |r| == |entries|
  {
    match FindById(entries, id)
    case Some(i) => entries[i := entries[i].WithSeen(seen)]
    case None => entries
  }

  /**
   * `set_seen` touches only the `seen` flag of the first entry with the id,
   * and nothing at all when no entry has it.
   */
  lemma SetSeenSpec(entries: seq<DiscoveryEntry>, id: string, seen: bool)
    ensures !HasId(entries, id) ==> SetSeenList(entries, id, seen) == entries
    ensures HasId(entries, id) ==>
      var i := FindById(entries, id).value;
      SetSeenList(entries, id, seen)[i].seen == seen
      && SetSeenList(entries, id, seen)[i].(seen := entries[i].seen) == entries[i]
      && forall j :: 0 <= j < |entries| && j != i ==> SetSeenList(entries, id, seen)[j] == entries[j]
    ensures SetSeenList(entries, id, seen) == entries <==> !HasId(entries, id) || entries[FindById(entries, id).value].seen == seen
  {
    if HasId(entries, id) {
      var i := FindById(entries, id).value;
      var r := SetSeenList(entries, id, seen);
      if r == entries {
        assert r[i].seen == entries[i].seen;
      }
    }
  }

  // ---------------------------------------------------------------------
  // The database
  // ---------------------------------------------------------------------

  /** The default database knows one person, Mr. D., already seen. */
  function MrD(): DiscoveryEntry
  {
    NewEntry("D.", "Mr. D.").WithSubtitle("room 400").WithDescription("what day is today? Doomsday?").WithSeen(true)
  }

  class UiDiscoveryDb {
    var items: seq<DiscoveryEntry>
    var npcs: seq<DiscoveryEntry>
    var revision: nat

    ghost predicate Valid()
      reads this
    {
      revision < U64Modulus
    }

    /** `Default`: no items, Mr. D. as the only person, revision 1. */
    constructor ()
      ensures Valid()
      ensures items == [] && npcs == [MrD()] && revision == 1
    {
      items := [];
      npcs := [MrD()];
      revision := 1;
    }

    function Entries(kind: DiscoveryKind): seq<DiscoveryEntry>
      reads this
    {
      match kind
      case Item => items
      case Npc => npcs
    }

    function Revision(): nat
      reads this
    {
      revision
    }

    /** Replaces the list of `kind`, leaving the other one alone. */
    method SetEntries(kind: DiscoveryKind, entries: seq<DiscoveryEntry>)
      modifies this
      ensures Entries(kind) == entries
      ensures kind == Item ==> npcs == old(npcs)
      ensures kind == Npc ==> items == old(items)
      ensures revision == old(revision)
    {
      match kind
      case Item => items := entries;
      case Npc => npcs := entries;
    }

    /** `upsert`: replace in place or append, and always bump the revision. */
    method Upsert(kind: DiscoveryKind, entry: DiscoveryEntry)
      requires Valid()
      modifies this
      ensures Valid()
      ensures Entries(kind) == UpsertList(old(Entries(kind)), entry)
      ensures kind == Item ==> npcs == old(npcs)
      ensures kind == Npc ==> items == old(items)
      ensures revision == Bump(old(revision))
    {
      var entries := Entries(kind);
      var i := 0;
      while i < |entries| && entries[i].id != entry.id
        invariant i <= |entries| && NoIdBefore(entries, entry.id, i)
      {
        i := i + 1;
      }
      if i < |entries| {
        assert entries[i].id == entry.id;
        assert FindById(entries, entry.id) == Some(i);
        entries := entries[i := entry];
      } else {
        entries := entries + [entry];
      }
      SetEntries(kind, entries);
      revision := Bump(revision);
    }

    /** `remove`: drop every entry with the id; true, and a new revision, exactly when something went. */
    method Remove(kind: DiscoveryKind, id: string) returns (removed: bool)
      requires Valid()
      modifies this
      ensures Valid()
      ensures Entries(kind) == RemoveAll(old(Entries(kind)), id)
      ensures kind == Item ==> npcs == old(npcs)
      ensures kind == Npc ==> items == old(items)
      ensures removed == HasId(old(Entries(kind)), id)
      ensures revision == if removed then Bump(old(revision)) else old(revision)
    {
      var entries := Entries(kind);
      var before := |entries|;
      var kept: seq<DiscoveryEntry> := [];
      for i := 0 to |entries|
        invariant kept == RemoveAll(entries[..i], id)
      {
        assert entries[..i + 1][..i] == entries[..i];
        if entries[i].id != id {
          kept := kept + [entries[i]];
        }
      }
      assert entries[..|entries|] == entries;
      RemoveAllSpec(entries, id);
      SetEntries(kind, kept);
      removed := |kept| != before;
      if removed {
        revision := Bump(revision);
      }
    }

    /** `set_seen`: true exactly when an entry has the id; the revision moves only if the flag changed. */
    method SetSeen(kind: DiscoveryKind, id: string, seen: bool) returns (found: bool)
      requires Valid()
      modifies this
      ensures Valid()
      ensures Entries(kind) == SetSeenList(old(Entries(kind)), id, seen)
      ensures kind == Item ==> npcs == old(npcs)
      ensures kind == Npc ==> items == old(items)
      ensures found == HasId(old(Entries(kind)), id)
      ensures revision == if Entries(kind) != old(Entries(kind)) then Bump(old(revision)) else old(revision)
    {
      var entries := Entries(kind);
      SetSeenSpec(entries, id, seen);
      var index := FindById(entries, id);
      if index.None? {
        return false;
      }
      var i := index.value;
      if entries[i].seen != seen {
        SetEntries(kind, entries[i := entries[i].WithSeen(seen)]);
        revision := Bump(revision);
      }
      return true;
    }

    /** `clear_kind`: empty that list and always bump the revision. */
    method ClearKind(kind: DiscoveryKind)
      requires Valid()
      modifies this
      ensures Valid()
      ensures Entries(kind) == []
      ensures kind == Item ==> npcs == old(npcs)
      ensures kind == Npc ==> items == old(items)
      ensures revision == Bump(old(revision))
    {
      SetEntries(kind, []);
      revision := Bump(revision);
    }
  }

  // ---------------------------------------------------------------------
  // Confirm popup
  // ---------------------------------------------------------------------

  /** The buttons whose presses the confirm flow reacts to; all others leave it alone. */
  datatype ConfirmButton = BackToMainMenuButton | QuitGameButton | ConfirmProceed | ConfirmCancel

  datatype MenuConfirmState = MenuConfirmState(owner: Entity, pending: Option<ConfirmAction>)

  /** What one press does to one confirm state of the pressing owner. */
  function PressConfirm(state: MenuConfirmState, owner: Entity, button: ConfirmButton): (r: MenuConfirmState)
    ensures r.owner == state.owner
    ensures state.owner != owner ==> r == state
    ensures state.owner == owner ==> r.pending == match button
      case BackToMainMenuButton => Some(ConfirmBackToMainMenu)
      case QuitGameButton => Some(ConfirmQuitGame)
      case ConfirmProceed => None
      case ConfirmCancel => None
  {
    if state.owner != owner then state
    else match button
      case BackToMainMenuButton => state.(pending := Some(ConfirmBackToMainMenu))
      case QuitGameButton => state.(pending := Some(ConfirmQuitGame))
      case ConfirmProceed => state.(pending := None)
      case ConfirmCancel => state.(pending := None)
  }

  /** The pending action taken by `ConfirmProceed`: that of the last state of the owner, if any. */
  function TakenPending(states: seq<MenuConfirmState>, owner: Entity): Option<ConfirmAction>
    decreases |states|
  {
    if states == [] then None
    else if states[|states| - 1].owner == owner then states[|states| - 1].pending
    else TakenPending(states[..|states| - 1], owner)
  }

  /** The menu action a confirmed popup sends. */
  function ConfirmedAction(confirmed: Option<ConfirmAction>, owner: Entity): (r: Option<UiMenuAction>)
    ensures r.None? <==> confirmed.None?
    ensures confirmed == Some(ConfirmBackToMainMenu) ==> r == Some(BackToMainMenu(owner))
    ensures confirmed == Some(ConfirmQuitGame) ==> r == Some(QuitGame(owner))
  {
    match confirmed
    case Some(ConfirmBackToMainMenu) => Some(BackToMainMenu(owner))
    case Some(ConfirmQuitGame) => Some(QuitGame(owner))
    case None => None
  }

  /**
   * The confirm branch of `handle_button_interactions`: every confirm state
   * of the owner is updated; `ConfirmProceed` sends the action it took.
   */
  method PressConfirmButton(confirms: array<MenuConfirmState>, owner: Entity, button: ConfirmButton)
    returns (action: Option<UiMenuAction>)
    modifies confirms
    ensures forall i :: 0 <= i < confirms.Length ==> confirms[i] == PressConfirm(old(confirms[i]), owner, button)
    ensures action == if button == ConfirmProceed then ConfirmedAction(TakenPending(old(confirms[..]), owner), owner) else None
  {
    var confirmed: Option<ConfirmAction> := None;
    for i := 0 to confirms.Length
      invariant forall j :: 0 <= j < i ==> confirms[j] == PressConfirm(old(confirms[j]), owner, button)
      invariant forall j :: i <= j < confirms.Length ==> confirms[j] == old(confirms[j])
      invariant confirmed == TakenPending(old(confirms[..])[..i], owner)
    {
      assert old(confirms[..])[..i + 1][..i] == old(confirms[..])[..i];
      if confirms[i].owner == owner {
        confirmed := confirms[i].pending;
      }
      confirms[i] := PressConfirm(confirms[i], owner, button);
    }
    assert old(confirms[..])[..confirms.Length] == old(confirms[..]);
    action := if button == ConfirmProceed then ConfirmedAction(confirmed, owner) else None;
  }

  /** After any press the owner's popup is closed, except right after asking for confirmation. */
  lemma ConfirmFlow(state: MenuConfirmState, button: ConfirmButton)
    ensures PressConfirm(state, state.owner, button).pending.Some? <==> button == BackToMainMenuButton || button == QuitGameButton
    ensures PressConfirm(PressConfirm(state, state.owner, BackToMainMenuButton), state.owner, ConfirmProceed).pending.None?
  {
  }

  /** Asking, then confirming, sends exactly the asked-for action. */
  lemma AskThenConfirm(owner: Entity, pending: Option<ConfirmAction>, ask: ConfirmButton)
    requires ask == BackToMainMenuButton || ask == QuitGameButton
    ensures var s := PressConfirm(MenuConfirmState(owner, pending), owner, ask);
      ConfirmedAction(TakenPending([s], owner), owner)
        == Some(if ask == BackToMainMenuButton then BackToMainMenu(owner) else QuitGame(owner))
  {
  }

  // ---------------------------------------------------------------------
  // Gallery selection
  // ---------------------------------------------------------------------

  datatype MainMenuState = MainMenuState(
    owner: Entity,
    page: MainMenuPage,
    selectedItem: Option<nat>,
    selectedNpc: Option<nat>)

  /** None for an empty list; a missing or out-of-range selection becomes the first entry. */
  function NormalizeSelection(selected: Option<nat>, len: nat): (r: Option<nat>)
    ensures r.None? <==> len == 0
    ensures r.Some? ==> r.value < len
    ensures selected.Some? && selected.value < len ==> r == selected
    ensures len > 0 && (selected.None? || selected.value >= len) ==> r == Some(0)
  {
    if len == 0 then None
    else if selected.None? || selected.value >= len then Some(0)
    else selected
  }

  /** `ensure_gallery_selection_exists` for one menu: only the shown page's selection is repaired. */
  function EnsureSelection(state: MainMenuState, itemCount: nat, npcCount: nat): (r: MainMenuState)
    ensures r.owner == state.owner && r.page == state.page
    ensures state.page == DiscoveredItems ==> r.selectedItem == NormalizeSelection(state.selectedItem, itemCount)
    ensures state.page != DiscoveredItems ==> r.selectedItem == state.selectedItem
    ensures state.page == PhoneList ==> r.selectedNpc == NormalizeSelection(state.selectedNpc, npcCount)
    ensures state.page != PhoneList ==> r.selectedNpc == state.selectedNpc
  {
    var s := if state.page == DiscoveredItems then state.(selectedItem := NormalizeSelection(state.selectedItem, itemCount)) else state;
    if state.page == PhoneList then s.(selectedNpc := NormalizeSelection(s.selectedNpc, npcCount)) else s
  }

  /** Repairing twice changes nothing more. */
  lemma EnsureSelectionIdempotent(state: MainMenuState, itemCount: nat, npcCount: nat)
    ensures EnsureSelection(EnsureSelection(state, itemCount, npcCount), itemCount, npcCount) == EnsureSelection(state, itemCount, npcCount)
  {
  }

  /** The system over every main menu. */
  method EnsureGallerySelectionExists(states: array<MainMenuState>, db: UiDiscoveryDb)
    modifies states
    ensures forall i :: 0 <= i < states.Length ==>
      states[i] == EnsureSelection(old(states[i]), |db.Entries(Item)|, |db.Entries(Npc)|)
  {
    for i := 0 to states.Length
      invariant forall j :: 0 <= j < i ==> states[j] == EnsureSelection(old(states[j]), |db.Entries(Item)|, |db.Entries(Npc)|)
      invariant forall j :: i <= j < states.Length ==> states[j] == old(states[j])
    {
      var state := states[i];
      if state.page == DiscoveredItems {
        var len := |db.Entries(Item)|;
        if len == 0 {
          state := state.(selectedItem := None);
        } else if state.selectedItem.None? || state.selectedItem.value >= len {
          state := state.(selectedItem := Some(0));
        }
      }
      if state.page == PhoneList {
        var len := |db.Entries(Npc)|;
        if len == 0 {
          state := state.(selectedNpc := None);
        } else if state.selectedNpc.None? || state.selectedNpc.value >= len {
          state := state.(selectedNpc := Some(0));
        }
      }
      states[i] := state;
    }
  }

  // ---------------------------------------------------------------------
  // Scrolling
  // ---------------------------------------------------------------------

  /**
   * A scrollable node as the scroll picker sees it: whether it is visible,
   * its size, whether either axis scrolls, whether it contains the cursor,
   * and its global z-index if it has one.
   */
  datatype ScrollCandidate = ScrollCandidate(
    entity: Entity,
    visible: bool,
    width: real,
    height: real,
    scrollsX: bool,
    scrollsY: bool,
    containsCursor: bool,
    z: Option<int>)

  predicate Eligible(c: ScrollCandidate)
  {
    c.visible && !(c.width == 0.0 && c.height == 0.0) && (c.scrollsX || c.scrollsY) && c.containsCursor
  }

  function ZOf(c: ScrollCandidate): int
  {
    if c.z.Some? then c.z.value else 0
  }

  function Area(c: ScrollCandidate): real
  {
    c.width * c.height
  }

  /** A candidate replaces the best so far when its z is higher, or equal with a strictly smaller area. */
  predicate Beats(c: ScrollCandidate, best: ScrollCandidate)
  {
    ZOf(c) > ZOf(best) || (ZOf(c) == ZOf(best) && Area(c) < Area(best))
  }

  /** The running best over the first candidates, as the loop keeps it (from the back). */
  function BestOf(cs: seq<ScrollCandidate>): (r: Option<nat>)
    ensures r.Some? ==> r.value < |cs| && Eligible(cs[r.value])
    ensures r.None? <==> forall k :: 0 <= k < |cs| ==> !Eligible(cs[k])
    decreases |cs|
  {
    if cs == [] then None
    else
      var front := BestOf(cs[..|cs| - 1]);
      var c := cs[|cs| - 1];
      assert forall k :: 0 <= k < |cs| - 1 ==> cs[..|cs| - 1][k] == cs[k];
      if !Eligible(c) then front
      else if front.None? || Beats(c, cs[front.value]) then Some(|cs| - 1)
      else front
  }

  /** `pick_scroll_owner_at_cursor`: nothing without a cursor, else the best eligible candidate. */
  function PickScrollOwner(cursor: bool, cs: seq<ScrollCandidate>): (r: Option<Entity>)
    ensures !cursor ==> r.None?
  {
    if !cursor then None
    else match BestOf(cs)
      case None => None
      case Some(i) => Some(cs[i].entity)
  }

  /** The chosen candidate is ranked first: no eligible one has a higher z, and none with equal z is strictly smaller. */
  predicate RankedFirst(cs: seq<ScrollCandidate>, i: nat)
    requires i < |cs|
  {
    forall k :: 0 <= k < |cs| && Eligible(cs[k]) ==>
      ZOf(cs[k]) <= ZOf(cs[i]) && (ZOf(cs[k]) == ZOf(cs[i]) ==> Area(cs[i]) <= Area(cs[k]))
  }

  /**
   * The pick has the highest z among eligible candidates and, among those,
   * the smallest area; on a full tie the earliest one wins.
   */
  lemma {:induction false} BestOfIsRankedFirst(cs: seq<ScrollCandidate>)
    ensures BestOf(cs).Some? ==> RankedFirst(cs, BestOf(cs).value)
    ensures BestOf(cs).Some? ==> forall k :: 0 <= k < BestOf(cs).value && Eligible(cs[k]) ==>
      ZOf(cs[k]) < ZOf(cs[BestOf(cs).value]) || Area(cs[BestOf(cs).value]) < Area(cs[k])
    decreases |cs|
  {
    if cs != [] {
      var front := cs[..|cs| - 1];
      BestOfIsRankedFirst(front);
      assert forall k :: 0 <= k < |front| ==> front[k] == cs[k];
    }
  }

  /** The picker loop with its running `best = (z, area, entity)`. */
  method PickScrollOwnerAtCursor(cursor: bool, cs: seq<ScrollCandidate>) returns (r: Option<Entity>)
    ensures r == PickScrollOwner(cursor, cs)
  {
    if !cursor {
      return None;
    }
    var best: Option<nat> := None;
    for i := 0 to |cs|
      invariant best == BestOf(cs[..i])
    {
      assert cs[..i + 1][..i] == cs[..i];
      assert forall k :: 0 <= k < i ==> cs[..i][k] == cs[k];
      var c := cs[i];
      if Eligible(c) && (best.None? || Beats(c, cs[best.value])) {
        best := Some(i);
      }
    }
    assert cs[..|cs|] == cs;
    r := if best.None? then None else Some(cs[best.value].entity);
  }

  /**
   * One axis of `on_ui_scroll`: when the axis scrolls, the delta is non-zero
   * and the position is not already at the edge the delta pushes toward,
   * the position moves by the delta, clamped to [0, max], and the delta is
   * used up. Otherwise nothing changes and the delta goes on to the parent.
   */
  function ScrollAxis(position: real, delta: real, maxOffset: real, scrolls: bool): (r: (real, real))
    requires maxOffset >= 0.0
  {
    if scrolls && delta != 0.0 then
      var atEdge := if delta > 0.0 then position >= maxOffset else position <= 0.0;
      if !atEdge then (Clamp(position + delta, 0.0, maxOffset), 0.0) else (position, delta)
    else (position, delta)
  }

  /** The scroll step's guarantees on one axis. */
  lemma ScrollAxisRules(position: real, delta: real, maxOffset: real, scrolls: bool)
    requires maxOffset >= 0.0
    ensures var (p, d) := ScrollAxis(position, delta, maxOffset, scrolls);
      (d == 0.0 <==> (delta == 0.0 || (scrolls && !(if delta > 0.0 then position >= maxOffset else position <= 0.0))))
      && (d != 0.0 ==> p == position && d == delta)
      && (d == 0.0 && delta != 0.0 ==> 0.0 <= p <= maxOffset)
      && (delta > 0.0 ==> p >= position || p == maxOffset)
      && (delta < 0.0 ==> p <= position || p == 0.0)
  {
  }

  datatype ScrollResult = ScrollResult(x: real, y: real, deltaX: real, deltaY: real, propagate: bool)

  /**
   * `on_ui_scroll` on a visible node: the largest offset on each axis is
   * `max(content - size, 0)` scaled by the inverse scale factor; the event
   * stops bubbling once both deltas are used up. An invisible node changes
   * nothing.
   */
  function OnUiScroll(visible: bool, x: real, y: real, deltaX: real, deltaY: real,
                      contentW: real, contentH: real, sizeW: real, sizeH: real, inverseScale: real,
                      scrollsX: bool, scrollsY: bool): (r: ScrollResult)
    ensures !visible ==> r == ScrollResult(x, y, deltaX, deltaY, true)
    ensures visible ==> (r.propagate <==> !(r.deltaX == 0.0 && r.deltaY == 0.0))
  {
    if !visible then ScrollResult(x, y, deltaX, deltaY, true)
    else
      var maxX := MaxReal((contentW - sizeW) * inverseScale, 0.0);
      var maxY := MaxReal((contentH - sizeH) * inverseScale, 0.0);
      var (nx, dx) := ScrollAxis(x, deltaX, maxX, scrollsX);
      var (ny, dy) := ScrollAxis(y, deltaY, maxY, scrollsY);
      ScrollResult(nx, ny, dx, dy, !(dx == 0.0 && dy == 0.0))
  }

  // ---------------------------------------------------------------------
  // Main menu ticker
  // ---------------------------------------------------------------------

  const TickerSpeed: real := 130.0
  const TickerStartX: real := Theme.UiWidth + 380.0
  const TickerEndMargin: real := 420.0
  const TickerPauseSecs: real := 0.7

  /** The scrolling tips line on the main menu. */
  class MainMenuTicker {
    var tips: seq<string>
    var current: nat
    var offsetX: real
    var pauseTimer: real

    ghost predicate Valid()
      reads this
    {
      tips == [] || current < |tips|
    }

    /**
     * One frame of `animate_main_menu_ticker`: wait while paused; otherwise
     * scroll left, and once the tip (about 16 px per character) has left the
     * screen, move to the next tip cyclically, restart at the right and pause.
     */
    method Animate(dt: real)
      requires Valid()
      modifies this
      ensures Valid() && tips == old(tips)
      ensures old(tips) == [] ==> current == old(current) && offsetX == old(offsetX) && pauseTimer == old(pauseTimer)
      ensures old(tips) != [] && old(pauseTimer) > 0.0 ==>
        current == old(current) && offsetX == old(offsetX) && pauseTimer == old(pauseTimer) - dt
      ensures old(tips) != [] && old(pauseTimer) <= 0.0 ==>
        var moved := old(offsetX) - TickerSpeed * dt;
        var width := (|old(tips)[old(current)]| as real) * 16.0;
        if moved + width < -(Theme.UiWidth + TickerEndMargin) then
          current == (old(current) + 1) % |tips| && offsetX == TickerStartX && pauseTimer == TickerPauseSecs
        else
          current == old(current) && offsetX == moved && pauseTimer == old(pauseTimer)
    {
      if tips == [] {
        return;
      }
      if pauseTimer > 0.0 {
        pauseTimer := pauseTimer - dt;
        return;
      }
      offsetX := offsetX - TickerSpeed * dt;
      var estimatedWidth := (|tips[current]| as real) * 16.0;
      if offsetX + estimatedWidth < -(Theme.UiWidth + TickerEndMargin) {
        current := (current + 1) % |tips|;
        offsetX := TickerStartX;
        pauseTimer := TickerPauseSecs;
      }
    }

    /** `reset_ticker_on_scale_change`: back to the start position, unpaused. */
    method ResetOnScaleChange()
      modifies this
      ensures offsetX == TickerStartX && pauseTimer == 0.0
      ensures tips == old(tips) && current == old(current)
    {
      offsetX := TickerStartX;
      pauseTimer := 0.0;
    }
  }

  /** The next tip index, `(current + 1) % len` without the remainder. */
  function NextTip(current: nat, len: nat): (r: nat)
    requires current < len
    ensures r < len
    ensures r == (current + 1) % len
  {
    if current + 1 == len then
      assert (current + 1) % len == 0 by {
        assert (current + 1) % len == len % len;
      }
      0
    else current + 1
  }

  /** The tip index after `steps` advances from `start`. */
  function CycleFrom(start: nat, len: nat, steps: nat): (r: nat)
    requires start < len
    ensures r < len
    decreases steps
  {
    if steps == 0 then start else NextTip(CycleFrom(start, len, steps - 1), len)
  }

  lemma {:induction false} CycleFromSplit(start: nat, len: nat, a: nat, b: nat)
    requires start < len
    ensures CycleFrom(start, len, a + b) == CycleFrom(CycleFrom(start, len, a), len, b)
    decreases b
  {
    if b > 0 {
      CycleFromSplit(start, len, a, b - 1);
    }
  }

  /** Before wrapping, each advance shows the following tip. */
  lemma {:induction false} CycleFromCounts(start: nat, len: nat, steps: nat)
    requires start + steps < len
    ensures CycleFrom(start, len, steps) == start + steps
    decreases steps
  {
    if steps > 0 {
      CycleFromCounts(start, len, steps - 1);
    }
  }

  /** Every tip comes round within fewer than `len` advances, from any starting tip. */
  lemma CycleVisitsEveryTip(len: nat, start: nat, target: nat) returns (steps: nat)
    requires start < len && target < len
    ensures steps < len && CycleFrom(start, len, steps) == target
  {
    if start <= target {
      steps := target - start;
      CycleFromCounts(start, len, steps);
    } else {
      CycleFromCounts(start, len, len - 1 - start);
      assert CycleFrom(start, len, len - start) == 0;
      CycleFromCounts(0, len, target);
      CycleFromSplit(start, len, len - start, target);
      steps := len - start + target;
    }
  }
}
