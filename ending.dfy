/**
 * The ending screen: a catalog of ending payloads keyed by id with the order
 * in which ids were first added, the narrative typed out at a fixed rate,
 * and a hold-to-continue bar that closes the screen once full.
 */
module Ending {
  import opened Wrappers
  import opened Numeric
  import opened UiComponents

  /** Characters of narrative revealed per second. */
  const RevealCharsPerSec: real := 58.0
  /** Seconds of holding that fill the bar, and that empty it again. */
  const HoldSecs: real := 0.9
  const HoldDecaySecs: real := 0.5
  /** Cells in the hold bar. */
  const HoldBarSteps: nat := 14

  datatype EndingPayload = EndingPayload(
    id: string,
    title: string,
    subtitle: string,
    narrative: string,
    statusLines: seq<string>)
  {
    function WithTitle(value: string): EndingPayload
    {
      this.(title := value)
    }

    function WithSubtitle(value: string): EndingPayload
    {
      this.(subtitle := value)
    }

    function WithNarrative(value: string): EndingPayload
    {
      this.(narrative := value)
    }

    function WithStatusLines(lines: seq<string>): EndingPayload
    {
      this.(statusLines := lines)
    }
  }

  /** A payload with placeholder texts for an ending nobody described yet. */
  function NewPayload(id: string): (r: EndingPayload)
    ensures r.id == id && r.title == "END // UNKNOWN" && r.subtitle == "archive pending"
    ensures r.narrative == "No narrative provided."
    ensures r.statusLines == ["timeline integrity: [reconstructing]"]
  {
    EndingPayload(id, "END // UNKNOWN", "archive pending", "No narrative provided.",
      ["timeline integrity: [reconstructing]"])
  }

  /** The ending the game ships with. */
  function Collapse(): (r: EndingPayload)
    ensures r.id == "collapse"
  {
    NewPayload("collapse")
      .WithTitle("END | SIGNAL COLLAPSE")
      .WithSubtitle("your mind broke before sunrise")
      .WithNarrative("You never had the chance to get out of there.")
      .WithStatusLines(["timeline integrity: fragmented"])
  }

  /** `order` without any occurrence of `id`. */
  function Without(order: seq<string>, id: string): (r: seq<string>)
    ensures |r| <= |order|
    ensures forall x :: x in r <==> x in order && x != id
  {
    if order == [] then []
    else if order[|order| - 1] == id then Without(order[..|order| - 1], id)
    else Without(order[..|order| - 1], id) + [order[|order| - 1]]
  }

  predicate Distinct(order: seq<string>)
  {
    forall i, j :: 0 <= i < j < |order| ==> order[i] != order[j]
  }

  /** Removing an id from a duplicate-free list leaves it duplicate-free. */
  lemma {:induction false} WithoutKeepsDistinct(order: seq<string>, id: string)
    requires Distinct(order)
    ensures Distinct(Without(order, id))
  {
    if order != [] {
      var init := order[..|order| - 1];
      assert Distinct(init);
      WithoutKeepsDistinct(init, id);
      if order[|order| - 1] != id {
        assert order[|order| - 1] !in init;
      }
    }
  }

  /** The ending catalog resource. */
  class UiEndingCatalog {
    var endings: map<string, EndingPayload>
    /** Ids in the order they were first added, for the debug picker. */
    var debugOrder: seq<string>

    /**
     * The order lists each stored id exactly once and nothing else, and
     * every payload is stored under its own id.
     */
    ghost predicate Valid()
      reads this
    {
      Distinct(debugOrder)
      && (forall x :: x in debugOrder <==> x in endings)
      && (forall k :: k in endings ==> endings[k].id == k)
    }

    constructor ()
      ensures Valid() && endings == map[] && debugOrder == []
    {
      endings := map[];
      debugOrder := [];
    }

    function Get(id: string): (r: Option<EndingPayload>)
      reads this
      ensures r.Some? <==> id in endings
      ensures r.Some? ==> r.value == endings[id]
    {
      if id in endings then Some(endings[id]) else None
    }

    /**
     * Store a payload under its id, replacing any earlier one; the id joins
     * the debug order only when it is new.
     */
    method Upsert(payload: EndingPayload)
      requires Valid()
      modifies this
      ensures Valid()
      ensures endings == old(endings)[payload.id := payload]
      ensures debugOrder == if payload.id in old(debugOrder) then old(debugOrder) else old(debugOrder) + [payload.id]
      ensures Get(payload.id) == Some(payload)
    {
      var id := payload.id;
      var present := false;
      var i := 0;
      while i < |debugOrder|
        invariant 0 <= i <= |debugOrder|
        invariant present <==> id in debugOrder[..i]
      {
        if debugOrder[i] == id {
          present := true;
        }
        i := i + 1;
      }
      assert debugOrder[..i] == debugOrder;
      if !present {
        debugOrder := debugOrder + [id];
      }
      endings := endings[id := payload];
    }

    /** Forget an id: out of the map and out of the debug order. */
    method Remove(id: string)
      requires Valid()
      modifies this
      ensures Valid()
      ensures endings == old(endings) - {id}
      ensures debugOrder == Without(old(debugOrder), id)
      ensures Get(id) == None
    {
      var kept: seq<string> := [];
      for i := 0 to |debugOrder|
        invariant kept == Without(debugOrder[..i], id)
      {
        assert debugOrder[..i + 1][..i] == debugOrder[..i];
        if debugOrder[i] != id {
          kept := kept + [debugOrder[i]];
        }
      }
      assert debugOrder[..|debugOrder|] == debugOrder;
      WithoutKeepsDistinct(debugOrder, id);
      endings := endings - {id};
      debugOrder := kept;
    }

    /** Seed the catalog with the shipped ending, but only when it is empty. */
    method PopulateDefaultEndings()
      requires Valid()
      modifies this
      ensures Valid()
      ensures old(endings) != map[] ==> endings == old(endings) && debugOrder == old(debugOrder)
      ensures old(endings) == map[] ==> endings == map["collapse" := Collapse()] && debugOrder == ["collapse"]
    {
      if |endings| != 0 {
        return;
      }
      HeadIsMember(debugOrder);
      Upsert(Collapse());
    }
  }

  /** A non-empty sequence holds its first element. */
  lemma HeadIsMember(s: seq<string>)
    ensures |s| > 0 ==> s[0] in s
  {
  }

  /** `n` copies of `c`. */
  function Repeat(c: char, n: nat): (r: string)
    ensures |r| == n && forall k :: 0 <= k < n ==> r[k] == c
  {
    if n == 0 then [] else Repeat(c, n - 1) + [c]
  }

  /** Rust's `f32::round` on a non-negative value: halves round up. */
  function RoundNonNeg(x: real): (r: nat)
    requires x >= 0.0
    ensures r as real - 0.5 <= x < r as real + 0.5
  {
    (x + 0.5).Floor
  }

  /** The filled and empty cell counts of the hold bar. */
  function HoldCells(progress: real): (r: (nat, nat))
    requires 0.0 <= progress
  {
    var filled := RoundNonNeg(progress * HoldBarSteps as real);
    (filled, SaturatingSub(HoldBarSteps, filled))
  }

  /**
   * For progress in [0, 1] the bar always has 14 cells in all, is empty at
   * the start and full at the end, and fills as progress grows.
   */
  lemma HoldCellsRules(p: real, q: real)
    requires 0.0 <= p <= q <= 1.0
    ensures HoldCells(p).0 + HoldCells(p).1 == HoldBarSteps
    ensures p == 0.0 ==> HoldCells(p).0 == 0
    ensures p == 1.0 ==> HoldCells(p).0 == HoldBarSteps
    ensures HoldCells(p).0 <= HoldCells(q).0
  {
    assert RoundNonNeg(p * 14.0) <= 14 by {
      assert p * 14.0 <= 14.0;
    }
    assert p * 14.0 <= q * 14.0;
  }

  /** The hold bar's text. */
  function HoldBarText(progress: real): (r: string)
    requires 0.0 <= progress
  {
    var cells := HoldCells(progress);
    "hold to continue [" + Repeat('■', cells.0) + Repeat('·', cells.1) + "]"
  }

  /**
   * The whole characters an accumulator holds: its floor, with a negative
   * floor cast to an unsigned count as 0.
   */
  function WholeChars(a: real): (r: nat)
    ensures a >= 0.0 ==> r as real <= a < r as real + 1.0
    ensures a < 0.0 ==> r == 0
  {
    if a.Floor > 0 then a.Floor else 0
  }

  /** Commands other systems send to the ending screen. */
  datatype UiEndingCommand =
    | UpsertEnding(payload: EndingPayload)
    | RemoveEnding(id: string)
    | Show(id: string)
    | ShowPayload(payload: EndingPayload)
    | CloseEnding

  /** What a hold-to-continue frame did. */
  datatype HoldOutcome = HoldOutcome(bar: Option<string>, closed: bool)

  /** The ending screen resource. */
  class UiEndingRuntime {
    var root: Option<Entity>
    var bodyText: Option<Entity>
    var holdText: Option<Entity>
    var narrativeChars: seq<char>
    var revealedChars: nat
    var revealAccum: real
    var holdProgress: real

    /**
     * The reveal never runs past the narrative and the hold progress stays
     * within [0, 1]; without a body text nothing is on screen.
     */
    ghost predicate Valid()
      reads this
    {
      revealedChars <= |narrativeChars|
      && 0.0 <= holdProgress <= 1.0
      && (bodyText.None? ==> narrativeChars == [] && revealedChars == 0 && holdProgress == 0.0)
    }

    constructor ()
      ensures Valid() && root.None? && bodyText.None? && holdText.None?
    {
      root := None;
      bodyText := None;
      holdText := None;
      narrativeChars := [];
      revealedChars := 0;
      revealAccum := 0.0;
      holdProgress := 0.0;
    }

    /** Take the screen down and reset every counter. */
    method CloseEnding()
      modifies this
      ensures Valid()
      ensures root.None? && bodyText.None? && holdText.None? && narrativeChars == []
      ensures revealedChars == 0 && revealAccum == 0.0 && holdProgress == 0.0
    {
      root := None;
      bodyText := None;
      holdText := None;
      narrativeChars := [];
      revealedChars := 0;
      revealAccum := 0.0;
      holdProgress := 0.0;
    }

    /**
     * Put up the screen for `payload` (closing any earlier one), with the
     * panel entities just spawned, and start typing from nothing.
     */
    method OpenEnding(payload: EndingPayload, newRoot: Entity, newBody: Entity, newHold: Entity)
      modifies this
      ensures Valid()
      ensures root == Some(newRoot) && bodyText == Some(newBody) && holdText == Some(newHold)
      ensures narrativeChars == payload.narrative
      ensures revealedChars == 0 && revealAccum == 0.0 && holdProgress == 0.0
    {
      CloseEnding();
      root := Some(newRoot);
      bodyText := Some(newBody);
      holdText := Some(newHold);
      narrativeChars := payload.narrative;
    }

    /**
     * One frame of the reveal: a skip shows everything; otherwise while
     * text is left the accumulator gains 58 characters per second and its
     * whole part is revealed, capped at the narrative's end. Returns the
     * text to show, or nothing when there is no body text (`bodyAlive`
     * says whether its entity still exists).
     */
    method UpdateReveal(dt: real, skip: bool, bodyAlive: bool) returns (body: Option<string>)
      requires Valid()
      modifies this
      ensures Valid()
      ensures bodyText.None? || !bodyAlive ==>
        body.None? && revealedChars == old(revealedChars) && revealAccum == old(revealAccum)
      ensures bodyText.Some? && bodyAlive ==> body == Some(narrativeChars[..revealedChars])
      ensures bodyText.Some? && bodyAlive && skip ==>
        revealedChars == |narrativeChars| && revealAccum == old(revealAccum)
      ensures bodyText.Some? && bodyAlive && !skip && old(revealedChars) >= |narrativeChars| ==>
        revealedChars == old(revealedChars) && revealAccum == old(revealAccum)
      ensures bodyText.Some? && bodyAlive && !skip && old(revealedChars) < |narrativeChars| ==>
        var a := old(revealAccum) + RevealCharsPerSec * dt;
        revealedChars == Min(old(revealedChars) + WholeChars(a), |narrativeChars|)
        && revealAccum == a - WholeChars(a) as real
      ensures old(revealedChars) <= revealedChars
      ensures revealedChars > old(revealedChars) ==> skip || 1.0 <= old(revealAccum) + RevealCharsPerSec * dt
      ensures 0.0 <= old(revealAccum) < 1.0 && dt >= 0.0 ==> 0.0 <= revealAccum < 1.0
      ensures bodyText == old(bodyText) && narrativeChars == old(narrativeChars) && holdProgress == old(holdProgress)
      ensures root == old(root) && holdText == old(holdText)
    {
      body := None;
      if bodyText.None? || !bodyAlive {
        return;
      }
      if skip {
        revealedChars := |narrativeChars|;
      } else if revealedChars < |narrativeChars| {
        revealAccum := revealAccum + RevealCharsPerSec * dt;
        var step := WholeChars(revealAccum);
        if step > 0 {
          revealAccum := revealAccum - step as real;
          revealedChars := Min(revealedChars + step, |narrativeChars|);
        }
      }
      body := Some(narrativeChars[..revealedChars]);
    }

    /**
     * One frame of hold-to-continue, only once the narrative is fully
     * shown: holding fills the bar over 0.9 s, letting go drains it over
     * 0.5 s; the bar is redrawn when its text exists (`holdAlive`), and a
     * full bar closes the screen.
     */
    method UpdateHold(dt: real, holding: bool, holdAlive: bool) returns (outcome: HoldOutcome)
      requires Valid() && dt >= 0.0
      modifies this
      ensures Valid()
      ensures old(bodyText).None? || old(revealedChars) < old(|narrativeChars|) ==>
        outcome == HoldOutcome(None, false) && holdProgress == old(holdProgress) && bodyText == old(bodyText)
      ensures old(bodyText).Some? && old(revealedChars) >= old(|narrativeChars|) ==>
        var p := if holding then MinReal(old(holdProgress) + dt / HoldSecs, 1.0)
                 else MaxReal(old(holdProgress) - dt / HoldDecaySecs, 0.0);
        outcome.closed == (p >= 1.0)
        && (outcome.bar.Some? <==> old(holdText).Some? && holdAlive)
        && (outcome.bar.Some? ==> outcome.bar.value == HoldBarText(p))
        && (outcome.closed ==>
              (root.None? && bodyText.None? && holdText.None? && narrativeChars == []
               && revealedChars == 0 && revealAccum == 0.0 && holdProgress == 0.0))
        && (!outcome.closed ==>
              (holdProgress == p && root == old(root) && bodyText == old(bodyText)
               && holdText == old(holdText) && narrativeChars == old(narrativeChars)
               && revealedChars == old(revealedChars) && revealAccum == old(revealAccum)))
    {
      outcome := HoldOutcome(None, false);
      if bodyText.None? || revealedChars < |narrativeChars| {
        return;
      }
      var p;
      if holding {
        p := MinReal(holdProgress + dt / HoldSecs, 1.0);
      } else {
        p := MaxReal(holdProgress - dt / HoldDecaySecs, 0.0);
      }
      holdProgress := p;
      var bar := None;
      if holdText.Some? && holdAlive {
        bar := Some(HoldBarText(p));
      }
      var closed := p >= 1.0;
      if closed {
        CloseEnding();
      }
      outcome := HoldOutcome(bar, closed);
    }

    /**
     * Apply one command: catalog edits go to the catalog; Show opens the
     * stored payload if there is one and does nothing otherwise.
     */
    method Apply(cmd: UiEndingCommand, catalog: UiEndingCatalog, newRoot: Entity, newBody: Entity, newHold: Entity)
      requires Valid() && catalog.Valid()
      modifies this, catalog
      ensures Valid() && catalog.Valid()
      ensures cmd.UpsertEnding? ==>
        catalog.endings == old(catalog.endings)[cmd.payload.id := cmd.payload]
        && catalog.debugOrder == (if cmd.payload.id in old(catalog.debugOrder) then old(catalog.debugOrder)
                                  else old(catalog.debugOrder) + [cmd.payload.id])
        && catalog.Get(cmd.payload.id) == Some(cmd.payload)
      ensures cmd.RemoveEnding? ==>
        catalog.endings == old(catalog.endings) - {cmd.id}
        && catalog.debugOrder == Without(old(catalog.debugOrder), cmd.id)
        && catalog.Get(cmd.id) == None
      ensures cmd.UpsertEnding? || cmd.RemoveEnding? ==> unchanged(this)
      ensures cmd.Show? && old(catalog.Get(cmd.id)).None? ==> unchanged(this)
      ensures cmd.Show? && old(catalog.Get(cmd.id)).Some? ==>
        root == Some(newRoot) && bodyText == Some(newBody) && holdText == Some(newHold)
        && narrativeChars == old(catalog.Get(cmd.id)).value.narrative
        && revealedChars == 0 && revealAccum == 0.0 && holdProgress == 0.0
      ensures cmd.ShowPayload? ==>
        root == Some(newRoot) && bodyText == Some(newBody) && holdText == Some(newHold)
        && narrativeChars == cmd.payload.narrative
        && revealedChars == 0 && revealAccum == 0.0 && holdProgress == 0.0
      ensures cmd.CloseEnding? ==>
        root.None? && bodyText.None? && holdText.None? && narrativeChars == []
        && revealedChars == 0 && revealAccum == 0.0 && holdProgress == 0.0
      ensures !cmd.UpsertEnding? && !cmd.RemoveEnding? ==> unchanged(catalog)
    {
      match cmd {
        case UpsertEnding(payload) => catalog.Upsert(payload);
        case RemoveEnding(id) => catalog.Remove(id);
        case Show(id) =>
          var found := catalog.Get(id);
          if found.Some? {
            OpenEnding(found.value, newRoot, newBody, newHold);
          }
        case ShowPayload(payload) => OpenEnding(payload, newRoot, newBody, newHold);
        case CloseEnding => CloseEnding();
      }
    }
  }
}
