/**
 * The UI records other parts of the game exchange: discovery entries (the
 * items and people the player has found), the discovery commands, the menu
 * actions and the dialogue requests the dialogue box renders.
 *
 * `DiscoveryEntry` is a value: its builder methods return a modified copy,
 * so they are datatype members here.
 */
module UiComponents {
  import opened Wrappers

  datatype DiscoveryKind = Item | Npc

  datatype DiscoveryEntry = DiscoveryEntry(
    id: string,
    title: string,
    subtitle: string,
    description: string,
    imagePath: Option<string>,
    modelPath: Option<string>,
    seen: bool)
  {
    /** Replaces the subtitle only. */
    function WithSubtitle(subtitle: string): (r: DiscoveryEntry)
      ensures r.subtitle == subtitle
      ensures r.(subtitle := this.subtitle) == this
    {
      this.(subtitle := subtitle)
    }

    /** Replaces the description only. */
    function WithDescription(description: string): (r: DiscoveryEntry)
      ensures r.description == description
      ensures r.(description := this.description) == this
    {
      this.(description := description)
    }

    /** Sets the image path, which is then present. */
    function WithImagePath(path: string): (r: DiscoveryEntry)
      ensures r.imagePath == Some(path)
      ensures r.(imagePath := this.imagePath) == this
    {
      this.(imagePath := Some(path))
    }

    /** Sets the model path, which is then present. */
    function WithModelPath(path: string): (r: DiscoveryEntry)
      ensures r.modelPath == Some(path)
      ensures r.(modelPath := this.modelPath) == this
    {
      this.(modelPath := Some(path))
    }

    /** Sets the seen flag only. */
    function WithSeen(seen: bool): (r: DiscoveryEntry)
      ensures r.seen == seen
      ensures r.(seen := this.seen) == this
    {
      this.(seen := seen)
    }
  }

  /** `DiscoveryEntry::new`: only id and title given; everything else empty, absent or false. */
  function NewEntry(id: string, title: string): (r: DiscoveryEntry)
    ensures r.id == id && r.title == title
    ensures r.subtitle == [] && r.description == []
    ensures r.imagePath.None? && r.modelPath.None? && !r.seen
  {
    DiscoveryEntry(id, title, [], [], None, None, false)
  }

  /**
   * The builders touch disjoint fields, so their order does not matter, and
   * setting a field twice keeps the later value.
   */
  lemma BuildersCommute(e: DiscoveryEntry, subtitle: string, description: string, model: string, seen: bool)
    ensures e.WithSubtitle(subtitle).WithDescription(description) == e.WithDescription(description).WithSubtitle(subtitle)
    ensures e.WithModelPath(model).WithSeen(seen) == e.WithSeen(seen).WithModelPath(model)
    ensures e.WithSubtitle(subtitle).WithSeen(seen).id == e.id
  {
  }

  lemma BuildersLastWins(e: DiscoveryEntry, a: string, b: string, s: bool, t: bool)
    ensures e.WithSubtitle(a).WithSubtitle(b) == e.WithSubtitle(b)
    ensures e.WithDescription(a).WithDescription(b) == e.WithDescription(b)
    ensures e.WithModelPath(a).WithModelPath(b) == e.WithModelPath(b)
    ensures e.WithImagePath(a).WithImagePath(b) == e.WithImagePath(b)
    ensures e.WithSeen(s).WithSeen(t) == e.WithSeen(t)
  {
  }

  datatype UiDiscoveryCommand =
    | Upsert(kind: DiscoveryKind, entry: DiscoveryEntry)
    | Remove(kind: DiscoveryKind, id: string)
    | SetSeen(kind: DiscoveryKind, id: string, seen: bool)
    | ClearKind(kind: DiscoveryKind)

  /** Entities are opaque handles. */
  type Entity = nat

  datatype UiMenuAction =
    | Play(owner: Entity)
    | Continue(owner: Entity)
    | Resume(owner: Entity)
    | BackToMainMenu(owner: Entity)
    | QuitGame(owner: Entity)

  datatype ConfirmAction = ConfirmBackToMainMenu | ConfirmQuitGame

  datatype MainMenuPage = Home | Credits | DiscoveredItems | PhoneList | Settings

  /** The preview card of a dialogue option or of the dialogue itself. */
  datatype UiDialoguePreview = UiDialoguePreview(
    title: string,
    subtitle: string,
    description: string,
    imagePath: Option<string>,
    modelPath: Option<string>)

  /** A card showing an entry's title, subtitle, description and media. */
  function PreviewOf(e: DiscoveryEntry): (r: UiDialoguePreview)
    ensures r.title == e.title && r.subtitle == e.subtitle && r.description == e.description
    ensures r.imagePath == e.imagePath && r.modelPath == e.modelPath
  {
    UiDialoguePreview(e.title, e.subtitle, e.description, e.imagePath, e.modelPath)
  }

  /**
   * A dialogue option as the dialogue runtime fills it: the text, an
   * optional preview, the item it stands for, whether that item was already
   * shown to the speaker, and whether it can be picked.
   */
  datatype UiDialogueOption = UiDialogueOption(
    text: string,
    preview: Option<UiDialoguePreview>,
    itemId: Option<string>,
    seen: bool,
    enabled: bool)

  datatype UiDialogueMode = Standard | Inventory

  datatype UiDialogueRequest = UiDialogueRequest(
    mode: UiDialogueMode,
    speaker: string,
    text: string,
    portraitPath: string,
    preview: Option<UiDialoguePreview>,
    options: seq<UiDialogueOption>,
    revealDurationSecs: real)

  datatype UiDialogueCommand = Start(request: UiDialogueRequest) | Advance | Close
}
