/**
 * The line-oriented `.rat` script parser.
 *
 * A script is a sequence of lines. `[id]` opens a node; inside a node,
 * `key: value` sets a field, `-> id` sets the follow-up node and
 * `> text -> target [id:x] [hook:a,b]` adds an option. A `// key: value`
 * comment sets the script id or the entry node. Blank lines and lines
 * before the first header are skipped.
 *
 * Each step is specified by a function (`StepLine`, `OptionLine`,
 * `Annotate`, `HookPieces`, `Finish`); the methods are the loops of the
 * source, proved equal to those functions.
 */
module RatParse {
  import opened Wrappers
  import opened Text
  import opened RatTypes
  import Synth

  /** A hook name as the parser stores it: non-empty and without surrounding whitespace. */
  predicate IsHookName(s: string)
  {
    s != [] && IsTrimmed(s)
  }

  /** The trimmed, non-empty pieces of a comma list, in order: what `extend_hooks` appends. */
  function HookPieces(pieces: seq<string>): (r: seq<string>)
    ensures |r| <= |pieces|
    decreases |pieces|
  {
    if pieces == [] then []
    else
      var h := Trim(pieces[|pieces| - 1]);
      HookPieces(pieces[..|pieces| - 1]) + (if h != [] then [h] else [])
  }

  /** Every piece kept is a clean hook name. */
  lemma {:induction false} HookPiecesClean(pieces: seq<string>)
    ensures forall k :: 0 <= k < |HookPieces(pieces)| ==> IsHookName(HookPieces(pieces)[k])
    decreases |pieces|
  {
    if pieces != [] {
      var front := pieces[..|pieces| - 1];
      HookPiecesClean(front);
      var h := Trim(pieces[|pieces| - 1]);
      var r := HookPieces(pieces);
      assert r == HookPieces(front) + (if h != [] then [h] else []);
      forall k | 0 <= k < |r| ensures IsHookName(r[k]) {
        if k < |HookPieces(front)| {
          assert r[k] == HookPieces(front)[k];
        }
      }
    }
  }

  /** Pieces that are already trimmed and non-empty are all kept, unchanged. */
  lemma {:induction false} HookPiecesKeepsCleanPieces(pieces: seq<string>)
    requires forall k :: 0 <= k < |pieces| ==> IsHookName(pieces[k])
    ensures HookPieces(pieces) == pieces
    decreases |pieces|
  {
    if pieces != [] {
      TrimOfTrimmed(pieces[|pieces| - 1]);
      HookPiecesKeepsCleanPieces(pieces[..|pieces| - 1]);
      assert pieces == pieces[..|pieces| - 1] + [pieces[|pieces| - 1]];
    }
  }

  /**
   * Round trip: a list of clean hook names written as `a,b,c` is read back
   * as the same list.
   */
  lemma HookListRoundTrip(hooks: seq<string>)
    requires |hooks| >= 1
    requires forall k :: 0 <= k < |hooks| ==> IsHookName(hooks[k]) && ',' !in hooks[k]
    ensures HookPieces(Split(Join(hooks, ','), ',')) == hooks
  {
    SplitOfJoin(hooks, ',');
    HookPiecesKeepsCleanPieces(hooks);
  }

  lemma HookPiecesSnoc(pieces: seq<string>, i: nat)
    requires i < |pieces|
    ensures HookPieces(pieces[..i + 1]) == HookPieces(pieces[..i]) + (if Trim(pieces[i]) != [] then [Trim(pieces[i])] else [])
  {
    assert pieces[..i + 1][..i] == pieces[..i];
  }

  /** One turn of the `extend_hooks` loop keeps `r` equal to the hooks of the pieces read so far. */
  lemma ExtendHooksStep(pieces: seq<string>, hooks: seq<string>, i: nat, r: seq<string>)
    requires i < |pieces| && r == hooks + HookPieces(pieces[..i])
    ensures (if Trim(pieces[i]) != [] then r + [Trim(pieces[i])] else r) == hooks + HookPieces(pieces[..i + 1])
  {
    HookPiecesSnoc(pieces, i);
  }

  /** `extend_hooks`: push every trimmed, non-empty comma piece of `raw`. */
  method ExtendHooks(raw: string, hooks: seq<string>) returns (r: seq<string>)
    ensures r == hooks + HookPieces(Split(raw, ','))
  {
    var pieces := Split(raw, ',');
    r := hooks;
    for i := 0 to |pieces|
      invariant r == hooks + HookPieces(pieces[..i])
    {
      ExtendHooksStep(pieces, hooks, i, r);
      var hook := Trim(pieces[i]);
      if hook != [] {
        r := r + [hook];
      }
    }
    assert pieces[..|pieces|] == pieces;
  }

  /** One `[...]` annotation: `hook:` appends hooks, a non-empty `id:` sets the id, anything else is ignored. */
  function ApplyAnnotation(annotation: string, o: RatOption): (r: RatOption)
    ensures r.text == o.text && r.next == o.next
    ensures StartsWith(annotation, "hook:") ==> r.id == o.id && r.hooks == o.hooks + HookPieces(Split(annotation[5..], ','))
    ensures !StartsWith(annotation, "hook:") ==> r.hooks == o.hooks
    ensures r.id != o.id ==> StartsWith(annotation, "id:") && r.id == Some(Trim(annotation[3..])) && Trim(annotation[3..]) != []
  {
    if StartsWith(annotation, "hook:") then o.(hooks := o.hooks + HookPieces(Split(annotation[5..], ',')))
    else if StartsWith(annotation, "id:") then
      var value := Trim(annotation[3..]);
      if value != [] then o.(id := Some(value)) else o
    else o
  }

  /**
   * The next `[...]` of the text still to read: its trimmed content and the
   * trimmed text after its `]`. There is none when no `[` is left, or when
   * the first `[` is never closed.
   */
  function NextAnnotation(remaining: string): (r: Option<(string, string)>)
    ensures r.Some? ==> |r.value.1| < |remaining|
    ensures '[' !in remaining ==> r.None?
  {
    match FindChar(remaining, '[')
    case None => None
    case Some(start) =>
      match FindChar(remaining[start + 1..], ']')
      case None => None
      case Some(endRel) =>
        var end := start + 1 + endRel;
        Some((Trim(remaining[start + 1..end]), Trim(remaining[end + 1..])))
  }

  /** An opening `[` with no `]` after it ends annotation parsing: nothing from there on is read. */
  lemma UnterminatedAnnotationStops(remaining: string, start: nat)
    requires FindChar(remaining, '[') == Some(start)
    requires ']' !in remaining[start + 1..]
    ensures NextAnnotation(remaining) == None
  {
  }

  /** `parse_option_annotations` on the (trimmed) text still to read: each `[...]` in turn. */
  function Annotate(remaining: string, o: RatOption): RatOption
    decreases |remaining|
  {
    match NextAnnotation(remaining)
    case None => o
    case Some((annotation, rest)) => Annotate(rest, ApplyAnnotation(annotation, o))
  }

  /**
   * What annotations may do to an option: keep its text and target, append
   * clean hook names to its hooks, and set its id only to a non-empty one.
   */
  predicate AnnotationExtends(o: RatOption, r: RatOption)
  {
    r.text == o.text && r.next == o.next
    && |o.hooks| <= |r.hooks| && r.hooks[..|o.hooks|] == o.hooks
    && (forall k :: |o.hooks| <= k < |r.hooks| ==> IsHookName(r.hooks[k]))
    && (r.id != o.id ==> r.id.Some? && r.id.value != [])
  }

  lemma AnnotationExtendsTransitive(a: RatOption, b: RatOption, c: RatOption)
    requires AnnotationExtends(a, b) && AnnotationExtends(b, c)
    ensures AnnotationExtends(a, c)
  {
    assert c.hooks[..|a.hooks|] == c.hooks[..|b.hooks|][..|a.hooks|];
    forall k | |a.hooks| <= k < |c.hooks| ensures IsHookName(c.hooks[k]) {
      if k < |b.hooks| {
        assert c.hooks[k] == c.hooks[..|b.hooks|][k];
      }
    }
  }

  lemma ApplyAnnotationExtends(annotation: string, o: RatOption)
    ensures AnnotationExtends(o, ApplyAnnotation(annotation, o))
  {
    if StartsWith(annotation, "hook:") {
      var added := HookPieces(Split(annotation[5..], ','));
      HookPiecesClean(Split(annotation[5..], ','));
      var r := ApplyAnnotation(annotation, o);
      assert r.hooks == o.hooks + added;
      assert r.hooks[..|o.hooks|] == o.hooks;
      forall k | |o.hooks| <= k < |r.hooks| ensures IsHookName(r.hooks[k]) {
        assert r.hooks[k] == added[k - |o.hooks|];
      }
    }
  }

  /** Annotations keep the text and target, only append clean hooks, and never set an empty id. */
  lemma {:induction false} AnnotateExtends(remaining: string, o: RatOption)
    ensures AnnotationExtends(o, Annotate(remaining, o))
    ensures '[' !in remaining ==> Annotate(remaining, o) == o
    decreases |remaining|
  {
    match NextAnnotation(remaining)
    case None =>
      assert o.hooks[..|o.hooks|] == o.hooks;
    case Some((annotation, rest)) =>
      var next := ApplyAnnotation(annotation, o);
      ApplyAnnotationExtends(annotation, o);
      AnnotateExtends(rest, next);
      AnnotationExtendsTransitive(o, next, Annotate(rest, next));
  }

  /**
   * `parse_option_annotations`: the `while let` loop over the shrinking
   * `remaining`; `NextAnnotation` is its `find('[')`, `find(']')` and slicing.
   */
  method ParseOptionAnnotations(raw: string, option: RatOption) returns (o: RatOption)
    ensures o == Annotate(Trim(raw), option)
  {
    var remaining := Trim(raw);
    o := option;
    var next := NextAnnotation(remaining);
    while next.Some?
      invariant next == NextAnnotation(remaining)
      invariant Annotate(Trim(raw), option) == Annotate(remaining, o)
      decreases |remaining|
    {
      var (annotation, rest) := next.value;
      if StartsWith(annotation, "hook:") {
        var hooks := ExtendHooks(annotation[5..], o.hooks);
        o := o.(hooks := hooks);
      } else if StartsWith(annotation, "id:") {
        var value := Trim(annotation[3..]);
        if value != [] {
          o := o.(id := Some(value));
        }
      }
      remaining := rest;
      next := NextAnnotation(remaining);
    }
  }

  /**
   * `split_target_and_annotations`: the trimmed text before the first `[`,
   * and the trimmed rest starting with that `[`.
   */
  function SplitTargetAndAnnotations(raw: string): (r: (string, string))
    ensures '[' !in raw ==> r == (Trim(raw), [])
    ensures '[' in raw ==> '[' !in r.0 && r.1 != [] && r.1[0] == '['
  {
    match FindChar(raw, '[')
    case None => (Trim(raw), [])
    case Some(index) =>
      TrimChars(raw[..index]);
      TrimKeepsFirst(raw[index..]);
      (Trim(raw[..index]), Trim(raw[index..]))
  }

  /** "line N has an empty option text", with the 1-based line number. */
  function EmptyOptionText(lineNumber: nat): string
  {
    "line " + NatToString(lineNumber) + " has an empty option text"
  }

  /** The option text, the `->` metadata (if any) and the inline annotations of an option line. */
  function OptionParts(raw: string): (string, Option<string>, string)
  {
    match SplitOnceSeq(raw, "->")
    case Some((text, rest)) => (Trim(text), Some(Trim(rest)), [])
    case None =>
      var (text, annotations) := SplitTargetAndAnnotations(Trim(raw));
      (text, None, annotations)
  }

  /** `parse_option_line` on the text after `>`. */
  function OptionLine(raw: string, lineNumber: nat): (r: Result<RatOption>)
  {
    var (textPart, metadata, inline) := OptionParts(raw);
    if textPart == [] then Err(EmptyOptionText(lineNumber))
    else
      var o := RatOption(None, textPart, None, []);
      var o := match metadata
        case None => o
        case Some(meta) =>
          var (target, annotations) := SplitTargetAndAnnotations(meta);
          Annotate(Trim(annotations), if target != [] then o.(next := Some(target)) else o);
      Ok(Annotate(Trim(inline), o))
  }

  /**
   * The rules of an option line: an empty text is an error naming the line;
   * otherwise the text is kept, the target after `->` (up to the first `[`)
   * is the next node exactly when it is non-empty, and there is no target
   * without `->`. An id is never empty and every hook is a clean name.
   */
  lemma OptionLineRules(raw: string, lineNumber: nat)
    ensures OptionParts(raw).0 == [] <==> OptionLine(raw, lineNumber) == Err(EmptyOptionText(lineNumber))
    ensures OptionLine(raw, lineNumber).Ok? ==>
      var o := OptionLine(raw, lineNumber).value;
      o.text == OptionParts(raw).0 && o.text != []
      && (OptionParts(raw).1.None? ==> o.next.None?)
      && (OptionParts(raw).1.Some? ==>
            var target := SplitTargetAndAnnotations(OptionParts(raw).1.value).0;
            o.next == (if target != [] then Some(target) else None))
      && (o.id.Some? ==> o.id.value != [])
      && (forall k :: 0 <= k < |o.hooks| ==> IsHookName(o.hooks[k]))
  {
    var (textPart, metadata, inline) := OptionParts(raw);
    if textPart != [] {
      var o0 := RatOption(None, textPart, None, []);
      var oT := o0;
      if metadata.Some? {
        var (target, annotations) := SplitTargetAndAnnotations(metadata.value);
        oT := if target != [] then o0.(next := Some(target)) else o0;
        AnnotateExtends(Trim(annotations), oT);
      } else {
        assert o0.hooks[..0] == o0.hooks;
      }
      var o1 := match metadata
        case None => o0
        case Some(meta) =>
          var (target, annotations) := SplitTargetAndAnnotations(meta);
          Annotate(Trim(annotations), if target != [] then o0.(next := Some(target)) else o0);
      assert AnnotationExtends(oT, o1);
      AnnotateExtends(Trim(inline), o1);
      AnnotationExtendsTransitive(oT, o1, Annotate(Trim(inline), o1));
    }
  }

  /** `parse_option_line`, calling the annotation loop on the metadata and then on the inline part. */
  method ParseOptionLine(raw: string, lineNumber: nat) returns (r: Result<RatOption>)
    ensures r == OptionLine(raw, lineNumber)
  {
    var (textPart, metadata, inline) := OptionParts(raw);
    if textPart == [] {
      return Err(EmptyOptionText(lineNumber));
    }
    var option := RatOption(None, textPart, None, []);
    if metadata.Some? {
      var (target, annotations) := SplitTargetAndAnnotations(metadata.value);
      if target != [] {
        option := option.(next := Some(target));
      }
      option := ParseOptionAnnotations(annotations, option);
    }
    option := ParseOptionAnnotations(inline, option);
    r := Ok(option);
  }

  /**
   * `parse_metadata_comment` on the text after `//`: the new script id and
   * entry.
   */
  function MetadataComment(raw: string, scriptId: string, entry: string): (r: (string, string))
  {
    match SplitOnceChar(raw, ':')
    case None => (scriptId, entry)
    case Some((key, value)) =>
      var key := Trim(key);
      var value := Trim(value);
      if value == [] then (scriptId, entry)
      else if key == "script" then (value, entry)
      else if key == "entry" then (scriptId, value)
      else (scriptId, entry)
  }

  /** The value a `key: value` comment gives to `key`, if it gives a non-empty one. */
  function MetaValue(raw: string, key: string): Option<string>
  {
    match SplitOnceChar(raw, ':')
    case None => None
    case Some((k, v)) => if Trim(k) == key && Trim(v) != [] then Some(Trim(v)) else None
  }

  /**
   * A comment changes the script id exactly when its key is `script` with a
   * non-empty value, and the entry exactly when its key is `entry` with a
   * non-empty value; it never changes both.
   */
  lemma MetadataCommentRules(raw: string, scriptId: string, entry: string)
    ensures MetadataComment(raw, scriptId, entry).0 == (if MetaValue(raw, "script").Some? then MetaValue(raw, "script").value else scriptId)
    ensures MetadataComment(raw, scriptId, entry).1 == (if MetaValue(raw, "entry").Some? then MetaValue(raw, "entry").value else entry)
    ensures MetaValue(raw, "script").None? || MetaValue(raw, "entry").None?
  {
  }

  /** The parser's mutable locals: script id, entry, stored nodes, first header id and the open node. */
  datatype ParserState = ParserState(
    scriptId: string,
    entry: string,
    nodes: map<string, RatNode>,
    firstNodeId: Option<string>,
    current: Option<RatNode>)

  function InitialState(fallbackScriptId: string): ParserState
  {
    ParserState(fallbackScriptId, "start", map[], None, None)
  }

  /**
   * `flush_current_node`: store the open node under its id. It fails on a
   * repeated id and never replaces a node already stored.
   */
  function Flush(current: Option<RatNode>, nodes: map<string, RatNode>): (r: Result<map<string, RatNode>>)
    ensures r.Err? <==> current.Some? && current.value.id in nodes
    ensures r.Err? ==> r.message == "duplicate node id '" + current.value.id + "'"
    ensures r.Ok? ==> forall k :: k in nodes ==> k in r.value && r.value[k] == nodes[k]
    ensures r.Ok? ==> r.value.Keys == nodes.Keys + (if current.Some? then {current.value.id} else {})
    ensures r.Ok? && KeyedById(nodes) ==> KeyedById(r.value)
  {
    match current
    case None => Ok(nodes)
    case Some(node) =>
      if node.id in nodes then Err("duplicate node id '" + node.id + "'")
      else Ok(nodes[node.id := node])
  }

  /** `[id]`: a line that starts with `[` and ends with `]`. */
  predicate IsHeader(raw: string)
  {
    |raw| > 0 && raw[0] == '[' && raw[|raw| - 1] == ']'
  }

  function HeaderId(raw: string): string
    requires IsHeader(raw)
  {
    Trim(raw[1..|raw| - 1])
  }

  function EmptyNodeId(lineNumber: nat): string
  {
    "line " + NatToString(lineNumber) + " has an empty node id"
  }

  /** A `key: value` line inside a node; unknown keys are ignored. */
  function ApplyField(node: RatNode, key: string, value: string): (r: RatNode)
    ensures r.id == node.id && r.options == node.options && r.next == node.next
  {
    if key == "speaker" then node.(speaker := value)
    else if key == "text" then node.(text := value)
    else if key == "portrait" then node.(portraitPath := value)
    else if key == "voice" then node.(voice := Synth.PresetFromStr(value).value)
    else if key == "hook" then node.(hooks := node.hooks + HookPieces(Split(value, ',')))
    else node
  }

  /** One line of a script (its 1-based number is `lineNumber`), as the body of the parse loop treats it. */
  function StepLine(st: ParserState, line: string, lineNumber: nat): Result<ParserState>
  {
    var raw := Trim(line);
    if raw == [] then Ok(st)
    else if StartsWith(raw, "//") then
      var (scriptId, entry) := MetadataComment(Trim(raw[2..]), st.scriptId, st.entry);
      Ok(st.(scriptId := scriptId, entry := entry))
    else if IsHeader(raw) then
      match Flush(st.current, st.nodes)
      case Err(e) => Err(e)
      case Ok(nodes) =>
        var id := HeaderId(raw);
        if id == [] then Err(EmptyNodeId(lineNumber))
        else
          var first := if st.firstNodeId.None? then Some(id) else st.firstNodeId;
          Ok(ParserState(st.scriptId, st.entry, nodes, first, Some(NewNode(id))))
    else if st.current.None? then Ok(st)
    else
      var node := st.current.value;
      if raw[0] == '>' then
        match OptionLine(Trim(raw[1..]), lineNumber)
        case Err(e) => Err(e)
        case Ok(option) => Ok(st.(current := Some(node.(options := node.options + [option]))))
      else if StartsWith(raw, "->") then
        var next := Trim(raw[2..]);
        if next != [] then Ok(st.(current := Some(node.(next := Some(next))))) else Ok(st)
      else
        match SplitOnceChar(raw, ':')
        case None => Ok(st)
        case Some((key, value)) => Ok(st.(current := Some(ApplyField(node, Trim(key), Trim(value)))))
  }

  /** The parse loop from line index `i` on. */
  function RunFrom(lines: seq<string>, i: nat, st: ParserState): Result<ParserState>
    requires i <= |lines|
    decreases |lines| - i
  {
    if i == |lines| then Ok(st)
    else
      match StepLine(st, lines[i], i + 1)
      case Err(e) => Err(e)
      case Ok(next) => RunFrom(lines, i + 1, next)
  }

  /** What follows the loop: flush the open node, require a node, and fall back to the first header's id as entry. */
  function Finish(st: ParserState): Result<RatScript>
  {
    match Flush(st.current, st.nodes)
    case Err(e) => Err(e)
    case Ok(nodes) =>
      if nodes == map[] then Err("script does not define any nodes")
      else if st.entry in nodes then Ok(RatScript(st.scriptId, st.entry, nodes))
      else
        match st.firstNodeId
        case Some(first) => Ok(RatScript(st.scriptId, first, nodes))
        case None => Err("entry node '" + st.entry + "' was not found")
  }

  /** `parse_rat_script`: the lines of `content` (split at `\n`), then `Finish`. */
  function ParseRat(content: string, fallbackScriptId: string): Result<RatScript>
  {
    match RunFrom(Split(content, '\n'), 0, InitialState(fallbackScriptId))
    case Err(e) => Err(e)
    case Ok(st) => Finish(st)
  }

  /** Blank lines, and lines other than comments and headers before the first header, change nothing. */
  lemma IgnoredLines(st: ParserState, line: string, lineNumber: nat)
    ensures Trim(line) == [] ==> StepLine(st, line, lineNumber) == Ok(st)
    ensures st.current.None? && !StartsWith(Trim(line), "//") && !IsHeader(Trim(line)) ==>
      StepLine(st, line, lineNumber) == Ok(st)
  {
  }

  /** A comment line changes only the script id and the entry, as `MetadataComment` says. */
  lemma CommentLineRule(st: ParserState, line: string, lineNumber: nat)
    requires Trim(line) != [] && StartsWith(Trim(line), "//")
    ensures StepLine(st, line, lineNumber).Ok?
    ensures var next := StepLine(st, line, lineNumber).value;
      next.nodes == st.nodes && next.current == st.current && next.firstNodeId == st.firstNodeId
      && (next.scriptId, next.entry) == MetadataComment(Trim(Trim(line)[2..]), st.scriptId, st.entry)
  {
  }

  /**
   * A header line first flushes the open node (a repeated id is an error);
   * an empty id is then an error naming the line; otherwise a fresh node
   * with that id is opened.
   */
  lemma HeaderLineRule(st: ParserState, line: string, lineNumber: nat)
    requires Trim(line) != [] && !StartsWith(Trim(line), "//") && IsHeader(Trim(line))
    ensures Flush(st.current, st.nodes).Err? ==> StepLine(st, line, lineNumber) == Err(Flush(st.current, st.nodes).message)
    ensures Flush(st.current, st.nodes).Ok? && HeaderId(Trim(line)) == [] ==>
      StepLine(st, line, lineNumber) == Err(EmptyNodeId(lineNumber))
    ensures Flush(st.current, st.nodes).Ok? && HeaderId(Trim(line)) != [] ==>
      StepLine(st, line, lineNumber).Ok? && StepLine(st, line, lineNumber).value.current == Some(NewNode(HeaderId(Trim(line))))
  {
  }

  /**
   * What the loop keeps: nodes are keyed by id; the first header's id is
   * stored, or is the id of the open node when nothing is stored yet; there
   * is no open node before the first header.
   */
  predicate Consistent(st: ParserState)
  {
    KeyedById(st.nodes)
    && match st.firstNodeId
       case None => st.nodes == map[] && st.current.None?
       case Some(f) => f in st.nodes || (st.nodes == map[] && st.current.Some? && st.current.value.id == f)
  }

  lemma StepLineConsistent(st: ParserState, line: string, lineNumber: nat)
    requires Consistent(st)
    ensures StepLine(st, line, lineNumber).Ok? ==> Consistent(StepLine(st, line, lineNumber).value)
  {
  }

  lemma {:induction false} RunFromConsistent(lines: seq<string>, i: nat, st: ParserState)
    requires i <= |lines| && Consistent(st)
    ensures RunFrom(lines, i, st).Ok? ==> Consistent(RunFrom(lines, i, st).value)
    decreases |lines| - i
  {
    if i < |lines| {
      StepLineConsistent(st, lines[i], i + 1);
      if StepLine(st, lines[i], i + 1).Ok? {
        RunFromConsistent(lines, i + 1, StepLine(st, lines[i], i + 1).value);
      }
    }
  }

  /**
   * After the loop, a consistent state either fails with a duplicate id or
   * "script does not define any nodes", or yields a well-formed script
   * whose entry is the declared one if that node exists, else the first
   * header's id. The "was not found" error cannot happen.
   */
  lemma FinishRules(st: ParserState)
    requires Consistent(st)
    ensures Finish(st).Err? ==>
      Finish(st).message == "script does not define any nodes"
      || (st.current.Some? && Finish(st).message == "duplicate node id '" + st.current.value.id + "'")
    ensures Finish(st).Ok? ==>
      var s := Finish(st).value;
      WellFormed(s) && s.nodes != map[] && s.id == st.scriptId
      && s.entry == (if st.entry in s.nodes then st.entry else st.firstNodeId.value)
  {
  }

  /** A successful parse yields a well-formed script with at least one node. */
  lemma ParseRatWellFormed(content: string, fallbackScriptId: string)
    ensures ParseRat(content, fallbackScriptId).Ok? ==>
      WellFormed(ParseRat(content, fallbackScriptId).value) && ParseRat(content, fallbackScriptId).value.nodes != map[]
  {
    RunFromConsistent(Split(content, '\n'), 0, InitialState(fallbackScriptId));
    var run := RunFrom(Split(content, '\n'), 0, InitialState(fallbackScriptId));
    if run.Ok? {
      FinishRules(run.value);
    }
  }

  /** `parse_rat_script`: the loop over the lines, updating the parser's locals in place. */
  method ParseRatScript(content: string, fallbackScriptId: string) returns (r: Result<RatScript>)
    ensures r == ParseRat(content, fallbackScriptId)
  {
    var lines := Split(content, '\n');
    var scriptId := fallbackScriptId;
    var entry := "start";
    var nodes: map<string, RatNode> := map[];
    var firstNodeId: Option<string> := None;
    var current: Option<RatNode> := None;
    for lineIndex := 0 to |lines|
      invariant RunFrom(lines, 0, InitialState(fallbackScriptId))
             == RunFrom(lines, lineIndex, ParserState(scriptId, entry, nodes, firstNodeId, current))
    {
      ghost var before := ParserState(scriptId, entry, nodes, firstNodeId, current);
      ghost var step := StepLine(before, lines[lineIndex], lineIndex + 1);
      var raw := Trim(lines[lineIndex]);
      if raw == [] {
        continue;
      }
      if StartsWith(raw, "//") {
        var meta := MetadataComment(Trim(raw[2..]), scriptId, entry);
        scriptId, entry := meta.0, meta.1;
        continue;
      }
      if IsHeader(raw) {
        var flushed := Flush(current, nodes);
        if flushed.Err? {
          return Err(flushed.message);
        }
        nodes := flushed.value;
        current := None;
        var nodeId := HeaderId(raw);
        if nodeId == [] {
          return Err(EmptyNodeId(lineIndex + 1));
        }
        if firstNodeId.None? {
          firstNodeId := Some(nodeId);
        }
        current := Some(NewNode(nodeId));
        continue;
      }
      if current.None? {
        continue;
      }
      var node := current.value;
      if raw[0] == '>' {
        var option := ParseOptionLine(Trim(raw[1..]), lineIndex + 1);
        if option.Err? {
          return Err(option.message);
        }
        current := Some(node.(options := node.options + [option.value]));
        continue;
      }
      if StartsWith(raw, "->") {
        var next := Trim(raw[2..]);
        if next != [] {
          current := Some(node.(next := Some(next)));
        }
        continue;
      }
      var split := SplitOnceChar(raw, ':');
      if split.Some? {
        var key, value := Trim(split.value.0), Trim(split.value.1);
        if key == "speaker" {
          node := node.(speaker := value);
        } else if key == "text" {
          node := node.(text := value);
        } else if key == "portrait" {
          node := node.(portraitPath := value);
        } else if key == "voice" {
          node := node.(voice := Synth.PresetFromStr(value).value);
        } else if key == "hook" {
          var hooks := ExtendHooks(value, node.hooks);
          node := node.(hooks := hooks);
        }
        current := Some(node);
      }
    }
    var flushed := Flush(current, nodes);
    if flushed.Err? {
      return Err(flushed.message);
    }
    nodes := flushed.value;
    if nodes == map[] {
      return Err("script does not define any nodes");
    }
    if entry !in nodes {
      if firstNodeId.Some? {
        entry := firstNodeId.value;
      } else {
        return Err("entry node '" + entry + "' was not found");
      }
    }
    r := Ok(RatScript(scriptId, entry, nodes));
  }
}
