/**
 * Ratspinner dialogue scripts: nodes with options, the builders that the
 * game uses for its built-in scripts, and the conversions to and from the
 * RON-shaped record that `.ron` script assets deserialise into.
 *
 * A script keeps its nodes in a map keyed by node id. The builders return
 * modified copies; a node builder is modelled by the node value it builds
 * (the builder and the node carry the same fields, and `build` copies them).
 */
module RatTypes {
  import opened Wrappers
  import opened Text
  import Synth

  /** The portrait a node shows unless its script names another one. */
  const DefaultPortrait: string := "models/npc_a/npc_a.png"

  datatype RatOption = RatOption(id: Option<string>, text: string, next: Option<string>, hooks: seq<string>)
  {
    /** `RatOptionBuilder::id`. */
    function WithId(v: string): (r: RatOption)
      ensures r.id == Some(v)
      ensures r.text == text && r.next == next && r.hooks == hooks
    {
      this.(id := Some(v))
    }

    /** `RatOptionBuilder::goto`. */
    function Goto(target: string): (r: RatOption)
      ensures r.next == Some(target)
      ensures r.id == id && r.text == text && r.hooks == hooks
    {
      this.(next := Some(target))
    }

    /** `RatOptionBuilder::hook`: hooks are kept in call order. */
    function WithHook(h: string): (r: RatOption)
      ensures r.hooks == hooks + [h]
      ensures r.id == id && r.text == text && r.next == next
    {
      this.(hooks := hooks + [h])
    }
  }

  /** `RatOptionBuilder::new`: only the text is set. */
  function NewOption(text: string): (r: RatOption)
    ensures r.text == text && r.id.None? && r.next.None? && r.hooks == []
  {
    RatOption(None, text, None, [])
  }

  datatype RatNode = RatNode(
    id: string,
    speaker: string,
    text: string,
    portraitPath: string,
    voice: Synth.VoicePreset,
    next: Option<string>,
    hooks: seq<string>,
    options: seq<RatOption>)
  {
    function WithSpeaker(s: string): (r: RatNode)
      ensures r.speaker == s && r == this.(speaker := s)
    {
      this.(speaker := s)
    }

    function WithText(s: string): (r: RatNode)
      ensures r.text == s && r == this.(text := s)
    {
      this.(text := s)
    }

    function WithPortrait(path: string): (r: RatNode)
      ensures r.portraitPath == path && r == this.(portraitPath := path)
    {
      this.(portraitPath := path)
    }

    function WithVoice(preset: Synth.VoicePreset): (r: RatNode)
      ensures r.voice == preset && r == this.(voice := preset)
    {
      this.(voice := preset)
    }

    function WithNext(target: string): (r: RatNode)
      ensures r.next == Some(target) && r == this.(next := Some(target))
    {
      this.(next := Some(target))
    }

    /** `RatNodeBuilder::hook`: appended after the hooks already given. */
    function WithHook(h: string): (r: RatNode)
      ensures r.hooks == hooks + [h] && r.options == options && r.id == id
    {
      this.(hooks := hooks + [h])
    }

    /** `RatNodeBuilder::option`: appended after the options already given. */
    function WithOption(o: RatOption): (r: RatNode)
      ensures r.options == options + [o] && r.hooks == hooks && r.id == id
    {
      this.(options := options + [o])
    }
  }

  /**
   * `RatNodeBuilder::new` (and the parser's `RatNodeDraft::new`): an unknown
   * speaker with no text, the default portrait and the neutral voice.
   */
  function NewNode(id: string): (r: RatNode)
    ensures r.id == id && r.speaker == "unknown" && r.text == []
    ensures r.portraitPath == DefaultPortrait && r.voice == Synth.NeutralNpc
    ensures r.next.None? && r.hooks == [] && r.options == []
  {
    RatNode(id, "unknown", "", DefaultPortrait, Synth.NeutralNpc, None, [], [])
  }

  /** Hooks given one `hook` call after another end up in call order. */
  lemma {:induction false} NodeHooksInCallOrder(n: RatNode, hs: seq<string>)
    ensures AddHooks(n, hs).hooks == n.hooks + hs
    ensures AddHooks(n, hs).options == n.options
    decreases |hs|
  {
    if hs != [] {
      NodeHooksInCallOrder(n, hs[..|hs| - 1]);
      assert hs == hs[..|hs| - 1] + [hs[|hs| - 1]];
    }
  }

  /** A chain of `hook` calls, the first element first. */
  function AddHooks(n: RatNode, hs: seq<string>): RatNode
    decreases |hs|
  {
    if hs == [] then n else AddHooks(n, hs[..|hs| - 1]).WithHook(hs[|hs| - 1])
  }

  datatype RatScript = RatScript(id: string, entry: string, nodes: map<string, RatNode>)

  /** Every node is stored under its own id. */
  predicate KeyedById(nodes: map<string, RatNode>)
  {
    forall k :: k in nodes ==> nodes[k].id == k
  }

  /** A script that can be started: nodes keyed by id and an entry node that exists. */
  predicate WellFormed(s: RatScript)
  {
    KeyedById(s.nodes) && s.entry in s.nodes
  }

  /** `RatScript::single`: one node "start", which is also the entry. */
  function Single(id: string, speaker: string, text: string): (r: RatScript)
    ensures r.id == id && r.entry == "start" && r.nodes.Keys == {"start"}
    ensures r.nodes["start"] == NewNode("start").WithSpeaker(speaker).WithText(text)
    ensures WellFormed(r)
  {
    var node := NewNode("start").WithSpeaker(speaker).WithText(text);
    RatScript(id, "start", map[node.id := node])
  }

  /** The ids of a list of nodes. */
  function IdsOf(ns: seq<RatNode>): set<string>
  {
    set i | 0 <= i < |ns| :: ns[i].id
  }

  /**
   * The map `RatScriptBuilder::build` produces: each node inserted under its
   * id in list order, so that a later node replaces an earlier one.
   */
  function NodesMap(ns: seq<RatNode>): (m: map<string, RatNode>)
    ensures KeyedById(m)
    ensures m.Keys == IdsOf(ns)
    decreases |ns|
  {
    if ns == [] then map[]
    else
      var init := ns[..|ns| - 1];
      var last := ns[|ns| - 1];
      var m := NodesMap(init)[last.id := last];
      assert IdsOf(ns) == IdsOf(init) + {last.id} by {
        forall k | k in IdsOf(ns) ensures k in IdsOf(init) + {last.id} {
          var i :| 0 <= i < |ns| && ns[i].id == k;
          if i < |ns| - 1 { assert init[i] == ns[i]; }
        }
        forall k | k in IdsOf(init) ensures k in IdsOf(ns) {
          var i :| 0 <= i < |init| && init[i].id == k;
          assert ns[i] == init[i];
        }
      }
      m
  }

  /** When several nodes share an id, the one given last is the one kept. */
  lemma {:induction false} NodesMapLastWins(ns: seq<RatNode>, i: nat)
    requires i < |ns|
    requires forall j :: i < j < |ns| ==> ns[j].id != ns[i].id
    ensures NodesMap(ns)[ns[i].id] == ns[i]
    decreases |ns|
  {
    if i < |ns| - 1 {
      var init := ns[..|ns| - 1];
      forall j | i < j < |init| ensures init[j].id != init[i].id {
        assert init[j] == ns[j];
      }
      NodesMapLastWins(init, i);
    }
  }

  datatype RatScriptBuilder = RatScriptBuilder(id: string, entry: string, nodes: seq<RatNode>)
  {
    /** `RatScriptBuilder::entry`. */
    function WithEntry(nodeId: string): (r: RatScriptBuilder)
      ensures r.entry == nodeId && r.id == id && r.nodes == nodes
    {
      this.(entry := nodeId)
    }

    /** `RatScriptBuilder::node`: nodes are kept in call order. */
    function WithNode(n: RatNode): (r: RatScriptBuilder)
      ensures r.nodes == nodes + [n] && r.id == id && r.entry == entry
    {
      this.(nodes := nodes + [n])
    }

    /** `RatScriptBuilder::build`: inserts every node into a fresh map, later ones winning. */
    method Build() returns (r: RatScript)
      ensures r.id == id && r.entry == entry
      ensures r.nodes == NodesMap(nodes)
    {
      var m: map<string, RatNode> := map[];
      for i := 0 to |nodes|
        invariant m == NodesMap(nodes[..i])
      {
        var built := nodes[i];
        assert nodes[..i + 1][..i] == nodes[..i];
        m := m[built.id := built];
      }
      assert nodes[..|nodes|] == nodes;
      r := RatScript(id, entry, m);
    }
  }

  /** `RatScriptBuilder::new`: no nodes yet, and the entry is "start". */
  function NewScriptBuilder(id: string): (r: RatScriptBuilder)
    ensures r.id == id && r.entry == "start" && r.nodes == []
  {
    RatScriptBuilder(id, "start", [])
  }

  /** The voice names of the RON format; a record without one speaks as the neutral NPC. */
  datatype RatVoiceRon = HostileEntity | LostChild | CorruptedTransmission | NeutralNpc

  const DefaultVoiceRon: RatVoiceRon := NeutralNpc

  function PresetOfVoiceRon(v: RatVoiceRon): Synth.VoicePreset
  {
    match v
    case HostileEntity => Synth.HostileEntity
    case LostChild => Synth.LostChild
    case CorruptedTransmission => Synth.CorruptedTransmission
    case NeutralNpc => Synth.NeutralNpc
  }

  function VoiceRonOfPreset(p: Synth.VoicePreset): RatVoiceRon
  {
    match p
    case HostileEntity => HostileEntity
    case LostChild => LostChild
    case CorruptedTransmission => CorruptedTransmission
    case NeutralNpc => NeutralNpc
  }

  /** The two voice conversions are mutually inverse, and the RON default is the neutral NPC. */
  lemma VoiceConversionsInverse(v: RatVoiceRon, p: Synth.VoicePreset)
    ensures VoiceRonOfPreset(PresetOfVoiceRon(v)) == v
    ensures PresetOfVoiceRon(VoiceRonOfPreset(p)) == p
    ensures PresetOfVoiceRon(DefaultVoiceRon) == Synth.NeutralNpc
  {
  }

  datatype RatOptionRon = RatOptionRon(id: Option<string>, text: string, next: Option<string>, hooks: seq<string>)

  datatype RatNodeRon = RatNodeRon(
    id: string,
    speaker: string,
    text: string,
    portraitPath: string,
    voice: RatVoiceRon,
    next: Option<string>,
    hooks: seq<string>,
    options: seq<RatOptionRon>)

  datatype RatScriptRon = RatScriptRon(id: string, entry: string, nodes: seq<RatNodeRon>)

  function OptionToRon(o: RatOption): RatOptionRon
  {
    RatOptionRon(o.id, o.text, o.next, o.hooks)
  }

  function OptionFromRon(o: RatOptionRon): RatOption
  {
    RatOption(o.id, o.text, o.next, o.hooks)
  }

  /** One node as `From<&RatScript>` writes it. */
  function NodeToRon(n: RatNode): (r: RatNodeRon)
    ensures r.id == n.id && |r.options| == |n.options|
  {
    RatNodeRon(n.id, n.speaker, n.text, n.portraitPath, VoiceRonOfPreset(n.voice), n.next, n.hooks,
               seq(|n.options|, i requires 0 <= i < |n.options| => OptionToRon(n.options[i])))
  }

  /** One record as `TryFrom<RatScriptRon>` builds its node. */
  function NodeFromRon(r: RatNodeRon): (n: RatNode)
    ensures n.id == r.id && |n.options| == |r.options|
  {
    RatNode(r.id, r.speaker, r.text, r.portraitPath, PresetOfVoiceRon(r.voice), r.next, r.hooks,
            seq(|r.options|, i requires 0 <= i < |r.options| => OptionFromRon(r.options[i])))
  }

  /** Writing a node out and reading it back gives the same node. */
  lemma NodeRonRoundTrip(n: RatNode)
    ensures NodeFromRon(NodeToRon(n)) == n
  {
    var back := NodeFromRon(NodeToRon(n));
    VoiceConversionsInverse(VoiceRonOfPreset(n.voice), n.voice);
    assert back.options == n.options;
  }

  /** The ids of a list of records, and whether they are pairwise different. */
  function IdsOfRon(ns: seq<RatNodeRon>): set<string>
  {
    set i | 0 <= i < |ns| :: ns[i].id
  }

  predicate DistinctRonIds(ns: seq<RatNodeRon>)
  {
    forall i, j :: 0 <= i < j < |ns| ==> ns[i].id != ns[j].id
  }

  /** Ids strictly ascending in `String` order (hence pairwise different). */
  predicate StrictlyAscending(ns: seq<RatNodeRon>)
  {
    forall i, j :: 0 <= i < j < |ns| ==> LexLess(ns[i].id, ns[j].id)
  }

  /** The insertion loop of `TryFrom<RatScriptRon>`, from the record list and the map built so far. */
  function InsertRonNodes(ns: seq<RatNodeRon>, acc: map<string, RatNode>): Result<map<string, RatNode>>
    decreases |ns|
  {
    if ns == [] then Ok(acc)
    else if ns[0].id in acc then Err("duplicate node id '" + ns[0].id + "'")
    else InsertRonNodes(ns[1..], acc[ns[0].id := NodeFromRon(ns[0])])
  }

  /** `TryFrom<RatScriptRon>`: reject a repeated node id, then an entry that is not a node. */
  function FromRon(ron: RatScriptRon): Result<RatScript>
  {
    match InsertRonNodes(ron.nodes, map[])
    case Err(e) => Err(e)
    case Ok(nodes) =>
      if ron.entry !in nodes then Err("entry node '" + ron.entry + "' not found in script '" + ron.id + "'")
      else Ok(RatScript(ron.id, ron.entry, nodes))
  }

  lemma IdsOfRonCons(ns: seq<RatNodeRon>)
    requires ns != []
    ensures IdsOfRon(ns) == {ns[0].id} + IdsOfRon(ns[1..])
    ensures DistinctRonIds(ns) <==> ns[0].id !in IdsOfRon(ns[1..]) && DistinctRonIds(ns[1..])
  {
    forall k | k in IdsOfRon(ns) ensures k in {ns[0].id} + IdsOfRon(ns[1..]) {
      var i :| 0 <= i < |ns| && ns[i].id == k;
      if i > 0 { assert ns[1..][i - 1] == ns[i]; }
    }
    forall k | k in IdsOfRon(ns[1..]) ensures k in IdsOfRon(ns) {
      var i :| 0 <= i < |ns[1..]| && ns[1..][i].id == k;
      assert ns[i + 1] == ns[1..][i];
    }
    if DistinctRonIds(ns) {
      forall i | 0 <= i < |ns[1..]| ensures ns[1..][i].id != ns[0].id {
        assert ns[1..][i] == ns[i + 1];
      }
      forall i, j | 0 <= i < j < |ns[1..]| ensures ns[1..][i].id != ns[1..][j].id {
        assert ns[1..][i] == ns[i + 1] && ns[1..][j] == ns[j + 1];
      }
    }
    if ns[0].id !in IdsOfRon(ns[1..]) && DistinctRonIds(ns[1..]) {
      forall i, j | 0 <= i < j < |ns| ensures ns[i].id != ns[j].id {
        assert ns[j] == ns[1..][j - 1];
        if i > 0 { assert ns[i] == ns[1..][i - 1]; }
      }
    }
  }

  /** The insertion loop succeeds exactly when the ids are pairwise different and new to the map. */
  lemma {:induction false} InsertRonNodesOk(ns: seq<RatNodeRon>, acc: map<string, RatNode>)
    ensures InsertRonNodes(ns, acc).Ok? <==> DistinctRonIds(ns) && IdsOfRon(ns) !! acc.Keys
    decreases |ns|
  {
    if ns != [] {
      IdsOfRonCons(ns);
      if ns[0].id !in acc {
        InsertRonNodesOk(ns[1..], acc[ns[0].id := NodeFromRon(ns[0])]);
      }
    }
  }

  /** On success the loop has added the records' ids and kept what was there. */
  lemma {:induction false} InsertRonNodesKeeps(ns: seq<RatNodeRon>, acc: map<string, RatNode>)
    requires InsertRonNodes(ns, acc).Ok?
    ensures InsertRonNodes(ns, acc).value.Keys == acc.Keys + IdsOfRon(ns)
    ensures forall k :: k in acc ==> InsertRonNodes(ns, acc).value[k] == acc[k]
    decreases |ns|
  {
    if ns != [] {
      IdsOfRonCons(ns);
      var acc' := acc[ns[0].id := NodeFromRon(ns[0])];
      assert InsertRonNodes(ns, acc) == InsertRonNodes(ns[1..], acc');
      InsertRonNodesKeeps(ns[1..], acc');
    }
  }

  /** On success every record is stored under its own id. */
  lemma {:induction false} InsertRonNodesStores(ns: seq<RatNodeRon>, acc: map<string, RatNode>)
    requires InsertRonNodes(ns, acc).Ok?
    ensures forall i :: 0 <= i < |ns| ==>
      (ns[i].id in InsertRonNodes(ns, acc).value && InsertRonNodes(ns, acc).value[ns[i].id] == NodeFromRon(ns[i]))
    decreases |ns|
  {
    if ns != [] {
      var acc' := acc[ns[0].id := NodeFromRon(ns[0])];
      assert InsertRonNodes(ns, acc) == InsertRonNodes(ns[1..], acc');
      InsertRonNodesStores(ns[1..], acc');
      InsertRonNodesKeeps(ns[1..], acc');
      var m := InsertRonNodes(ns, acc).value;
      forall i | 0 <= i < |ns| ensures ns[i].id in m && m[ns[i].id] == NodeFromRon(ns[i]) {
        if i > 0 { assert ns[1..][i - 1] == ns[i]; }
      }
    }
  }

  /** On success the loop has added every record under its own id and kept what was there. */
  lemma InsertRonNodesContents(ns: seq<RatNodeRon>, acc: map<string, RatNode>)
    requires InsertRonNodes(ns, acc).Ok?
    ensures InsertRonNodes(ns, acc).value.Keys == acc.Keys + IdsOfRon(ns)
    ensures forall k :: k in acc ==> InsertRonNodes(ns, acc).value[k] == acc[k]
    ensures forall i :: 0 <= i < |ns| ==> InsertRonNodes(ns, acc).value[ns[i].id] == NodeFromRon(ns[i])
  {
    InsertRonNodesKeeps(ns, acc);
    InsertRonNodesStores(ns, acc);
  }

  /** On failure the loop names a repeated id. */
  lemma {:induction false} InsertRonNodesErr(ns: seq<RatNodeRon>, acc: map<string, RatNode>)
    requires InsertRonNodes(ns, acc).Err?
    ensures exists i :: 0 <= i < |ns| && InsertRonNodes(ns, acc).message == "duplicate node id '" + ns[i].id + "'"
    decreases |ns|
  {
    if ns[0].id !in acc {
      var acc' := acc[ns[0].id := NodeFromRon(ns[0])];
      InsertRonNodesErr(ns[1..], acc');
      var i :| 0 <= i < |ns[1..]| && InsertRonNodes(ns[1..], acc').message == "duplicate node id '" + ns[1..][i].id + "'";
      assert ns[1..][i] == ns[i + 1];
    }
  }

  /**
   * `TryFrom<RatScriptRon>` accepts exactly the records with pairwise
   * different ids whose entry is one of them; the script then keys every
   * node by its own id and has exactly the listed ids.
   */
  lemma FromRonAccepts(ron: RatScriptRon)
    ensures FromRon(ron).Ok? <==> DistinctRonIds(ron.nodes) && ron.entry in IdsOfRon(ron.nodes)
    ensures FromRon(ron).Ok? ==>
      var s := FromRon(ron).value;
      WellFormed(s) && s.nodes.Keys == IdsOfRon(ron.nodes) && s.id == ron.id && s.entry == ron.entry
  {
    InsertRonNodesOk(ron.nodes, map[]);
    if InsertRonNodes(ron.nodes, map[]).Ok? {
      InsertRonNodesContents(ron.nodes, map[]);
    }
    if FromRon(ron).Ok? {
      var nodes := FromRon(ron).value.nodes;
      forall k | k in nodes ensures nodes[k].id == k {
        var i :| 0 <= i < |ron.nodes| && ron.nodes[i].id == k;
      }
    }
  }

  /** A repeated id is reported as a duplicate, before the entry is looked at. */
  lemma FromRonRejectsDuplicates(ron: RatScriptRon, i: nat, j: nat)
    requires i < j < |ron.nodes| && ron.nodes[i].id == ron.nodes[j].id
    ensures FromRon(ron).Err?
    ensures exists x :: x in IdsOfRon(ron.nodes) && FromRon(ron).message == "duplicate node id '" + x + "'"
  {
    InsertRonNodesOk(ron.nodes, map[]);
    InsertRonNodesErr(ron.nodes, map[]);
  }

  /** With distinct ids, a missing entry is reported with the entry and script ids. */
  lemma FromRonRejectsMissingEntry(ron: RatScriptRon)
    requires DistinctRonIds(ron.nodes) && ron.entry !in IdsOfRon(ron.nodes)
    ensures FromRon(ron) == Err("entry node '" + ron.entry + "' not found in script '" + ron.id + "'")
  {
    InsertRonNodesOk(ron.nodes, map[]);
    InsertRonNodesContents(ron.nodes, map[]);
  }

  /** `TryFrom<RatScriptRon>` as the loop the source writes, building the node map in place. */
  method TryFromRon(ron: RatScriptRon) returns (r: Result<RatScript>)
    ensures r == FromRon(ron)
  {
    var nodes: map<string, RatNode> := map[];
    for i := 0 to |ron.nodes|
      invariant InsertRonNodes(ron.nodes, map[]) == InsertRonNodes(ron.nodes[i..], nodes)
    {
      var node := ron.nodes[i];
      assert ron.nodes[i..][0] == node && ron.nodes[i..][1..] == ron.nodes[i + 1..];
      if node.id in nodes {
        return Err("duplicate node id '" + node.id + "'");
      }
      nodes := nodes[node.id := NodeFromRon(node)];
    }
    if ron.entry !in nodes {
      return Err("entry node '" + ron.entry + "' not found in script '" + ron.id + "'");
    }
    r := Ok(RatScript(ron.id, ron.entry, nodes));
  }

  /** `k` is a key whose node id is smallest among the keys `ks`. */
  predicate IsMinimalKey(k: string, ks: set<string>, nodes: map<string, RatNode>)
  {
    ks <= nodes.Keys && k in ks && forall k2 :: k2 in ks ==> !LexLess(nodes[k2].id, nodes[k].id)
  }

  lemma {:induction false} MinimalKeyExists(ks: set<string>, nodes: map<string, RatNode>)
    requires ks != {} && ks <= nodes.Keys
    ensures exists k :: IsMinimalKey(k, ks, nodes)
    decreases |ks|
  {
    var x :| x in ks;
    LexLessIrreflexive(nodes[x].id);
    if ks == {x} {
      assert IsMinimalKey(x, ks, nodes);
    } else {
      var rest := ks - {x};
      MinimalKeyExists(rest, nodes);
      var m :| IsMinimalKey(m, rest, nodes);
      if LexLess(nodes[x].id, nodes[m].id) {
        forall k2 | k2 in ks ensures !LexLess(nodes[k2].id, nodes[x].id) {
          if k2 != x && LexLess(nodes[k2].id, nodes[x].id) {
            LexLessTransitive(nodes[k2].id, nodes[x].id, nodes[m].id);
          }
        }
        assert IsMinimalKey(x, ks, nodes);
      } else {
        assert IsMinimalKey(m, ks, nodes);
      }
    }
  }

  /**
   * `out` lists the nodes of `s`: one record per node, in ascending id
   * order, every node's record present and every record some node's.
   */
  predicate ListsNodes(s: RatScript, out: seq<RatNodeRon>)
  {
    |out| == |s.nodes|
    && (forall i, j :: 0 <= i < j < |out| ==> !LexLess(out[j].id, out[i].id))
    && (forall k :: k in s.nodes ==> NodeToRon(s.nodes[k]) in out)
    && (forall i :: 0 <= i < |out| ==> exists k :: k in s.nodes && out[i] == NodeToRon(s.nodes[k]))
  }

  /**
   * What the selection loop of `ToRon` keeps: `out` holds the records of the
   * distinct keys `chosen`, every key is either chosen or remaining, and the
   * records are in ascending id order with nothing remaining below them.
   */
  predicate Selected(s: RatScript, remaining: set<string>, out: seq<RatNodeRon>, chosen: seq<string>)
  {
    remaining <= s.nodes.Keys
    && |chosen| == |out| && |out| + |remaining| == |s.nodes.Keys|
    && (forall i :: 0 <= i < |out| ==> chosen[i] in s.nodes && chosen[i] !in remaining)
    && (forall i :: 0 <= i < |out| ==> out[i] == NodeToRon(s.nodes[chosen[i]]))
    && (forall k :: k in s.nodes && k !in remaining ==> k in chosen)
    && (forall i, j :: 0 <= i < j < |chosen| ==> chosen[i] != chosen[j])
  }

  predicate SortedBelow(s: RatScript, remaining: set<string>, out: seq<RatNodeRon>)
    requires remaining <= s.nodes.Keys
  {
    (forall i, j :: 0 <= i < j < |out| ==> !LexLess(out[j].id, out[i].id))
    && (forall i, k :: 0 <= i < |out| && k in remaining ==> !LexLess(s.nodes[k].id, out[i].id))
  }

  /** The invariant of the selection loop. */
  predicate SelectionLoop(s: RatScript, remaining: set<string>, out: seq<RatNodeRon>, chosen: seq<string>)
  {
    Selected(s, remaining, out, chosen) && SortedBelow(s, remaining, out)
  }

  lemma SelectStep(s: RatScript, remaining: set<string>, out: seq<RatNodeRon>, chosen: seq<string>, k: string)
    requires SelectionLoop(s, remaining, out, chosen)
    requires IsMinimalKey(k, remaining, s.nodes)
    ensures SelectionLoop(s, remaining - {k}, out + [NodeToRon(s.nodes[k])], chosen + [k])
  {
    var rem, out', chosen' := remaining - {k}, out + [NodeToRon(s.nodes[k])], chosen + [k];
    assert |rem| == |remaining| - 1;
    forall i | 0 <= i < |out'|
      ensures chosen'[i] in s.nodes && chosen'[i] !in rem && out'[i] == NodeToRon(s.nodes[chosen'[i]])
    {
      if i < |out| {
        assert chosen'[i] == chosen[i] && out'[i] == out[i];
      }
    }
    forall x | x in s.nodes && x !in rem ensures x in chosen' {
      if x != k {
        var i :| 0 <= i < |chosen| && chosen[i] == x;
        assert chosen'[i] == x;
      } else {
        assert chosen'[|chosen|] == x;
      }
    }
    forall i, j | 0 <= i < j < |chosen'| ensures chosen'[i] != chosen'[j] {
      if j == |chosen| {
        assert chosen[i] !in remaining;
      } else {
        assert chosen'[i] == chosen[i] && chosen'[j] == chosen[j];
      }
    }
    assert Selected(s, rem, out', chosen');
    forall i, j | 0 <= i < j < |out'| ensures !LexLess(out'[j].id, out'[i].id) {
      if j == |out| {
        assert out'[i] == out[i] && out'[j].id == s.nodes[k].id;
      } else {
        assert out'[i] == out[i] && out'[j] == out[j];
      }
    }
    forall i, x | 0 <= i < |out'| && x in rem ensures !LexLess(s.nodes[x].id, out'[i].id) {
      if i < |out| {
        assert out'[i] == out[i];
      } else {
        assert out'[i].id == s.nodes[k].id;
      }
    }
  }

  lemma SelectDone(s: RatScript, out: seq<RatNodeRon>, chosen: seq<string>)
    requires SelectionLoop(s, {}, out, chosen)
    ensures ListsNodes(s, out)
    ensures KeyedById(s.nodes) ==> StrictlyAscending(out)
  {
    assert |s.nodes.Keys| == |s.nodes|;
    forall k | k in s.nodes ensures NodeToRon(s.nodes[k]) in out {
      var i :| 0 <= i < |chosen| && chosen[i] == k;
      assert out[i] == NodeToRon(s.nodes[k]);
    }
    forall i | 0 <= i < |out| ensures exists k :: k in s.nodes && out[i] == NodeToRon(s.nodes[k]) {
      assert chosen[i] in s.nodes;
    }
    if KeyedById(s.nodes) {
      forall i, j | 0 <= i < j < |out| ensures LexLess(out[i].id, out[j].id) {
        assert out[i].id == chosen[i] && out[j].id == chosen[j];
        LexLessTotal(out[i].id, out[j].id);
      }
    }
  }

  /**
   * `From<&RatScript>`: one record per node, sorted by node id. The map's
   * values are taken smallest id first, which yields the order the source's
   * sort produces.
   */
  method ToRon(s: RatScript) returns (r: RatScriptRon)
    ensures r.id == s.id && r.entry == s.entry
    ensures ListsNodes(s, r.nodes)
    ensures KeyedById(s.nodes) ==> StrictlyAscending(r.nodes)
  {
    var remaining := s.nodes.Keys;
    var out: seq<RatNodeRon> := [];
    ghost var chosen: seq<string> := [];
    while remaining != {}
      invariant SelectionLoop(s, remaining, out, chosen)
      decreases |remaining|
    {
      MinimalKeyExists(remaining, s.nodes);
      var k :| IsMinimalKey(k, remaining, s.nodes);
      SelectStep(s, remaining, out, chosen, k);
      out := out + [NodeToRon(s.nodes[k])];
      chosen := chosen + [k];
      remaining := remaining - {k};
    }
    SelectDone(s, out, chosen);
    r := RatScriptRon(s.id, s.entry, out);
  }

  /** Every node of a well-formed script is rebuilt from its own record. */
  lemma ListedNodesRebuilt(s: RatScript, ron: RatScriptRon, m: map<string, RatNode>)
    requires KeyedById(s.nodes)
    requires forall k :: k in s.nodes ==> NodeToRon(s.nodes[k]) in ron.nodes
    requires forall i :: 0 <= i < |ron.nodes| ==> ron.nodes[i].id in m && m[ron.nodes[i].id] == NodeFromRon(ron.nodes[i])
    ensures forall k :: k in s.nodes ==> k in m && m[k] == s.nodes[k]
  {
    forall k | k in s.nodes ensures k in m && m[k] == s.nodes[k] {
      var i :| 0 <= i < |ron.nodes| && ron.nodes[i] == NodeToRon(s.nodes[k]);
      NodeRonRoundTrip(s.nodes[k]);
    }
  }

  /** Every record of a listing of a well-formed script carries the id of one of its nodes. */
  lemma ListedIdsAreKeys(s: RatScript, ron: RatScriptRon)
    requires KeyedById(s.nodes)
    requires forall i :: 0 <= i < |ron.nodes| ==> exists k :: k in s.nodes && ron.nodes[i] == NodeToRon(s.nodes[k])
    ensures IdsOfRon(ron.nodes) <= s.nodes.Keys
  {
    forall x | x in IdsOfRon(ron.nodes) ensures x in s.nodes {
      var i :| 0 <= i < |ron.nodes| && ron.nodes[i].id == x;
      var k :| k in s.nodes && ron.nodes[i] == NodeToRon(s.nodes[k]);
    }
  }

  lemma AscendingDistinct(ns: seq<RatNodeRon>)
    requires StrictlyAscending(ns)
    ensures DistinctRonIds(ns)
  {
    forall i, j | 0 <= i < j < |ns| ensures ns[i].id != ns[j].id {
      LexLessIrreflexive(ns[i].id);
    }
  }

  /** The insertion loop run over a listing with distinct ids rebuilds the script's node map. */
  lemma ListingInsertsNodes(s: RatScript, ron: RatScriptRon)
    requires KeyedById(s.nodes) && ListsNodes(s, ron.nodes) && DistinctRonIds(ron.nodes)
    ensures InsertRonNodes(ron.nodes, map[]) == Ok(s.nodes)
  {
    InsertRonNodesOk(ron.nodes, map[]);
    InsertRonNodesContents(ron.nodes, map[]);
    var m := InsertRonNodes(ron.nodes, map[]).value;
    ListedNodesRebuilt(s, ron, m);
    ListedIdsAreKeys(s, ron);
    assert m == s.nodes;
  }

  /**
   * Round trip: a well-formed script written out as `ToRon` writes it reads
   * back as the same script.
   */
  lemma ToRonThenFromRon(s: RatScript, ron: RatScriptRon)
    requires WellFormed(s)
    requires ron.id == s.id && ron.entry == s.entry
    requires ListsNodes(s, ron.nodes) && StrictlyAscending(ron.nodes)
    ensures FromRon(ron) == Ok(s)
  {
    AscendingDistinct(ron.nodes);
    ListingInsertsNodes(s, ron);
  }

  datatype RatStart = RatStart(scriptId: string, target: Option<nat>, headless: bool)
  {
    /** `RatStart::target`. */
    function WithTarget(entity: nat): (r: RatStart)
      ensures r.target == Some(entity) && r.scriptId == scriptId && r.headless == headless
    {
      this.(target := Some(entity))
    }
  }

  /** `RatStart::new`: no target entity, shown on screen. */
  function NewStart(scriptId: string): (r: RatStart)
    ensures r.scriptId == scriptId && r.target.None? && !r.headless
  {
    RatStart(scriptId, None, false)
  }

  datatype RatHookTriggered = RatHookTriggered(
    hook: string,
    scriptId: string,
    nodeId: string,
    optionId: Option<string>,
    target: Option<nat>)

  datatype RatCommand =
    | Start(start: RatStart)
    | Advance
    | Choose(index: nat)
    | Close
    | Register(script: RatScript)
}
