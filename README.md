# Feverish, modelled in Dafny

A model of the rule-bearing core of *Feverish*, a first-person Bevy game.
Each part of the game is a Dafny module, and the properties its code
promises are proved about the module:

- **Ratspinner dialogue engine.**
  - `rat_types.dfy` holds scripts, nodes, options and their builders, and the checked conversion to and from the RON record.
  - `rat_parse.dfy` is the line-oriented `.rat` parser.
  - `rat_runtime.dfy` is the dialogue state machine over script, node and overlay. It covers start, advance, choose, the inventory picker overlay and close, and the messages each of these sends.
- **Discovery database and menus** (`ui_components.dfy`, `ui_systems.dfy`).
  - Discovery entries and the commands and requests built from them.
  - Two ordered entry lists with a revision counter that wraps at 2^64.
  - The confirm popup flow, the repair of the gallery selection, the choice of the scroll target, the scroll step and the menu ticker.
- **UI state machines.**
  - `inventory_ui.dfy`: keyboard navigation and drag and drop.
  - `dialogue_ui.dfy`: the typewriter, the option carousel and the prompt.
  - `ending.dfy`: the ending catalog, the reveal and hold-to-continue.
  - `hint.dfy`: the hint banner and its fade.
  - `theme.dfy`: the bevelled border.
- **Settings and the PSX look.**
  - `settings.dfy`: stepping and clamping of the nine settings.
  - `psx.dfy`: the effect flag word, the normalisation of material parameters and the integer-scaled low-resolution canvas.
- **Gameplay rules.**
  - `door.dfy`: door use, the hook counter and the end door.
  - `footsteps.dfy`: surfaces, stride and the step loop.
  - `item_slug.dfy`: item ids and the default metadata path.
- **Voice front end.**
  - `phonetic.dfy`: the English and Portuguese text-to-phoneme mappers.
  - `synth.dfy`: the non-DSP utilities of the synthesiser, namely presets, durations, lookahead, buffer helpers, peak clamp and the comb ring buffer.

Code that updates state in place keeps that form in the model:

- Resources and components are classes whose methods state the whole new state, except where a line under "Left out" names the method.
- Loops are `while`/`for` loops with invariants, and each is proved equal to a specification function.
- Pure code is functions and lemmas.

To check the proofs, run `dafny verify *.dfy` with Dafny 4.11 in this directory; no extra options are needed.

Supporting modules:

- `wrappers.dfy`: `Option` and `Result`.
- `numeric.dfy`: clamp, min/max and signum.
- `text.dfy`: trim, split, find and ASCII lower-casing, with the meaning of Rust's standard library.

Where the sources disagree with each other (version skew, see below), the code of each file is followed.

## Model

| member | source | states |
|---|---|---|
| RatTypes.NewOption | src/ratspinner/types.rs:253-260 | a fresh option carries the given text, no id, no target and no hooks |
| RatTypes.RatOption.WithId | src/ratspinner/types.rs:262-265 | sets the option id and leaves text, target and hooks as they were |
| RatTypes.RatOption.Goto | src/ratspinner/types.rs:267-270 | sets the option target and leaves id, text and hooks as they were |
| RatTypes.RatOption.WithHook | src/ratspinner/types.rs:272-275 | appends one hook at the end of the option's hook list and changes nothing else |
| RatTypes.NewNode | src/ratspinner/types.rs:178-189 | a fresh node has speaker "unknown", empty text, the default portrait, the neutral voice, no next node, no hooks and no options |
| RatTypes.RatNode.WithSpeaker | src/ratspinner/types.rs:191-194 | replaces only the speaker |
| RatTypes.RatNode.WithText | src/ratspinner/types.rs:196-199 | replaces only the text |
| RatTypes.RatNode.WithPortrait | src/ratspinner/types.rs:201-204 | replaces only the portrait path |
| RatTypes.RatNode.WithVoice | src/ratspinner/types.rs:206-209 | replaces only the voice preset |
| RatTypes.RatNode.WithNext | src/ratspinner/types.rs:211-214 | sets only the next node |
| RatTypes.RatNode.WithHook | src/ratspinner/types.rs:216-219 | appends one hook at the end and keeps the options and id |
| RatTypes.RatNode.WithOption | src/ratspinner/types.rs:221-224 | appends one option at the end and keeps the hooks and id |
| RatTypes.NodeHooksInCallOrder | src/ratspinner/types.rs:216-219 | chaining hook calls yields the hooks in call order after the existing ones, and leaves the options alone |
| RatTypes.Single | src/ratspinner/types.rs:106-123 | a one-node script: entry "start", exactly the key "start", that node built with the speaker and text, and the script is well formed |
| RatTypes.NewScriptBuilder | src/ratspinner/types.rs:133-139 | a fresh script builder has entry "start" and no nodes |
| RatTypes.RatScriptBuilder.WithEntry | src/ratspinner/types.rs:141-144 | replaces only the entry |
| RatTypes.RatScriptBuilder.WithNode | src/ratspinner/types.rs:146-149 | appends one node builder and keeps id and entry |
| RatTypes.NodesMap | src/ratspinner/types.rs:151-163 | the node map built from a node list has exactly the listed ids as keys and stores every node under its own id |
| RatTypes.NodesMapLastWins | src/ratspinner/types.rs:151-163 | when ids repeat, the node that comes last in the list is the one kept |
| RatTypes.RatScriptBuilder.Build | src/ratspinner/types.rs:151-163 | the loop that inserts node by node produces the script whose map is NodesMap of the builder's nodes, with id and entry unchanged |
| RatTypes.VoiceConversionsInverse | src/ratspinner/types.rs:319-348 | the two voice conversions are mutual inverses, and the serialized default voice is the neutral preset |
| RatTypes.NodeToRon | src/ratspinner/types.rs:350-383 | the serialized node keeps the id and the number of options |
| RatTypes.NodeFromRon | src/ratspinner/types.rs:384-429 | the deserialized node keeps the id and the number of options |
| RatTypes.NodeRonRoundTrip | src/ratspinner/types.rs:350-429 | serializing a node and reading it back gives the same node |
| RatTypes.InsertRonNodesOk | src/ratspinner/types.rs:387-404 | inserting serialized nodes succeeds if and only if their ids are pairwise distinct and none is already present |
| RatTypes.InsertRonNodesKeeps | src/ratspinner/types.rs:387-404 | on success the key set grows by exactly the listed ids and earlier entries are kept |
| RatTypes.InsertRonNodesStores | src/ratspinner/types.rs:387-404 | on success every listed node is stored, converted, under its own id |
| RatTypes.InsertRonNodesContents | src/ratspinner/types.rs:387-404 | the previous two facts together |
| RatTypes.InsertRonNodesErr | src/ratspinner/types.rs:389-391 | a failure names one of the listed ids in the "duplicate node id" message |
| RatTypes.FromRonAccepts | src/ratspinner/types.rs:384-429 | reading a serialized script succeeds if and only if ids are distinct and the entry is among them; the result is then well formed with the serialized id and entry |
| RatTypes.FromRonRejectsDuplicates | src/ratspinner/types.rs:389-391 | two nodes with the same id make reading fail with a duplicate-id message |
| RatTypes.FromRonRejectsMissingEntry | src/ratspinner/types.rs:414-419 | distinct ids without the entry fail with the "entry node … not found in script …" message |
| RatTypes.TryFromRon | src/ratspinner/types.rs:384-429 | the loop-based conversion agrees with the specification FromRon on every input, errors included |
| RatTypes.ToRon | src/ratspinner/types.rs:350-383 | serializing lists every node exactly once, each converted, in strictly ascending id order, and keeps id and entry |
| RatTypes.AscendingDistinct | src/ratspinner/types.rs:352-353 | a list sorted strictly by id has no duplicate ids |
| RatTypes.ListingInsertsNodes | src/ratspinner/types.rs:350-404 | inserting a listing of a script's nodes rebuilds exactly that script's node map |
| RatTypes.ToRonThenFromRon | src/ratspinner/types.rs:350-429 | a well-formed script written out in sorted order reads back as the same script |
| RatTypes.NewStart | src/ratspinner/types.rs:24-29 | a start request names the script, has no target and is not headless |
| RatTypes.RatStart.WithTarget | src/ratspinner/types.rs:31-34 | sets the target entity and keeps script id and headless flag |
| RatParse.HookPiecesClean | src/ratspinner/runtime.rs:433-440 | every hook taken from a comma list is trimmed and non-empty |
| RatParse.HookPiecesKeepsCleanPieces | src/ratspinner/runtime.rs:433-440 | pieces that are already clean hook names are kept as they are, in order |
| RatParse.HookListRoundTrip | src/ratspinner/runtime.rs:433-440 | joining clean, comma-free hook names with commas and extending from that text gives back exactly those hooks |
| RatParse.ExtendHooks | src/ratspinner/runtime.rs:433-440 | the loop appends, after the existing hooks, the clean comma-separated pieces of the value in order |
| RatParse.ApplyAnnotation | src/ratspinner/runtime.rs:413-431 | an annotation never changes text or target; "hook:" appends the clean pieces and keeps the id; the id changes only to the trimmed, non-empty value of an "id:" annotation |
| RatParse.NextAnnotation | src/ratspinner/runtime.rs:417-429 | the scan always consumes input, and stops when no '[' is left |
| RatParse.UnterminatedAnnotationStops | src/ratspinner/runtime.rs:419-421 | a '[' without a later ']' ends the scan |
| RatParse.AnnotationExtendsTransitive | src/ratspinner/runtime.rs:413-431 | "only adds hooks and maybe sets a non-empty id" composes over several annotations |
| RatParse.ApplyAnnotationExtends | src/ratspinner/runtime.rs:422-428 | one annotation keeps text and target, only appends hooks, and sets only non-empty ids |
| RatParse.AnnotateExtends | src/ratspinner/runtime.rs:413-431 | the whole annotation pass keeps text and target and only appends hooks; text without '[' leaves the option unchanged |
| RatParse.ParseOptionAnnotations | src/ratspinner/runtime.rs:413-431 | the loop computes exactly the annotation pass over the trimmed text |
| RatParse.SplitTargetAndAnnotations | src/ratspinner/runtime.rs:405-411 | without '[' the whole trimmed text is the target; otherwise the target holds no '[' and the rest starts with '[' |
| RatParse.OptionLineRules | src/ratspinner/runtime.rs:367-403 | an empty option text is the line-numbered error and the only one; on success the text is non-empty, the target is the non-empty part after "->" or none, an id is never empty and hooks are clean |
| RatParse.ParseOptionLine | src/ratspinner/runtime.rs:367-403 | the method agrees with the option-line specification, error included |
| RatParse.MetadataCommentRules | src/ratspinner/runtime.rs:350-365 | a "script:" comment replaces the script id, an "entry:" comment replaces the entry, each only with a non-empty value, and one comment never changes both |
| RatParse.Flush | src/ratspinner/runtime.rs:442-458 | flushing fails exactly when the open node's id is already stored, with the duplicate-id message; otherwise it adds that id and keeps every stored node |
| RatParse.ApplyField | src/ratspinner/runtime.rs:308-321 | a "key: value" line never changes the node's id, options or next node |
| RatParse.IgnoredLines | src/ratspinner/runtime.rs:265-267 | blank lines, and non-header lines before the first header, leave the parser state unchanged |
| RatParse.CommentLineRule | src/ratspinner/runtime.rs:269-272 | a comment line never fails and changes only script id and entry |
| RatParse.HeaderLineRule | src/ratspinner/runtime.rs:274-288 | a header flushes first and passes on a duplicate error; an empty id is the line-numbered error; otherwise a fresh node with that id is opened |
| RatParse.StepLineConsistent | src/ratspinner/runtime.rs:263-322 | one line keeps the parser invariant: nodes keyed by id, and the first header id recorded |
| RatParse.RunFromConsistent | src/ratspinner/runtime.rs:263-322 | the invariant holds after any number of lines |
| RatParse.FinishRules | src/ratspinner/runtime.rs:324-347 | finishing fails only with "no nodes" or a duplicate id; on success the script is well formed and non-empty, and the entry falls back to the first header when it is missing |
| RatParse.ParseRatWellFormed | src/ratspinner/runtime.rs:253-348 | every parsed script is well formed (entry present, nodes keyed by id) and has nodes |
| RatParse.ParseRatScript | src/ratspinner/runtime.rs:253-348 | the line-by-line loop agrees with the parser specification on every input |
| RatDialogue.CurrentNode | src/ratspinner/runtime.rs:583-595 | the current node exists exactly when the active script is registered and has the active node id |
| RatDialogue.HookMessages | src/ratspinner/runtime.rs:806-814 | one hook message per hook, in order, each naming the script, node, option and target of the active dialogue |
| RatDialogue.OptionsForNodeRules | src/ratspinner/runtime.rs:897-921 | the dialogue box lists every option's text, enabled, then a "Show item..." entry that is enabled exactly when there are items |
| RatDialogue.PickerRequestRules | src/ratspinner/runtime.rs:923-969 | the picker offers one option per item with its id, preview and shared-with-speaker mark, then "back"; its preview is the first item's, and it reveals at once |
| RatDialogue.CloseRules | src/ratspinner/runtime.rs:1013-1026 | closing ends the dialogue; the box close and the voice stop are sent only when the dialogue was not headless |
| RatDialogue.StartRules | src/ratspinner/runtime.rs:527-574 | an unknown script changes nothing; a known one stands on its entry node with no overlay, records an "Inspected" interaction and fires the entry node's hooks |
| RatDialogue.AdvanceRules | src/ratspinner/runtime.rs:576-632 | on a node with options advancing is choosing option 0; otherwise it moves to the next node, or closes when there is none |
| RatDialogue.InactiveIgnoresInput | src/ratspinner/runtime.rs:576-595 | without an active dialogue, advancing and choosing change nothing and send nothing |
| RatDialogue.ChooseShowItemRules | src/ratspinner/runtime.rs:761-780 | choosing "Show item..." does nothing without items, and otherwise opens the inventory picker without firing hooks |
| RatDialogue.PickerValidChoice | src/ratspinner/runtime.rs:657-741 | picking an item fires "dialogue.show_item" first, then jumps to the script's "response_<id>" node if there is one, or else shows the item response and marks the item seen |
| RatDialogue.OverlayFallsBack | src/ratspinner/runtime.rs:728-757 | an out-of-range pick in the picker, or any choice in the item response, clears the overlay and shows the node again |
| RatDialogue.OutOfRangeChoosesFirst | src/ratspinner/runtime.rs:796-800 | an index past the options and the "Show item..." entry chooses the first option |
| RatDialogue.NormalChoiceRules | src/ratspinner/runtime.rs:796-834 | a choice fires all the option's hooks first; then the option's target, else the node's, becomes current, and with neither the dialogue closes |
| RatDialogue.ChoiceWithoutOptionsAdvances | src/ratspinner/runtime.rs:782-794 | on a node without options any choice other than "Show item..." advances |
| RatDialogue.HeadlessIsSilent | src/ratspinner/runtime.rs:1028-1031 | a headless dialogue never sends a dialogue box command or a voice message when shown, advanced or chosen |
| RatDialogue.HeadlessChooseIsSilent | src/ratspinner/runtime.rs:634-835 | choosing in a headless dialogue, on every path, sends no box command and no voice message |
| RatDialogue.HeadlessStartIsSilent | src/ratspinner/runtime.rs:527-574 | a headless start shows and speaks nothing |
| RatDialogue.ShowKeepsConsistent | src/ratspinner/runtime.rs:837-895 | showing a node keeps the dialogue flag equal to "a dialogue is active" |
| RatDialogue.HandleKeepsConsistent | src/ratspinner/runtime.rs:460-525 | every command keeps the dialogue flag equal to "a dialogue is active" |
| RatDialogue.HandleAllKeepsConsistent | src/ratspinner/runtime.rs:471-524 | so does any sequence of commands |
| RatDialogue.RatRuntime.constructor | src/ratspinner/runtime.rs:114-128 | a fresh runtime has an empty library and no dialogue |
| RatDialogue.RatRuntime.CloseDialogue | src/ratspinner/runtime.rs:1013-1026 | the method's new state and messages are those of the close specification |
| RatDialogue.RatRuntime.ShowCurrentNode | src/ratspinner/runtime.rs:837-895 | the method's new state and messages are those of the show specification |
| RatDialogue.RatRuntime.StartDialogue | src/ratspinner/runtime.rs:527-574 | the method's new state and messages are those of the start specification |
| RatDialogue.RatRuntime.AdvancePastNode | src/ratspinner/runtime.rs:621-631 | moving past a node without options follows its next node or closes, as specified |
| RatDialogue.RatRuntime.AdvanceDialogue | src/ratspinner/runtime.rs:576-632 | the method's new state and messages are those of the advance specification |
| RatDialogue.RatRuntime.ShowItem | src/ratspinner/runtime.rs:659-741 | showing an item from the picker behaves as specified |
| RatDialogue.RatRuntime.ChooseOption | src/ratspinner/runtime.rs:634-835 | the method's new state and messages are those of the choice specification |
| RatDialogue.RatRuntime.Handle | src/ratspinner/runtime.rs:471-524 | one command (register, start, advance, choose, close) updates library and session as specified |
| RatDialogue.RatRuntime.HandleAll | src/ratspinner/runtime.rs:460-525 | the loop over queued commands equals handling them one after another, messages in order |
| RatDialogue.RatRuntime.SeedBuiltinScript | src/ratspinner/runtime.rs:163-212 | an existing "npc.default" is kept; otherwise only that script is added, well formed, entry "greeting", nodes greeting/identity/place, three greeting options |
| RatDialogue.BuiltinScript | src/ratspinner/runtime.rs:168-209 | the built-in script is "npc.default", well formed, entered at "greeting", with exactly the nodes greeting, identity and place |
| Synth.Params | src/voice/synth.rs:47-86 | every preset is an audible English voice with positive pitch and speed and mix levels in (0, 1); the neutral NPC, and only it, uses the default English parameters |
| Synth.PresetFromStr | src/voice/synth.rs:88-100 | parsing a preset name never fails |
| Synth.KeyIsNormal | src/voice/synth.rs:91-98 | a name already trimmed and lower-case selects its table entry as written |
| Synth.PresetNameRoundTrip | src/voice/synth.rs:88-100 | parsing each preset's snake-case name gives that preset back |
| Synth.PresetFromStrNormalises | src/voice/synth.rs:92 | upper-casing and surrounding whitespace never change which preset a name selects |
| Synth.TrimLower | src/voice/synth.rs:92 | trimming and ASCII lower-casing commute |
| Synth.ConsonantDuration | src/voice/synth.rs:496-510 | a consonant lasts between 0.020 and 0.070 times the multiplier, and a positive multiplier gives a positive duration |
| Synth.ConsonantDurationExtremes | src/voice/synth.rs:496-510 | voiced plosives are the shortest consonants and trills the longest, for any non-negative multiplier |
| Synth.LookaheadFormants | src/voice/synth.rs:485-494 | the result is the formants of the first vowel with formants among the next three phonemes, and None exactly when there is none |
| Synth.SilenceLength | src/voice/synth.rs:512-515 | at least one sample, and otherwise the whole-number part of seconds times the sample rate |
| Synth.PushSilence | src/voice/synth.rs:512-515 | appends exactly that many zero samples and keeps what was there |
| Synth.Overlap | src/voice/synth.rs:555 | the overlap fits in the buffer, the segment and the fade, and is positive when all three are |
| Synth.AppendWithCrossfade | src/voice/synth.rs:545-563 | an empty segment changes nothing; an empty buffer or zero fade appends plainly; otherwise the length grows by the segment minus the overlap, samples before the overlap are untouched, overlap samples are the blend and the rest of the segment follows |
| Synth.ClampPeak | src/voice/synth.rs:603-608 | every sample ends in [-lim, lim] with lim the limit clamped to [0, 1], and is the old sample clamped |
| Synth.Comb.constructor | src/voice/synth.rs:795-801 | the ring buffer has max(size, 1) zero cells, index 0 and feedback clamped to [0, 0.98] |
| Synth.Comb.Process | src/voice/synth.rs:803-811 | returns the current cell, stores input plus feedback times that value there, touches no other cell and advances the index modulo the length, so the index stays in range |
| Phonetic.EnglishVowelLetter | src/voice/phonetic.rs:103-130 | a single letter has vowel formants exactly when it is a basic vowel |
| Phonetic.PortugueseVowelFormants | src/voice/phonetic.rs:397-438 | a Portuguese letter has vowel formants exactly when it is a Portuguese vowel, accented ones included |
| Phonetic.EnglishStressVowelIndex | src/voice/phonetic.rs:164-177 | 0 for at most one nucleus or when the last nucleus starts within the first four letters, otherwise the penultimate nucleus; always a valid index of a non-empty list |
| Phonetic.PortugueseStressedSyllable | src/voice/phonetic.rs:466-472 | syllable 0 for at most one syllable, otherwise the penultimate one; always in range |
| Phonetic.CountWords | src/voice/phonetic.rs:187-202 | the loop counts the maximal runs of word characters, and gives at least 1 |
| Phonetic.WordEnd | src/voice/phonetic.rs:228-232 | a word runs over word characters only and stops at the end or at the first other character |
| Phonetic.WordEndUnique | src/voice/phonetic.rs:228-232 | any position with those two properties is the word end |
| Phonetic.FindWordEnd | src/voice/phonetic.rs:228-232 | the scanning loop finds that word end |
| Phonetic.NucleiExact | src/voice/phonetic.rs:242-255 | the nuclei are exactly the vowels not preceded by a vowel, listed in increasing order |
| Phonetic.VowelNuclei | src/voice/phonetic.rs:242-255 | the loop collects exactly those nuclei |
| Phonetic.EnglishTokenAt | src/voice/phonetic.rs:263-379 | every token read inside a word is one or two letters long and stays inside the word |
| Phonetic.EnglishDigraphPriority | src/voice/phonetic.rs:263-320 | a two-letter vowel is tried first, then a two-letter consonant, and only then a single letter |
| Phonetic.EnglishSoftConsonants | src/voice/phonetic.rs:343-356 | 'c' before e/i/y is an unvoiced fricative and 'g' before e/i/y a voiced fricative |
| Phonetic.EnglishLettersKnown | src/voice/phonetic.rs:144-162 | every lower-case ASCII letter maps to a vowel or a consonant; only other letters fall back to the short pause |
| Phonetic.EnglishStepShape | src/voice/phonetic.rs:263-379 | each English word phoneme points into the word at its source letters; vowels last 1.25/0.95 (digraph) or 1.15/0.90 (single) when stressed/unstressed, consonants 0.55 or 0.5, unknown letters give a 0.12 pause |
| Phonetic.EnglishScanShape | src/voice/phonetic.rs:263-379 | the whole word scan yields only such phonemes |
| Phonetic.EnglishScanStress | src/voice/phonetic.rs:256-281 | at most one vowel of a word is stressed, and none once the stressed nucleus is passed |
| Phonetic.ScanEnglishWord | src/voice/phonetic.rs:258-379 | the word loop computes the word scan specification |
| Phonetic.SpeakEnglishWord | src/voice/phonetic.rs:233-379 | lower-casing, nuclei, stress and scan of one word agree with the word specification |
| Phonetic.EnglishWordCount | src/voice/phonetic.rs:187-202 | the prosody word count is at least 1 |
| Phonetic.EnglishWordFacts | src/voice/phonetic.rs:233-379 | a word's phonemes are well formed, hold no breath and no 0.25 gap, and point into the word |
| Phonetic.EnglishMarkProperties | src/voice/phonetic.rs:207-225 | whitespace, pause marks and sentence ends produce well-formed phonemes at their own index, one breath per sentence end and nothing that counts as a word gap |
| Phonetic.EnglishLineShape | src/voice/phonetic.rs:179-395 | over a whole line every phoneme is well formed and points into the line, there is one breath per sentence-ending mark and one 0.25 gap per word |
| Phonetic.SpeakEnglish | src/voice/phonetic.rs:204-388 | the character loop agrees with the line specification |
| Phonetic.TextToPhonemesEnglish | src/voice/phonetic.rs:179-395 | the English mapper computes the line specification |
| Phonetic.PortugueseTokenAt | src/voice/phonetic.rs:552-664 | every Portuguese token is one or two letters long, stays in the word, and vowels are single letters |
| Phonetic.PortugueseTrillRule | src/voice/phonetic.rs:626-629 | an 'r' at the start of a word or after a consonant is a trill |
| Phonetic.PortugueseIntervocalicS | src/voice/phonetic.rs:630-635 | an 's' between two vowels is a voiced fricative |
| Phonetic.PortugueseSoftC | src/voice/phonetic.rs:617-625 | a 'c' before e or i is an unvoiced fricative |
| Phonetic.PortugueseStepShape | src/voice/phonetic.rs:552-664 | each Portuguese word phoneme is well formed and points into the word; vowels last 1.2 stressed or 0.9, consonants 0.6 or 0.5, unknown letters give a 0.15 pause |
| Phonetic.PortugueseScanShape | src/voice/phonetic.rs:552-664 | the whole word scan yields only such phonemes |
| Phonetic.ScanPortugueseWord | src/voice/phonetic.rs:548-664 | the word loop computes the word scan specification |
| Phonetic.CountSyllables | src/voice/phonetic.rs:535-545 | the syllable count is the number of vowel clusters, at least 1 |
| Phonetic.SpeakPortugueseWord | src/voice/phonetic.rs:524-667 | syllable count, stress and scan of one word agree with the word specification |
| Phonetic.PortugueseWordCount | src/voice/phonetic.rs:485-499 | the prosody word count is at least 1 |
| Phonetic.PortugueseWordFacts | src/voice/phonetic.rs:524-667 | a Portuguese word's phonemes are well formed, hold no breath and no 0.25 gap, and point into the word |
| Phonetic.PortugueseMarkProperties | src/voice/phonetic.rs:505-522 | marks produce well-formed phonemes at their own index and one breath per sentence end |
| Phonetic.PortugueseLineShape | src/voice/phonetic.rs:474-676 | over a whole line every phoneme is well formed and points into the line, one breath per sentence end and one 0.25 gap per word |
| Phonetic.SpeakPortuguese | src/voice/phonetic.rs:502-670 | the character loop agrees with the line specification |
| Phonetic.TextToPhonemesPortuguese | src/voice/phonetic.rs:474-676 | the Portuguese mapper computes the line specification |
| Phonetic.TextToPhonemes | src/voice/phonetic.rs:80-89 | the mapper dispatches on the language to the English or Portuguese specification |
| UiSystems.Bump | src/ui/systems.rs:82 | the revision advances by one with 64-bit wrap-around, stays below 2^64 and always changes |
| UiSystems.FindById | src/ui/systems.rs:77 | the first entry with the id, and None exactly when no entry has it |
| UiSystems.UpsertReplacesInPlace | src/ui/systems.rs:75-83 | an entry with the same id is replaced at its position and everything else kept; otherwise the entry is appended; either way the entry is then found under its id |
| UiSystems.RemoveAllSpec | src/ui/systems.rs:85-94 | no entry with the id is left and every remaining entry was there before; the length is unchanged exactly when the id was absent, and then the list is unchanged |
| UiSystems.RemoveAllKeepsOthers | src/ui/systems.rs:88 | no entry with another id is lost |
| UiSystems.RemoveAllIdempotent | src/ui/systems.rs:88 | removing the same id twice is removing it once |
| UiSystems.SetSeenSpec | src/ui/systems.rs:96-105 | only the first entry with the id gets the new mark; the list is unchanged exactly when the id is absent or already has that mark |
| UiSystems.UiDiscoveryDb.constructor | src/ui/systems.rs:59-72 | the default database has no items, Mr. D. as the only person (seen) and revision 1 |
| UiSystems.UiDiscoveryDb.SetEntries | src/ui/systems.rs:123-128 | replaces the list of one kind and leaves the other list and the revision alone |
| UiSystems.UiDiscoveryDb.Upsert | src/ui/systems.rs:75-83 | the kind's list becomes the upserted list, the other kind is untouched, the revision is bumped |
| UiSystems.UiDiscoveryDb.Remove | src/ui/systems.rs:85-94 | the result is true exactly when an entry had the id; the revision is bumped exactly then; the other kind is untouched |
| UiSystems.UiDiscoveryDb.SetSeen | src/ui/systems.rs:96-105 | the result is true exactly when an entry has the id; the revision is bumped only when the mark actually changed; the other kind is untouched |
| UiSystems.UiDiscoveryDb.ClearKind | src/ui/systems.rs:107-110 | empties the kind's list, always bumps the revision, leaves the other kind alone |
| UiSystems.PressConfirm | src/ui/systems.rs:817-851 | only the pressing owner's popup changes: the two asking buttons set their pending action, proceed and cancel clear it |
| UiSystems.ConfirmedAction | src/ui/systems.rs:836-845 | proceeding sends the action that was pending, and nothing when none was |
| UiSystems.PressConfirmButton | src/ui/systems.rs:817-851 | every confirm state is updated by the press; proceed sends the action taken from the owner's last popup, other buttons send nothing |
| UiSystems.ConfirmFlow | src/ui/systems.rs:817-851 | after a press the popup is pending exactly for the two asking buttons; asking then proceeding leaves nothing pending |
| UiSystems.AskThenConfirm | src/ui/systems.rs:817-845 | asking and then proceeding sends exactly the asked-for action |
| UiSystems.NormalizeSelection | src/ui/systems.rs:870-876 | None exactly for an empty list, otherwise an index in range; a valid selection is kept and a missing or stale one becomes the first entry |
| UiSystems.EnsureSelection | src/ui/systems.rs:866-889 | only the page shown is repaired: items on the items page, people on the phone page |
| UiSystems.EnsureSelectionIdempotent | src/ui/systems.rs:866-889 | repairing twice changes nothing more |
| UiSystems.EnsureGallerySelectionExists | src/ui/systems.rs:866-889 | every main menu state is repaired against the current list lengths |
| UiSystems.BestOf | src/ui/systems.rs:556-573 | the pick is an eligible candidate, and there is none exactly when no candidate is eligible |
| UiSystems.PickScrollOwner | src/ui/systems.rs:541-576 | without a cursor there is no scroll owner |
| UiSystems.BestOfIsRankedFirst | src/ui/systems.rs:556-573 | the pick has the highest z (default 0) among eligible candidates, the smallest area among those, and on a full tie is the earliest |
| UiSystems.PickScrollOwnerAtCursor | src/ui/systems.rs:541-576 | the loop with its running best computes that pick |
| UiSystems.ScrollAxisRules | src/ui/systems.rs:596-624 | a delta is used up exactly when the axis scrolls and is not at the edge in that direction; the new position then stays within [0, max]; otherwise the position is unchanged |
| UiSystems.OnUiScroll | src/ui/systems.rs:578-628 | an invisible node changes nothing; otherwise the event stops propagating exactly when both deltas are used up |
| UiSystems.MainMenuTicker.Animate | src/ui/systems.rs:351-384 | paused: only the timer runs down; otherwise the tip scrolls left and, once off screen, the next tip comes cyclically, restarts at the right and pauses; the index stays in range |
| UiSystems.MainMenuTicker.ResetOnScaleChange | src/ui/systems.rs:386-397 | a scale change restarts the ticker at the right without a pause and keeps the tip |
| UiSystems.NextTip | src/ui/systems.rs:375 | the next tip index stays in range and equals (current + 1) mod len |
| UiSystems.CycleFromSplit | src/ui/systems.rs:375 | advancing a then b times is advancing a + b times |
| UiSystems.CycleFromCounts | src/ui/systems.rs:375 | before wrapping, each advance shows the following tip |
| UiSystems.CycleVisitsEveryTip | src/ui/systems.rs:375 | from any tip, every tip comes round within fewer than len advances |
| Settings.AllKeysComplete | src/settings.rs:33-58 | the key list has nine entries, contains every key, and both keys and labels are pairwise distinct |
| Settings.AdjustBySign | src/settings.rs:92-96 | a zero direction changes nothing, and only the sign of the direction matters |
| Settings.AdjustLandsInRange | src/settings.rs:98-126 | after any non-zero step the adjusted field lies in its range: volumes in [0, 1.5], dialogue speed in [0.5, 2], manual scale in [0.6, 2] |
| Settings.AdjustKeepsInRange | src/settings.rs:92-127 | settings within their ranges stay within them after any adjust |
| Settings.SwitchesFlipBack | src/settings.rs:117-125 | the scale mode and cursor motion switches flip on every step, so two steps restore them |
| Settings.AdjustTouchesOnlyItsField | src/settings.rs:98-126 | adjusting one key never changes the field of another |
| Settings.VolumeStepsExactly | src/settings.rs:99-101 | away from the ends a volume step adds exactly 0.05, and a step back undoes it |
| Settings.ValueTextOf | src/settings.rs:129-152 | the scale mode shows "auto"/"manual", cursor motion "on"/"off", and every other key its value as a percentage |
| Settings.GameSettings.constructor | src/settings.rs:75-89 | the default settings are the documented defaults, all within their ranges |
| Settings.GameSettings.AdjustSetting | src/settings.rs:92-127 | the in-place adjust leaves exactly the adjusted values |
| UiComponents.NewEntry | src/ui/components.rs:41-51 | a fresh entry has its id and title, empty subtitle and description, no image or model path, and is unseen |
| UiComponents.DiscoveryEntry.WithSubtitle | src/ui/components.rs:53-56 | sets the subtitle and nothing else |
| UiComponents.DiscoveryEntry.WithDescription | src/ui/components.rs:58-61 | sets the description and nothing else |
| UiComponents.DiscoveryEntry.WithImagePath | src/ui/components.rs:64-67 | sets the image path to the given path and nothing else |
| UiComponents.DiscoveryEntry.WithModelPath | src/ui/components.rs:69-72 | sets the model path to the given path and nothing else |
| UiComponents.DiscoveryEntry.WithSeen | src/ui/components.rs:74-77 | sets the seen mark and nothing else |
| UiComponents.BuildersCommute | src/ui/components.rs:53-77 | builders for different fields can be applied in either order, and none changes the id |
| UiComponents.BuildersLastWins | src/ui/components.rs:53-77 | applying the same builder twice keeps only the last value |
| UiComponents.PreviewOf | src/ratspinner/runtime.rs:936-944 | a dialogue preview shows exactly the entry's title, subtitle, description, image and model |
| Theme.Border | src/ui/theme.rs:22-34 | raised borders are light at the top and left and dark at the right and bottom, sunken ones the reverse; top equals left and right equals bottom |
| Theme.SunkenIsRaisedSwapped | src/ui/theme.rs:22-34 | the sunken border is the raised one with its two colours swapped, and differs from it |
| InventoryUi.DropZoneIsBorderStrip | src/ui/inventory.rs:1231-1237 | the cursor is in the drop zone exactly when it lies within the margin of some window edge, i.e. outside the inner rectangle |
| InventoryUi.ClampSelection | src/ui/inventory.rs:180 | with items the selection is a valid slot, and a selection already on a slot is kept |
| InventoryUi.NavigateRules | src/ui/inventory.rs:183-208 | after the arrow keys the selection is still a slot; left/right move by one and up/down by a row of three only while there is room (down clamps to the last slot); no arrow keys means no move; any move is reported as a change |
| InventoryUi.ShortcutRules | src/ui/inventory.rs:180-254 | with items and no escape: the selection ends on a slot; Q/Delete drops the selected item and reopens; R moves it one slot back and F one slot on, the selection following it; a reorder never targets the slot it came from |
| InventoryUi.ShortcutGuards | src/ui/inventory.rs:162-179 | a closed inventory ignores all keys; escape only closes; an empty item list ignores the keys |
| InventoryUi.ReleaseRules | src/ui/inventory.rs:359-400 | a drag released over the drop zone drops the dragged item; released over another slot it moves the item there and selects that slot; released over its own slot it marks it seen; a click without a drag marks the item seen and reopens; a move never targets a missing slot or the original |
| InventoryUi.UiInventoryRuntime.constructor | src/ui/inventory.rs:20-40 | a fresh runtime has no screen, selection 0, revision 0, no preview and no drag |
| InventoryUi.UiInventoryRuntime.Close | src/ui/inventory.rs:790-833 | the screen, the preview handles and the drag state are cleared; the selection and the last revision are kept |
| InventoryUi.UiInventoryRuntime.Open | src/ui/inventory.rs:835-856 | the screen is rebuilt at the current revision with no drag, the selection clamped to the items, and an unseen selected item is marked seen |
| InventoryUi.UiInventoryRuntime.RefreshRequested | src/ui/inventory.rs:257-268 | a rebuild is asked for exactly when the screen is open and the database revision differs from the one it was built at |
| InventoryUi.UiInventoryRuntime.HandleShortcuts | src/ui/inventory.rs:162-255 | the new selection and the messages sent are those of the shortcut rules applied to the old selection; nothing else changes |
| InventoryUi.UiInventoryRuntime.PressSlot | src/ui/inventory.rs:314-321 | with the screen open, pressing on a hovered slot selects it and starts a drag from it at the cursor; with it closed nothing changes (the early return at line 288) |
| InventoryUi.UiInventoryRuntime.HoldDrag | src/ui/inventory.rs:341-357 | without a pressed slot nothing changes; a drag ghost can only appear on an open screen with a press position and a cursor; once there is a ghost the hovered slot and the drop zone flag follow the cursor; the origin, the press position and the selection are kept |
| InventoryUi.UiInventoryRuntime.ReleaseMouse | src/ui/inventory.rs:359-406 | with the screen open, the selection and messages are those of the release rules for the drag in progress, and the drag state is then cleared; with it closed nothing changes (the early return at line 288) |
| InventoryUi.MoveSelection | src/ui/inventory.rs:181-208 | the loop over the arrow keys computes the navigation function and reports whether it moved |
| InventoryUi.DropOrReorder | src/ui/inventory.rs:210-254 | the drop, back and forward keys in that priority, with the selection following a reorder and stepping back after dropping the last slot |
| DialogueUi.CharInterval | src/ui/dialogue.rs:796-799 | the delay between revealed characters always lies between 0.008 s and 0.070 s, whatever the requested duration, length or speed setting |
| DialogueUi.CharIntervalShrinksWithLength | src/ui/dialogue.rs:796-799 | a longer line never reveals more slowly per character than a shorter one with the same duration and speed |
| DialogueUi.PauseCount | src/ui/dialogue.rs:459-461 | a stretch of text never holds more pause marks than characters |
| DialogueUi.PauseCountMeaning | src/ui/dialogue.rs:459-461 | the count is 0 exactly when no character is a pause mark, and equals the length exactly when every character is one |
| DialogueUi.Typewriter | src/ui/dialogue.rs:451-463 | the reveal loop never goes back or past the end; it stops either at the end of the line or with less than one interval left; it reveals something exactly when the timer reached an interval and text remains |
| DialogueUi.TypewriterSpends | src/ui/dialogue.rs:451-463 | the time left after the loop is the time it had minus the time spent on the characters it revealed |
| DialogueUi.SpentFormula | src/ui/dialogue.rs:455-461 | revealing a stretch costs one interval per character plus 0.55 of an interval per pause mark |
| DialogueUi.TypewriterAccounting | src/ui/dialogue.rs:444-463 | the timer after a frame equals the timer before minus the intervals of the revealed characters and their punctuation pauses |
| DialogueUi.Cycled | src/ui/dialogue.rs:1146-1148 | the next option index is always an option; stepping right wraps from the last to the first and stepping left from the first to the last |
| DialogueUi.CycleRoundTrip | src/ui/dialogue.rs:1142-1153 | one step right then one step left (or the reverse) returns to the same option |
| DialogueUi.QuickActionLabel | src/ui/dialogue.rs:1098-1107 | on the trimmed, lower-cased text: "show item" exactly when it contains "show item"; otherwise "leave" exactly when it contains "leave" or "go."; none otherwise |
| DialogueUi.HasQuickActions | src/ui/dialogue.rs:1109-1113 | true exactly when some option has a quick action |
| DialogueUi.PromptRules | src/ui/dialogue.rs:1169-1198 | the hint says skip exactly while text is still being revealed, offers switching exactly when several options are on offer, mentions the quick action exactly when some offered option has one, and says continue otherwise |
| DialogueUi.DialogueSession.constructor | src/ui/dialogue.rs:796-825 | a new box holds the request's text and options with nothing revealed, the first option selected, the clamped interval and no animation, and is consistent |
| DialogueUi.DialogueSession.RefreshPrompt | src/ui/dialogue.rs:1169-1198 | the prompt is set to the hint for the current reveal and options; nothing else changes |
| DialogueUi.DialogueSession.ResetText | src/ui/dialogue.rs:1115-1127 | the row is cleared, nothing is revealed, the timer is zero and the first option is selected; text, options, pacing and animation are kept and the box stays consistent |
| DialogueUi.DialogueSession.RevealAllChars | src/ui/dialogue.rs:1129-1140 | the whole line is revealed and shown on the row; nothing else changes |
| DialogueUi.DialogueSession.CycleOption | src/ui/dialogue.rs:1142-1153 | with fewer than two options nothing moves; otherwise the selection wraps one step in the given direction and the slide animation starts in that direction |
| DialogueUi.DialogueSession.UpdateTypewriter | src/ui/dialogue.rs:437-467 | a fully revealed line is left alone; otherwise the reveal count and timer are those of the typewriter function after adding the frame time; the reveal never goes back and the box stays consistent |
| DialogueUi.UiDialogueRuntime.constructor | src/ui/dialogue.rs:24-26 | a new runtime has no box and is inactive |
| DialogueUi.UiDialogueRuntime.CloseSession | src/ui/dialogue.rs:1289-1302 | afterwards there is no box and the dialogue is inactive |
| DialogueUi.UiDialogueRuntime.Start | src/ui/dialogue.rs:97-110 | a new box replaces any old one, holding the request's text and options with nothing revealed, an empty line row, the reveal timer at 0, the first option selected, no slide animation and the clamped interval; the dialogue is active |
| DialogueUi.UiDialogueRuntime.Advance | src/ui/dialogue.rs:111-126 | without a box nothing is sent; a partly revealed line is revealed in full and nothing is sent; a complete line sends Advance to the engine when there are no options and Choose of the selected option otherwise |
| DialogueUi.UiDialogueRuntime.Apply | src/ui/dialogue.rs:84-132 | Start opens a fresh box exactly as `Start` does; Close leaves no box and an inactive dialogue; Advance keeps the box, sends nothing without one, reveals a partly revealed line in full and sends nothing, and on a complete line sends Advance (no options) or Choose of the selected option |
| DialogueUi.UiDialogueRuntime.HandleShortcuts | src/ui/dialogue.rs:273-315 | inactive: nothing; Escape: Close to the engine; while revealing, confirm asks the UI for the rest; on a complete line confirm advances (no options); with options, left cycles the selection back and right forward (only with two or more options), the slide animation points the way of the last cycle, and confirm chooses the resulting option; text, reveal, timer and interval are untouched |
| Ending.NewPayload | src/ui/ending.rs:40-48 | a new payload carries the given id and the placeholder title, subtitle, narrative and single status line |
| Ending.Collapse | src/ui/ending.rs:104-110 | the shipped ending is stored under the id "collapse" |
| Ending.Without | src/ui/ending.rs:92 | removing an id from the order never lengthens it, and keeps exactly the other ids |
| Ending.WithoutKeepsDistinct | src/ui/ending.rs:90-93 | removing an id from an order without repeats leaves an order without repeats |
| Ending.UiEndingCatalog.constructor | src/ui/ending.rs:75-80 | a new catalog is empty and consistent (each stored id listed exactly once in the order) |
| Ending.UiEndingCatalog.Get | src/ui/ending.rs:95-97 | a payload is found exactly when one is stored under the id, and it is that payload |
| Ending.UiEndingCatalog.Upsert | src/ui/ending.rs:82-88 | the payload is stored under its id, replacing any old one; the id is appended to the order only when new; the catalog stays consistent and the payload is then found |
| Ending.UiEndingCatalog.Remove | src/ui/ending.rs:90-93 | the id's payload and every occurrence of the id in the order are removed; the catalog stays consistent and the id is then not found |
| Ending.UiEndingCatalog.PopulateDefaultEndings | src/ui/ending.rs:112-119 | a catalog that already holds endings is untouched; an empty one receives exactly the shipped collapse ending |
| Ending.Repeat | src/ui/ending.rs:266-267 | the repeated cell string has the asked length and only the given character |
| Ending.RoundNonNeg | src/ui/ending.rs:261 | rounding a non-negative value gives the integer within one half of it (halves rounded up, as Rust's round does for non-negative values) |
| Ending.HoldCellsRules | src/ui/ending.rs:261-262 | for progress in [0, 1] the bar has 14 cells in all, is empty at 0, full at 1, and never has fewer filled cells for more progress |
| Ending.UiEndingRuntime.constructor | src/ui/ending.rs:18-27 | a new runtime shows nothing and is consistent |
| Ending.UiEndingRuntime.CloseEnding | src/ui/ending.rs:408-425 | the screen, body and hold texts are gone and the narrative, reveal count, accumulator and hold progress are reset |
| Ending.UiEndingRuntime.OpenEnding | src/ui/ending.rs:399-405 | the new screen's entities are recorded and the payload's narrative is shown from its start with an empty hold bar |
| Ending.UiEndingRuntime.UpdateReveal | src/ui/ending.rs:200-231 | without a live body text nothing changes; skip reveals the whole narrative and leaves the accumulator; with text left the accumulator gains 58·dt, its whole part is revealed (capped at the narrative's end) and taken out of it; on a complete line nothing changes; an accumulator in [0, 1) stays there; the body shows exactly the revealed prefix |
| Ending.WholeChars | src/ui/ending.rs:221 | the whole characters in the accumulator: its floor for a non-negative value, 0 for a negative one |
| Ending.UiEndingRuntime.UpdateHold | src/ui/ending.rs:234-273 | nothing happens before the narrative is fully shown; then holding fills the progress over 0.9 s (capped at 1) and letting go drains it over 0.5 s (floored at 0); the bar text is that of the new progress when it exists; a full bar closes the screen |
| Ending.UiEndingRuntime.Apply | src/ui/ending.rs:161-197 | Upsert and Remove edit the catalog exactly as the catalog methods do and leave the screen alone; Show opens the stored payload (entities recorded, counters, accumulator and hold progress at 0) and does nothing for an unknown id; ShowPayload opens the given payload the same way; Close clears every field; only the catalog commands touch the catalog |
| Hint.UiHintRequest.WithFontSize | src/ui/hint.rs:53-56 | the font size is never below 8 and a size of at least 8 is kept; the text and glitch time are untouched |
| Hint.UiHintRequest.WithGlitchSecs | src/ui/hint.rs:58-61 | the glitch time is never negative and a non-negative time is kept; the text and font size are untouched |
| Hint.NewRequest | src/ui/hint.rs:45-51 | a new request carries the text with the default font size 24 and glitch time 0.48 s |
| Hint.BuildersKeepWellFormed | src/ui/hint.rs:45-61 | a new request and every builder step give a request whose font size is at least 8 and whose glitch time is not negative |
| Hint.FadeDuration | src/ui/hint.rs:100-107 | the requested fade is always positive: a positive duration is kept and any other becomes the default 0.36 s |
| Hint.FadeTimerSecs | src/ui/hint.rs:141-148 | the fade timer is never shorter than 0.02 s, keeps any longer duration, and uses the default for a non-positive one |
| Hint.FadeDurationIdempotent | src/ui/hint.rs:141-148 | defaulting the duration twice is the same as once, and the timer built from the defaulted duration equals the one built from the raw duration |
| Hint.UiHintRuntime.constructor | src/ui/hint.rs:30-35 | a new runtime shows no hint and is consistent |
| Hint.UiHintRuntime.CloseHint | src/ui/hint.rs:306-319 | afterwards there is no hint, no entities and no timers |
| Hint.UiHintRuntime.OpenHint | src/ui/hint.rs:226-303 | the new hint's entities are recorded with no fade; a glitch timer of the requested length runs exactly when the request asks for a positive glitch time |
| Hint.UiHintRuntime.Apply | src/ui/hint.rs:114-155 | Show replaces the hint with one on the new root, frame and text, without fade, glitching in exactly when the request's glitch time is positive; Hide clears every field; FadeOut is ignored unless a hint is up and its root exists, and otherwise (re)starts a fade timer of the clamped length, changing nothing else |
| Hint.UiHintRuntime.AnimateFade | src/ui/hint.rs:188-224 | without a fade nothing changes; otherwise the timer advances up to its end, the opacity is the share of the fade still to go (within [0, 1]), and the hint is taken down exactly when the timer finishes |
| Psx.DitherCode | src/psx.rs:68-74 | every dither mode reaches the shader as one of the codes 0, 3 or 4 |
| Psx.DitherCodesDistinct | src/psx.rs:68-74 | two modes share a code exactly when they are the same mode |
| Psx.FlagsFromBits | src/psx.rs:157-166 | each effect bit (snap 1, dither 2, quantize 4, affine 8) is set exactly when its switch is on; the focus bit and all higher bits are never set |
| Psx.MakeExt | src/psx.rs:168-178 | the material parameters are in the shader's ranges (at least 2 quantize steps, non-negative dither strength, dither scale at least 0.25, saturation in [0, 1], a valid dither code), carry the configuration's flags, and keep every value that was already in range |
| Psx.WithFocusOnlyTouchesFocus | src/psx.rs:113-119 | focusing sets the focus bit exactly when asked and leaves every other bit as it was |
| Psx.ApplyConfigKeepsFocus | src/psx.rs:277-286 | a material after applying a configuration has in-range parameters, keeps its own focus bit, carries exactly the configuration's effect bits, otherwise equals the freshly built material, and applying the configuration again changes nothing |
| Psx.SetMaterialFocused | src/psx.rs:113-119 | only the given material changes, and only in its focus bit |
| Psx.ApplyPsxFromCamera | src/psx.rs:270-287 | without a changed camera configuration no material changes; with one every material becomes the configuration applied to it |
| Psx.Ceil | src/psx.rs:384 | the ceiling is the whole number at or less than one above the value |
| Psx.CoverScale | src/psx.rs:382-384 | the scale is a whole number of at least 1 that covers both axes, and it is the smallest such whole number above 1 |
| Psx.CanvasMetricsFor | src/psx.rs:375-389 | the canvas uses the render resolution with each side at least 1, and the cover scale for the window with each side at least 1 |
| Psx.CoverScaleCovers | src/psx.rs:382-384 | the scaled canvas covers the window on both axes, and one step smaller would leave a side uncovered unless the scale is already 1 |
| Psx.CanvasCentered | src/psx.rs:385-388 | the canvas is centred on the window and spans the scaled resolution on each axis |
| Psx.PsxLocationInCanvas | src/psx.rs:391-408 | a pointer location exists exactly when there is a cursor on the canvas (edges included) and the render target resolves, and it then lies within the render resolution |
| Door.NewAnimation | src/gameplay/door.rs:180-187 | a fresh swing runs for the given seconds from zero towards the given state |
| Door.UseRules | src/gameplay/door.rs:141-166 | an open door closes; a closed locked door stays shut and plays the locked sound; a closed unlocked door opens with the open sound; the door swings exactly when its state changes, towards its new state |
| Door.LockedStaysShut | src/gameplay/door.rs:155-159 | a closed locked door never opens, however many times it is used |
| Door.UnlockedAlternates | src/gameplay/door.rs:141-166 | an unlocked door alternates with each use: after an even number of uses it is back in its starting state |
| Door.HookFiresOnce | src/gameplay/door.rs:121-132 | without repeat a door's hook fires at most once over any number of uses and never once its counter has moved; with repeat it fires on every use |
| Door.DoorEntity.constructor | src/gameplay/door.rs:32-42 | the default door is closed and unlocked with the stock locked, open and close sounds, a zero hook counter and no swing |
| Door.DoorEntity.OnUseDoor | src/gameplay/door.rs:104-172 | the door moves as the use rules say, restarting the swing only when it moves; exactly the matching sound is played; the hook is sent when due and the door has one; the counter advances exactly when the hook is due |
| Door.EndDoorEnding | src/gameplay/door.rs:237-254 | outside the win phase no ending is shown; in it, "win_spared" exactly when some NPC is the human suspect and "win_killed" exactly when none is |
| Footsteps.SurfaceFromTextureName | src/gameplay/sound.rs:488-497 | wood exactly for the two wood texture names, grass exactly for grass and the two carpets, dirt exactly for dirt, and concrete for every other name |
| Footsteps.VolumeScale | src/gameplay/sound.rs:388-395 | every surface plays at a positive share of the base volume, never louder, and only concrete at full volume |
| Footsteps.PitchRange | src/gameplay/sound.rs:499-507 | every surface's pitch range is a non-empty interval of positive playback speeds |
| Footsteps.SurfaceNamesDistinct | src/gameplay/sound.rs:509-516 | two surfaces have the same name exactly when they are the same surface |
| Footsteps.SpeedRatio | src/gameplay/sound.rs:379-380 | the speed ratio against the walking speed (at least 0.1) always lies in [0.25, 1.6] |
| Footsteps.StrideLengthForSpeed | src/gameplay/sound.rs:373-386 | the stride always lies between 0.55 and 1.75 metres |
| Footsteps.SpeedRatioMonotone | src/gameplay/sound.rs:379-380 | a faster player never has a smaller speed ratio |
| Footsteps.StrideMonotone | src/gameplay/sound.rs:373-386 | a faster player never takes shorter strides, and crouching never lengthens the stride |
| Footsteps.SelectRandomStep | src/gameplay/sound.rs:311-320 | no sample exactly when the list is empty; otherwise a sample from the list, the one at the drawn index |
| Footsteps.MakeStep | src/gameplay/sound.rs:285-290 | a step plays one of the surface's samples at a pitch inside the surface's range and at the base volume scaled for the surface, never louder than the base |
| Footsteps.StepLoop | src/gameplay/sound.rs:283-307 | at most two steps a frame; with samples each step spends exactly one stride and the loop ends with less than a stride banked or two steps played; without samples no step plays but one stride is still spent when due; banked distance never goes negative |
| Footsteps.PlaySteps | src/gameplay/sound.rs:283-307 | the loop leaves the distance and plays the number of steps the step-loop function gives, step k made from the surface's samples with roll k |
| Footsteps.FootstepPlayer.constructor | src/gameplay/sound.rs:114-130 | the default player strides 1.1 m at volume 0.45 on concrete with no material names and no samples |
| Footsteps.FootstepPlayer.Loaded | src/gameplay/sound.rs:143-161 | the loaded player strides 1.1 m at volume 0.5 on concrete, and each surface has its four numbered samples |
| Footsteps.FootstepPlayer.HandleFootsteps | src/gameplay/sound.rs:248-309 | airborne the banked distance resets; standing still it drains by the frame time down to zero; moving it banks speed times time and plays the steps the step loop allows at the stride for that speed; nothing but the banked distance changes |
| Footsteps.FootstepPlayer.LogMaterialChange | src/gameplay/sound.rs:518-529 | a line is logged exactly when the material differs from the last logged one, which then becomes the active material; nothing else changes |
| Footsteps.FootstepPlayer.DetectSurface | src/gameplay/sound.rs:163-246 | airborne: concrete named "air"; nothing below: concrete named "default_concrete", neither logged; a surface marker wins and names "explicit_<surface>"; otherwise the texture name decides (concrete without one); in those cases a changed material is logged |
| Footsteps.SurfaceSamples | src/gameplay/sound.rs:154-161 | a surface has four step samples |
| ItemSlug.SlugChar | src/gameplay/inventory.rs:61-66 | ASCII letters and digits are kept, any other whitespace becomes a dash, and everything else is dropped |
| ItemSlug.SlugChars | src/gameplay/inventory.rs:60-67 | filtering never lengthens the text, and text without ASCII capitals becomes only lower-case letters, digits and dashes |
| ItemSlug.IntoId | src/gameplay/inventory.rs:57-68 | an item id is never longer than the trimmed name and holds only lower-case ASCII letters, digits and dashes |
| ItemSlug.SlugCharsAppend | src/gameplay/inventory.rs:60-67 | the character filter works character by character: filtering a concatenation concatenates the filtered parts |
| ItemSlug.IntoIdOfPlainWord | src/gameplay/inventory.rs:57-68 | a name made only of lower-case ASCII letters and digits is its own id |
| ItemSlug.IntoIdJoinsWords | src/gameplay/inventory.rs:57-68 | two plain words separated by one whitespace character become the two words joined by a dash |
| ItemSlug.PaddingIgnored | src/gameplay/inventory.rs:59 | whitespace padding on either side of a name does not change its id |
| ItemSlug.Components | src/gameplay/inventory.rs:46-48 | the path's components are non-empty, never ".", and contain no separator |
| ItemSlug.FileName | src/gameplay/inventory.rs:46-48 | a path's file name, when it has one, is non-empty, not "..", and contains no separator |
| ItemSlug.FilePrefix | src/gameplay/inventory.rs:47 | the file prefix is the non-empty start of the name up to (not including) its first dot after the first character |
| ItemSlug.MetadataPath | src/gameplay/inventory.rs:43-52 | an explicit metadata path is used as is; otherwise the path is derived from the model's file prefix as "items/<prefix>.item.meta", and fails exactly when the model path has no file name |
| ItemSlug.DefaultMetadataOfModelFile | src/gameplay/inventory.rs:43-52 | for a model file "<dir>/<stem>.<ext>" the derived metadata path is "items/<stem>.item.meta" |
| ItemSlug.LastComponent | src/gameplay/inventory.rs:46-48 | a plain name after a directory and a separator is the path's file name |
| ItemSlug.ItemEntry | src/gameplay/inventory.rs:71-78 | the entry carries the slug of the item's name as id, the name as title, the subtitle and description, no image, the model's first scene as model, and is seen |
| ItemSlug.RegisterItem | src/gameplay/inventory.rs:71-78 | the entry is upserted into the item list, the NPC list is untouched, the revision advances, and the database stays consistent |

## Left out

- Floating point: `f32`/`f64` arithmetic is modelled as exact `real`. There is no rounding, no NaN and no infinity. Rust's `round` and `ceil` are written out for the cases the code uses.
- Randomness is an oracle input. This covers the footstep sample index and pitch fraction (`StepRoll`) and the phoneme pitch jitter.
- Physics queries: the raycast under the player is the `GroundProbe` input to `DetectSurface`. Finding the texture name behind a hit entity is not part of this model.
- Assets: asset handles are their asset paths. The RON byte loader of `.rat`/`.ron` script assets, reading item metadata and settings persistence (file and localStorage) are not part of this model.
- Unicode: `char::to_lowercase` and `char::is_alphabetic` are modelled for ASCII and Latin-1 letters only. `char::is_whitespace` follows the full Unicode White_Space list.
- Version skew: some types used by the runtime are missing from the record definitions they should come from. The model treats them as uninterpreted inputs or fields:
  - the presentation of a dialogue start becomes the `headless` flag;
  - whether an item was already shown to a speaker, and the speech duration estimate, are the `DiscoveryView` parameters;
  - the extra fields of a dialogue option (item id, seen, enabled) are plain fields;
  - whether an NPC is the human suspect is the `humanSuspect` input of `EndDoorEnding`.
- ECS plumbing: spawning and despawning entities, building UI trees, logging text, the preview scenes of the inventory and dialogue screens, and entity liveness. Where liveness matters it is a boolean input, as in `rootAlive`, `bodyAlive` and `holdAlive`.
- Animations and visuals:
  - the hint glitch jitter and blink (src/ui/hint.rs:157-186), so the glitch timer is never advanced or removed here;
  - the dialogue glyph and slot animations;
  - the door slerp (`rotate_doors`);
  - the cursor jitter, the menu pulse and the focus saturation easing;
  - every WGSL shader.
- DSP: biquad and one-pole filters, distortion, the limiter, noise, the glottal pulse and the square root of the crossfade gain curve. The latter is the `sqrt` parameter of `Synth.AppendWithCrossfade`.
- Synth.PushSilence and Synth.AppendWithCrossfade return the new buffer instead of extending `dst` in place. Their callers always own the buffer, so no aliasing is lost.
- Formatting: `percent_text` and the dialogue carousel's slot text (`refresh_slot_text`) are not modelled.
- InventoryUi.UiInventoryRuntime.Open: the preview handles of the rebuilt screen are left empty. The model does not build a preview scene.
- InventoryUi.UiInventoryRuntime.HoldDrag: the drag-start distance test is stated only as a necessary condition for the ghost to appear (an open screen, a press position and a cursor), not as the exact threshold.
- Ending.UiEndingRuntime.UpdateHold and Hint.UiHintRuntime.AnimateFade require a non-negative frame time, as Bevy's `Time::delta` always is.
- Door.DoorEntity: the hook counter is an unbounded `nat`. `HookCounter` is defined in a file that is not part of this model, so its integer width is not known here.
- Footsteps.SurfaceSamples: its contract states only that there are four samples. Their exact paths are fixed by its definition.
- RatDialogue.GreetingNode: only the shape of the built-in greeting script is modelled, not its wording.
- The `on_add` hooks of sound points, surface markers and items register observers and components. Only the part of the item hook that builds the discovery entry (`ItemSlug.RegisterItem`) is modelled.
- The close paths of the dialogue engine differ. The Close command of `handle_rat_commands` (src/ratspinner/runtime.rs:514-522) always stops the voice, while `close_dialogue` (src/ratspinner/runtime.rs:1013-1026) stops it only when not headless. The model keeps both behaviours as written.
