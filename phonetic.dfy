/**
 * The text-to-phoneme front end of the voice synthesiser (English and
 * Portuguese). Each mapper walks the characters of a line once: whitespace
 * and punctuation become pauses, runs of letters become words, and each
 * word is scanned into vowel, consonant and pause phonemes.
 *
 * The only randomness in the source is a small pitch jitter drawn for every
 * vowel and consonant phoneme; here it is the oracle `jitter`, consulted at
 * the phoneme's source character index (each such index yields at most one
 * voiced phoneme, so every sequence of draws is some oracle).
 */
module Phonetic {
  import opened Wrappers
  import opened Text

  datatype Language = English | Portuguese

  datatype PhonemeType = Vowel | Consonant | Pause | Breath

  datatype ConsonantClass =
    | PlosiveVoiced | PlosiveUnvoiced | FricativeVoiced | FricativeUnvoiced
    | Nasal | Liquid | Tap | Trill | Lateral | Affricate

  /** Target frequencies (Hz) of the first three formants. */
  datatype Formants = Formants(f1: real, f2: real, f3: real)

  /**
   * One phoneme. `sourceChars` holds the (lower-cased) characters it came
   * from: one or two for a vowel or consonant, none for a pause or breath.
   */
  datatype Phoneme = Phoneme(
    ty: PhonemeType,
    formants: Option<Formants>,
    consonant: Option<ConsonantClass>,
    duration: real,
    stressed: bool,
    sourceChars: seq<char>,
    sourceIndex: nat,
    pitchMod: real)

  function PauseAt(sourceIndex: nat, duration: real): Phoneme
  {
    Phoneme(Pause, None, None, duration, false, [], sourceIndex, 1.0)
  }

  function BreathAt(sourceIndex: nat): Phoneme
  {
    Phoneme(Breath, None, None, 0.8, false, [], sourceIndex, 1.0)
  }

  /** Vowels carry formants and no consonant class, consonants the reverse, pauses and breaths neither. */
  predicate WellFormed(p: Phoneme)
  {
    match p.ty
    case Vowel => p.formants.Some? && p.consonant.None? && 1 <= |p.sourceChars| <= 2
    case Consonant => p.formants.None? && p.consonant.Some? && 1 <= |p.sourceChars| <= 2
    case Pause => p.formants.None? && p.consonant.None? && p.sourceChars == [] && !p.stressed
    case Breath => p.formants.None? && p.consonant.None? && p.sourceChars == [] && !p.stressed
  }

  predicate AllWellFormed(ps: seq<Phoneme>)
  {
    forall k :: 0 <= k < |ps| ==> WellFormed(ps[k])
  }

  function CountBreaths(ps: seq<Phoneme>): nat
  {
    if ps == [] then 0 else (if ps[0].ty == Breath then 1 else 0) + CountBreaths(ps[1..])
  }

  /** Number of pauses of exactly the given duration. */
  function CountPauses(ps: seq<Phoneme>, duration: real): nat
  {
    if ps == [] then 0
    else (if ps[0].ty == Pause && ps[0].duration == duration then 1 else 0) + CountPauses(ps[1..], duration)
  }

  lemma {:induction false} CountsOfConcat(a: seq<Phoneme>, b: seq<Phoneme>, d: real)
    ensures CountBreaths(a + b) == CountBreaths(a) + CountBreaths(b)
    ensures CountPauses(a + b, d) == CountPauses(a, d) + CountPauses(b, d)
  {
    if a != [] {
      CountsOfConcat(a[1..], b, d);
      assert (a + b)[1..] == a[1..] + b;
    } else {
      assert a + b == b;
    }
  }

  /** Every phoneme of `ps` points into the range `lo..hi`. */
  /**
   * The step that keeps the loops' invariant `done + remaining == whole`:
   * when the remaining output is `piece + rest`, appending `piece` leaves `rest`.
   */
  lemma AppendStep<T>(done: seq<T>, piece: seq<T>, rest: seq<T>, remaining: seq<T>, whole: seq<T>)
    requires done + remaining == whole && remaining == piece + rest
    ensures (done + piece) + rest == whole
  {
    assert (done + piece) + rest == done + (piece + rest);
  }

  predicate IndicesWithin(ps: seq<Phoneme>, lo: nat, hi: nat)
  {
    forall k :: 0 <= k < |ps| ==> lo <= ps[k].sourceIndex <= hi
  }

  lemma {:induction false} IndicesWithinConcat(a: seq<Phoneme>, b: seq<Phoneme>, lo: nat, mid: nat, hi: nat)
    requires IndicesWithin(a, lo, mid) && IndicesWithin(b, mid, hi) && lo <= mid <= hi
    ensures IndicesWithin(a + b, lo, hi)
  {
    forall k | 0 <= k < |a + b| ensures lo <= (a + b)[k].sourceIndex <= hi {
      if k >= |a| { assert (a + b)[k] == b[k - |a|]; }
    }
  }

  /** A word's phonemes followed by its 0.25 gap at `e`: one word gap, no breath, indices up to `e`. */
  lemma WordWithGapFacts(word: seq<Phoneme>, lo: nat, e: nat)
    requires AllWellFormed(word) && CountBreaths(word) == 0 && CountPauses(word, 0.25) == 0
    requires IndicesWithin(word, lo, e) && lo <= e
    ensures var ps := word + [PauseAt(e, 0.25)];
      AllWellFormed(ps) && CountBreaths(ps) == 0 && CountPauses(ps, 0.25) == 1 && IndicesWithin(ps, lo, e)
  {
    CountsOfSingle(PauseAt(e, 0.25), 0.25);
    CountsOfConcat(word, [PauseAt(e, 0.25)], 0.25);
    AllWellFormedConcat(word, [PauseAt(e, 0.25)]);
    IndicesWithinConcat(word, [PauseAt(e, 0.25)], lo, e, e);
  }

  /** Well-formedness, the counts and the index bounds of two consecutive pieces carry over to their concatenation. */
  lemma ConcatFacts(a: seq<Phoneme>, b: seq<Phoneme>, lo: nat, mid: nat, hi: nat)
    requires lo <= mid <= hi
    requires AllWellFormed(a) && AllWellFormed(b) && IndicesWithin(a, lo, mid) && IndicesWithin(b, mid, hi)
    ensures AllWellFormed(a + b) && IndicesWithin(a + b, lo, hi)
    ensures CountBreaths(a + b) == CountBreaths(a) + CountBreaths(b)
    ensures CountPauses(a + b, 0.25) == CountPauses(a, 0.25) + CountPauses(b, 0.25)
  {
    CountsOfConcat(a, b, 0.25);
    AllWellFormedConcat(a, b);
    IndicesWithinConcat(a, b, lo, mid, hi);
  }

  lemma CountsOfSingle(p: Phoneme, d: real)
    ensures CountBreaths([p]) == if p.ty == Breath then 1 else 0
    ensures CountPauses([p], d) == if p.ty == Pause && p.duration == d then 1 else 0
  {
    assert [p][1..] == [];
  }

  lemma {:induction false} AllWellFormedConcat(a: seq<Phoneme>, b: seq<Phoneme>)
    requires AllWellFormed(a) && AllWellFormed(b)
    ensures AllWellFormed(a + b)
  {
    forall k | 0 <= k < |a + b| ensures WellFormed((a + b)[k]) {
      if k >= |a| { assert (a + b)[k] == b[k - |a|]; }
    }
  }

  // ---------------------------------------------------------------------
  // Character classes and lookup tables
  // ---------------------------------------------------------------------

  predicate IsSentenceEnd(c: char) { c == '.' || c == '!' || c == '?' }

  predicate IsPunctPause(c: char) { c == ',' || c == ';' || c == ':' }

  predicate IsVowelBasic(c: char) { (c == 'a' || c == 'e' || c == 'i' || c == 'o' || c == 'u' || c == 'y') }

  /** English two-letter vowel tokens and their formant targets. */
  function EnglishVowelPair(a: char, b: char): Option<Formants>
  {
    if a == 'e' && (b == 'e' || b == 'a') then Some(Formants(300.0, 2600.0, 3400.0))
    else if a == 'o' && b == 'o' then Some(Formants(350.0, 800.0, 2500.0))
    else if a == 'a' && (b == 'y' || b == 'i') then Some(Formants(650.0, 1800.0, 2800.0))
    else if a == 'o' && (b == 'y' || b == 'i') then Some(Formants(500.0, 1100.0, 2600.0))
    else if a == 'o' && (b == 'w' || b == 'u') then Some(Formants(500.0, 900.0, 2500.0))
    else if a == 'e' && b == 'r' then Some(Formants(450.0, 1350.0, 2500.0))
    else None
  }

  /** English one-letter vowel tokens and their formant targets. */
  function EnglishVowelLetter(c: char): (r: Option<Formants>)
    ensures r.Some? <==> IsVowelBasic(c)
  {
    if c == 'a' then Some(Formants(800.0, 1400.0, 2500.0))
    else if c == 'e' then Some(Formants(500.0, 2000.0, 2600.0))
    else if c == 'i' || c == 'y' then Some(Formants(380.0, 2100.0, 2900.0))
    else if c == 'o' then Some(Formants(550.0, 1000.0, 2500.0))
    else if c == 'u' then Some(Formants(600.0, 1200.0, 2400.0))
    else None
  }

  /** English two-letter consonant tokens. */
  function EnglishDigraphConsonant(a: char, b: char): Option<ConsonantClass>
  {
    if b == 'h' && (a == 't' || a == 's' || a == 'p' || a == 'w') then Some(FricativeUnvoiced)
    else if a == 'c' && b == 'h' then Some(Affricate)
    else if a == 'n' && b == 'g' then Some(Nasal)
    else None
  }

  function EnglishConsonantClass(c: char): Option<ConsonantClass>
  {
    if (c == 'b' || c == 'd' || c == 'g') then Some(PlosiveVoiced)
    else if (c == 'p' || c == 't' || c == 'k' || c == 'c' || c == 'q') then Some(PlosiveUnvoiced)
    else if (c == 'f' || c == 's' || c == 'x' || c == 'h') then Some(FricativeUnvoiced)
    else if (c == 'v' || c == 'z' || c == 'j') then Some(FricativeVoiced)
    else if (c == 'm' || c == 'n') then Some(Nasal)
    else if c == 'l' then Some(Lateral)
    else if c == 'r' || c == 'w' then Some(Liquid)
    else None
  }

  predicate IsPortugueseVowel(c: char)
  {
    (c == 'a' || c == '\U{00E1}' || c == '\U{00E2}' || c == '\U{00E0}' || c == 'e' || c == '\U{00E9}' || c == '\U{00EA}' || c == 'i' || c == '\U{00ED}' || c == 'o' || c == '\U{00F3}' || c == '\U{00F4}' || c == 'u' || c == '\U{00FA}' || c == '\U{00E3}' || c == '\U{00F5}')
  }

  function PortugueseVowelFormants(c: char): (r: Option<Formants>)
    ensures r.Some? <==> IsPortugueseVowel(c)
  {
    if c == 'a' then Some(Formants(800.0, 1200.0, 2500.0))
    else if c == '\U{00E1}' then Some(Formants(820.0, 1250.0, 2550.0))
    else if c == '\U{00E2}' then Some(Formants(600.0, 1150.0, 2500.0))
    else if c == '\U{00E0}' then Some(Formants(800.0, 1200.0, 2500.0))
    else if c == 'e' then Some(Formants(450.0, 1950.0, 2600.0))
    else if c == '\U{00E9}' then Some(Formants(550.0, 1900.0, 2700.0))
    else if c == '\U{00EA}' then Some(Formants(400.0, 2100.0, 2700.0))
    else if c == 'i' then Some(Formants(300.0, 2700.0, 3300.0))
    else if c == '\U{00ED}' then Some(Formants(280.0, 2750.0, 3350.0))
    else if c == 'o' then Some(Formants(500.0, 900.0, 2500.0))
    else if c == '\U{00F3}' then Some(Formants(550.0, 950.0, 2500.0))
    else if c == '\U{00F4}' then Some(Formants(400.0, 800.0, 2500.0))
    else if c == 'u' then Some(Formants(350.0, 700.0, 2500.0))
    else if c == '\U{00FA}' then Some(Formants(330.0, 680.0, 2450.0))
    else if c == '\U{00E3}' then Some(Formants(700.0, 1100.0, 2500.0))
    else if c == '\U{00F5}' then Some(Formants(450.0, 820.0, 2400.0))
    else None
  }

  function PortugueseConsonantClass(c: char): Option<ConsonantClass>
  {
    if (c == 'b' || c == 'd' || c == 'g') then Some(PlosiveVoiced)
    else if (c == 'p' || c == 't' || c == 'k' || c == 'c' || c == 'q') then Some(PlosiveUnvoiced)
    else if (c == 'f' || c == 's' || c == 'x' || c == '\U{00E7}' || c == 'h') then Some(FricativeUnvoiced)
    else if (c == 'v' || c == 'z' || c == 'j') then Some(FricativeVoiced)
    else if (c == 'm' || c == 'n') then Some(Nasal)
    else if (c == 'l' || c == 'w' || c == 'y') then Some(Liquid)
    else if c == 'r' then Some(Tap)
    else None
  }

  function PortugueseDigraph(c1: char, c2: char): Option<ConsonantClass>
  {
    if c1 == 'n' && c2 == 'h' then Some(Nasal)
    else if c1 == 'l' && c2 == 'h' then Some(Lateral)
    else if c1 == 'c' && c2 == 'h' then Some(FricativeUnvoiced)
    else if c1 == 'r' && c2 == 'r' then Some(Trill)
    else if c1 == 's' && c2 == 's' then Some(FricativeUnvoiced)
    else if c1 == 'q' && c2 == 'u' then Some(PlosiveUnvoiced)
    else if c1 == 'g' && c2 == 'u' then Some(PlosiveVoiced)
    else None
  }

  // ---------------------------------------------------------------------
  // Stress heuristics
  // ---------------------------------------------------------------------

  /**
   * English stress: the first nucleus for at most one nucleus or when the
   * last nucleus starts within the first four letters, else the
   * penultimate nucleus. Always a valid index of a non-empty list.
   */
  function EnglishStressVowelIndex(positions: seq<nat>): (r: nat)
    ensures |positions| > 0 ==> r < |positions|
    ensures |positions| <= 1 ==> r == 0
    ensures |positions| >= 2 ==> (r == 0 <==> positions[|positions| - 1] <= 3 || |positions| == 2)
    ensures |positions| >= 2 && positions[|positions| - 1] > 3 ==> r + 2 == |positions|
  {
    if |positions| <= 1 then 0
    else if positions[|positions| - 1] <= 3 then 0
    else |positions| - 2
  }

  /** Portuguese stress: syllable 0 for at most one syllable, else the penultimate one. */
  function PortugueseStressedSyllable(syllables: nat): (r: nat)
    ensures syllables >= 1 ==> r < syllables
    ensures syllables >= 2 ==> r + 2 == syllables
    ensures syllables <= 1 ==> r == 0
  {
    if syllables <= 1 then 0 else syllables - 2
  }

  // ---------------------------------------------------------------------
  // Words
  // ---------------------------------------------------------------------

  /** English words are runs of letters and apostrophes; Portuguese words are runs of letters. */
  predicate IsWordChar(lang: Language, c: char)
  {
    IsAlphabetic(c) || (lang == English && c == '\'')
  }

  /** The mapper reads a word at a character that is none of the marks it tests first and is a word character. */
  predicate StartsWord(lang: Language, c: char)
  {
    !IsWhitespace(c) && !IsPunctPause(c) && !IsSentenceEnd(c) && IsWordChar(lang, c)
  }

  predicate IsWordStart(lang: Language, chars: seq<char>, k: nat)
    requires k < |chars|
  {
    IsWordChar(lang, chars[k]) && (k == 0 || !IsWordChar(lang, chars[k - 1]))
  }

  /** Number of words (maximal runs of word characters) among the first `n` characters. */
  function WordStarts(lang: Language, chars: seq<char>, n: nat): nat
    requires n <= |chars|
  {
    if n == 0 then 0
    else WordStarts(lang, chars, n - 1) + (if IsWordStart(lang, chars, n - 1) then 1 else 0)
  }

  /** The rough word count the mappers use for prosody: the number of words, at least 1. */
  method CountWords(lang: Language, chars: seq<char>) returns (count: nat)
    ensures count >= 1
    ensures count == if WordStarts(lang, chars, |chars|) == 0 then 1 else WordStarts(lang, chars, |chars|)
  {
    var inWord := false;
    var c := 0;
    var k := 0;
    while k < |chars|
      invariant k <= |chars|
      invariant inWord == (k > 0 && IsWordChar(lang, chars[k - 1]))
      invariant c == WordStarts(lang, chars, k)
    {
      if IsWordChar(lang, chars[k]) {
        if !inWord {
          inWord := true;
          c := c + 1;
        }
      } else {
        inWord := false;
      }
      k := k + 1;
    }
    count := if c == 0 then 1 else c;
  }

  /** End of the word that starts at `i`: the first later index that is not a word character. */
  function WordEnd(lang: Language, chars: seq<char>, i: nat): (e: nat)
    requires i <= |chars|
    ensures i <= e <= |chars|
    ensures forall k :: i <= k < e ==> IsWordChar(lang, chars[k])
    ensures e == |chars| || !IsWordChar(lang, chars[e])
    decreases |chars| - i
  {
    if i < |chars| && IsWordChar(lang, chars[i]) then WordEnd(lang, chars, i + 1) else i
  }

  lemma {:induction false} WordEndUnique(lang: Language, chars: seq<char>, i: nat, e: nat)
    requires i <= e <= |chars|
    requires forall k :: i <= k < e ==> IsWordChar(lang, chars[k])
    requires e == |chars| || !IsWordChar(lang, chars[e])
    ensures WordEnd(lang, chars, i) == e
    decreases e - i
  {
    if i < e { WordEndUnique(lang, chars, i + 1, e); }
  }

  /** Scans forward from `i` to the first character that is not a word character. */
  method FindWordEnd(lang: Language, chars: seq<char>, i: nat) returns (e: nat)
    requires i <= |chars|
    ensures e == WordEnd(lang, chars, i)
  {
    e := i;
    while e < |chars| && IsWordChar(lang, chars[e])
      invariant i <= e <= |chars|
      invariant forall k :: i <= k < e ==> IsWordChar(lang, chars[k])
      decreases |chars| - e
    {
      e := e + 1;
    }
    WordEndUnique(lang, chars, i, e);
  }

  /** Position of word `wordIndex` on the declination curve, as `word_index / max(word_count - 1, 1)`. */
  function WordProgress(wordIndex: nat, wordCount: nat): real
    requires wordCount >= 1
  {
    wordIndex as real / (if wordCount - 1 >= 1 then wordCount - 1 else 1) as real
  }

  // ---------------------------------------------------------------------
  // Tokens inside a word
  // ---------------------------------------------------------------------

  /** What the scanner reads at one position of a (lower-cased) word, and how many letters it spans. */
  datatype Token =
    | VowelToken(formants: Formants, len: nat)
    | ConsonantToken(cls: ConsonantClass, len: nat)
    | UnknownToken

  function TokenLen(t: Token): nat
  {
    if t.UnknownToken? then 1 else t.len
  }

  /**
   * The English token at `wi`: a two-letter vowel, else a two-letter
   * consonant, else a one-letter vowel, else a one-letter consonant (with
   * soft 'c' and 'g' before e/i/y), else unknown.
   */
  function EnglishTokenAt(w: seq<char>, wi: nat): (t: Token)
    requires wi < |w|
    ensures 1 <= TokenLen(t) <= 2 && wi + TokenLen(t) <= |w|
  {
    var c := w[wi];
    if wi + 1 < |w| && EnglishVowelPair(c, w[wi + 1]).Some? then
      VowelToken(EnglishVowelPair(c, w[wi + 1]).value, 2)
    else if wi + 1 < |w| && EnglishDigraphConsonant(c, w[wi + 1]).Some? then
      ConsonantToken(EnglishDigraphConsonant(c, w[wi + 1]).value, 2)
    else if EnglishVowelLetter(c).Some? then
      VowelToken(EnglishVowelLetter(c).value, 1)
    else
      var soft := wi + 1 < |w| && w[wi + 1] in "eiy";
      var cc :=
        if c == 'g' && soft then Some(FricativeVoiced)
        else if c == 'c' && soft then Some(FricativeUnvoiced)
        else EnglishConsonantClass(c);
      if cc.Some? then ConsonantToken(cc.value, 1) else UnknownToken
  }

  /** Two-letter vowels are tried first, then two-letter consonants, and only then single letters. */
  lemma EnglishDigraphPriority(w: seq<char>, wi: nat)
    requires wi + 1 < |w|
    ensures EnglishVowelPair(w[wi], w[wi + 1]).Some? ==>
      EnglishTokenAt(w, wi) == VowelToken(EnglishVowelPair(w[wi], w[wi + 1]).value, 2)
    ensures EnglishVowelPair(w[wi], w[wi + 1]).None? && EnglishDigraphConsonant(w[wi], w[wi + 1]).Some? ==>
      EnglishTokenAt(w, wi) == ConsonantToken(EnglishDigraphConsonant(w[wi], w[wi + 1]).value, 2)
    ensures EnglishVowelPair(w[wi], w[wi + 1]).None? && EnglishDigraphConsonant(w[wi], w[wi + 1]).None? ==>
      TokenLen(EnglishTokenAt(w, wi)) == 1
  {
  }

  /** A 'c' before e/i/y is read as /s/ and a 'g' before e/i/y as a voiced fricative. */
  lemma EnglishSoftConsonants(w: seq<char>, wi: nat)
    requires wi + 1 < |w| && w[wi + 1] in "eiy"
    ensures w[wi] == 'c' ==> EnglishTokenAt(w, wi) == ConsonantToken(FricativeUnvoiced, 1)
    ensures w[wi] == 'g' ==> EnglishTokenAt(w, wi) == ConsonantToken(FricativeVoiced, 1)
  {
  }

  /** Every lower-case ASCII letter is a vowel or has a consonant class; only other letters and apostrophes are unknown. */
  lemma EnglishLettersKnown(w: seq<char>, wi: nat)
    requires wi < |w|
    ensures 'a' <= w[wi] <= 'z' ==> !EnglishTokenAt(w, wi).UnknownToken?
    ensures EnglishTokenAt(w, wi).UnknownToken? ==> !IsVowelBasic(w[wi]) && EnglishConsonantClass(w[wi]).None?
  {
  }

  /** The Portuguese token at `wi`: a consonant digraph, else a vowel, else a consonant with context rules. */
  function PortugueseTokenAt(w: seq<char>, wi: nat): (t: Token)
    requires wi < |w|
    ensures 1 <= TokenLen(t) <= 2 && wi + TokenLen(t) <= |w|
    ensures t.VowelToken? ==> t.len == 1
  {
    if wi + 1 < |w| && PortugueseDigraph(w[wi], w[wi + 1]).Some? then
      ConsonantToken(PortugueseDigraph(w[wi], w[wi + 1]).value, 2)
    else if PortugueseVowelFormants(w[wi]).Some? then
      VowelToken(PortugueseVowelFormants(w[wi]).value, 1)
    else if PortugueseConsonantClass(w[wi]).Some? then
      var c := w[wi];
      var cc0 := PortugueseConsonantClass(c).value;
      var cc1 := if c == 'c' && wi + 1 < |w| && (w[wi + 1] == 'e' || w[wi + 1] == 'i') then FricativeUnvoiced else cc0;
      var cc2 := if c == 'r' && (wi == 0 || !IsPortugueseVowel(w[wi - 1])) then Trill else cc1;
      var cc3 :=
        if c == 's' && wi > 0 && wi + 1 < |w| && IsPortugueseVowel(w[wi - 1]) && IsPortugueseVowel(w[wi + 1])
        then FricativeVoiced else cc2;
      ConsonantToken(cc3, 1)
    else UnknownToken
  }

  /** An 'r' at the start of a word or after a non-vowel is a trill (also as the first of "rr"). */
  lemma PortugueseTrillRule(w: seq<char>, wi: nat)
    requires wi < |w| && w[wi] == 'r'
    requires wi == 0 || !IsPortugueseVowel(w[wi - 1])
    ensures PortugueseTokenAt(w, wi).ConsonantToken? && PortugueseTokenAt(w, wi).cls == Trill
  {
  }

  /** An 's' between two vowels is voiced. */
  lemma PortugueseIntervocalicS(w: seq<char>, wi: nat)
    requires 0 < wi && wi + 1 < |w| && w[wi] == 's'
    requires IsPortugueseVowel(w[wi - 1]) && IsPortugueseVowel(w[wi + 1])
    ensures PortugueseTokenAt(w, wi) == ConsonantToken(FricativeVoiced, 1)
  {
  }

  /** A 'c' before e/i is read as /s/. */
  lemma PortugueseSoftC(w: seq<char>, wi: nat)
    requires wi + 1 < |w| && w[wi] == 'c' && (w[wi + 1] == 'e' || w[wi + 1] == 'i')
    ensures PortugueseTokenAt(w, wi) == ConsonantToken(FricativeUnvoiced, 1)
  {
  }

  // ---------------------------------------------------------------------
  // English word scan
  // ---------------------------------------------------------------------

  /** A vowel nucleus starts at `k`: a basic vowel not preceded by one. */
  predicate IsNucleusStart(w: seq<char>, k: nat)
    requires k < |w|
  {
    IsVowelBasic(w[k]) && (k == 0 || !IsVowelBasic(w[k - 1]))
  }

  /** The nucleus start positions at or after `k`, in increasing order. */
  function NucleiFrom(w: seq<char>, k: nat): seq<nat>
    decreases |w| - k
  {
    if k >= |w| then [] else (if IsNucleusStart(w, k) then [k] else []) + NucleiFrom(w, k + 1)
  }

  lemma {:induction false} NucleiFromExact(w: seq<char>, k: nat)
    ensures forall j :: 0 <= j < |NucleiFrom(w, k)| ==> k <= NucleiFrom(w, k)[j] < |w| && IsNucleusStart(w, NucleiFrom(w, k)[j])
    ensures forall j :: 0 <= j < |NucleiFrom(w, k)| - 1 ==> NucleiFrom(w, k)[j] < NucleiFrom(w, k)[j + 1]
    ensures forall p: nat :: k <= p < |w| && IsNucleusStart(w, p) ==> p in NucleiFrom(w, k)
    decreases |w| - k
  {
    if k < |w| {
      NucleiFromExact(w, k + 1);
    }
  }

  /** The nuclei list is exactly the nucleus starts of the word, strictly increasing. */
  lemma NucleiExact(w: seq<char>)
    ensures forall p: nat :: p in NucleiFrom(w, 0) <==> p < |w| && IsNucleusStart(w, p)
    ensures forall j :: 0 <= j < |NucleiFrom(w, 0)| - 1 ==> NucleiFrom(w, 0)[j] < NucleiFrom(w, 0)[j + 1]
  {
    NucleiFromExact(w, 0);
  }

  method VowelNuclei(w: seq<char>) returns (nuclei: seq<nat>)
    ensures nuclei == NucleiFrom(w, 0)
  {
    nuclei := [];
    var wi := 0;
    var lastWasVowel := false;
    while wi < |w|
      invariant wi <= |w|
      invariant lastWasVowel == (wi > 0 && IsVowelBasic(w[wi - 1]))
      invariant nuclei + NucleiFrom(w, wi) == NucleiFrom(w, 0)
    {
      var v := IsVowelBasic(w[wi]);
      assert NucleiFrom(w, wi) == (if IsNucleusStart(w, wi) then [wi] else []) + NucleiFrom(w, wi + 1);
      if v && !lastWasVowel {
        assert IsNucleusStart(w, wi);
        nuclei := nuclei + [wi];
      } else {
        assert !IsNucleusStart(w, wi);
      }
      lastWasVowel := v;
      wi := wi + 1;
    }
  }

  function EnglishVowelDuration(len: nat, stressed: bool): real
  {
    if len == 2 then (if stressed then 1.25 else 0.95) else (if stressed then 1.15 else 0.90)
  }

  /** What every phoneme produced inside an English word looks like. */
  predicate EnglishWordPhoneme(w: seq<char>, start: nat, p: Phoneme)
  {
    WellFormed(p)
    && start <= p.sourceIndex < start + |w|
    && p.sourceIndex - start + |p.sourceChars| <= |w|
    && p.sourceChars == w[p.sourceIndex - start..p.sourceIndex - start + |p.sourceChars|]
    && match p.ty
       case Vowel => p.duration == EnglishVowelDuration(|p.sourceChars|, p.stressed)
       case Consonant => p.duration == (if |p.sourceChars| == 2 then 0.55 else 0.5)
       case Pause => p.duration == 0.12
       case Breath => false
  }

  /**
   * One step of the English word scan at `wi`: the phoneme read there and
   * the number of letters it consumes. `nucleus` counts the vowel tokens
   * read so far; the one numbered `stressedNucleus` is stressed. `start` is
   * the word's index in the line and `base` the word's declination pitch.
   */
  function EnglishStep(w: seq<char>, wi: nat, nucleus: nat, start: nat, stressedNucleus: nat, base: real, jitter: nat -> real): (r: (Phoneme, nat))
    requires wi < |w|
    ensures 1 <= r.1 <= 2 && wi + r.1 <= |w|
  {
    var stressed := nucleus == stressedNucleus;
    match EnglishTokenAt(w, wi)
    case VowelToken(f, n) =>
      (Phoneme(Vowel, Some(f), None, EnglishVowelDuration(n, stressed), stressed, w[wi..wi + n], start + wi,
               base + (if stressed then 0.06 else 0.0) + jitter(start + wi)), n)
    case ConsonantToken(cc, n) =>
      (Phoneme(Consonant, None, Some(cc), if n == 2 then 0.55 else 0.5, stressed, w[wi..wi + n], start + wi,
               base + jitter(start + wi)), n)
    case UnknownToken =>
      (PauseAt(start + wi, 0.12), 1)
  }

  lemma EnglishStepShape(w: seq<char>, wi: nat, nucleus: nat, start: nat, sn: nat, base: real, jitter: nat -> real)
    requires wi < |w|
    ensures var r := EnglishStep(w, wi, nucleus, start, sn, base, jitter);
      r.0.sourceIndex == start + wi && EnglishWordPhoneme(w, start, r.0)
      && (r.0.ty == Vowel || r.0.ty == Consonant ==> |r.0.sourceChars| == r.1 && r.0.stressed == (nucleus == sn))
  {
  }

  /** The phonemes of one lower-cased English word from position `wi` on. */
  function EnglishScan(w: seq<char>, wi: nat, nucleus: nat, start: nat, stressedNucleus: nat, base: real, jitter: nat -> real): seq<Phoneme>
    decreases |w| - wi, 1
  {
    if wi >= |w| then [] else EnglishScanToken(w, wi, nucleus, start, stressedNucleus, base, jitter)
  }

  /** The phoneme of the token at `wi`, followed by the scan of the rest of the word. */
  function EnglishScanToken(w: seq<char>, wi: nat, nucleus: nat, start: nat, stressedNucleus: nat, base: real, jitter: nat -> real): seq<Phoneme>
    requires wi < |w|
    decreases |w| - wi, 0
  {
    var (p, n) := EnglishStep(w, wi, nucleus, start, stressedNucleus, base, jitter);
    [p] + EnglishScan(w, wi + n, if p.ty == Vowel then nucleus + 1 else nucleus, start, stressedNucleus, base, jitter)
  }

  lemma {:induction false} EnglishScanShape(w: seq<char>, wi: nat, nucleus: nat, start: nat, sn: nat, base: real, jitter: nat -> real)
    ensures forall k :: 0 <= k < |EnglishScan(w, wi, nucleus, start, sn, base, jitter)| ==>
      EnglishWordPhoneme(w, start, EnglishScan(w, wi, nucleus, start, sn, base, jitter)[k])
      && EnglishScan(w, wi, nucleus, start, sn, base, jitter)[k].sourceIndex >= start + wi
    decreases |w| - wi
  {
    if wi < |w| {
      var (p, n) := EnglishStep(w, wi, nucleus, start, sn, base, jitter);
      EnglishStepShape(w, wi, nucleus, start, sn, base, jitter);
      EnglishScanUnfold(w, wi, nucleus, start, sn, base, jitter);
      EnglishScanShape(w, wi + n, if p.ty == Vowel then nucleus + 1 else nucleus, start, sn, base, jitter);
    }
  }

  predicate StressedVowel(p: Phoneme) { p.ty == Vowel && p.stressed }

  predicate AtMostOneStressed(ps: seq<Phoneme>)
  {
    forall a, b :: 0 <= a < b < |ps| ==> !(StressedVowel(ps[a]) && StressedVowel(ps[b]))
  }

  predicate NoneStressed(ps: seq<Phoneme>)
  {
    forall a :: 0 <= a < |ps| ==> !StressedVowel(ps[a])
  }

  /** Prepending one phoneme keeps at most one stressed vowel when a stressed head has no stressed successor. */
  lemma StressCons(p: Phoneme, rest: seq<Phoneme>)
    requires AtMostOneStressed(rest)
    requires StressedVowel(p) ==> NoneStressed(rest)
    ensures AtMostOneStressed([p] + rest)
    ensures !StressedVowel(p) && NoneStressed(rest) ==> NoneStressed([p] + rest)
  {
    var ps := [p] + rest;
    forall a, b | 0 <= a < b < |ps| ensures !(StressedVowel(ps[a]) && StressedVowel(ps[b])) {
      assert ps[b] == rest[b - 1];
      if a > 0 { assert ps[a] == rest[a - 1]; }
    }
    if !StressedVowel(p) && NoneStressed(rest) {
      forall a | 0 <= a < |ps| ensures !StressedVowel(ps[a]) {
        if a > 0 { assert ps[a] == rest[a - 1]; }
      }
    }
  }

  /** Only the vowel token numbered `sn` is stressed. */
  lemma EnglishStepStress(w: seq<char>, wi: nat, nucleus: nat, start: nat, sn: nat, base: real, jitter: nat -> real)
    requires wi < |w|
    ensures StressedVowel(EnglishStep(w, wi, nucleus, start, sn, base, jitter).0) ==> nucleus == sn
  {
    EnglishStepShape(w, wi, nucleus, start, sn, base, jitter);
  }

  /** The stress facts of one phoneme and of the rest of a word combine into those of the whole word. */
  lemma StressGlue(p: Phoneme, rest: seq<Phoneme>, nucleus: nat, sn: nat, next: nat)
    requires AtMostOneStressed(rest) && (sn < next ==> NoneStressed(rest))
    requires StressedVowel(p) ==> nucleus == sn
    requires next == if p.ty == Vowel then nucleus + 1 else nucleus
    ensures AtMostOneStressed([p] + rest)
    ensures sn < nucleus ==> NoneStressed([p] + rest)
  {
    StressCons(p, rest);
  }

  /** At most one vowel of a word is stressed: the vowel token numbered `stressedNucleus`. */
  lemma {:induction false} EnglishScanStress(w: seq<char>, wi: nat, nucleus: nat, start: nat, sn: nat, base: real, jitter: nat -> real)
    ensures AtMostOneStressed(EnglishScan(w, wi, nucleus, start, sn, base, jitter))
    ensures sn < nucleus ==> NoneStressed(EnglishScan(w, wi, nucleus, start, sn, base, jitter))
    decreases |w| - wi
  {
    if wi < |w| {
      var step := EnglishStep(w, wi, nucleus, start, sn, base, jitter);
      var p, n := step.0, step.1;
      EnglishStepStress(w, wi, nucleus, start, sn, base, jitter);
      var next := if p.ty == Vowel then nucleus + 1 else nucleus;
      EnglishScanUnfold(w, wi, nucleus, start, sn, base, jitter);
      var rest := EnglishScan(w, wi + n, next, start, sn, base, jitter);
      EnglishScanStress(w, wi + n, next, start, sn, base, jitter);
      StressGlue(p, rest, nucleus, sn, next);
    }
  }

  lemma EnglishScanUnfold(w: seq<char>, wi: nat, nucleus: nat, start: nat, sn: nat, base: real, jitter: nat -> real)
    requires wi < |w|
    ensures var r := EnglishStep(w, wi, nucleus, start, sn, base, jitter);
      EnglishScan(w, wi, nucleus, start, sn, base, jitter)
      == [r.0] + EnglishScan(w, wi + r.1, if r.0.ty == Vowel then nucleus + 1 else nucleus, start, sn, base, jitter)
  {
  }

  method ScanEnglishWord(w: seq<char>, start: nat, stressedNucleus: nat, base: real, jitter: nat -> real) returns (out: seq<Phoneme>)
    ensures out == EnglishScan(w, 0, 0, start, stressedNucleus, base, jitter)
  {
    out := [];
    var wi := 0;
    var nucleus := 0;
    while wi < |w|
      invariant wi <= |w|
      invariant out + EnglishScan(w, wi, nucleus, start, stressedNucleus, base, jitter) == EnglishScan(w, 0, 0, start, stressedNucleus, base, jitter)
      decreases |w| - wi
    {
      var p, n, next := ReadEnglishToken(w, wi, nucleus, start, stressedNucleus, base, jitter);
      AppendStep(out, [p], EnglishScan(w, wi + n, next, start, stressedNucleus, base, jitter),
        EnglishScan(w, wi, nucleus, start, stressedNucleus, base, jitter), EnglishScan(w, 0, 0, start, stressedNucleus, base, jitter));
      out := out + [p];
      nucleus := next;
      wi := wi + n;
    }
  }

  /** Reads the token at `wi`: its phoneme, its length and the vowel count after it. */
  method ReadEnglishToken(w: seq<char>, wi: nat, nucleus: nat, start: nat, sn: nat, base: real, jitter: nat -> real)
    returns (p: Phoneme, n: nat, next: nat)
    requires wi < |w|
    ensures wi < wi + n <= |w|
    ensures EnglishScan(w, wi, nucleus, start, sn, base, jitter) == [p] + EnglishScan(w, wi + n, next, start, sn, base, jitter)
  {
    var step := EnglishStep(w, wi, nucleus, start, sn, base, jitter);
    p, n := step.0, step.1;
    next := if p.ty == Vowel then nucleus + 1 else nucleus;
    EnglishScanUnfold(w, wi, nucleus, start, sn, base, jitter);
  }

  /** The phonemes of one English word (already lower-cased) starting at text index `start`. */
  function EnglishWord(w: seq<char>, start: nat, progress: real, jitter: nat -> real): seq<Phoneme>
  {
    EnglishScan(w, 0, 0, start, EnglishStressVowelIndex(NucleiFrom(w, 0)), 1.02 - progress * 0.10, jitter)
  }

  // ---------------------------------------------------------------------
  // English text
  // ---------------------------------------------------------------------

  /** The phonemes of the English word starting at `i`, followed by the 0.25 gap at its end. */
  function EnglishWordAt(chars: seq<char>, i: nat, wordIndex: nat, wordCount: nat, jitter: nat -> real): seq<Phoneme>
    requires i <= |chars| && wordCount >= 1
  {
    var e := WordEnd(English, chars, i);
    EnglishWord(ToLower(chars[i..e]), i, WordProgress(wordIndex, wordCount), jitter) + [PauseAt(e, 0.25)]
  }

  /**
   * What the English mapper emits for a character that does not start a word:
   * a pause for whitespace and for a clause mark, a pause and a breath for a
   * sentence end, nothing for anything else.
   */
  function EnglishMark(ch: char, i: nat): seq<Phoneme>
  {
    if IsWhitespace(ch) then [PauseAt(i, 0.35)]
    else if IsPunctPause(ch) then [PauseAt(i, 0.75)]
    else if IsSentenceEnd(ch) then [PauseAt(i, 1.25), BreathAt(i)]
    else []
  }

  /** The English phonemes of `chars` from index `i` on, where `wordIndex` words have been read. */
  function EnglishFrom(chars: seq<char>, i: nat, wordIndex: nat, wordCount: nat, jitter: nat -> real): seq<Phoneme>
    requires wordCount >= 1
    decreases |chars| - i, 1
  {
    if i >= |chars| then []
    else if StartsWord(English, chars[i]) then EnglishWordThen(chars, i, wordIndex, wordCount, jitter)
    else EnglishMark(chars[i], i) + EnglishFrom(chars, i + 1, wordIndex, wordCount, jitter)
  }

  /** The word starting at `i` with its gap, then the rest of the line after it. */
  function EnglishWordThen(chars: seq<char>, i: nat, wordIndex: nat, wordCount: nat, jitter: nat -> real): seq<Phoneme>
    requires i < |chars| && IsWordChar(English, chars[i]) && wordCount >= 1
    decreases |chars| - i, 0
  {
    EnglishWordAt(chars, i, wordIndex, wordCount, jitter)
    + EnglishFrom(chars, WordEnd(English, chars, i), wordIndex + 1, wordCount, jitter)
  }

  function EnglishWordCount(chars: seq<char>): (n: nat)
    ensures n >= 1
  {
    var s := WordStarts(English, chars, |chars|);
    if s == 0 then 1 else s
  }

  function EnglishPhonemes(text: string, jitter: nat -> real): seq<Phoneme>
  {
    EnglishFrom(text, 0, 0, EnglishWordCount(text), jitter)
  }

  method TextToPhonemesEnglish(text: string, jitter: nat -> real) returns (out: seq<Phoneme>)
    ensures out == EnglishPhonemes(text, jitter)
  {
    var wordCount := CountWords(English, text);
    out := SpeakEnglish(text, wordCount, jitter);
  }

  /** The English mapper's loop over the characters of a line. */
  method SpeakEnglish(chars: seq<char>, wordCount: nat, jitter: nat -> real) returns (out: seq<Phoneme>)
    requires wordCount >= 1
    ensures out == EnglishFrom(chars, 0, 0, wordCount, jitter)
  {
    out := [];
    var i := 0;
    var wordIndex := 0;
    while i < |chars|
      invariant i <= |chars|
      invariant out + EnglishFrom(chars, i, wordIndex, wordCount, jitter) == EnglishFrom(chars, 0, 0, wordCount, jitter)
      decreases |chars| - i
    {
      var emitted, next, nextWordIndex := ReadEnglishChar(chars, i, wordIndex, wordCount, jitter);
      AppendStep(out, emitted, EnglishFrom(chars, next, nextWordIndex, wordCount, jitter),
        EnglishFrom(chars, i, wordIndex, wordCount, jitter), EnglishFrom(chars, 0, 0, wordCount, jitter));
      out := out + emitted;
      i := next;
      wordIndex := nextWordIndex;
    }
  }

  /**
   * One turn of the English mapper's loop at character `i`: whitespace and
   * punctuation become pauses (a sentence end also a breath), a word is read
   * whole, anything else is skipped.
   */
  method ReadEnglishChar(chars: seq<char>, i: nat, wordIndex: nat, wordCount: nat, jitter: nat -> real)
    returns (emitted: seq<Phoneme>, next: nat, nextWordIndex: nat)
    requires i < |chars| && wordCount >= 1
    ensures i < next <= |chars|
    ensures EnglishFrom(chars, i, wordIndex, wordCount, jitter) == emitted + EnglishFrom(chars, next, nextWordIndex, wordCount, jitter)
  {
    MarksAreNotWordChars(English, chars[i]);
    var ch := chars[i];
    if IsWhitespace(ch) {
      emitted, next, nextWordIndex := [PauseAt(i, 0.35)], i + 1, wordIndex;
    } else if IsPunctPause(ch) {
      emitted, next, nextWordIndex := [PauseAt(i, 0.75)], i + 1, wordIndex;
    } else if IsSentenceEnd(ch) {
      emitted, next, nextWordIndex := [PauseAt(i, 1.25), BreathAt(i)], i + 1, wordIndex;
    } else if IsWordChar(English, ch) {
      var word, e := ReadEnglishWord(chars, i, wordIndex, wordCount, jitter);
      emitted, next, nextWordIndex := word, e, wordIndex + 1;
    } else {
      emitted, next, nextWordIndex := [], i + 1, wordIndex;
    }
  }

  /** Reads the word starting at `i`: its end, then its phonemes and the gap after it. */
  method ReadEnglishWord(chars: seq<char>, i: nat, wordIndex: nat, wordCount: nat, jitter: nat -> real) returns (word: seq<Phoneme>, e: nat)
    requires i < |chars| && wordCount >= 1
    ensures e == WordEnd(English, chars, i)
    ensures word == EnglishWordAt(chars, i, wordIndex, wordCount, jitter)
  {
    e := FindWordEnd(English, chars, i);
    var lower := ToLower(chars[i..e]);
    var progress := WordProgress(wordIndex, wordCount);
    var spoken := SpeakEnglishWord(lower, i, progress, jitter);
    word := spoken + [PauseAt(e, 0.25)];
  }

  /** A lower-cased English word: its vowel nuclei, the stressed one, then the scan. */
  method SpeakEnglishWord(w: seq<char>, start: nat, progress: real, jitter: nat -> real) returns (ps: seq<Phoneme>)
    ensures ps == EnglishWord(w, start, progress, jitter)
  {
    var nuclei := VowelNuclei(w);
    var stressedNucleus := EnglishStressVowelIndex(nuclei);
    ps := ScanEnglishWord(w, start, stressedNucleus, 1.02 - progress * 0.10, jitter);
  }

  // ---------------------------------------------------------------------
  // Portuguese word scan and text
  // ---------------------------------------------------------------------

  /** Number of vowel clusters in a word, at least 1. */
  function SyllablesFrom(w: seq<char>, k: nat): nat
    decreases |w| - k
  {
    if k >= |w| then 0
    else (if IsPortugueseVowel(w[k]) && (k == 0 || !IsPortugueseVowel(w[k - 1])) then 1 else 0) + SyllablesFrom(w, k + 1)
  }

  method CountSyllables(w: seq<char>) returns (count: nat)
    ensures count == if SyllablesFrom(w, 0) == 0 then 1 else SyllablesFrom(w, 0)
  {
    var c := 0;
    var lastV := false;
    var k := 0;
    while k < |w|
      invariant k <= |w|
      invariant lastV == (k > 0 && IsPortugueseVowel(w[k - 1]))
      invariant c + SyllablesFrom(w, k) == SyllablesFrom(w, 0)
    {
      var v := IsPortugueseVowel(w[k]);
      if v && !lastV {
        c := c + 1;
      }
      lastV := v;
      k := k + 1;
    }
    count := if c == 0 then 1 else c;
  }

  /** What every phoneme produced inside a Portuguese word looks like. */
  predicate PortugueseWordPhoneme(w: seq<char>, start: nat, p: Phoneme)
  {
    WellFormed(p)
    && start <= p.sourceIndex < start + |w|
    && match p.ty
       case Vowel => |p.sourceChars| == 1 && p.duration == (if p.stressed then 1.2 else 0.9)
       case Consonant => p.duration == (if |p.sourceChars| == 2 then 0.6 else 0.5)
       case Pause => p.duration == 0.15
       case Breath => false
  }

  /**
   * One step of the Portuguese word scan at `wi`: the phoneme read there
   * and the number of letters it consumes. `syllable` counts the vowel
   * clusters entered so far; the one numbered `stressedSyllable` is stressed.
   */
  function PortugueseStep(w: seq<char>, wi: nat, syllable: nat, start: nat, stressedSyllable: nat, base: real, jitter: nat -> real): (r: (Phoneme, nat))
    requires wi < |w|
    ensures 1 <= r.1 <= 2 && wi + r.1 <= |w|
  {
    var stressed := syllable == stressedSyllable;
    match PortugueseTokenAt(w, wi)
    case ConsonantToken(cc, n) =>
      (Phoneme(Consonant, None, Some(cc), if n == 2 then 0.6 else 0.5, stressed, w[wi..wi + n], start + wi, base + jitter(start + wi)), n)
    case VowelToken(f, _) =>
      (Phoneme(Vowel, Some(f), None, if stressed then 1.2 else 0.9, stressed, [w[wi]], start + wi,
               base + (if stressed then 0.06 else 0.0) + jitter(start + wi)), 1)
    case UnknownToken =>
      (PauseAt(start + wi, 0.15), 1)
  }

  lemma PortugueseStepShape(w: seq<char>, wi: nat, syllable: nat, start: nat, ss: nat, base: real, jitter: nat -> real)
    requires wi < |w|
    ensures var r := PortugueseStep(w, wi, syllable, start, ss, base, jitter);
      r.0.sourceIndex == start + wi && PortugueseWordPhoneme(w, start, r.0)
      && (r.0.ty == Vowel ==> r.1 == 1)
      && (r.0.ty == Vowel || r.0.ty == Consonant ==> r.0.stressed == (syllable == ss))
  {
  }

  /**
   * The phonemes of one lower-cased Portuguese word from position `wi` on.
   * A vowel that follows a non-vowel opens the next syllable; `lastVowel`
   * says whether the previous letter read was a vowel.
   */
  function PortugueseScan(w: seq<char>, wi: nat, syllable: nat, lastVowel: bool, start: nat, stressedSyllable: nat, base: real, jitter: nat -> real): seq<Phoneme>
    decreases |w| - wi, 1
  {
    if wi >= |w| then [] else PortugueseScanToken(w, wi, syllable, lastVowel, start, stressedSyllable, base, jitter)
  }

  /** The phoneme of the token at `wi`, followed by the scan of the rest of the word. */
  function PortugueseScanToken(w: seq<char>, wi: nat, syllable: nat, lastVowel: bool, start: nat, stressedSyllable: nat, base: real, jitter: nat -> real): seq<Phoneme>
    requires wi < |w|
    decreases |w| - wi, 0
  {
    var (p, n) := PortugueseStep(w, wi, syllable, start, stressedSyllable, base, jitter);
    var isVowel := p.ty == Vowel;
    [p] + PortugueseScan(w, wi + n, if isVowel && !lastVowel then syllable + 1 else syllable, isVowel, start, stressedSyllable, base, jitter)
  }

  lemma {:induction false} PortugueseScanShape(w: seq<char>, wi: nat, syl: nat, lastVowel: bool, start: nat, ss: nat, base: real, jitter: nat -> real)
    ensures forall k :: 0 <= k < |PortugueseScan(w, wi, syl, lastVowel, start, ss, base, jitter)| ==>
      PortugueseWordPhoneme(w, start, PortugueseScan(w, wi, syl, lastVowel, start, ss, base, jitter)[k])
      && PortugueseScan(w, wi, syl, lastVowel, start, ss, base, jitter)[k].sourceIndex >= start + wi
    decreases |w| - wi
  {
    if wi < |w| {
      var step := PortugueseStep(w, wi, syl, start, ss, base, jitter);
      var p, n := step.0, step.1;
      PortugueseStepShape(w, wi, syl, start, ss, base, jitter);
      var isVowel := p.ty == Vowel;
      var next := if isVowel && !lastVowel then syl + 1 else syl;
      PortugueseScanUnfold(w, wi, syl, lastVowel, start, ss, base, jitter);
      PortugueseScanShape(w, wi + n, next, isVowel, start, ss, base, jitter);
    }
  }

  lemma PortugueseScanUnfold(w: seq<char>, wi: nat, syllable: nat, lastVowel: bool, start: nat, ss: nat, base: real, jitter: nat -> real)
    requires wi < |w|
    ensures var r := PortugueseStep(w, wi, syllable, start, ss, base, jitter);
      PortugueseScan(w, wi, syllable, lastVowel, start, ss, base, jitter)
      == [r.0] + PortugueseScan(w, wi + r.1, if r.0.ty == Vowel && !lastVowel then syllable + 1 else syllable, r.0.ty == Vowel, start, ss, base, jitter)
  {
  }

  method ScanPortugueseWord(w: seq<char>, start: nat, stressedSyllable: nat, base: real, jitter: nat -> real) returns (out: seq<Phoneme>)
    ensures out == PortugueseScan(w, 0, 0, false, start, stressedSyllable, base, jitter)
  {
    out := [];
    var wi := 0;
    var syllable := 0;
    var lastVowel := false;
    while wi < |w|
      invariant wi <= |w|
      invariant out + PortugueseScan(w, wi, syllable, lastVowel, start, stressedSyllable, base, jitter)
        == PortugueseScan(w, 0, 0, false, start, stressedSyllable, base, jitter)
      decreases |w| - wi
    {
      var p, n, next, isVowel := ReadPortugueseToken(w, wi, syllable, lastVowel, start, stressedSyllable, base, jitter);
      AppendStep(out, [p], PortugueseScan(w, wi + n, next, isVowel, start, stressedSyllable, base, jitter),
        PortugueseScan(w, wi, syllable, lastVowel, start, stressedSyllable, base, jitter),
        PortugueseScan(w, 0, 0, false, start, stressedSyllable, base, jitter));
      out := out + [p];
      syllable := next;
      lastVowel := isVowel;
      wi := wi + n;
    }
  }

  /** Reads the token at `wi`: its phoneme, its length, the syllable count after it and whether it was a vowel. */
  method ReadPortugueseToken(w: seq<char>, wi: nat, syllable: nat, lastVowel: bool, start: nat, ss: nat, base: real, jitter: nat -> real)
    returns (p: Phoneme, n: nat, next: nat, isVowel: bool)
    requires wi < |w|
    ensures wi < wi + n <= |w|
    ensures PortugueseScan(w, wi, syllable, lastVowel, start, ss, base, jitter)
      == [p] + PortugueseScan(w, wi + n, next, isVowel, start, ss, base, jitter)
  {
    var step := PortugueseStep(w, wi, syllable, start, ss, base, jitter);
    p, n := step.0, step.1;
    isVowel := p.ty == Vowel;
    next := if isVowel && !lastVowel then syllable + 1 else syllable;
    PortugueseScanUnfold(w, wi, syllable, lastVowel, start, ss, base, jitter);
  }

  /** Declination for statements, a rising contour for questions. */
  function PortugueseBasePitch(isQuestion: bool, progress: real): real
  {
    if isQuestion then 1.0 + progress * 0.25 else 1.03 - progress * 0.12
  }

  function PortugueseWord(w: seq<char>, start: nat, isQuestion: bool, progress: real, jitter: nat -> real): seq<Phoneme>
  {
    var syl := if SyllablesFrom(w, 0) == 0 then 1 else SyllablesFrom(w, 0);
    PortugueseScan(w, 0, 0, false, start, PortugueseStressedSyllable(syl), PortugueseBasePitch(isQuestion, progress), jitter)
  }

  /** The phonemes of the Portuguese word starting at `i`, followed by the 0.25 gap at its end. */
  function PortugueseWordAt(chars: seq<char>, i: nat, wordIndex: nat, wordCount: nat, isQuestion: bool, jitter: nat -> real): seq<Phoneme>
    requires i <= |chars| && wordCount >= 1
  {
    var e := WordEnd(Portuguese, chars, i);
    PortugueseWord(ToLower(chars[i..e]), i, isQuestion, WordProgress(wordIndex, wordCount), jitter) + [PauseAt(e, 0.25)]
  }

  /**
   * What the Portuguese mapper emits for a character that does not start a word:
   * a pause for whitespace and for a clause mark, a pause and a breath for a
   * sentence end, nothing for anything else.
   */
  function PortugueseMark(ch: char, i: nat): seq<Phoneme>
  {
    if IsWhitespace(ch) then [PauseAt(i, 0.40)]
    else if IsPunctPause(ch) then [PauseAt(i, 0.8)]
    else if IsSentenceEnd(ch) then [PauseAt(i, if ch == '.' then 1.2 else 1.5), BreathAt(i)]
    else []
  }

  /** The Portuguese phonemes of `chars` from index `i` on, where `wordIndex` words have been read. */
  function PortugueseFrom(chars: seq<char>, i: nat, wordIndex: nat, wordCount: nat, isQuestion: bool, jitter: nat -> real): seq<Phoneme>
    requires wordCount >= 1
    decreases |chars| - i, 1
  {
    if i >= |chars| then []
    else if StartsWord(Portuguese, chars[i]) then PortugueseWordThen(chars, i, wordIndex, wordCount, isQuestion, jitter)
    else PortugueseMark(chars[i], i) + PortugueseFrom(chars, i + 1, wordIndex, wordCount, isQuestion, jitter)
  }

  /** The word starting at `i` with its gap, then the rest of the line after it. */
  function PortugueseWordThen(chars: seq<char>, i: nat, wordIndex: nat, wordCount: nat, isQuestion: bool, jitter: nat -> real): seq<Phoneme>
    requires i < |chars| && IsWordChar(Portuguese, chars[i]) && wordCount >= 1
    decreases |chars| - i, 0
  {
    PortugueseWordAt(chars, i, wordIndex, wordCount, isQuestion, jitter)
    + PortugueseFrom(chars, WordEnd(Portuguese, chars, i), wordIndex + 1, wordCount, isQuestion, jitter)
  }

  /** A line is a question when it ends with '?' once trailing whitespace is dropped. */
  predicate IsQuestion(text: string)
  {
    EndsWith(TrimEnd(text), "?")
  }

  function PortugueseWordCount(chars: seq<char>): (n: nat)
    ensures n >= 1
  {
    var s := WordStarts(Portuguese, chars, |chars|);
    if s == 0 then 1 else s
  }

  function PortuguesePhonemes(text: string, jitter: nat -> real): seq<Phoneme>
  {
    PortugueseFrom(text, 0, 0, PortugueseWordCount(text), IsQuestion(text), jitter)
  }

  method TextToPhonemesPortuguese(text: string, jitter: nat -> real) returns (out: seq<Phoneme>)
    ensures out == PortuguesePhonemes(text, jitter)
  {
    var isQuestion := IsQuestion(text);
    var wordCount := CountWords(Portuguese, text);
    out := SpeakPortuguese(text, wordCount, isQuestion, jitter);
  }

  /** The Portuguese mapper's loop over the characters of a line. */
  method SpeakPortuguese(chars: seq<char>, wordCount: nat, isQuestion: bool, jitter: nat -> real) returns (out: seq<Phoneme>)
    requires wordCount >= 1
    ensures out == PortugueseFrom(chars, 0, 0, wordCount, isQuestion, jitter)
  {
    out := [];
    var i := 0;
    var wordIndex := 0;
    while i < |chars|
      invariant i <= |chars|
      invariant out + PortugueseFrom(chars, i, wordIndex, wordCount, isQuestion, jitter) == PortugueseFrom(chars, 0, 0, wordCount, isQuestion, jitter)
      decreases |chars| - i
    {
      var emitted, next, nextWordIndex := ReadPortugueseChar(chars, i, wordIndex, wordCount, isQuestion, jitter);
      AppendStep(out, emitted, PortugueseFrom(chars, next, nextWordIndex, wordCount, isQuestion, jitter),
        PortugueseFrom(chars, i, wordIndex, wordCount, isQuestion, jitter), PortugueseFrom(chars, 0, 0, wordCount, isQuestion, jitter));
      out := out + emitted;
      i := next;
      wordIndex := nextWordIndex;
    }
  }

  /**
   * One turn of the Portuguese mapper's loop at character `i`: whitespace and
   * punctuation become pauses (a sentence end also a breath), a word is read
   * whole, anything else is skipped.
   */
  method ReadPortugueseChar(chars: seq<char>, i: nat, wordIndex: nat, wordCount: nat, isQuestion: bool, jitter: nat -> real)
    returns (emitted: seq<Phoneme>, next: nat, nextWordIndex: nat)
    requires i < |chars| && wordCount >= 1
    ensures i < next <= |chars|
    ensures PortugueseFrom(chars, i, wordIndex, wordCount, isQuestion, jitter) == emitted + PortugueseFrom(chars, next, nextWordIndex, wordCount, isQuestion, jitter)
  {
    MarksAreNotWordChars(Portuguese, chars[i]);
    var ch := chars[i];
    if IsWhitespace(ch) {
      emitted, next, nextWordIndex := [PauseAt(i, 0.40)], i + 1, wordIndex;
    } else if IsPunctPause(ch) {
      emitted, next, nextWordIndex := [PauseAt(i, 0.8)], i + 1, wordIndex;
    } else if IsSentenceEnd(ch) {
      var d := if ch == '.' then 1.2 else 1.5;
      emitted, next, nextWordIndex := [PauseAt(i, d), BreathAt(i)], i + 1, wordIndex;
    } else if IsWordChar(Portuguese, ch) {
      var word, e := ReadPortugueseWord(chars, i, wordIndex, wordCount, isQuestion, jitter);
      emitted, next, nextWordIndex := word, e, wordIndex + 1;
    } else {
      emitted, next, nextWordIndex := [], i + 1, wordIndex;
    }
  }

  /** Reads the word starting at `i`: its end, its syllables and stress, then its phonemes and the gap after it. */
  method ReadPortugueseWord(chars: seq<char>, i: nat, wordIndex: nat, wordCount: nat, isQuestion: bool, jitter: nat -> real)
    returns (word: seq<Phoneme>, e: nat)
    requires i < |chars| && wordCount >= 1
    ensures e == WordEnd(Portuguese, chars, i)
    ensures word == PortugueseWordAt(chars, i, wordIndex, wordCount, isQuestion, jitter)
  {
    e := FindWordEnd(Portuguese, chars, i);
    var lower := ToLower(chars[i..e]);
    var progress := WordProgress(wordIndex, wordCount);
    var spoken := SpeakPortugueseWord(lower, i, isQuestion, progress, jitter);
    word := spoken + [PauseAt(e, 0.25)];
  }

  /** A lower-cased Portuguese word: its syllable count, the stressed syllable, then the scan. */
  method SpeakPortugueseWord(w: seq<char>, start: nat, isQuestion: bool, progress: real, jitter: nat -> real) returns (ps: seq<Phoneme>)
    ensures ps == PortugueseWord(w, start, isQuestion, progress, jitter)
  {
    var syllables := CountSyllables(w);
    var stressedSyllable := PortugueseStressedSyllable(syllables);
    ps := ScanPortugueseWord(w, start, stressedSyllable, PortugueseBasePitch(isQuestion, progress), jitter);
  }

  /** `PhoneticMapper::text_to_phonemes`: dispatch on the language. */
  method TextToPhonemes(text: string, lang: Language, jitter: nat -> real) returns (out: seq<Phoneme>)
    ensures lang == English ==> out == EnglishPhonemes(text, jitter)
    ensures lang == Portuguese ==> out == PortuguesePhonemes(text, jitter)
  {
    match lang
    case English => out := TextToPhonemesEnglish(text, jitter);
    case Portuguese => out := TextToPhonemesPortuguese(text, jitter);
  }

  // ---------------------------------------------------------------------
  // Properties of whole lines
  // ---------------------------------------------------------------------

  /** Number of sentence-ending marks among the characters from `i` on. */
  function SentenceEndsFrom(chars: seq<char>, i: nat): nat
    decreases |chars| - i
  {
    if i >= |chars| then 0 else (if IsSentenceEnd(chars[i]) then 1 else 0) + SentenceEndsFrom(chars, i + 1)
  }

  /** Number of words starting at or after `i`. */
  function WordStartsFrom(lang: Language, chars: seq<char>, i: nat): nat
    decreases |chars| - i
  {
    if i >= |chars| then 0 else (if IsWordStart(lang, chars, i) then 1 else 0) + WordStartsFrom(lang, chars, i + 1)
  }

  lemma {:induction false} WordStartsSplit(lang: Language, chars: seq<char>, n: nat)
    requires n <= |chars|
    ensures WordStarts(lang, chars, n) + WordStartsFrom(lang, chars, n) == WordStartsFrom(lang, chars, 0)
    decreases n
  {
    if n > 0 { WordStartsSplit(lang, chars, n - 1); }
  }

  lemma {:induction false} NoWordStartInside(lang: Language, chars: seq<char>, i: nat, e: nat)
    requires i < e <= |chars|
    requires forall k :: i <= k < e ==> IsWordChar(lang, chars[k])
    ensures WordStartsFrom(lang, chars, i + 1) == WordStartsFrom(lang, chars, e)
    decreases e - i
  {
    if i + 1 < e { NoWordStartInside(lang, chars, i + 1, e); }
  }

  lemma {:induction false} NoSentenceEndInside(lang: Language, chars: seq<char>, i: nat, e: nat)
    requires i <= e <= |chars|
    requires forall k :: i <= k < e ==> IsWordChar(lang, chars[k])
    ensures SentenceEndsFrom(chars, i) == SentenceEndsFrom(chars, e)
    decreases e - i
  {
    if i < e { NoSentenceEndInside(lang, chars, i + 1, e); }
  }

  /** Phonemes shaped like English word phonemes are well formed, hold no breath or word gap, and point into the word. */
  lemma EnglishWordPhonemesFacts(ps: seq<Phoneme>, w: seq<char>, start: nat)
    requires forall k :: 0 <= k < |ps| ==> EnglishWordPhoneme(w, start, ps[k])
    ensures AllWellFormed(ps) && CountBreaths(ps) == 0 && CountPauses(ps, 0.25) == 0
    ensures IndicesWithin(ps, start, start + |w|)
  {
    NoBreathNoGap(ps, 0.12);
  }

  /** Phonemes shaped like Portuguese word phonemes are well formed, hold no breath or word gap, and point into the word. */
  lemma PortugueseWordPhonemesFacts(ps: seq<Phoneme>, w: seq<char>, start: nat)
    requires forall k :: 0 <= k < |ps| ==> PortugueseWordPhoneme(w, start, ps[k])
    ensures AllWellFormed(ps) && CountBreaths(ps) == 0 && CountPauses(ps, 0.25) == 0
    ensures IndicesWithin(ps, start, start + |w|)
  {
    NoBreathNoGap(ps, 0.15);
  }

  /** A list none of whose elements is a breath, and whose pauses all last `d` (not 0.25), counts no breaths and no word gaps. */
  lemma {:induction false} NoBreathNoGap(ps: seq<Phoneme>, d: real)
    requires d != 0.25
    requires forall k :: 0 <= k < |ps| ==> ps[k].ty != Breath && (ps[k].ty == Pause ==> ps[k].duration == d)
    ensures CountBreaths(ps) == 0 && CountPauses(ps, 0.25) == 0
  {
    if ps != [] { NoBreathNoGap(ps[1..], d); }
  }

  /** Whitespace and punctuation are never part of a word. */
  lemma MarksAreNotWordChars(lang: Language, c: char)
    ensures IsWhitespace(c) || IsPunctPause(c) || IsSentenceEnd(c) ==> !IsWordChar(lang, c)
  {
  }

  /** The index `j` lies on a word boundary: it is neither inside nor in the middle of a word. */
  predicate AtBoundary(lang: Language, chars: seq<char>, j: nat)
    requires j <= |chars|
  {
    j == 0 || j == |chars| || !IsWordChar(lang, chars[j - 1]) || !IsWordChar(lang, chars[j])
  }

  /** The phonemes of one English word are well formed, hold no breath or word gap, and point into the word. */
  lemma EnglishWordFacts(w: seq<char>, start: nat, progress: real, jitter: nat -> real)
    ensures var ps := EnglishWord(w, start, progress, jitter);
      AllWellFormed(ps) && CountBreaths(ps) == 0 && CountPauses(ps, 0.25) == 0 && IndicesWithin(ps, start, start + |w|)
  {
    var sn := EnglishStressVowelIndex(NucleiFrom(w, 0));
    var base := 1.02 - progress * 0.10;
    EnglishScanShape(w, 0, 0, start, sn, base, jitter);
    EnglishWordPhonemesFacts(EnglishScan(w, 0, 0, start, sn, base, jitter), w, start);
  }

  /** One English word with its gap: well formed, no breath, exactly one word gap, indices within the word and its end. */
  lemma EnglishWordAtProperties(chars: seq<char>, i: nat, wordIndex: nat, wordCount: nat, jitter: nat -> real)
    requires i < |chars| && wordCount >= 1
    ensures var ps := EnglishWordAt(chars, i, wordIndex, wordCount, jitter);
      AllWellFormed(ps) && CountBreaths(ps) == 0 && CountPauses(ps, 0.25) == 1
      && IndicesWithin(ps, i, WordEnd(English, chars, i))
  {
    var e := WordEnd(English, chars, i);
    var w := ToLower(chars[i..e]);
    var progress := WordProgress(wordIndex, wordCount);
    EnglishWordFacts(w, i, progress, jitter);
    WordWithGapFacts(EnglishWord(w, i, progress, jitter), i, e);
  }

  /**
   * A character that does not start a word contributes its mark: well formed,
   * pointing at the character, accounting for its own sentence end and for
   * no word start.
   */
  lemma EnglishMarkProperties(chars: seq<char>, i: nat)
    requires i < |chars| && !StartsWord(English, chars[i])
    ensures var ps := EnglishMark(chars[i], i);
      AllWellFormed(ps)
      && CountBreaths(ps) + SentenceEndsFrom(chars, i + 1) == SentenceEndsFrom(chars, i)
      && CountPauses(ps, 0.25) + WordStartsFrom(English, chars, i + 1) == WordStartsFrom(English, chars, i)
      && IndicesWithin(ps, i, i + 1)
      && AtBoundary(English, chars, i + 1)
  {
    var ch := chars[i];
    MarksAreNotWordChars(English, ch);
    assert !IsWordStart(English, chars, i);
    assert WordStartsFrom(English, chars, i) == WordStartsFrom(English, chars, i + 1);
    assert SentenceEndsFrom(chars, i) == (if IsSentenceEnd(ch) then 1 else 0) + SentenceEndsFrom(chars, i + 1);
    var ps := EnglishMark(ch, i);
    if IsSentenceEnd(ch) && !IsWhitespace(ch) && !IsPunctPause(ch) {
      assert ps == [ps[0]] + [BreathAt(i)];
      CountsOfSingle(ps[0], 0.25);
      CountsOfSingle(BreathAt(i), 0.25);
      CountsOfConcat([ps[0]], [BreathAt(i)], 0.25);
    } else if |ps| == 1 {
      CountsOfSingle(ps[0], 0.25);
      assert ps == [ps[0]];
    }
  }

  /**
   * A word read at a word boundary contributes its phonemes and gap: well
   * formed, pointing into the word or at its end, one word gap for its one
   * word start and no breath, since a word holds no sentence end.
   */
  lemma EnglishWordStepProperties(chars: seq<char>, i: nat, wordIndex: nat, wordCount: nat, jitter: nat -> real)
    requires i < |chars| && wordCount >= 1
    requires AtBoundary(English, chars, i) && IsWordChar(English, chars[i])
    ensures var ps := EnglishWordAt(chars, i, wordIndex, wordCount, jitter);
      var e := WordEnd(English, chars, i);
      AllWellFormed(ps)
      && CountBreaths(ps) + SentenceEndsFrom(chars, e) == SentenceEndsFrom(chars, i)
      && CountPauses(ps, 0.25) + WordStartsFrom(English, chars, e) == WordStartsFrom(English, chars, i)
      && IndicesWithin(ps, i, e)
      && AtBoundary(English, chars, e)
  {
    var e := WordEnd(English, chars, i);
    EnglishWordAtProperties(chars, i, wordIndex, wordCount, jitter);
    NoWordStartInside(English, chars, i, e);
    NoSentenceEndInside(English, chars, i, e);
    assert IsWordStart(English, chars, i);
    assert WordStartsFrom(English, chars, i) == 1 + WordStartsFrom(English, chars, i + 1);
  }

  lemma {:induction false} EnglishFromProperties(chars: seq<char>, i: nat, wordIndex: nat, wordCount: nat, jitter: nat -> real)
    requires wordCount >= 1
    requires i <= |chars|
    requires AtBoundary(English, chars, i)
    ensures var ps := EnglishFrom(chars, i, wordIndex, wordCount, jitter);
      AllWellFormed(ps)
      && CountBreaths(ps) == SentenceEndsFrom(chars, i)
      && CountPauses(ps, 0.25) == WordStartsFrom(English, chars, i)
      && IndicesWithin(ps, i, |chars|)
    decreases |chars| - i, 1
  {
    if i < |chars| {
      if StartsWord(English, chars[i]) {
        EnglishFromWord(chars, i, wordIndex, wordCount, jitter);
      } else {
        EnglishFromMark(chars, i, wordIndex, wordCount, jitter);
      }
    }
  }

  /** The induction step of `EnglishFromProperties` at the start of a word. */
  lemma {:induction false} EnglishFromWord(chars: seq<char>, i: nat, wordIndex: nat, wordCount: nat, jitter: nat -> real)
    requires wordCount >= 1
    requires i < |chars| && StartsWord(English, chars[i])
    requires AtBoundary(English, chars, i)
    ensures var ps := EnglishFrom(chars, i, wordIndex, wordCount, jitter);
      AllWellFormed(ps)
      && CountBreaths(ps) == SentenceEndsFrom(chars, i)
      && CountPauses(ps, 0.25) == WordStartsFrom(English, chars, i)
      && IndicesWithin(ps, i, |chars|)
    decreases |chars| - i, 0
  {
    var e := WordEnd(English, chars, i);
    var word := EnglishWordAt(chars, i, wordIndex, wordCount, jitter);
    var rest := EnglishFrom(chars, e, wordIndex + 1, wordCount, jitter);
    assert EnglishFrom(chars, i, wordIndex, wordCount, jitter) == word + rest;
    EnglishWordStepProperties(chars, i, wordIndex, wordCount, jitter);
    EnglishFromProperties(chars, e, wordIndex + 1, wordCount, jitter);
    ConcatFacts(word, rest, i, e, |chars|);
  }

  /** The induction step of `EnglishFromProperties` at a character that does not start a word. */
  lemma {:induction false} EnglishFromMark(chars: seq<char>, i: nat, wordIndex: nat, wordCount: nat, jitter: nat -> real)
    requires wordCount >= 1
    requires i < |chars| && !StartsWord(English, chars[i])
    ensures var ps := EnglishFrom(chars, i, wordIndex, wordCount, jitter);
      AllWellFormed(ps)
      && CountBreaths(ps) == SentenceEndsFrom(chars, i)
      && CountPauses(ps, 0.25) == WordStartsFrom(English, chars, i)
      && IndicesWithin(ps, i, |chars|)
    decreases |chars| - i, 0
  {
    var mark := EnglishMark(chars[i], i);
    var rest := EnglishFrom(chars, i + 1, wordIndex, wordCount, jitter);
    EnglishMarkProperties(chars, i);
    EnglishFromProperties(chars, i + 1, wordIndex, wordCount, jitter);
    ConcatFacts(mark, rest, i, i + 1, |chars|);
  }

  /**
   * Over a whole English line: every phoneme is well formed and points into
   * the line (a word gap may point just past its end), there is one breath
   * per sentence-ending mark and one 0.25 gap per word.
   */
  lemma EnglishLineShape(text: string, jitter: nat -> real)
    ensures var ps := EnglishPhonemes(text, jitter);
      AllWellFormed(ps)
      && CountBreaths(ps) == SentenceEndsFrom(text, 0)
      && CountPauses(ps, 0.25) == WordStarts(English, text, |text|)
      && forall k :: 0 <= k < |ps| ==> ps[k].sourceIndex <= |text|
  {
    EnglishFromProperties(text, 0, 0, EnglishWordCount(text), jitter);
    WordStartsSplit(English, text, |text|);
  }

  /** The phonemes of one Portuguese word are well formed, hold no breath or word gap, and point into the word. */
  lemma PortugueseWordFacts(w: seq<char>, start: nat, q: bool, progress: real, jitter: nat -> real)
    ensures var ps := PortugueseWord(w, start, q, progress, jitter);
      AllWellFormed(ps) && CountBreaths(ps) == 0 && CountPauses(ps, 0.25) == 0 && IndicesWithin(ps, start, start + |w|)
  {
    var syl := if SyllablesFrom(w, 0) == 0 then 1 else SyllablesFrom(w, 0);
    var base := PortugueseBasePitch(q, progress);
    PortugueseScanShape(w, 0, 0, false, start, PortugueseStressedSyllable(syl), base, jitter);
    PortugueseWordPhonemesFacts(PortugueseScan(w, 0, 0, false, start, PortugueseStressedSyllable(syl), base, jitter), w, start);
  }

  /** One Portuguese word with its gap: well formed, no breath, exactly one word gap, indices within the word and its end. */
  lemma PortugueseWordAtProperties(chars: seq<char>, i: nat, wordIndex: nat, wordCount: nat, q: bool, jitter: nat -> real)
    requires i < |chars| && wordCount >= 1
    ensures var ps := PortugueseWordAt(chars, i, wordIndex, wordCount, q, jitter);
      AllWellFormed(ps) && CountBreaths(ps) == 0 && CountPauses(ps, 0.25) == 1
      && IndicesWithin(ps, i, WordEnd(Portuguese, chars, i))
  {
    var e := WordEnd(Portuguese, chars, i);
    var w := ToLower(chars[i..e]);
    var progress := WordProgress(wordIndex, wordCount);
    PortugueseWordFacts(w, i, q, progress, jitter);
    WordWithGapFacts(PortugueseWord(w, i, q, progress, jitter), i, e);
  }

  /**
   * A character that does not start a word contributes its mark: well formed,
   * pointing at the character, accounting for its own sentence end and for
   * no word start.
   */
  lemma PortugueseMarkProperties(chars: seq<char>, i: nat)
    requires i < |chars| && !StartsWord(Portuguese, chars[i])
    ensures var ps := PortugueseMark(chars[i], i);
      AllWellFormed(ps)
      && CountBreaths(ps) + SentenceEndsFrom(chars, i + 1) == SentenceEndsFrom(chars, i)
      && CountPauses(ps, 0.25) + WordStartsFrom(Portuguese, chars, i + 1) == WordStartsFrom(Portuguese, chars, i)
      && IndicesWithin(ps, i, i + 1)
      && AtBoundary(Portuguese, chars, i + 1)
  {
    var ch := chars[i];
    MarksAreNotWordChars(Portuguese, ch);
    assert !IsWordStart(Portuguese, chars, i);
    assert WordStartsFrom(Portuguese, chars, i) == WordStartsFrom(Portuguese, chars, i + 1);
    assert SentenceEndsFrom(chars, i) == (if IsSentenceEnd(ch) then 1 else 0) + SentenceEndsFrom(chars, i + 1);
    var ps := PortugueseMark(ch, i);
    if IsSentenceEnd(ch) && !IsWhitespace(ch) && !IsPunctPause(ch) {
      assert ps == [ps[0]] + [BreathAt(i)];
      CountsOfSingle(ps[0], 0.25);
      CountsOfSingle(BreathAt(i), 0.25);
      CountsOfConcat([ps[0]], [BreathAt(i)], 0.25);
    } else if |ps| == 1 {
      CountsOfSingle(ps[0], 0.25);
      assert ps == [ps[0]];
    }
  }

  /**
   * A word read at a word boundary contributes its phonemes and gap: well
   * formed, pointing into the word or at its end, one word gap for its one
   * word start and no breath, since a word holds no sentence end.
   */
  lemma PortugueseWordStepProperties(chars: seq<char>, i: nat, wordIndex: nat, wordCount: nat, q: bool, jitter: nat -> real)
    requires i < |chars| && wordCount >= 1
    requires AtBoundary(Portuguese, chars, i) && IsWordChar(Portuguese, chars[i])
    ensures var ps := PortugueseWordAt(chars, i, wordIndex, wordCount, q, jitter);
      var e := WordEnd(Portuguese, chars, i);
      AllWellFormed(ps)
      && CountBreaths(ps) + SentenceEndsFrom(chars, e) == SentenceEndsFrom(chars, i)
      && CountPauses(ps, 0.25) + WordStartsFrom(Portuguese, chars, e) == WordStartsFrom(Portuguese, chars, i)
      && IndicesWithin(ps, i, e)
      && AtBoundary(Portuguese, chars, e)
  {
    var e := WordEnd(Portuguese, chars, i);
    PortugueseWordAtProperties(chars, i, wordIndex, wordCount, q, jitter);
    NoWordStartInside(Portuguese, chars, i, e);
    NoSentenceEndInside(Portuguese, chars, i, e);
    assert IsWordStart(Portuguese, chars, i);
    assert WordStartsFrom(Portuguese, chars, i) == 1 + WordStartsFrom(Portuguese, chars, i + 1);
  }

  lemma {:induction false} PortugueseFromProperties(chars: seq<char>, i: nat, wordIndex: nat, wordCount: nat, q: bool, jitter: nat -> real)
    requires wordCount >= 1
    requires i <= |chars|
    requires AtBoundary(Portuguese, chars, i)
    ensures var ps := PortugueseFrom(chars, i, wordIndex, wordCount, q, jitter);
      AllWellFormed(ps)
      && CountBreaths(ps) == SentenceEndsFrom(chars, i)
      && CountPauses(ps, 0.25) == WordStartsFrom(Portuguese, chars, i)
      && IndicesWithin(ps, i, |chars|)
    decreases |chars| - i, 1
  {
    if i < |chars| {
      if StartsWord(Portuguese, chars[i]) {
        PortugueseFromWord(chars, i, wordIndex, wordCount, q, jitter);
      } else {
        PortugueseFromMark(chars, i, wordIndex, wordCount, q, jitter);
      }
    }
  }

  /** The induction step of `PortugueseFromProperties` at the start of a word. */
  lemma {:induction false} PortugueseFromWord(chars: seq<char>, i: nat, wordIndex: nat, wordCount: nat, q: bool, jitter: nat -> real)
    requires wordCount >= 1
    requires i < |chars| && StartsWord(Portuguese, chars[i])
    requires AtBoundary(Portuguese, chars, i)
    ensures var ps := PortugueseFrom(chars, i, wordIndex, wordCount, q, jitter);
      AllWellFormed(ps)
      && CountBreaths(ps) == SentenceEndsFrom(chars, i)
      && CountPauses(ps, 0.25) == WordStartsFrom(Portuguese, chars, i)
      && IndicesWithin(ps, i, |chars|)
    decreases |chars| - i, 0
  {
    var e := WordEnd(Portuguese, chars, i);
    var word := PortugueseWordAt(chars, i, wordIndex, wordCount, q, jitter);
    var rest := PortugueseFrom(chars, e, wordIndex + 1, wordCount, q, jitter);
    assert PortugueseFrom(chars, i, wordIndex, wordCount, q, jitter) == word + rest;
    PortugueseWordStepProperties(chars, i, wordIndex, wordCount, q, jitter);
    PortugueseFromProperties(chars, e, wordIndex + 1, wordCount, q, jitter);
    ConcatFacts(word, rest, i, e, |chars|);
  }

  /** The induction step of `PortugueseFromProperties` at a character that does not start a word. */
  lemma {:induction false} PortugueseFromMark(chars: seq<char>, i: nat, wordIndex: nat, wordCount: nat, q: bool, jitter: nat -> real)
    requires wordCount >= 1
    requires i < |chars| && !StartsWord(Portuguese, chars[i])
    ensures var ps := PortugueseFrom(chars, i, wordIndex, wordCount, q, jitter);
      AllWellFormed(ps)
      && CountBreaths(ps) == SentenceEndsFrom(chars, i)
      && CountPauses(ps, 0.25) == WordStartsFrom(Portuguese, chars, i)
      && IndicesWithin(ps, i, |chars|)
    decreases |chars| - i, 0
  {
    var mark := PortugueseMark(chars[i], i);
    var rest := PortugueseFrom(chars, i + 1, wordIndex, wordCount, q, jitter);
    PortugueseMarkProperties(chars, i);
    PortugueseFromProperties(chars, i + 1, wordIndex, wordCount, q, jitter);
    ConcatFacts(mark, rest, i, i + 1, |chars|);
  }

  /** Over a whole Portuguese line: well-formed phonemes pointing into the line, one breath per sentence end, one 0.25 gap per word. */
  lemma PortugueseLineShape(text: string, jitter: nat -> real)
    ensures var ps := PortuguesePhonemes(text, jitter);
      AllWellFormed(ps)
      && CountBreaths(ps) == SentenceEndsFrom(text, 0)
      && CountPauses(ps, 0.25) == WordStarts(Portuguese, text, |text|)
      && forall k :: 0 <= k < |ps| ==> ps[k].sourceIndex <= |text|
  {
    PortugueseFromProperties(text, 0, 0, PortugueseWordCount(text), IsQuestion(text), jitter);
    WordStartsSplit(Portuguese, text, |text|);
  }
}
