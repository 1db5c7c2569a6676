/**
 * Registering an inventory item with the discovery database: the item's
 * display name becomes a URL-style id ("slug"), its metadata file defaults
 * to one named after the model file, and the discovery entry is upserted
 * as already seen, pointing at the model's first scene.
 */
module ItemSlug {
  import opened Wrappers
  import opened Text
  import opened UiComponents
  import UiSystems

  /** The characters an item id is made of: lower-case ASCII letters, digits and '-'. */
  predicate IsSlugChar(c: char)
  {
    IsAsciiLowerLetter(c) || IsAsciiDigit(c) || c == '-'
  }

  /** What one character of the lower-cased name becomes: kept, a dash, or dropped. */
  function SlugChar(c: char): (r: Option<char>)
    ensures IsAsciiAlphanumeric(c) ==> r == Some(c)
    ensures !IsAsciiAlphanumeric(c) && IsWhitespace(c) ==> r == Some('-')
    ensures !IsAsciiAlphanumeric(c) && !IsWhitespace(c) ==> r.None?
  {
    if IsAsciiAlphanumeric(c) then Some(c)
    else if IsWhitespace(c) then Some('-')
    else None
  }

  /** The characters of `s` mapped by `SlugChar`, the dropped ones left out. */
  function SlugChars(s: string): (r: string)
    ensures |r| <= |s|
    ensures (forall k :: 0 <= k < |s| ==> !IsAsciiUpper(s[k])) ==> forall k :: 0 <= k < |r| ==> IsSlugChar(r[k])
  {
    if s == [] then []
    else
      var rest := SlugChars(s[1..]);
      match SlugChar(s[0])
      case Some(c) => [c] + rest
      case None => rest
  }

  predicate IsAsciiUpper(c: char)
  {
    'A' <= c <= 'Z'
  }

  /** Lower-casing leaves no ASCII capital behind. */
  lemma ToLowerHasNoAsciiUpper(s: string)
    ensures forall k :: 0 <= k < |ToLower(s)| ==> !IsAsciiUpper(ToLower(s)[k])
  {
  }

  /** The item id of a display name: trimmed, lower-cased, then each character kept, dashed or dropped. */
  function IntoId(name: string): (r: string)
    ensures |r| <= |Trim(name)|
    ensures forall k :: 0 <= k < |r| ==> IsSlugChar(r[k])
  {
    ToLowerHasNoAsciiUpper(Trim(name));
    SlugChars(ToLower(Trim(name)))
  }

  /** `SlugChars` works character by character, so it distributes over concatenation. */
  lemma {:induction false} SlugCharsAppend(a: string, b: string)
    ensures SlugChars(a + b) == SlugChars(a) + SlugChars(b)
    decreases |a|
  {
    if a != [] {
      assert (a + b)[0] == a[0];
      assert (a + b)[1..] == a[1..] + b;
      SlugCharsAppend(a[1..], b);
      match SlugChar(a[0])
      case Some(c) =>
        assert SlugChars(a + b) == [c] + SlugChars(a[1..] + b);
        assert SlugChars(a) == [c] + SlugChars(a[1..]);
      case None =>
        assert SlugChars(a + b) == SlugChars(a[1..] + b);
        assert SlugChars(a) == SlugChars(a[1..]);
    } else {
      assert a + b == b;
    }
  }

  /** A word of lower-case ASCII letters and digits. */
  predicate IsPlainWord(s: string)
  {
    forall k :: 0 <= k < |s| ==> IsAsciiLowerLetter(s[k]) || IsAsciiDigit(s[k])
  }

  /** Lower-case letters and digits pass through `SlugChars` unchanged. */
  lemma {:induction false} SlugCharsOfPlainWord(s: string)
    requires IsPlainWord(s)
    ensures SlugChars(s) == s
    decreases |s|
  {
    if s != [] {
      SlugCharsOfPlainWord(s[1..]);
    }
  }

  /** Lower-casing leaves a string without ASCII or Latin-1 capitals alone. */
  lemma ToLowerOfPlainWord(s: string)
    requires IsPlainWord(s)
    ensures ToLower(s) == s
  {
  }

  /** A name that already is a plain lower-case word is its own id. */
  lemma IntoIdOfPlainWord(s: string)
    requires IsPlainWord(s)
    ensures IntoId(s) == s
  {
    if s != [] {
      assert !IsWhitespace(s[0]) && !IsWhitespace(s[|s| - 1]);
    }
    TrimOfTrimmed(s);
    ToLowerOfPlainWord(s);
    SlugCharsOfPlainWord(s);
  }

  /** Two plain words with one whitespace character between them become the words joined by a dash. */
  lemma IntoIdJoinsWords(a: string, c: char, b: string)
    requires IsPlainWord(a) && IsPlainWord(b) && a != [] && b != [] && IsWhitespace(c)
    ensures IntoId(a + [c] + b) == a + "-" + b
  {
    var s := a + [c] + b;
    assert s[0] == a[0] && s[|s| - 1] == b[|b| - 1];
    TrimOfTrimmed(s);
    JoinedIsLower(a, c, b);
    SlugCharsAppend(a + [c], b);
    SlugCharsAppend(a, [c]);
    SlugCharsOfPlainWord(a);
    SlugCharsOfPlainWord(b);
    assert SlugChars([c]) == "-" by {
      assert !IsAsciiAlphanumeric(c);
      assert SlugChars([c]) == [SlugChar(c).value] + SlugChars([c][1..]);
    }
  }

  /** Lower-casing leaves two plain words joined by whitespace alone. */
  lemma JoinedIsLower(a: string, c: char, b: string)
    requires IsPlainWord(a) && IsPlainWord(b) && IsWhitespace(c)
    ensures ToLower(a + [c] + b) == a + [c] + b
  {
    var s := a + [c] + b;
    assert ToLowerChar(c) == c;
    forall k | 0 <= k < |s| ensures ToLowerChar(s[k]) == s[k] {
      if k < |a| {
        assert s[k] == a[k];
      } else if k > |a| {
        assert s[k] == b[k - |a| - 1];
      }
    }
    LowerFixed(s);
  }

  /** Lower-casing leaves a string alone when it leaves each of its characters alone. */
  lemma LowerFixed(s: string)
    requires forall k :: 0 <= k < |s| ==> ToLowerChar(s[k]) == s[k]
    ensures ToLower(s) == s
  {
  }

  /** Whitespace around a name never turns into dashes: padding does not change the id. */
  lemma PaddingIgnored(pad: string, s: string, pad2: string)
    requires AllWhitespace(pad) && AllWhitespace(pad2)
    ensures IntoId(pad + s + pad2) == IntoId(s)
  {
    TrimDropsPrefix(pad, s + pad2);
    assert pad + s + pad2 == pad + (s + pad2);
    TrimDropsSuffix(s, pad2);
  }

  /** Leading whitespace does not survive `trim`. */
  lemma {:induction false} TrimDropsPrefix(pad: string, s: string)
    requires AllWhitespace(pad)
    ensures Trim(pad + s) == Trim(s)
    decreases |pad|
  {
    if pad != [] {
      assert (pad + s)[0] == pad[0] && IsWhitespace(pad[0]);
      assert (pad + s)[1..] == pad[1..] + s;
      assert Trim(pad + s) == Trim(pad[1..] + s);
      TrimDropsPrefix(pad[1..], s);
    } else {
      assert pad + s == s;
    }
  }

  /** Trailing whitespace does not survive `trim`. */
  lemma {:induction false} TrimDropsSuffix(s: string, pad: string)
    requires AllWhitespace(pad)
    ensures Trim(s + pad) == Trim(s)
    decreases |s| + |pad|
  {
    var t := s + pad;
    if pad == [] {
      assert t == s;
    } else if s == [] {
      assert t == pad && AllWhitespace(t);
    } else if IsWhitespace(s[0]) {
      assert t[0] == s[0] && t[1..] == s[1..] + pad;
      TrimDropsSuffix(s[1..], pad);
    } else {
      assert t[0] == s[0];
      assert t[|t| - 1] == pad[|pad| - 1] && IsWhitespace(pad[|pad| - 1]);
      assert t[..|t| - 1] == s + pad[..|pad| - 1];
      TrimDropsSuffix(s, pad[..|pad| - 1]);
    }
  }

  // ---------------------------------------------------------------------
  // The default metadata path
  // ---------------------------------------------------------------------

  /** The path's components, with the empty ones (repeated or trailing '/') and the "." ones dropped. */
  function Components(path: string): (r: seq<string>)
    ensures forall k :: 0 <= k < |r| ==> r[k] != [] && r[k] != "." && '/' !in r[k]
  {
    Normal(Split(path, '/'))
  }

  function Normal(parts: seq<string>): (r: seq<string>)
    requires forall k :: 0 <= k < |parts| ==> '/' !in parts[k]
    ensures forall k :: 0 <= k < |r| ==> r[k] != [] && r[k] != "." && '/' !in r[k]
  {
    if parts == [] then []
    else if parts[0] == [] || parts[0] == "." then Normal(parts[1..])
    else [parts[0]] + Normal(parts[1..])
  }

  /** `Path::file_name`: the last component, none for an empty path, a root or one ending in "..". */
  function FileName(path: string): (r: Option<string>)
    ensures r.Some? ==> r.value != [] && r.value != ".." && '/' !in r.value
  {
    var parts := Components(path);
    if parts == [] || parts[|parts| - 1] == ".." then None else Some(parts[|parts| - 1])
  }

  /**
   * `Path::file_prefix` on a file name: the part before the first dot that
   * is not its first character (a leading dot belongs to the name).
   */
  function FilePrefix(name: string): (r: string)
    requires name != []
    ensures r != [] && |r| <= |name| && r == name[..|r|]
    ensures '.' !in r[1..]
    ensures |r| < |name| ==> name[|r|] == '.'
  {
    match FindChar(name[1..], '.')
    case None => name
    case Some(i) =>
      assert name[..i + 1][1..] == name[1..][..i];
      name[..i + 1]
  }

  /**
   * The metadata path an item uses: the one it names, else
   * `items/<model file prefix>.item.meta`; a model path without a file
   * name is an error.
   */
  function MetadataPath(metadata: Option<string>, model: string): (r: Result<string>)
    ensures metadata.Some? ==> r == Ok(metadata.value)
    ensures metadata.None? ==> (r.Err? <==> FileName(model).None?)
    ensures metadata.None? && r.Ok? ==>
      StartsWith(r.value, "items/") && EndsWith(r.value, ".item.meta")
  {
    if metadata.Some? then Ok(metadata.value)
    else match FileName(model)
      case None => Err("model path has no file name")
      case Some(name) => Ok("items/" + FilePrefix(name) + ".item.meta")
  }

  /** A model stored as `<dir>/<stem>.<ext>` gets the metadata `items/<stem>.item.meta`. */
  lemma DefaultMetadataOfModelFile(dir: string, stem: string, ext: string)
    requires stem != [] && stem != "." && stem[0] != '.' && '.' !in stem && '/' !in stem
    requires '/' !in ext && dir != [] && dir[|dir| - 1] != '/'
    ensures MetadataPath(None, dir + "/" + stem + "." + ext) == Ok("items/" + stem + ".item.meta")
  {
    var path := dir + "/" + stem + "." + ext;
    var name := stem + "." + ext;
    assert '/' !in name && name[0] == stem[0];
    assert path == dir + ['/'] + name;
    LastComponent(dir, name);
    assert name[1..] == stem[1..] + "." + ext;
    assert FindChar(name[1..], '.') == Some(|stem| - 1) by {
      assert name[1..][|stem| - 1] == '.';
      assert name[1..][..|stem| - 1] == stem[1..];
    }
    assert name[..|stem|] == stem;
  }

  /** After a '/', a non-empty name without '/' or "." meaning is the last component. */
  lemma LastComponent(dir: string, name: string)
    requires '/' !in name && name != [] && name != "." && name != ".."
    ensures FileName(dir + ['/'] + name) == Some(name)
  {
    var path := dir + ['/'] + name;
    var parts := Split(dir, '/');
    SplitJoin(dir, '/');
    var all := parts + [name];
    assert forall k :: 0 <= k < |all| ==> '/' !in all[k];
    JoinAppend(parts, name, '/');
    SplitOfJoin(all, '/');
    NormalAppend(parts, name);
  }

  lemma {:induction false} JoinAppend(pieces: seq<string>, last: string, sep: char)
    requires |pieces| >= 1
    ensures Join(pieces + [last], sep) == Join(pieces, sep) + [sep] + last
    decreases |pieces|
  {
    if |pieces| > 1 {
      assert (pieces + [last])[1..] == pieces[1..] + [last];
      JoinAppend(pieces[1..], last, sep);
    }
  }

  lemma {:induction false} NormalAppend(parts: seq<string>, name: string)
    requires forall k :: 0 <= k < |parts| ==> '/' !in parts[k]
    requires '/' !in name && name != [] && name != "."
    ensures Normal(parts + [name]) == Normal(parts) + [name]
    decreases |parts|
  {
    if parts == [] {
      assert Normal([name]) == [name] + Normal([]);
    } else {
      assert (parts + [name])[1..] == parts[1..] + [name];
      NormalAppend(parts[1..], name);
    }
  }

  // ---------------------------------------------------------------------
  // Registering the item
  // ---------------------------------------------------------------------

  /** The metadata file's fields the discovery entry uses. */
  datatype ItemMeta = ItemMeta(name: string, subtitle: string, description: string)

  /** The discovery entry of an item: id from the name, seen, with the model's first scene. */
  function ItemEntry(meta: ItemMeta, model: string): (r: DiscoveryEntry)
    ensures r.id == IntoId(meta.name) && r.title == meta.name
    ensures r.subtitle == meta.subtitle && r.description == meta.description
    ensures r.imagePath.None? && r.modelPath == Some(model + "#Scene0") && r.seen
  {
    NewEntry(IntoId(meta.name), meta.name)
      .WithSubtitle(meta.subtitle)
      .WithDescription(meta.description)
      .WithModelPath(model + "#Scene0")
      .WithSeen(true)
  }

  /** Adding an inventory item upserts its entry among the discovered items and leaves the people alone. */
  method RegisterItem(db: UiSystems.UiDiscoveryDb, meta: ItemMeta, model: string)
    requires db.Valid()
    modifies db
    ensures db.Valid()
    ensures db.items == UiSystems.UpsertList(old(db.items), ItemEntry(meta, model))
    ensures db.npcs == old(db.npcs)
    ensures db.revision == UiSystems.Bump(old(db.revision))
  {
    db.Upsert(Item, ItemEntry(meta, model));
  }
}
