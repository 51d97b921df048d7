/** The Windows registry import document that `create_spore_registry`
    writes for `wine regedit`, in the "Windows Registry Editor Version 5.00"
    .reg format: a header line, then for every key a blank line, the
    bracketed key path and one `name=value` line per value. The installer's
    template is modelled as the four keys it lists, rendered line by line. */
module Registry {
  import opened Wrappers
  import opened PyStr
  import opened WinePaths

  const Header := "Windows Registry Editor Version 5.00"
  /** `HKEY_LOCAL_MACHINE\Software\Wow6432Node\electronic arts\`, written by component. */
  const KeyRoot := "HKEY_LOCAL_MACHINE" + "\\" + "Software" + "\\" + "Wow6432Node" + "\\" + "electronic arts" + "\\"
  const SporeKey := KeyRoot + "spore"
  const ErgcKey := KeyRoot + "ea games" + "\\" + "spore(tm)" + "\\" + "ergc"
  const PartsPackKey := KeyRoot + "SPORE Creepy and Cute Parts Pack"
  const Ep1Key := KeyRoot + "SPORE_EP1"
  /** Left for the game's own installer to fill in. */
  const CdKey := "%CDKEY%"

  // ---------------------------------------------------------------------
  // The document as data.

  /** A value: a string (`"..."`, already escaped) or a hexadecimal dword. */
  datatype RegData = Sz(text: string) | Dword(hex: string)

  /** One `name=value` line; a None name is the key's default value (`@`). */
  datatype RegEntry = RegEntry(name: Option<string>, data: RegData)

  datatype RegKey = RegKey(path: string, entries: seq<RegEntry>)

  datatype RegFile = RegFile(keys: seq<RegKey>)

  /** The four keys the installer writes, in order, for the Spore
      directory `sporePath`. */
  function SporeRegistry(sporePath: string): RegFile
  {
    var w := RegistryPath(sporePath);
    RegFile([SporeBlock(w), ErgcBlock(), PartsPackBlock(w), Ep1Block(w)])
  }

  /** Each block takes `w`, the registry form of the Spore directory. */
  function SporeBlock(w: string): RegKey
  {
    RegKey(SporeKey, [
      RegEntry(Some("appdir"), Sz("Spore")),
      RegEntry(Some("datadir"), Sz(w + "\\\\Data")),
      RegEntry(Some("locale"), Sz("en-us")),
      RegEntry(Some("playerdir"), Sz("My Spore Creations"))])
  }

  function ErgcBlock(): RegKey
  {
    RegKey(ErgcKey, [RegEntry(None, Sz(CdKey))])
  }

  function PartsPackBlock(w: string): RegKey
  {
    RegKey(PartsPackKey, [
      RegEntry(Some("AddOnID"), Dword("00000001")),
      RegEntry(Some("datadir"), Sz(w + "\\\\bp1content" + "\\\\")),
      RegEntry(Some("PackID"), Dword("06f4b5d1"))])
  }

  function Ep1Block(w: string): RegKey
  {
    RegKey(Ep1Key, [
      RegEntry(Some("AddOnID"), Dword("00000002")),
      RegEntry(Some("datadir"), Sz(w + "\\\\DataEP1" + "\\\\")),
      RegEntry(Some("PackID"), Dword("07a7f786")),
      RegEntry(Some("ProductKey"), Sz(CdKey))])
  }

  function EntryLine(e: RegEntry): string
  {
    (match e.name
     case None => "@"
     case Some(n) => "\"" + n + "\"")
    + "="
    + (match e.data
       case Sz(t) => "\"" + t + "\""
       case Dword(h) => "dword:" + h)
  }

  function EntryLines(es: seq<RegEntry>): seq<string>
  {
    if |es| == 0 then [] else [EntryLine(es[0])] + EntryLines(es[1..])
  }

  /** A key block: a blank separator line, the bracketed key path, its values. */
  function KeyLines(k: RegKey): seq<string>
  {
    ["", "[" + k.path + "]"] + EntryLines(k.entries)
  }

  function KeysLines(ks: seq<RegKey>): seq<string>
  {
    if |ks| == 0 then [] else KeyLines(ks[0]) + KeysLines(ks[1..])
  }

  function FileLines(f: RegFile): seq<string>
  {
    [Header] + KeysLines(f.keys)
  }

  /** Text of a line sequence, every line ending in a newline. */
  function JoinLines(ls: seq<string>): string
  {
    if |ls| == 0 then "" else ls[0] + "\n" + JoinLines(ls[1..])
  }

  function Render(f: RegFile): string
  {
    JoinLines(FileLines(f))
  }

  /** The text `create_spore_registry` writes to its temporary .reg file. */
  function RegistryDocument(sporePath: string): string
  {
    Render(SporeRegistry(sporePath))
  }

  // ---------------------------------------------------------------------
  // Reading lines back.

  /** Index of the first newline of `s`, or |s| when there is none. */
  function LineEnd(s: string): (k: nat)
    ensures k <= |s|
    ensures forall j :: 0 <= j < k ==> s[j] != '\n'
    ensures k < |s| ==> s[k] == '\n'
  {
    if |s| == 0 || s[0] == '\n' then 0 else 1 + LineEnd(s[1..])
  }

  /** The lines of a newline-terminated text. */
  function SplitLines(s: string): seq<string>
    decreases |s|
  {
    if |s| == 0 then []
    else
      var k := LineEnd(s);
      if k == |s| then [s] else [s[..k]] + SplitLines(s[k + 1..])
  }

  lemma {:induction false} LineEndOfLine(l: string, rest: string)
    requires '\n' !in l
    ensures LineEnd(l + "\n" + rest) == |l|
  {
    if |l| > 0 {
      assert (l + "\n" + rest)[1..] == l[1..] + "\n" + rest;
      LineEndOfLine(l[1..], rest);
    }
  }

  /** A first line without a newline of its own is split off whole. */
  lemma SplitFirstLine(l: string, rest: string)
    requires '\n' !in l
    ensures SplitLines(l + "\n" + rest) == [l] + SplitLines(rest)
  {
    var s := l + "\n" + rest;
    LineEndOfLine(l, rest);
    assert s[..|l|] == l;
    assert s[|l| + 1..] == rest;
  }

  /** Splitting undoes joining, as long as no line holds a newline itself. */
  lemma {:induction false} SplitJoinLines(ls: seq<string>)
    requires forall i :: 0 <= i < |ls| ==> '\n' !in ls[i]
    ensures SplitLines(JoinLines(ls)) == ls
  {
    if |ls| > 0 {
      assert JoinLines(ls) == ls[0] + "\n" + JoinLines(ls[1..]);
      SplitFirstLine(ls[0], JoinLines(ls[1..]));
      SplitJoinLines(ls[1..]);
      assert ls == [ls[0]] + ls[1..];
    }
  }

  // ---------------------------------------------------------------------
  // Facts about the document.

  lemma {:induction false} JoinLinesAppend(a: seq<string>, b: seq<string>)
    ensures JoinLines(a + b) == JoinLines(a) + JoinLines(b)
  {
    if |a| == 0 {
      assert a + b == b;
    } else {
      assert (a + b)[0] == a[0];
      assert (a + b)[1..] == a[1..] + b;
      JoinLinesAppend(a[1..], b);
    }
  }

  /** A line that opens a key block. */
  predicate IsKeyHeader(l: string)
  {
    |l| > 0 && l[0] == '['
  }

  /** The key-header lines of a line sequence, in order. */
  function KeyHeaderLines(ls: seq<string>): seq<string>
  {
    if |ls| == 0 then []
    else (if IsKeyHeader(ls[0]) then [ls[0]] else []) + KeyHeaderLines(ls[1..])
  }

  lemma {:induction false} KeyHeaderLinesAppend(a: seq<string>, b: seq<string>)
    ensures KeyHeaderLines(a + b) == KeyHeaderLines(a) + KeyHeaderLines(b)
  {
    if |a| == 0 {
      assert a + b == b;
    } else {
      assert (a + b)[0] == a[0];
      assert (a + b)[1..] == a[1..] + b;
      KeyHeaderLinesAppend(a[1..], b);
    }
  }

  /** Value lines start with `@` or `"`, so none of them opens a key. */
  lemma {:induction false} NoHeaderAmongEntries(es: seq<RegEntry>)
    ensures KeyHeaderLines(EntryLines(es)) == []
  {
    if |es| > 0 {
      NoHeaderAmongEntries(es[1..]);
      KeyHeaderLinesAppend([EntryLine(es[0])], EntryLines(es[1..]));
      assert EntryLine(es[0])[0] == '@' || EntryLine(es[0])[0] == '"';
    }
  }

  /** The bracketed paths of a key sequence. */
  function Brackets(ks: seq<RegKey>): seq<string>
  {
    if |ks| == 0 then [] else ["[" + ks[0].path + "]"] + Brackets(ks[1..])
  }

  /** Every key of a document contributes exactly one header line, in key order. */
  lemma {:induction false} KeyHeadersOfKeys(ks: seq<RegKey>)
    ensures KeyHeaderLines(KeysLines(ks)) == Brackets(ks)
  {
    if |ks| > 0 {
      var k := ks[0];
      KeyHeadersOfKeys(ks[1..]);
      KeyHeaderLinesAppend(KeyLines(k), KeysLines(ks[1..]));
      KeyHeaderLinesAppend(["", "[" + k.path + "]"], EntryLines(k.entries));
      NoHeaderAmongEntries(k.entries);
      assert ["", "[" + k.path + "]"] == [""] + ["[" + k.path + "]"];
      KeyHeaderLinesAppend([""], ["[" + k.path + "]"]);
    }
  }

  /** The character `c` appears in no name or value of the entry. */
  predicate EntryFreeOf(e: RegEntry, c: char)
  {
    (e.name.Some? ==> NoChar(e.name.value, c)) &&
    (e.data.Sz? ==> NoChar(e.data.text, c)) &&
    (e.data.Dword? ==> NoChar(e.data.hex, c))
  }

  predicate KeyFreeOf(k: RegKey, c: char)
  {
    NoChar(k.path, c) && forall j :: 0 <= j < |k.entries| ==> EntryFreeOf(k.entries[j], c)
  }

  /** The character `c` appears in no key path, value name or value of `f`. */
  predicate FreeOf(f: RegFile, c: char)
  {
    forall i :: 0 <= i < |f.keys| ==> KeyFreeOf(f.keys[i], c)
  }

  /** Characters the .reg syntax itself writes within a line. */
  predicate SyntaxChar(c: char)
  {
    c in "[]@\"=dword:" || c in Header
  }

  lemma {:induction false} EntryLinesFree(es: seq<RegEntry>, c: char)
    requires !SyntaxChar(c)
    requires forall j :: 0 <= j < |es| ==> EntryFreeOf(es[j], c)
    ensures forall i :: 0 <= i < |EntryLines(es)| ==> c !in EntryLines(es)[i]
  {
    if |es| > 0 {
      EntryLinesFree(es[1..], c);
      assert EntryFreeOf(es[0], c);
      assert forall i :: 1 <= i < |EntryLines(es)| ==> EntryLines(es)[i] == EntryLines(es[1..])[i - 1];
    }
  }

  lemma {:induction false} KeysLinesFree(ks: seq<RegKey>, c: char)
    requires !SyntaxChar(c)
    requires FreeOf(RegFile(ks), c)
    ensures forall i :: 0 <= i < |KeysLines(ks)| ==> c !in KeysLines(ks)[i]
  {
    if |ks| > 0 {
      var k := ks[0];
      assert KeyFreeOf(k, c);
      assert FreeOf(RegFile(ks[1..]), c) by {
        forall i | 0 <= i < |ks[1..]| ensures KeyFreeOf(ks[1..][i], c) {
          assert ks[1..][i] == ks[i + 1];
        }
      }
      KeysLinesFree(ks[1..], c);
      EntryLinesFree(k.entries, c);
      var kl := KeyLines(k);
      assert forall i :: 2 <= i < |kl| ==> kl[i] == EntryLines(k.entries)[i - 2];
      assert forall i :: |kl| <= i < |KeysLines(ks)| ==> KeysLines(ks)[i] == KeysLines(ks[1..])[i - |kl|];
    }
  }

  /** A character that neither the syntax nor any content of `f` uses is
      absent from every rendered line. */
  lemma FileLinesFree(f: RegFile, c: char)
    requires !SyntaxChar(c)
    requires FreeOf(f, c)
    ensures forall i :: 0 <= i < |FileLines(f)| ==> c !in FileLines(f)[i]
  {
    KeysLinesFree(f.keys, c);
  }

  lemma {:induction false} JoinLinesFree(ls: seq<string>, c: char)
    requires c != '\n'
    requires forall i :: 0 <= i < |ls| ==> c !in ls[i]
    ensures c !in JoinLines(ls)
  {
    if |ls| > 0 {
      JoinLinesFree(ls[1..], c);
    }
  }

  /** The Spore document contains no '/' at all, and no newline beyond its
      line ends unless the host path brings one. */
  lemma SporeRegistryFree(sporePath: string, c: char)
    requires c == '/' || (c == '\n' && '\n' !in sporePath)
    ensures FreeOf(SporeRegistry(sporePath), c)
  {
    ReplaceCharSources(sporePath, '/', "\\\\");
    var w := RegistryPath(sporePath);
    assert c !in w;
    assert NoChar(w, c);
    BlocksFree(w, c);
    var ks := SporeRegistry(sporePath).keys;
    assert ks == [SporeBlock(w), ErgcBlock(), PartsPackBlock(w), Ep1Block(w)];
  }

  lemma BlocksFree(w: string, c: char)
    requires c == '/' || c == '\n'
    requires NoChar(w, c)
    ensures KeyFreeOf(SporeBlock(w), c) && KeyFreeOf(ErgcBlock(), c)
    ensures KeyFreeOf(PartsPackBlock(w), c) && KeyFreeOf(Ep1Block(w), c)
  {
    SporeBlockFree(w, c);
    ErgcBlockFree(c);
    PartsPackBlockFree(w, c);
    Ep1BlockFree(w, c);
  }

  lemma KeyRootFree(c: char)
    requires c == '/' || c == '\n'
    ensures NoChar(KeyRoot, c)
  {
    KeyRootComponentsFree(c);
    PathOfFourFree("HKEY_LOCAL_MACHINE", "Software", "Wow6432Node", "electronic arts", "\\", c);
  }

  lemma KeyRootComponentsFree(c: char)
    requires c == '/' || c == '\n'
    ensures NoChar("HKEY_LOCAL_MACHINE", c) && NoChar("Software", c)
    ensures NoChar("Wow6432Node", c) && NoChar("electronic arts", c) && NoChar("\\", c)
  {
  }

  /** Four components, each followed by the separator `sep`. */
  lemma PathOfFourFree(a: string, b: string, d: string, e: string, sep: string, c: char)
    requires NoChar(a, c) && NoChar(b, c) && NoChar(d, c) && NoChar(e, c) && NoChar(sep, c)
    ensures NoChar(a + sep + b + sep + d + sep + e + sep, c)
  {
    NoCharAppend(a, sep, c);
    NoCharAppend(a + sep, b, c);
    NoCharAppend(a + sep + b, sep, c);
    NoCharAppend(a + sep + b + sep, d, c);
    NoCharAppend(a + sep + b + sep + d, sep, c);
    NoCharAppend(a + sep + b + sep + d + sep, e, c);
    NoCharAppend(a + sep + b + sep + d + sep + e, sep, c);
  }

  lemma KeySuffixesFree(c: char)
    requires c == '/' || c == '\n'
    ensures NoChar("spore", c) && NoChar("SPORE_EP1", c)
    ensures NoChar("ea games" + "\\" + "spore(tm)" + "\\" + "ergc", c)
    ensures NoChar("SPORE Creepy and Cute Parts Pack", c)
  {
  }

  lemma KeyPathsFree(c: char)
    requires c == '/' || c == '\n'
    ensures NoChar(SporeKey, c) && NoChar(ErgcKey, c) && NoChar(PartsPackKey, c) && NoChar(Ep1Key, c)
  {
    KeyRootFree(c);
    KeySuffixesFree(c);
    NoCharAppend(KeyRoot, "spore", c);
    NoCharAppend(KeyRoot, "ea games" + "\\" + "spore(tm)" + "\\" + "ergc", c);
    assert ErgcKey == KeyRoot + ("ea games" + "\\" + "spore(tm)" + "\\" + "ergc");
    NoCharAppend(KeyRoot, "SPORE Creepy and Cute Parts Pack", c);
    NoCharAppend(KeyRoot, "SPORE_EP1", c);
  }

  /** The names and fixed values of the template, one lemma per key. */
  lemma SporeLiteralsFree(c: char)
    requires c == '/' || c == '\n'
    ensures NoChar("appdir", c) && NoChar("Spore", c) && NoChar("\\\\Data", c)
    ensures NoChar("locale", c) && NoChar("en-us", c)
    ensures NoChar("playerdir", c) && NoChar("My Spore Creations", c)
    ensures NoChar("datadir", c) && NoChar(CdKey, c)
  {
  }

  lemma PackLiteralsFree(c: char)
    requires c == '/' || c == '\n'
    ensures NoChar("AddOnID", c) && NoChar("PackID", c) && NoChar("ProductKey", c)
    ensures NoChar("00000001", c) && NoChar("00000002", c)
    ensures NoChar("06f4b5d1", c) && NoChar("07a7f786", c)
    ensures NoChar("\\\\bp1content" + "\\\\", c) && NoChar("\\\\DataEP1" + "\\\\", c)
  {
  }

  lemma SporeBlockFree(w: string, c: char)
    requires c == '/' || c == '\n'
    requires NoChar(w, c)
    ensures KeyFreeOf(SporeBlock(w), c)
  {
    KeyPathsFree(c);
    SporeLiteralsFree(c);
    NoCharAppend(w, "\\\\Data", c);
    var es := SporeBlock(w).entries;
    assert EntryFreeOf(es[0], c) && EntryFreeOf(es[1], c);
    assert EntryFreeOf(es[2], c) && EntryFreeOf(es[3], c);
  }

  lemma ErgcBlockFree(c: char)
    requires c == '/' || c == '\n'
    ensures KeyFreeOf(ErgcBlock(), c)
  {
    KeyPathsFree(c);
    SporeLiteralsFree(c);
  }

  lemma PartsPackBlockFree(w: string, c: char)
    requires c == '/' || c == '\n'
    requires NoChar(w, c)
    ensures KeyFreeOf(PartsPackBlock(w), c)
  {
    KeyPathsFree(c);
    SporeLiteralsFree(c);
    PackLiteralsFree(c);
    NoCharAppend(w, "\\\\bp1content" + "\\\\", c);
    assert w + "\\\\bp1content" + "\\\\" == w + ("\\\\bp1content" + "\\\\");
    var es := PartsPackBlock(w).entries;
    assert EntryFreeOf(es[0], c) && EntryFreeOf(es[1], c) && EntryFreeOf(es[2], c);
  }

  lemma Ep1BlockFree(w: string, c: char)
    requires c == '/' || c == '\n'
    requires NoChar(w, c)
    ensures KeyFreeOf(Ep1Block(w), c)
  {
    KeyPathsFree(c);
    SporeLiteralsFree(c);
    PackLiteralsFree(c);
    NoCharAppend(w, "\\\\DataEP1" + "\\\\", c);
    assert w + "\\\\DataEP1" + "\\\\" == w + ("\\\\DataEP1" + "\\\\");
    var es := Ep1Block(w).entries;
    assert EntryFreeOf(es[0], c) && EntryFreeOf(es[1], c);
    assert EntryFreeOf(es[2], c) && EntryFreeOf(es[3], c);
  }

  // ---------------------------------------------------------------------
  // The document as the installer promises it.

  /** The document opens with the format header line. */
  lemma DocumentStartsWithHeader(sporePath: string)
    ensures RegistryDocument(sporePath)[..|Header| + 1] == Header + "\n"
  {
    var ls := FileLines(SporeRegistry(sporePath));
    assert RegistryDocument(sporePath) == Header + "\n" + JoinLines(ls[1..]);
  }

  /** The document lists exactly the four Spore keys, in the template's order. */
  lemma DocumentKeyOrder(sporePath: string)
    ensures KeyHeaderLines(FileLines(SporeRegistry(sporePath))) ==
              ["[" + SporeKey + "]", "[" + ErgcKey + "]", "[" + PartsPackKey + "]", "[" + Ep1Key + "]"]
  {
    var ks := SporeRegistry(sporePath).keys;
    KeyHeaderLinesAppend([Header], KeysLines(ks));
    assert KeyHeaderLines([Header]) == [];
    KeyHeadersOfKeys(ks);
    BracketsOfFour(ks);
  }

  lemma BracketsOfFour(ks: seq<RegKey>)
    requires |ks| == 4
    ensures Brackets(ks) == ["[" + ks[0].path + "]", "[" + ks[1].path + "]", "[" + ks[2].path + "]", "[" + ks[3].path + "]"]
  {
    assert Brackets(ks[3..]) == ["[" + ks[3].path + "]"];
    assert Brackets(ks[2..]) == ["[" + ks[2].path + "]"] + Brackets(ks[3..]);
    assert Brackets(ks[1..]) == ["[" + ks[1].path + "]"] + Brackets(ks[2..]);
  }

  /** A host path without newlines leaves the document's line structure
      intact: read back line by line, the text gives the rendered lines,
      and so the header first and the four key headers in order. */
  lemma DocumentReadsBack(sporePath: string)
    requires '\n' !in sporePath
    ensures SplitLines(RegistryDocument(sporePath)) == FileLines(SporeRegistry(sporePath))
    ensures SplitLines(RegistryDocument(sporePath))[0] == Header
    ensures KeyHeaderLines(SplitLines(RegistryDocument(sporePath))) ==
              ["[" + SporeKey + "]", "[" + ErgcKey + "]", "[" + PartsPackKey + "]", "[" + Ep1Key + "]"]
  {
    var f := SporeRegistry(sporePath);
    SporeRegistryFree(sporePath, '\n');
    FileLinesFree(f, '\n');
    SplitJoinLines(FileLines(f));
    DocumentKeyOrder(sporePath);
  }

  /** Every path in the document is in registry form: it has no '/'. */
  lemma DocumentHasNoSlash(sporePath: string)
    ensures '/' !in RegistryDocument(sporePath)
  {
    var f := SporeRegistry(sporePath);
    SporeRegistryFree(sporePath, '/');
    FileLinesFree(f, '/');
    JoinLinesFree(FileLines(f), '/');
  }

  /** Where the unresolved `%CDKEY%` placeholder stands: (key path, value name). */
  function Placeholders(ks: seq<RegKey>): seq<(string, Option<string>)>
  {
    if |ks| == 0 then [] else PlaceholdersIn(ks[0].path, ks[0].entries) + Placeholders(ks[1..])
  }

  function PlaceholdersIn(path: string, es: seq<RegEntry>): seq<(string, Option<string>)>
  {
    if |es| == 0 then []
    else (if es[0].data == Sz(CdKey) then [(path, es[0].name)] else []) + PlaceholdersIn(path, es[1..])
  }

  /** A value in registry path form never equals the placeholder: it begins
      with the drive letter. */
  lemma DriveValueIsNotPlaceholder(w: string, suffix: string)
    requires |w| >= 1 && w[0] == 'Z'
    ensures Sz(w + suffix) != Sz(CdKey)
  {
    assert (w + suffix)[0] == 'Z' != CdKey[0];
  }

  lemma SporeBlockPlaceholders(w: string)
    requires |w| >= 1 && w[0] == 'Z'
    ensures PlaceholdersIn(SporeKey, SporeBlock(w).entries) == []
  {
    DriveValueIsNotPlaceholder(w, "\\\\Data");
    var es := SporeBlock(w).entries;
    assert PlaceholdersIn(SporeKey, es[3..]) == [];
    assert PlaceholdersIn(SporeKey, es[2..]) == [];
    assert PlaceholdersIn(SporeKey, es[1..]) == [];
  }

  lemma PartsPackBlockPlaceholders(w: string)
    requires |w| >= 1 && w[0] == 'Z'
    ensures PlaceholdersIn(PartsPackKey, PartsPackBlock(w).entries) == []
  {
    DriveValueIsNotPlaceholder(w, "\\\\bp1content" + "\\\\");
    assert w + "\\\\bp1content" + "\\\\" == w + ("\\\\bp1content" + "\\\\");
    var es := PartsPackBlock(w).entries;
    assert PlaceholdersIn(PartsPackKey, es[2..]) == [];
    assert PlaceholdersIn(PartsPackKey, es[1..]) == [];
  }

  lemma Ep1BlockPlaceholders(w: string)
    requires |w| >= 1 && w[0] == 'Z'
    ensures PlaceholdersIn(Ep1Key, Ep1Block(w).entries) == [(Ep1Key, Some("ProductKey"))]
  {
    DriveValueIsNotPlaceholder(w, "\\\\DataEP1" + "\\\\");
    assert w + "\\\\DataEP1" + "\\\\" == w + ("\\\\DataEP1" + "\\\\");
    var es := Ep1Block(w).entries;
    assert PlaceholdersIn(Ep1Key, es[3..]) == [(Ep1Key, Some("ProductKey"))];
    assert PlaceholdersIn(Ep1Key, es[2..]) == [(Ep1Key, Some("ProductKey"))];
    assert PlaceholdersIn(Ep1Key, es[1..]) == [(Ep1Key, Some("ProductKey"))];
  }

  /** `%CDKEY%` is left unresolved exactly twice: as the default value of the
      ergc key and as the EP1 product key. */
  lemma CdKeyPlaceholders(sporePath: string)
    ensures Placeholders(SporeRegistry(sporePath).keys) == [(ErgcKey, None), (Ep1Key, Some("ProductKey"))]
  {
    var w := RegistryPath(sporePath);
    assert w[..4] == "Z:\\\\" && w[0] == w[..4][0];
    SporeBlockPlaceholders(w);
    PartsPackBlockPlaceholders(w);
    Ep1BlockPlaceholders(w);
    var ks := SporeRegistry(sporePath).keys;
    assert PlaceholdersIn(ErgcKey, ErgcBlock().entries) == [(ErgcKey, None)];
    assert Placeholders(ks[3..]) == [(Ep1Key, Some("ProductKey"))];
    assert Placeholders(ks[2..]) == [(Ep1Key, Some("ProductKey"))];
    assert Placeholders(ks[1..]) == [(ErgcKey, None), (Ep1Key, Some("ProductKey"))];
  }

  /** The value a registry reader finds under `key` for the value `name`:
      the first matching key, then its first matching value. */
  function Lookup(ks: seq<RegKey>, key: string, name: string): Option<RegData>
  {
    if |ks| == 0 then None
    else if ks[0].path == key then LookupIn(ks[0].entries, name)
    else Lookup(ks[1..], key, name)
  }

  function LookupIn(es: seq<RegEntry>, name: string): Option<RegData>
  {
    if |es| == 0 then None
    else if es[0].name == Some(name) then Some(es[0].data)
    else LookupIn(es[1..], name)
  }

  /** The four key paths are pairwise distinct (they differ in length). */
  lemma KeyPathsDistinct()
    ensures |SporeKey| == |KeyRoot| + 5 && |ErgcKey| == |KeyRoot| + 23
    ensures |PartsPackKey| == |KeyRoot| + 32 && |Ep1Key| == |KeyRoot| + 9
  {
  }

  /** The `datadir` of the spore key: the Spore directory followed by `\\Data`. */
  lemma SporeDatadir(sporePath: string)
    ensures Lookup(SporeRegistry(sporePath).keys, SporeKey, "datadir")
              == Some(Sz(RegistryPath(sporePath) + "\\\\Data"))
  {
    var es := SporeBlock(RegistryPath(sporePath)).entries;
    assert |"appdir"| != |"datadir"|;
    assert LookupIn(es, "datadir") == LookupIn(es[1..], "datadir");
  }

  /** The `datadir` of the parts pack key: the Spore directory followed by `\\bp1content\\`. */
  lemma PartsPackDatadir(sporePath: string)
    ensures Lookup(SporeRegistry(sporePath).keys, PartsPackKey, "datadir")
              == Some(Sz(RegistryPath(sporePath) + "\\\\bp1content" + "\\\\"))
  {
    var w := RegistryPath(sporePath);
    var ks := SporeRegistry(sporePath).keys;
    KeyPathsDistinct();
    assert Lookup(ks, PartsPackKey, "datadir") == Lookup(ks[1..], PartsPackKey, "datadir");
    assert Lookup(ks[1..], PartsPackKey, "datadir") == Lookup(ks[2..], PartsPackKey, "datadir");
    var es := PartsPackBlock(w).entries;
    assert "AddOnID"[0] != "datadir"[0];
    assert LookupIn(es, "datadir") == LookupIn(es[1..], "datadir");
  }

  /** The `datadir` of the EP1 key: the Spore directory followed by `\\DataEP1\\`. */
  lemma Ep1Datadir(sporePath: string)
    ensures Lookup(SporeRegistry(sporePath).keys, Ep1Key, "datadir")
              == Some(Sz(RegistryPath(sporePath) + "\\\\DataEP1" + "\\\\"))
  {
    var w := RegistryPath(sporePath);
    var ks := SporeRegistry(sporePath).keys;
    KeyPathsDistinct();
    assert Lookup(ks, Ep1Key, "datadir") == Lookup(ks[1..], Ep1Key, "datadir");
    assert Lookup(ks[1..], Ep1Key, "datadir") == Lookup(ks[2..], Ep1Key, "datadir");
    assert Lookup(ks[2..], Ep1Key, "datadir") == Lookup(ks[3..], Ep1Key, "datadir");
    var es := Ep1Block(w).entries;
    assert "AddOnID"[0] != "datadir"[0];
    assert LookupIn(es, "datadir") == LookupIn(es[1..], "datadir");
  }

  /** Escaping leaves a backslash-free word unchanged. */
  lemma EscapeWord(a: string)
    requires '\\' !in a
    ensures Escape(a) == a
  {
    ReplaceAbsentPattern(a, "\\", "\\\\", '\\');
  }

  /** The escaped forms of `\word` and `\word\`. */
  lemma EscapeFramed(a: string)
    requires '\\' !in a
    ensures Escape("\\" + a) == "\\\\" + a
    ensures Escape("\\" + a + "\\") == "\\\\" + a + "\\\\"
  {
    EscapeWord(a);
    ReplaceCharSingle('\\', '\\', "\\\\");
    ReplaceCharAppend("\\", a, '\\', "\\\\");
    ReplaceCharAppend("\\" + a, "\\", '\\', "\\\\");
  }

  /** A `\word` or `\word\` suffix after the Spore directory reads back, once
      unescaped, as the display path with that suffix. */
  lemma StoredSuffix(sporePath: string, a: string)
    requires '\\' !in sporePath && '\\' !in a
    ensures Unescape(RegistryPath(sporePath) + "\\\\" + a) == DisplayPath(sporePath) + "\\" + a
    ensures Unescape(RegistryPath(sporePath) + "\\\\" + a + "\\\\") == DisplayPath(sporePath) + "\\" + a + "\\"
  {
    var w := RegistryPath(sporePath);
    var d := DisplayPath(sporePath);
    EscapeFramed(a);
    RegistryReadsAsDisplay(sporePath, "\\" + a);
    assert w + "\\\\" + a == w + ("\\\\" + a);
    assert d + "\\" + a == d + ("\\" + a);
    StoredFramed(sporePath, a);
  }

  lemma StoredFramed(sporePath: string, a: string)
    requires '\\' !in sporePath && '\\' !in a
    ensures Unescape(RegistryPath(sporePath) + "\\\\" + a + "\\\\") == DisplayPath(sporePath) + "\\" + a + "\\"
  {
    var w := RegistryPath(sporePath);
    var d := DisplayPath(sporePath);
    EscapeFramed(a);
    RegistryReadsAsDisplay(sporePath, "\\" + a + "\\");
    assert w + "\\\\" + a + "\\\\" == w + ("\\\\" + a + "\\\\");
    assert d + "\\" + a + "\\" == d + ("\\" + a + "\\");
  }

  /** What the registry stores for the three `datadir` values once the
      importer undoes the escaping: the display form of the Spore directory
      followed by `\Data`, `\bp1content\` and `\DataEP1\`. Holds whenever the
      host path has no backslash of its own. */
  lemma DatadirValuesAsStored(sporePath: string)
    requires '\\' !in sporePath
    ensures Unescape(RegistryPath(sporePath) + "\\\\" + "Data") == DisplayPath(sporePath) + "\\" + "Data"
    ensures Unescape(RegistryPath(sporePath) + "\\\\" + "bp1content" + "\\\\")
              == DisplayPath(sporePath) + "\\" + "bp1content" + "\\"
    ensures Unescape(RegistryPath(sporePath) + "\\\\" + "DataEP1" + "\\\\")
              == DisplayPath(sporePath) + "\\" + "DataEP1" + "\\"
  {
    StoredSuffix(sporePath, "Data");
    StoredSuffix(sporePath, "bp1content");
    StoredSuffix(sporePath, "DataEP1");
  }
}
