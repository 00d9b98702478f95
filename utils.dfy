/** Path, file-name and preference rules of utils.py: which Word Wise database a book
    uses, where the Wiktionary files live, when word-sense disambiguation (WSD) is on,
    the spaCy model version, the languages table, `sys.path` insertion and the
    preference dump. */
module Utils {
  import opened Common
  import opened Host

  const ProficiencyVersion := "1.0.0"
  const ProficiencyReleaseUrl := "https://github.com/xxyzz/Proficiency/releases/download/v" + ProficiencyVersion
  /** `PROFICIENCY_VERSION.split(".", 1)[0]` */
  const ProficiencyMajorVersion := MajorVersion(ProficiencyVersion)
  const WsdLanguages: set<string> := {"en-en"}

  /** The text before the first dot (all of `v` when there is none). */
  function MajorVersion(v: string): (r: string)
    ensures StartsWith(v, r) && '.' !in r
    ensures |r| < |v| ==> v[|r|] == '.'
  {
    if v == [] || v[0] == '.' then [] else [v[0]] + MajorVersion(v[1..])
  }

  lemma ProficiencyMajorVersionIsOne()
    ensures ProficiencyMajorVersion == "1"
  {
    assert ProficiencyVersion[1] == '.';
    assert MajorVersion(ProficiencyVersion[1..]) == [];
  }

  /** `custom_lemmas_folder`: the `worddumb-lemmas` folder beside the plugin (utils.py:96-97). */
  function CustomLemmasFolder(pluginDir: string): string {
    Join(pluginDir, "worddumb-lemmas")
  }

  /** The folder `pip` installs packages into for a Python version (utils.py:85-87, deps.py:52). */
  function LibsDirName(pyVersion: string): string {
    "worddumb-libs-py" + pyVersion
  }

  /** Kindle books use the Kindle Word Wise database (utils.py:100-105). */
  predicate UseKindleWwDb(lemmaLang: string, p: Prefs)
    requires WellTyped(p)
  {
    lemmaLang == "en" && GlossLang(p) in ["en", "zh", "zh_cn"] && !UseWiktionaryForKindle(p)
  }

  /** utils.py:197-198 */
  predicate IsWsdEnabled(p: Prefs, lemmaLang: string)
    requires WellTyped(p)
  {
    TestWsd(p) && lemmaLang + "-" + GlossLang(p) in WsdLanguages
  }

  lemma DashJoin(a: string, b: string)
    requires a + "-" + b == "en-en"
    ensures a == "en" && b == "en"
  {
    var s := a + "-" + b;
    assert s[|a|] == '-';
    assert |a| == 2;
    assert a == s[..2];
    assert b == s[3..];
  }

  /** WSD is on exactly when `test_wsd` is set and both the book and the gloss language are English. */
  lemma IsWsdEnabledIff(p: Prefs, lemmaLang: string)
    requires WellTyped(p)
    ensures IsWsdEnabled(p, lemmaLang) <==> TestWsd(p) && lemmaLang == "en" && GlossLang(p) == "en"
  {
    if TestWsd(p) && lemmaLang + "-" + GlossLang(p) in WsdLanguages {
      DashJoin(lemmaLang, GlossLang(p));
    } else if lemmaLang == "en" && GlossLang(p) == "en" {
      assert lemmaLang + "-" + GlossLang(p) == "en-en";
    }
  }

  /** The start of `Path.suffix`'s rule: the index of the last dot when it is neither the
      first nor the last character of the name, else -1. */
  function SuffixStart(name: string): (i: int)
    ensures i == -1 || (0 < i < |name| - 1 && name[i] == '.')
  {
    var i := LastIndexOf(name, '.');
    if 0 < i < |name| - 1 then i else -1
  }

  /** `path.with_stem(path.stem + tag)` on a file name: `tag` goes right before the suffix. */
  function WithStemSuffix(name: string, tag: string): string {
    var i := SuffixStart(name);
    if i == -1 then name + tag else name[..i] + tag + name[i..]
  }

  /** For `base.ext` with a non-empty base and an extension without dots, the tag lands
      between the two: the extension and everything in front of the base stay as they are. */
  lemma WithStemSuffixOf(base: string, ext: string, tag: string)
    requires |base| > 0 && |ext| > 0 && '.' !in ext
    ensures WithStemSuffix(base + "." + ext, tag) == base + tag + "." + ext
  {
    var name := base + "." + ext;
    LastIndexOfAt(base, '.', ext);
    assert name[..|base|] == base;
    assert name[|base|..] == "." + ext;
  }

  /** utils.py:118-125 */
  function WiktionaryDbPath(pluginDir: string, lemmaLang: string, p: Prefs): string
    requires WellTyped(p)
  {
    var name := "wiktionary_" + lemmaLang + "_" + GlossLang(p) + "_v" + ProficiencyMajorVersion + ".db";
    Join(CustomLemmasFolder(pluginDir), if IsWsdEnabled(p, lemmaLang) then WithStemSuffix(name, "_wsd") else name)
  }

  /** The Wiktionary database is `worddumb-lemmas/wiktionary_{lemma}_{gloss}_v1.db`, with `_wsd`
      right before `.db` exactly when WSD is enabled. */
  lemma WiktionaryDbPathShape(pluginDir: string, lemmaLang: string, p: Prefs)
    requires WellTyped(p)
    ensures WiktionaryDbPath(pluginDir, lemmaLang, p)
      == Join(CustomLemmasFolder(pluginDir), "wiktionary_" + lemmaLang + "_" + GlossLang(p) + "_v1"
              + (if IsWsdEnabled(p, lemmaLang) then "_wsd" else "") + ".db")
  {
    ProficiencyMajorVersionIsOne();
    var base := "wiktionary_" + lemmaLang + "_" + GlossLang(p) + "_v1";
    var name := "wiktionary_" + lemmaLang + "_" + GlossLang(p) + "_v" + ProficiencyMajorVersion + ".db";
    assert name == base + ".db";
    if IsWsdEnabled(p, lemmaLang) {
      WithStemSuffixOf(base, "db", "_wsd");
      assert base + "." + "db" == name;
      assert base + "_wsd" + "." + "db" == base + "_wsd" + ".db";
    } else {
      assert base + "" + ".db" == name;
    }
  }

  /** utils.py:108-115 */
  function KindleDbPath(pluginDir: string, lemmaLang: string, p: Prefs): string
    requires WellTyped(p)
  {
    if UseKindleWwDb(lemmaLang, p) then Join(CustomLemmasFolder(pluginDir), "kindle_en_en_v" + ProficiencyMajorVersion + ".db")
    else WiktionaryDbPath(pluginDir, lemmaLang, p)
  }

  /** The Kindle database is `kindle_en_en_v1.db` when the Kindle Word Wise database is used,
      and the Wiktionary database otherwise. */
  lemma KindleDbPathChoice(pluginDir: string, lemmaLang: string, p: Prefs)
    requires WellTyped(p)
    ensures UseKindleWwDb(lemmaLang, p) ==>
      KindleDbPath(pluginDir, lemmaLang, p) == Join(CustomLemmasFolder(pluginDir), "kindle_en_en_v1.db")
    ensures !UseKindleWwDb(lemmaLang, p) ==> KindleDbPath(pluginDir, lemmaLang, p) == WiktionaryDbPath(pluginDir, lemmaLang, p)
  {
    ProficiencyMajorVersionIsOne();
  }

  /** utils.py:137-144 */
  function GetWiktionaryKlldPath(pluginDir: string, lemmaLang: string, p: Prefs): string
    requires WellTyped(p)
  {
    var name := "kll." + lemmaLang + "." + GlossLang(p) + "_v" + ProficiencyMajorVersion + ".klld";
    Join(CustomLemmasFolder(pluginDir), if IsWsdEnabled(p, lemmaLang) then WithStemSuffix(name, "_wsd") else name)
  }

  /** The Wiktionary Kindle file is `kll.{lemma}.{gloss}_v1.klld`, with `_wsd` right before
      `.klld` exactly when WSD is enabled. */
  lemma WiktionaryKlldPathShape(pluginDir: string, lemmaLang: string, p: Prefs)
    requires WellTyped(p)
    ensures GetWiktionaryKlldPath(pluginDir, lemmaLang, p)
      == Join(CustomLemmasFolder(pluginDir), "kll." + lemmaLang + "." + GlossLang(p) + "_v1"
              + (if IsWsdEnabled(p, lemmaLang) then "_wsd" else "") + ".klld")
  {
    ProficiencyMajorVersionIsOne();
    var base := "kll." + lemmaLang + "." + GlossLang(p) + "_v1";
    var name := "kll." + lemmaLang + "." + GlossLang(p) + "_v" + ProficiencyMajorVersion + ".klld";
    assert name == base + ".klld";
    if IsWsdEnabled(p, lemmaLang) {
      WithStemSuffixOf(base, "klld", "_wsd");
      assert base + "." + "klld" == name;
      assert base + "_wsd" + "." + "klld" == base + "_wsd" + ".klld";
    } else {
      assert base + "" + ".klld" == name;
    }
  }

  /** The first name in a directory listing that ends with `suffix` (what a `for` loop over
      `glob("*" + suffix)` returns first). */
  function FirstWithSuffix(listing: seq<string>, suffix: string): Option<string> {
    if listing == [] then None
    else if EndsWith(listing[0], suffix) then Some(listing[0])
    else FirstWithSuffix(listing[1..], suffix)
  }

  /** `FirstWithSuffix` finds the earliest matching name, and finds nothing only when no name matches. */
  lemma {:induction false} FirstWithSuffixIsFirst(listing: seq<string>, suffix: string)
    ensures var r := FirstWithSuffix(listing, suffix);
      && (r.None? <==> forall j :: 0 <= j < |listing| ==> !EndsWith(listing[j], suffix))
      && (r.Some? ==> exists i :: 0 <= i < |listing| && listing[i] == r.value && EndsWith(listing[i], suffix)
                        && forall j :: 0 <= j < i ==> !EndsWith(listing[j], suffix))
  {
    if listing != [] && !EndsWith(listing[0], suffix) {
      FirstWithSuffixIsFirst(listing[1..], suffix);
      var r := FirstWithSuffix(listing, suffix);
      if r.Some? {
        var i :| 0 <= i < |listing[1..]| && listing[1..][i] == r.value && EndsWith(listing[1..][i], suffix)
                 && forall j :: 0 <= j < i ==> !EndsWith(listing[1..][j], suffix);
        assert listing[i + 1] == r.value;
        assert forall j :: 0 <= j < i + 1 ==> !EndsWith(listing[j], suffix) by {
          forall j | 0 <= j < i + 1 ensures !EndsWith(listing[j], suffix) {
            if j > 0 { assert listing[j] == listing[1..][j - 1]; }
          }
        }
      } else {
        forall j | 0 <= j < |listing| ensures !EndsWith(listing[j], suffix) {
          if j > 0 { assert listing[j] == listing[1..][j - 1]; }
        }
      }
    }
  }

  function KlldSuffix(zhGloss: bool): string { if zhGloss then ".zh.klld" else ".en.klld" }
  function DbSuffix(zhGloss: bool): string { if zhGloss then ".zh.db" else ".en.db" }

  /** The file name `get_kindle_klld_path` picks from the lemmas folder's listing:
      the first `.klld` file of the gloss language, else its first `.db` file. */
  function KindleKlldName(listing: seq<string>, zhGloss: bool): Option<string> {
    var klld := FirstWithSuffix(listing, KlldSuffix(zhGloss));
    if klld.Some? then klld else FirstWithSuffix(listing, DbSuffix(zhGloss))
  }

  /** utils.py:128-134: two loops over the folder's listing that return on the first match. */
  method GetKindleKlldPath(pluginDir: string, listing: seq<string>, zhGloss: bool) returns (r: Option<string>)
    ensures var name := KindleKlldName(listing, zhGloss);
      r == if name.Some? then Some(Join(CustomLemmasFolder(pluginDir), name.value)) else None
  {
    var folder := CustomLemmasFolder(pluginDir);
    var i := 0;
    while i < |listing|
      invariant 0 <= i <= |listing|
      invariant FirstWithSuffix(listing, KlldSuffix(zhGloss)) == FirstWithSuffix(listing[i..], KlldSuffix(zhGloss))
    {
      assert listing[i..][1..] == listing[i + 1..];
      if EndsWith(listing[i], KlldSuffix(zhGloss)) {
        return Some(Join(folder, listing[i]));
      }
      i := i + 1;
    }
    i := 0;
    while i < |listing|
      invariant 0 <= i <= |listing|
      invariant FirstWithSuffix(listing, DbSuffix(zhGloss)) == FirstWithSuffix(listing[i..], DbSuffix(zhGloss))
    {
      assert listing[i..][1..] == listing[i + 1..];
      if EndsWith(listing[i], DbSuffix(zhGloss)) {
        return Some(Join(folder, listing[i]));
      }
      i := i + 1;
    }
    return None;
  }

  /** `model_name[:2]`: at most the first two characters. */
  function LangCode(modelName: string): string {
    if |modelName| <= 2 then modelName else modelName[..2]
  }

  /** utils.py:187-194 */
  function GetSpacyModelVersion(modelName: string, versions: map<string, string>): string {
    var key := LangCode(modelName) + "_spacy_cpu_model";
    if key in versions then versions[key]
    else if "spacy_cpu_model" in versions then versions["spacy_cpu_model"]
    else ""
  }

  /** Models of one language share a version; the version is one listed in `deps.json`,
      or `""` when neither key is listed; a language-specific entry wins over everything
      else, and entries for other languages never matter. */
  lemma SpacyModelVersionLookup(modelName: string, versions: map<string, string>, other: string, v: string)
    ensures LangCode(modelName) == LangCode(other) ==>
      GetSpacyModelVersion(modelName, versions) == GetSpacyModelVersion(other, versions)
    ensures var r := GetSpacyModelVersion(modelName, versions);
      r in versions.Values
      || (r == "" && LangCode(modelName) + "_spacy_cpu_model" !in versions && "spacy_cpu_model" !in versions)
    ensures GetSpacyModelVersion(modelName, versions[LangCode(modelName) + "_spacy_cpu_model" := v]) == v
    ensures LangCode(other) + "_spacy_cpu_model" != LangCode(modelName) + "_spacy_cpu_model" ==>
      GetSpacyModelVersion(modelName, versions[LangCode(other) + "_spacy_cpu_model" := v])
        == GetSpacyModelVersion(modelName, versions)
  {
    var key := LangCode(modelName) + "_spacy_cpu_model";
    if key in versions {
      assert versions[key] in versions.Values;
    } else if "spacy_cpu_model" in versions {
      assert versions["spacy_cpu_model"] in versions.Values;
      var k2 := LangCode(other) + "_spacy_cpu_model";
      assert k2 != "spacy_cpu_model" by { assert |k2| > |"spacy_cpu_model"|; }
    }
  }

  /** A `languages.json` entry, limited to the fields the modelled code reads;
      `gloss_source` is `None` when absent, `lemma_languages` is `[]` when absent. */
  datatype Language = Language(name: string, glossSource: Option<string>, lemmaLanguages: seq<string>, spacy: string)

  /** The languages table in the order of `languages.json`. */
  type Languages = seq<(string, Language)>

  predicate DistinctKeys(l: Languages) {
    forall i, j :: 0 <= i < j < |l| ==> l[i].0 != l[j].0
  }

  /** `lang_dict.get(code)` */
  function Lookup(l: Languages, code: string): (r: Option<Language>)
    ensures r.None? <==> code !in Keys(l)
  {
    if l == [] then None else if l[0].0 == code then Some(l[0].1) else Lookup(l[1..], code)
  }

  /** `lang_dict[code] = v`: replaces the entry in place, or appends a new key at the end. */
  function Put(l: Languages, code: string, v: Language): (r: Languages)
    ensures code in Keys(l) ==> Keys(r) == Keys(l)
    ensures code !in Keys(l) ==> Keys(r) == Keys(l) + [code]
  {
    if l == [] then [(code, v)]
    else if l[0].0 == code then [(code, v)] + l[1..]
    else [l[0]] + Put(l[1..], code, v)
  }

  /** After `Put` the key holds the new value and every other key keeps its own. */
  lemma {:induction false} LookupPut(l: Languages, code: string, v: Language, other: string)
    ensures Lookup(Put(l, code, v), code) == Some(v)
    ensures other != code ==> Lookup(Put(l, code, v), other) == Lookup(l, other)
  {
    if l != [] && l[0].0 != code {
      LookupPut(l[1..], code, v, other);
    }
  }

  /** utils.py:173-184: with `add_zh_cn` a `zh_cn` entry that copies `zh` under the name
      "Simplified Chinese" is added; `zh` missing raises `KeyError`. */
  method LoadLanguagesData(loaded: Languages, addZhCn: bool) returns (r: Result<Languages, string>)
    ensures !addZhCn ==> r == Success(loaded)
    ensures addZhCn && Lookup(loaded, "zh").None? ==> r == Failure("KeyError")
    ensures addZhCn && Lookup(loaded, "zh").Some? ==>
      && r.Success?
      && Lookup(r.value, "zh_cn") == Some(Lookup(loaded, "zh").value.(name := "Simplified Chinese"))
      && (forall code :: code != "zh_cn" ==> Lookup(r.value, code) == Lookup(loaded, code))
      && Keys(r.value) == if "zh_cn" in Keys(loaded) then Keys(loaded) else Keys(loaded) + ["zh_cn"]
  {
    var languages := loaded;
    if addZhCn {
      var zh := Lookup(languages, "zh");
      if zh.None? {
        return Failure("KeyError");
      }
      var zhCn := zh.value.(name := "Simplified Chinese");
      languages := Put(languages, "zh_cn", zhCn);
      forall code | code != "zh_cn" ensures Lookup(languages, code) == Lookup(loaded, code) {
        LookupPut(loaded, "zh_cn", zhCn, code);
      }
      LookupPut(loaded, "zh_cn", zhCn, "zh_cn");
    }
    return Success(languages);
  }

  /** What `insert_lib_path` leaves in `sys.path` (utils.py:80-82). */
  function InsertedLibPath(entries: seq<string>, path: string): seq<string> {
    if path in entries then entries else [path] + entries
  }

  /** After the call the path is in the list; an absent path goes to the front with the
      rest in order; a present one leaves the list as it was, so a second call changes nothing. */
  lemma InsertLibPathProperties(entries: seq<string>, path: string)
    ensures path in InsertedLibPath(entries, path)
    ensures path !in entries ==> InsertedLibPath(entries, path)[0] == path && InsertedLibPath(entries, path)[1..] == entries
    ensures path in entries ==> InsertedLibPath(entries, path) == entries
    ensures InsertedLibPath(InsertedLibPath(entries, path), path) == InsertedLibPath(entries, path)
  {
  }

  /** The interpreter's module search path `sys.path`. */
  class SysPath {
    var entries: seq<string>

    /** `insert_lib_path(path)` */
    method InsertLibPath(path: string)
      modifies this
      ensures entries == InsertedLibPath(old(entries), path)
    {
      if path !in entries {
        entries := [path] + entries;
      }
    }
  }

  /** The value a key has in `defaults.update(stored)`. */
  lemma MergedValue(defaults: Prefs, stored: Prefs, k: string)
    requires k in defaults || k in stored
    ensures k in defaults + stored
    ensures (defaults + stored)[k] == if k in stored then stored[k] else defaults[k]
  {
  }

  /** utils.py:159-162: `prefs.defaults.update(prefs)`. The defaults dictionary itself is
      updated in place and returned (its JSON text is not modelled). */
  method DumpPrefs(store: PrefsStore) returns (merged: Prefs)
    modifies store
    ensures store.defaults == old(store.defaults) + old(store.stored) && store.stored == old(store.stored)
    ensures merged == store.defaults
    ensures store.View() == old(store.View())
  {
    store.defaults := store.defaults + store.stored;
    merged := store.defaults;
    assert store.defaults + store.stored == old(store.defaults) + old(store.stored);
  }

  /** The Homebrew binary folder for the machine, followed by the command. */
  function HomebrewPath(command: string, machine: string): string {
    (if machine == "arm64" then "/opt/homebrew/bin/" else "/usr/local/bin/") + command
  }

  /** utils.py:63-77: the Homebrew path for the machine, unless it is not found while the
      command is found in PATH. `which` is `shutil.which`. */
  function MacBinPath(command: string, machine: string, which: string -> Option<string>): string {
    var binPath := HomebrewPath(command, machine);
    if which(binPath).None? && which(command).Some? then which(command).value else binPath
  }

  /** The result is always the Homebrew path or what `PATH` gives for the command, and
      whenever either is found the result is one that was found, the Homebrew one first.
      Only an `arm64` machine changes the folder. */
  lemma MacBinPathChoice(command: string, machine: string, which: string -> Option<string>, machine': string)
    ensures var binPath := HomebrewPath(command, machine);
      var r := MacBinPath(command, machine, which);
      && (r == binPath || (which(command).Some? && r == which(command).value))
      && (which(binPath).Some? || which(command).Some? ==>
            (r == binPath && which(binPath).Some?) || (which(command).Some? && r == which(command).value))
      && (which(binPath).Some? ==> r == binPath)
      && EndsWith(binPath, command)
    ensures machine != "arm64" && machine' != "arm64" ==> MacBinPath(command, machine, which) == MacBinPath(command, machine', which)
  {
  }
}
