/** The decision rules inside config.py's dialogs: which compute platforms are offered and
    which one is selected, the Wiktionary check box of the language dialog and the
    preferences written when it is accepted, the book and definition language lists, the
    "all formats" check box, the MediaWiki API check of the book settings, and what the
    "Delete downloaded files" dialog deletes. */
module Config {
  import opened Common
  import opened Host
  import opened Utils
  import opened Deps

  /** The first index whose text is `text`, or -1 (`QComboBox.findText`). */
  function FindText(items: seq<(string, string)>, text: string): (i: int)
    ensures -1 <= i < |items|
    ensures i >= 0 ==> items[i].0 == text
    ensures forall j :: 0 <= j < |items| && (i == -1 || j < i) ==> items[j].0 != text
  {
    if items == [] then -1
    else if items[0].0 == text then 0
    else var i := FindText(items[1..], text); if i == -1 then -1 else i + 1
  }

  /** The first index whose data is `data`, or -1. */
  function FindData(items: seq<(string, string)>, data: string): (i: int)
    ensures -1 <= i < |items|
    ensures i >= 0 ==> items[i].1 == data
    ensures forall j :: 0 <= j < |items| && (i == -1 || j < i) ==> items[j].1 != data
  {
    if items == [] then -1
    else if items[0].1 == data then 0
    else var i := FindData(items[1..], data); if i == -1 then -1 else i + 1
  }

  /** A text found in a list is found at the same index once more items are appended. */
  lemma FindTextAppend(items: seq<(string, string)>, more: seq<(string, string)>, text: string)
    requires FindText(items, text) >= 0
    ensures FindText(items + more, text) == FindText(items, text)
  {
    var i := FindText(items, text);
    var k := FindText(items + more, text);
    assert (items + more)[i] == items[i];
  }

  /** A Qt combo box: its (text, data) items and the current index (-1 when there is none). */
  class ComboBox {
    var items: seq<(string, string)>
    var current: int

    ghost predicate Valid()
      reads this
    {
      -1 <= current < |items| && (current == -1 <==> items == [])
    }

    constructor ()
      ensures items == [] && current == -1 && Valid()
    {
      items := [];
      current := -1;
    }

    /** `currentData()`, `None` when nothing is selected. */
    function CurrentData(): Option<string>
      reads this
    {
      if 0 <= current < |items| then Some(items[current].1) else None
    }

    /** `addItem(text, data)`: the first item added to an empty box becomes current. */
    method AddItem(text: string, data: string)
      requires Valid()
      modifies this
      ensures Valid()
      ensures items == old(items) + [(text, data)]
      ensures current == if old(items) == [] then 0 else old(current)
    {
      items := items + [(text, data)];
      if current == -1 {
        current := 0;
      }
    }

    /** `clear()` */
    method Clear()
      modifies this
      ensures Valid() && items == [] && current == -1
    {
      items := [];
      current := -1;
    }

    /** `setCurrentText(text)` on a box that is not editable: selects the first item with
        that text, and keeps the selection when there is none. */
    method SetCurrentText(text: string)
      requires Valid()
      modifies this
      ensures Valid() && items == old(items)
      ensures current == if FindText(items, text) >= 0 then FindText(items, text) else old(current)
    {
      var i := FindText(items, text);
      if i >= 0 {
        current := i;
      }
    }
  }

  /** A Qt check box. */
  class CheckBox {
    var checked: bool
    var enabled: bool

    constructor (checked: bool)
      ensures this.checked == checked && enabled
    {
      this.checked := checked;
      enabled := true;
    }

    method SetChecked(b: bool)
      modifies this
      ensures checked == b && enabled == old(enabled)
    {
      checked := b;
    }

    /** `setEnabled(b)`; `setDisabled(d)` is `setEnabled(!d)`. */
    method SetEnabled(b: bool)
      modifies this
      ensures enabled == b && checked == old(checked)
    {
      enabled := b;
    }
  }

  /** Compute platform keys and their labels, in the order config.py lists them. */
  type LabelTable = seq<(string, string)>

  const MacComputePlatforms: LabelTable := [("cpu", "CPU"), ("mps", "MPS (Apple Silicon GPU)")]
  const ComputePlatforms: LabelTable := [
    ("cpu", "CPU"), ("cuda13.0", "CUDA 13.0"), ("cuda12.8", "CUDA 12.8"), ("cuda12.6", "CUDA 12.6"), ("rocm6.4", "ROCm 6.4")]

  /** config.py:153-166 */
  function PlatformLabels(os: Os): LabelTable {
    if os == MacOS then MacComputePlatforms else ComputePlatforms
  }

  function LabelOf(t: LabelTable, key: string): Option<string> {
    if t == [] then None else if t[0].0 == key then Some(t[0].1) else LabelOf(t[1..], key)
  }

  predicate Skipped(os: Os, text: string) {
    os == Windows && StartsWith(text, "ROCm")
  }

  /** The combo box items the loop of config.py:168-171 adds: label and key, ROCm left
      out on Windows. */
  function Offered(os: Os, t: LabelTable): (items: seq<(string, string)>)
    ensures forall i :: 0 <= i < |items| ==> !Skipped(os, items[i].0)
  {
    if t == [] then []
    else if Skipped(os, t[0].1) then Offered(os, t[1..])
    else [(t[0].1, t[0].0)] + Offered(os, t[1..])
  }

  lemma OfferedAppend(os: Os, t: LabelTable, e: (string, string))
    ensures Offered(os, t + [e]) == Offered(os, t) + (if Skipped(os, e.1) then [] else [(e.1, e.0)])
  {
    if t != [] {
      assert (t + [e])[1..] == t[1..] + [e];
      OfferedAppend(os, t[1..], e);
    } else {
      assert [e][1..] == [];
    }
  }

  /** The stored platform is kept when it is a key of the table, and reset to `cpu` otherwise. */
  function PlatformAfterSetup(os: Os, v: Value): Value {
    if v.VStr? && LabelOf(PlatformLabels(os), v.s).Some? then v else VStr("cpu")
  }

  /** config.py:152-177 (on Linux, Windows and macOS). */
  method SetupComputePlatform(os: Os, store: PrefsStore, box: ComboBox)
    requires os != OtherOs
    requires box.items == [] && box.current == -1
    requires "torch_compute_platform" in store.View()
    modifies store, box
    ensures box.Valid() && box.items == Offered(os, PlatformLabels(os))
    ensures var v := old(store.View())["torch_compute_platform"];
      store.View() == (if PlatformAfterSetup(os, v) == v then old(store.View())
                       else old(store.View())["torch_compute_platform" := VStr("cpu")])
    ensures store.View()["torch_compute_platform"] == PlatformAfterSetup(os, old(store.View())["torch_compute_platform"])
    ensures var pick := store.View()["torch_compute_platform"];
      var i := FindText(box.items, LabelOf(PlatformLabels(os), pick.s).value);
      box.current == if i >= 0 then i else if box.items == [] then -1 else 0
  {
    var labels := PlatformLabels(os);
    FillPlatformBox(os, labels, box);
    var v := store.View()["torch_compute_platform"];
    if !(v.VStr? && LabelOf(labels, v.s).Some?) {
      store.Set("torch_compute_platform", VStr("cpu"));
      CpuLabel(os);
    }
    var pick := store.View()["torch_compute_platform"];
    box.SetCurrentText(LabelOf(labels, pick.s).value);
  }

  /** config.py:168-171: adds the table's platforms to the empty box, ROCm left out on Windows. */
  method FillPlatformBox(os: Os, labels: LabelTable, box: ComboBox)
    requires box.items == [] && box.current == -1
    modifies box
    ensures box.Valid() && box.items == Offered(os, labels)
    ensures box.current == if box.items == [] then -1 else 0
  {
    var i := 0;
    while i < |labels|
      invariant 0 <= i <= |labels|
      invariant box.Valid() && box.items == Offered(os, labels[..i])
      invariant box.current == if box.items == [] then -1 else 0
    {
      OfferedAppend(os, labels[..i], labels[i]);
      assert labels[..i + 1] == labels[..i] + [labels[i]];
      if !Skipped(os, labels[i].1) {
        box.AddItem(labels[i].1, labels[i].0);
      }
      i := i + 1;
    }
    assert labels[..|labels|] == labels;
  }

  /** Every table has the CPU platform, labelled `CPU`. */
  lemma CpuLabel(os: Os)
    ensures LabelOf(PlatformLabels(os), "cpu") == Some("CPU")
  {
    assert PlatformLabels(os)[0] == ("cpu", "CPU");
  }

  /** The platforms offered: all five off macOS, but no ROCm on Windows; CPU and MPS on macOS. */
  lemma OfferedPlatforms()
    ensures Offered(Linux, PlatformLabels(Linux))
      == [("CPU", "cpu"), ("CUDA 13.0", "cuda13.0"), ("CUDA 12.8", "cuda12.8"), ("CUDA 12.6", "cuda12.6"), ("ROCm 6.4", "rocm6.4")]
    ensures Offered(Windows, PlatformLabels(Windows))
      == [("CPU", "cpu"), ("CUDA 13.0", "cuda13.0"), ("CUDA 12.8", "cuda12.8"), ("CUDA 12.6", "cuda12.6")]
    ensures Offered(MacOS, PlatformLabels(MacOS)) == [("CPU", "cpu"), ("MPS (Apple Silicon GPU)", "mps")]
  {
    assert !StartsWith("CUDA 13.0", "ROCm") by { assert "CUDA 13.0"[..4][0] == 'C'; }
    assert !StartsWith("CUDA 12.8", "ROCm") by { assert "CUDA 12.8"[..4][0] == 'C'; }
    assert !StartsWith("CUDA 12.6", "ROCm") by { assert "CUDA 12.6"[..4][0] == 'C'; }
    assert !StartsWith("CPU", "ROCm");
    assert StartsWith("ROCm 6.4", "ROCm") by { assert "ROCm 6.4"[..4] == "ROCm"; }
  }

  /** Every platform offered has an entry in the PyTorch index table of deps.py, so the
      torch index lookup of `install_deps` never misses an offered key. */
  lemma OfferedPlatformsHaveIndexEntry(os: Os)
    requires os != OtherOs
    ensures forall i :: 0 <= i < |Offered(os, PlatformLabels(os))| ==>
      Offered(os, PlatformLabels(os))[i].1 in Keys(TorchPlatforms(os))
  {
    OfferedPlatforms();
    match os
    case Linux => IndexEntries(Offered(Linux, PlatformLabels(Linux)), LinuxPlatforms);
    case Windows => IndexEntries(Offered(Windows, PlatformLabels(Windows)), WindowsPlatforms);
    case MacOS => IndexEntries(Offered(MacOS, PlatformLabels(MacOS)), MacPlatforms);
  }

  lemma IndexEntries(items: seq<(string, string)>, table: PlatformTable)
    requires
      || (items == [("CPU", "cpu"), ("CUDA 13.0", "cuda13.0"), ("CUDA 12.8", "cuda12.8"), ("CUDA 12.6", "cuda12.6"), ("ROCm 6.4", "rocm6.4")]
          && table == LinuxPlatforms)
      || (items == [("CPU", "cpu"), ("CUDA 13.0", "cuda13.0"), ("CUDA 12.8", "cuda12.8"), ("CUDA 12.6", "cuda12.6")]
          && table == WindowsPlatforms)
      || (items == [("CPU", "cpu"), ("MPS (Apple Silicon GPU)", "mps")] && table == MacPlatforms)
    ensures forall i :: 0 <= i < |items| ==> items[i].1 in Keys(table)
  {
    var ks := Keys(table);
    if table == LinuxPlatforms {
      assert ks == ["cpu", "cuda12.6", "cuda12.8", "cuda13.0", "rocm6.4"];
    } else if table == WindowsPlatforms {
      assert ks == ["cpu", "cuda12.6", "cuda12.8", "cuda13.0"];
    } else {
      assert ks == ["cpu", "mps"];
    }
  }

  /** A stored `rocm6.4` on Windows is a key of the table and so is kept, but it has no
      item in the box: the selection stays on the first item, CPU. */
  lemma RocmOnWindowsShowsCpu()
    ensures PlatformAfterSetup(Windows, VStr("rocm6.4")) == VStr("rocm6.4")
    ensures FindText(Offered(Windows, PlatformLabels(Windows)), LabelOf(PlatformLabels(Windows), "rocm6.4").value) == -1
  {
    OfferedPlatforms();
    assert LabelOf(ComputePlatforms, "rocm6.4") == Some("ROCm 6.4");
  }

  /** The book and definition languages that let the user pick the Wiktionary definitions
      on a Kindle (config.py:243, 516-519). */
  predicate WiktionaryChoiceOpen(lemmaLang: Option<string>, glossLang: Option<string>) {
    lemmaLang == Some("en") && glossLang.Some? && glossLang.value in ["en", "zh", "zh_cn"]
  }

  /** config.py:515-526. Returns whether `change_kindle_ww_lang_dialog` is shown. */
  method KindleLangChanged(lemmaBox: ComboBox, glossBox: ComboBox, useWiktionary: CheckBox, p: Prefs, firstCall: bool)
    returns (warn: bool)
    requires WellTyped(p)
    modifies useWiktionary
    ensures var open := WiktionaryChoiceOpen(lemmaBox.CurrentData(), glossBox.CurrentData());
      && (open ==> useWiktionary.enabled && useWiktionary.checked == UseWiktionaryForKindle(p) && !warn)
      && (!open ==> useWiktionary.checked && !useWiktionary.enabled && warn == !firstCall)
  {
    if WiktionaryChoiceOpen(lemmaBox.CurrentData(), glossBox.CurrentData()) {
      useWiktionary.SetEnabled(true);
      useWiktionary.SetChecked(UseWiktionaryForKindle(p));
      warn := false;
    } else {
      useWiktionary.SetChecked(true);
      useWiktionary.SetEnabled(false);
      warn := !firstCall;
    }
  }

  /** The preferences after the language dialog is accepted (config.py:242-246). */
  function AcceptedPrefs(p: Prefs, isKindle: bool, lemmaLang: string, glossLang: string, useWiktionary: bool): Prefs {
    var q := p["gloss_lang" := VStr(glossLang)];
    if isKindle && WiktionaryChoiceOpen(Some(lemmaLang), Some(glossLang)) then q["use_wiktionary_for_kindle" := VBool(useWiktionary)]
    else q
  }

  /** After accepting, the definition language is the one chosen and the preferences stay
      typed; the Kindle book uses the Kindle Word Wise database exactly when the choice was
      open and the Wiktionary box was left unchecked, and never when it was closed. */
  lemma AcceptedPrefsChoice(p: Prefs, isKindle: bool, lemmaLang: string, glossLang: string, useWiktionary: bool)
    requires WellTyped(p)
    ensures var q := AcceptedPrefs(p, isKindle, lemmaLang, glossLang, useWiktionary);
      && WellTyped(q) && GlossLang(q) == glossLang
      && TestWsd(q) == TestWsd(p) && PythonPath(q) == PythonPath(p) && UseChinaProxy(q) == UseChinaProxy(p)
      && (isKindle && WiktionaryChoiceOpen(Some(lemmaLang), Some(glossLang)) ==> (UseKindleWwDb(lemmaLang, q) <==> !useWiktionary))
      && (!WiktionaryChoiceOpen(Some(lemmaLang), Some(glossLang)) ==> !UseKindleWwDb(lemmaLang, q))
  {
  }

  /** Accepting writes `gloss_lang` and, only for a Kindle book with the Wiktionary choice
      open, `use_wiktionary_for_kindle`; every other preference keeps its value. */
  lemma AcceptedPrefsFrame(p: Prefs, isKindle: bool, lemmaLang: string, glossLang: string, useWiktionary: bool)
    requires WellTyped(p)
    ensures var q := AcceptedPrefs(p, isKindle, lemmaLang, glossLang, useWiktionary);
      && q.Keys == p.Keys
      && q["gloss_lang"] == VStr(glossLang)
      && (isKindle && WiktionaryChoiceOpen(Some(lemmaLang), Some(glossLang)) ==>
            q["use_wiktionary_for_kindle"] == VBool(useWiktionary))
      && (!(isKindle && WiktionaryChoiceOpen(Some(lemmaLang), Some(glossLang))) ==>
            q["use_wiktionary_for_kindle"] == p["use_wiktionary_for_kindle"])
      && (forall k :: k in p && k != "gloss_lang" && k != "use_wiktionary_for_kindle" ==> q[k] == p[k])
  {
  }

  /** What happens after the language dialog is accepted (config.py:237-258): the
      preference writes, the database path, and whether it has to be downloaded
      (`pathExists` is `Path.exists`; the customisation dialog is not modelled). */
  method AcceptChooseLemmaLang(store: PrefsStore, pluginDir: string, isKindle: bool, lemmaLang: string,
                               glossLang: string, useWiktionary: bool, pathExists: string -> bool)
    returns (dbPath: string, download: bool)
    requires WellTyped(store.View())
    modifies store
    ensures store.defaults == old(store.defaults)
    ensures store.View() == AcceptedPrefs(old(store.View()), isKindle, lemmaLang, glossLang, useWiktionary)
    ensures WellTyped(store.View())
    ensures dbPath == if isKindle then KindleDbPath(pluginDir, lemmaLang, store.View())
                      else WiktionaryDbPath(pluginDir, lemmaLang, store.View())
    ensures download == !pathExists(dbPath)
  {
    AcceptedPrefsChoice(store.View(), isKindle, lemmaLang, glossLang, useWiktionary);
    store.Set("gloss_lang", VStr(glossLang));
    if isKindle && lemmaLang == "en" && glossLang in ["en", "zh", "zh_cn"] {
      store.Set("use_wiktionary_for_kindle", VBool(useWiktionary));
    }
    dbPath := if isKindle then KindleDbPath(pluginDir, lemmaLang, store.View())
              else WiktionaryDbPath(pluginDir, lemmaLang, store.View());
    download := !pathExists(dbPath);
  }

  /** The book languages offered for a definition language: its `lemma_languages`, or every
      language when that list is empty (config.py:530-532). */
  function LemmaCodes(langs: Languages, glossLang: string): seq<string>
    requires Lookup(langs, glossLang).Some?
  {
    var ls := Lookup(langs, glossLang).value.lemmaLanguages;
    if |ls| == 0 then Keys(langs) else ls
  }

  /** The items the loop of config.py:533-540 adds, and whether it ran to the end
      (`false` when a code is not a key of the table, where `KeyError` is raised). */
  datatype Filled = Filled(items: seq<(string, string)>, complete: bool)

  function FillLemmas(langs: Languages, codes: seq<string>): Filled {
    if codes == [] then Filled([], true)
    else if codes[0] == "zh_cn" then FillLemmas(langs, codes[1..])
    else match Lookup(langs, codes[0])
      case None => Filled([], false)
      case Some(l) =>
        var rest := FillLemmas(langs, codes[1..]);
        Filled([(l.name, codes[0])] + rest.items, rest.complete)
  }

  function WithoutZhCn(codes: seq<string>): seq<string> {
    if codes == [] then []
    else if codes[0] == "zh_cn" then WithoutZhCn(codes[1..])
    else [codes[0]] + WithoutZhCn(codes[1..])
  }

  function ItemData(items: seq<(string, string)>): (ds: seq<string>)
    ensures |ds| == |items| && forall i :: 0 <= i < |items| ==> ds[i] == items[i].1
  {
    if items == [] then [] else [items[0].1] + ItemData(items[1..])
  }

  /** The book language list never offers `zh_cn`; it is complete exactly when every other
      code is a language of the table, and then it lists those codes in order, each under
      its language's name. */
  lemma FillLemmasSpec(langs: Languages, codes: seq<string>)
    ensures var f := FillLemmas(langs, codes);
      && (forall i :: 0 <= i < |f.items| ==>
            f.items[i].1 != "zh_cn" && Lookup(langs, f.items[i].1).Some? && Lookup(langs, f.items[i].1).value.name == f.items[i].0)
      && (f.complete <==> forall i :: 0 <= i < |codes| && codes[i] != "zh_cn" ==> codes[i] in Keys(langs))
      && (f.complete ==> ItemData(f.items) == WithoutZhCn(codes))
  {
    FillLemmasNamed(langs, codes);
    FillLemmasComplete(langs, codes);
    FillLemmasData(langs, codes);
  }

  /** An offered item: a code other than `zh_cn`, shown under its language's name. */
  predicate NamedItem(langs: Languages, item: (string, string)) {
    item.1 != "zh_cn" && Lookup(langs, item.1).Some? && Lookup(langs, item.1).value.name == item.0
  }

  lemma {:induction false} FillLemmasNamed(langs: Languages, codes: seq<string>)
    ensures forall i :: 0 <= i < |FillLemmas(langs, codes).items| ==> NamedItem(langs, FillLemmas(langs, codes).items[i])
  {
    if codes != [] {
      FillLemmasNamed(langs, codes[1..]);
      var f := FillLemmas(langs, codes);
      var rest := FillLemmas(langs, codes[1..]);
      if codes[0] != "zh_cn" && Lookup(langs, codes[0]).Some? {
        assert f.items == [(Lookup(langs, codes[0]).value.name, codes[0])] + rest.items;
        assert NamedItem(langs, f.items[0]);
        assert forall i :: 0 < i < |f.items| ==> f.items[i] == rest.items[i - 1];
      } else if codes[0] == "zh_cn" {
        assert f == rest;
      }
    }
  }

  lemma {:induction false} FillLemmasComplete(langs: Languages, codes: seq<string>)
    ensures FillLemmas(langs, codes).complete <==>
      forall i :: 0 <= i < |codes| && codes[i] != "zh_cn" ==> codes[i] in Keys(langs)
  {
    if codes != [] {
      FillLemmasComplete(langs, codes[1..]);
      assert forall i :: 0 < i < |codes| ==> codes[i] == codes[1..][i - 1];
      if codes[0] != "zh_cn" && Lookup(langs, codes[0]).None? {
        assert codes[0] !in Keys(langs);
      } else if forall i :: 0 <= i < |codes[1..]| && codes[1..][i] != "zh_cn" ==> codes[1..][i] in Keys(langs) {
        assert forall i :: 0 <= i < |codes| && codes[i] != "zh_cn" ==> codes[i] in Keys(langs);
      }
    }
  }

  lemma {:induction false} FillLemmasData(langs: Languages, codes: seq<string>)
    ensures FillLemmas(langs, codes).complete ==> ItemData(FillLemmas(langs, codes).items) == WithoutZhCn(codes)
  {
    if codes != [] {
      FillLemmasData(langs, codes[1..]);
      var f := FillLemmas(langs, codes);
      var rest := FillLemmas(langs, codes[1..]);
      if codes[0] == "zh_cn" {
        assert f == rest && WithoutZhCn(codes) == WithoutZhCn(codes[1..]);
      } else if Lookup(langs, codes[0]).Some? && f.complete {
        assert rest.complete;
        assert f.items == [(Lookup(langs, codes[0]).value.name, codes[0])] + rest.items;
        assert ItemData(f.items) == [codes[0]] + ItemData(rest.items);
        assert WithoutZhCn(codes) == [codes[0]] + WithoutZhCn(codes[1..]);
      }
    }
  }

  /** config.py:528-540. `KeyError` when the current definition language, or a book
      language it lists, is missing from the table; the items added before that stay. */
  method GlossLangChanged(langs: Languages, glossBox: ComboBox, lemmaBox: ComboBox) returns (r: Result<(), string>)
    requires glossBox != lemmaBox
    modifies lemmaBox
    ensures lemmaBox.Valid()
    ensures var g := glossBox.CurrentData();
      if g.None? || Lookup(langs, g.value).None? then r == Failure("KeyError") && lemmaBox.items == []
      else
        var f := FillLemmas(langs, LemmaCodes(langs, g.value));
        && lemmaBox.items == f.items
        && (r == Success(()) <==> f.complete) && (r.Failure? ==> r.error == "KeyError")
        && lemmaBox.current == (if f.items == [] then -1 else 0)
  {
    var glossLang := glossBox.CurrentData();
    lemmaBox.Clear();
    if glossLang.None? || Lookup(langs, glossLang.value).None? {
      return Failure("KeyError");
    }
    var codes := LemmaCodes(langs, glossLang.value);
    var i := 0;
    while i < |codes|
      invariant 0 <= i <= |codes|
      invariant lemmaBox.Valid() && glossBox.CurrentData() == glossLang
      invariant var f := FillLemmas(langs, codes[..i]);
        f.complete && lemmaBox.items == f.items && lemmaBox.current == (if f.items == [] then -1 else 0)
    {
      FillStep(langs, codes, i);
      if codes[i] != "zh_cn" {
        var lang := Lookup(langs, codes[i]);
        if lang.None? {
          FillStop(langs, codes, i);
          return Failure("KeyError");
        }
        lemmaBox.AddItem(lang.value.name, codes[i]);
        if i == 0 {
          lemmaBox.SetCurrentText(lang.value.name);
        }
      }
      i := i + 1;
    }
    assert codes[..|codes|] == codes;
    return Success(());
  }

  /** One more code processed by the loop of `GlossLangChanged`. */
  lemma FillStep(langs: Languages, codes: seq<string>, i: int)
    requires 0 <= i < |codes|
    ensures var f := FillLemmas(langs, codes[..i]);
      var c := codes[i];
      f.complete ==>
      FillLemmas(langs, codes[..i + 1])
        == if c == "zh_cn" then f
           else if Lookup(langs, c).None? then Filled(f.items, false)
           else Filled(f.items + [(Lookup(langs, c).value.name, c)], true)
  {
    assert codes[..i + 1] == codes[..i] + [codes[i]];
    FillLemmasSplit(langs, codes[..i], [codes[i]]);
    FillLemmasStep(langs, codes[..i], codes[i]);
    assert FillLemmas(langs, codes[..i]).items + [] == FillLemmas(langs, codes[..i]).items;
  }

  /** The loop stops at a code that is not in the table, with the items added so far. */
  lemma FillStop(langs: Languages, codes: seq<string>, i: int)
    requires 0 <= i < |codes| && codes[i] != "zh_cn" && Lookup(langs, codes[i]).None?
    requires FillLemmas(langs, codes[..i]).complete
    ensures FillLemmas(langs, codes) == Filled(FillLemmas(langs, codes[..i]).items, false)
  {
    assert codes == codes[..i] + codes[i..];
    assert codes[i..][0] == codes[i];
    FillLemmasSplit(langs, codes[..i], codes[i..]);
    assert FillLemmas(langs, codes[..i]).items + [] == FillLemmas(langs, codes[..i]).items;
  }

  /** The result of running the loop over a list made of two parts. */
  function Joined(a: Filled, b: Filled): Filled {
    if a.complete then Filled(a.items + b.items, b.complete) else a
  }

  lemma {:induction false} FillLemmasSplit(langs: Languages, a: seq<string>, b: seq<string>)
    ensures FillLemmas(langs, a + b) == Joined(FillLemmas(langs, a), FillLemmas(langs, b))
  {
    if a == [] {
      assert a + b == b;
    } else {
      assert (a + b)[1..] == a[1..] + b;
      assert (a + b)[0] == a[0];
      FillLemmasSplit(langs, a[1..], b);
      if a[0] != "zh_cn" && Lookup(langs, a[0]).Some? {
        var x := (Lookup(langs, a[0]).value.name, a[0]);
        var fa := FillLemmas(langs, a[1..]);
        var fb := FillLemmas(langs, b);
        if fa.complete {
          assert [x] + (fa.items + fb.items) == ([x] + fa.items) + fb.items;
        }
      }
    }
  }

  lemma FillLemmasStep(langs: Languages, a: seq<string>, c: string)
    ensures FillLemmas(langs, [c]) == if c == "zh_cn" then Filled([], true)
      else if Lookup(langs, c).None? then Filled([], false)
      else Filled([(Lookup(langs, c).value.name, c)], true)
  {
    assert [c][1..] == [];
  }

  /** The definition languages, in table order, without those whose `gloss_source` is `""`
      (config.py:483-486). */
  function GlossItems(langs: Languages): (items: seq<(string, string)>)
    ensures |items| <= |langs|
  {
    if langs == [] then []
    else GlossItems(langs[..|langs| - 1])
         + (var (code, l) := langs[|langs| - 1]; if l.glossSource == Some("") then [] else [(l.name, code)])
  }

  lemma {:induction false} GlossItemsData(langs: Languages, d: string)
    requires d !in Keys(langs)
    ensures FindData(GlossItems(langs), d) == -1
  {
    if langs != [] {
      var last := langs[|langs| - 1];
      assert Keys(langs[..|langs| - 1]) == Keys(langs)[..|langs| - 1];
      GlossItemsData(langs[..|langs| - 1], d);
      var a := GlossItems(langs[..|langs| - 1]);
      var items := GlossItems(langs);
      forall j | 0 <= j < |items| ensures items[j].1 != d {
        if j < |a| { assert items[j] == a[j]; }
        else { assert items[j].1 == last.0 && last.0 == Keys(langs)[|langs| - 1]; }
      }
    }
  }

  /** An item the definition list can hold: a language of the table whose `gloss_source`
      is not `""`, under its name. */
  predicate GlossListed(langs: Languages, item: (string, string)) {
    exists i :: 0 <= i < |langs| && langs[i].0 == item.1 && langs[i].1.glossSource != Some("") && langs[i].1.name == item.0
  }

  /** The definition list holds exactly the table's languages whose `gloss_source` is not `""`,
      each under its name. */
  lemma {:induction false} GlossItemsMembers(langs: Languages, item: (string, string))
    ensures item in GlossItems(langs) <==> GlossListed(langs, item)
  {
    if langs != [] {
      var init := langs[..|langs| - 1];
      var (code, l) := langs[|langs| - 1];
      GlossItemsMembers(init, item);
      var tail := if l.glossSource == Some("") then [] else [(l.name, code)];
      assert GlossItems(langs) == GlossItems(init) + tail;
      if GlossListed(init, item) {
        var i :| 0 <= i < |init| && init[i].0 == item.1 && init[i].1.glossSource != Some("") && init[i].1.name == item.0;
        assert langs[i] == init[i];
      }
      if GlossListed(langs, item) {
        var i :| 0 <= i < |langs| && langs[i].0 == item.1 && langs[i].1.glossSource != Some("") && langs[i].1.name == item.0;
        if i < |init| { assert init[i] == langs[i]; } else { assert item in tail; }
      }
    }
  }

  /** With distinct codes each language is listed at most once. */
  lemma {:induction false} GlossItemsDistinct(langs: Languages)
    requires DistinctKeys(langs)
    ensures forall i, j :: 0 <= i < j < |GlossItems(langs)| ==> GlossItems(langs)[i].1 != GlossItems(langs)[j].1
  {
    if langs != [] {
      var init := langs[..|langs| - 1];
      var last := langs[|langs| - 1];
      assert DistinctKeys(init) by {
        forall i, j | 0 <= i < j < |init| ensures init[i].0 != init[j].0 { assert init[i] == langs[i] && init[j] == langs[j]; }
      }
      GlossItemsDistinct(init);
      assert last.0 !in Keys(init) by {
        forall k | 0 <= k < |init| ensures Keys(init)[k] != last.0 { assert init[k] == langs[k]; }
      }
      GlossItemsData(init, last.0);
      var a := GlossItems(init);
      var items := GlossItems(langs);
      assert forall k :: 0 <= k < |a| ==> items[k] == a[k];
      assert |items| > |a| ==> |items| == |a| + 1 && items[|a|].1 == last.0;
    }
  }

  /** The item selected once the definition box is filled: the one of the stored
      definition language when it is listed (by its name, the first item carrying it),
      else the first item. */
  function ChosenGloss(items: seq<(string, string)>, selected: string): int {
    var d := FindData(items, selected);
    if d >= 0 then FindText(items, items[d].0) else if items == [] then -1 else 0
  }

  /** The fill loop of config.py:483-490 on an empty definition box. */
  method FillGlossBox(langs: Languages, selected: string, glossBox: ComboBox)
    requires DistinctKeys(langs)
    requires glossBox.items == [] && glossBox.current == -1
    modifies glossBox
    ensures glossBox.Valid()
    ensures glossBox.items == GlossItems(langs)
    ensures glossBox.current == ChosenGloss(glossBox.items, selected)
  {
    var i := 0;
    while i < |langs|
      invariant 0 <= i <= |langs|
      invariant glossBox.Valid() && glossBox.items == GlossItems(langs[..i])
      invariant glossBox.current == ChosenGloss(glossBox.items, selected)
    {
      var (code, l) := langs[i];
      assert langs[..i + 1][..i] == langs[..i];
      assert langs[..i + 1][i] == langs[i];
      if l.glossSource != Some("") {
        ghost var before := glossBox.items;
        glossBox.AddItem(l.name, code);
        ChosenGlossAppend(langs, i, before, selected);
        if code == selected {
          glossBox.SetCurrentText(l.name);
        }
      }
      i := i + 1;
    }
    assert langs[..|langs|] == langs;
  }

  /** Adding the entry `i` keeps `ChosenGloss` up to date: it only moves to the new item
      when that item is the stored language, which cannot have been listed before. */
  lemma ChosenGlossAppend(langs: Languages, i: int, before: seq<(string, string)>, selected: string)
    requires DistinctKeys(langs) && 0 <= i < |langs|
    requires before == GlossItems(langs[..i])
    ensures var e := (langs[i].1.name, langs[i].0);
      var after := before + [e];
      if e.1 == selected then ChosenGloss(after, selected) == FindText(after, e.0)
      else ChosenGloss(after, selected) == (if ChosenGloss(before, selected) == -1 then 0 else ChosenGloss(before, selected))
  {
    var e := (langs[i].1.name, langs[i].0);
    var after := before + [e];
    if e.1 == selected {
      assert selected !in Keys(langs[..i]) by {
        forall j | 0 <= j < i ensures Keys(langs[..i])[j] != selected {
          assert langs[..i][j] == langs[j];
        }
      }
      GlossItemsData(langs[..i], selected);
      assert after[|before|] == e;
      assert FindData(after, selected) == |before| by {
        forall j | 0 <= j < |before| ensures after[j].1 != selected { assert after[j] == before[j]; }
      }
    } else {
      var d := FindData(before, selected);
      if d >= 0 {
        assert after[d] == before[d];
        assert FindData(after, selected) == d by {
          forall j | 0 <= j < d ensures after[j].1 != selected { assert after[j] == before[j]; }
        }
        FindTextAppend(before, [e], before[d].0);
      } else {
        assert FindData(after, selected) == -1 by {
          forall j | 0 <= j < |after| ensures after[j].1 != selected {
            if j < |before| { assert after[j] == before[j]; }
          }
        }
      }
    }
  }

  /** `Qt.CheckState.Checked.value` */
  const Checked := 2

  /** config.py:423-428 */
  method DisableAllFormatsButton(chooseFormatState: int, useAllFormats: CheckBox)
    modifies useAllFormats
    ensures chooseFormatState == Checked ==> !useAllFormats.checked && !useAllFormats.enabled
    ensures chooseFormatState != Checked ==> useAllFormats.enabled && useAllFormats.checked == old(useAllFormats.checked)
  {
    if chooseFormatState == Checked {
      useAllFormats.SetChecked(false);
      useAllFormats.SetEnabled(false);
    } else {
      useAllFormats.SetEnabled(true);
    }
  }

  /** The MediaWiki API check of config.py:612-615: empty (use Wikipedia), or an http(s)
      URL of an `api.php` endpoint. */
  predicate AcceptsMediaWikiApi(v: string) {
    ((StartsWith(v, "https://") || StartsWith(v, "http://")) && EndsWith(v, "/api.php")) || v == ""
  }

  const ApiStripped: set<char> := {'/', ' '}

  /** `text.strip("/ ")` */
  function NormalizeApi(text: string): string {
    Strip(text, ApiStripped)
  }

  /** The per-book settings after `save` with the field's text (config.py:610-616). */
  function SavedSettings(settings: map<string, Value>, text: string): map<string, Value> {
    var v := NormalizeApi(text);
    if AcceptsMediaWikiApi(v) then settings["mediawiki_api" := VStr(v)] else settings
  }

  /** An accepted address is already in normal form: stripping it changes nothing. */
  lemma AcceptedIsNormal(v: string)
    requires AcceptsMediaWikiApi(v)
    ensures NormalizeApi(v) == v
  {
    if v != "" {
      if StartsWith(v, "https://") { assert v[0] == v[..8][0]; } else { assert v[0] == v[..7][0]; }
      assert v[|v| - 1] == v[|v| - 8..][7];
      StripLeftNoop(v, ApiStripped);
      StripRightNoop(v, ApiStripped);
    }
  }

  /** A rejected value leaves every setting as it was; an accepted one changes only
      `mediawiki_api`, to the stripped text; saving the same text again changes nothing. */
  lemma SavedSettingsSpec(settings: map<string, Value>, text: string)
    ensures var s := SavedSettings(settings, text);
      && (!AcceptsMediaWikiApi(NormalizeApi(text)) ==> s == settings)
      && (AcceptsMediaWikiApi(NormalizeApi(text)) ==>
            (s["mediawiki_api"] == VStr(NormalizeApi(text))
             && forall k :: k != "mediawiki_api" ==> (k in s <==> k in settings) && (k in s ==> s[k] == settings[k])))
      && SavedSettings(s, text) == s
      && SavedSettings(s, NormalizeApi(text)) == s
  {
    StripIdempotent(text, ApiStripped);
  }

  /** The stored value, shown again and saved, is kept. */
  lemma ResaveStoredValue(settings: map<string, Value>, text: string)
    requires AcceptsMediaWikiApi(NormalizeApi(text))
    ensures var s := SavedSettings(settings, text);
      SavedSettings(s, s["mediawiki_api"].s) == s
  {
    AcceptedIsNormal(NormalizeApi(text));
  }

  /** The book settings dialog: the settings dictionary and the contents of its JSON file
      (`None` until written). */
  class BookSettings {
    var settings: map<string, Value>
    var file: Option<map<string, Value>>

    constructor (loaded: map<string, Value>)
      ensures settings == loaded && file == None
    {
      settings := loaded;
      file := None;
    }

    /** config.py:610-618: the settings are written whether or not the value was accepted. */
    method Save(text: string)
      modifies this
      ensures settings == SavedSettings(old(settings), text)
      ensures file == Some(settings)
    {
      var mediawikiApi := Strip(text, ApiStripped);
      if ((StartsWith(mediawikiApi, "https://") || StartsWith(mediawikiApi, "http://")) && EndsWith(mediawikiApi, "/api.php"))
         || mediawikiApi == "" {
        settings := settings["mediawiki_api" := VStr(mediawikiApi)];
      }
      file := Some(settings);
    }
  }

  /** The paths the "Delete downloaded files" dialog collects (config.py:316-329), and
      whether the delete job is started. `oldLibs` is what the glob beside the plugin finds. */
  method CollectDeletePaths(pluginDir: string, oldLibs: seq<string>, dependencies: bool, definitions: bool, mediawiki: bool)
    returns (paths: seq<string>, runJob: bool)
    ensures paths == (if dependencies then oldLibs else [])
                     + (if definitions then [CustomLemmasFolder(pluginDir)] else [])
                     + (if mediawiki then [Join(pluginDir, "worddumb-mediawiki"), Join(pluginDir, "worddumb-wikimedia")] else [])
    ensures runJob <==> (dependencies && |oldLibs| > 0) || definitions || mediawiki
    ensures |paths| == (if dependencies then |oldLibs| else 0) + (if definitions then 1 else 0) + (if mediawiki then 2 else 0)
  {
    paths := [];
    if dependencies {
      paths := paths + oldLibs;
    }
    if definitions {
      paths := paths + [CustomLemmasFolder(pluginDir)];
    }
    if mediawiki {
      paths := paths + [Join(pluginDir, "worddumb-mediawiki")];
      paths := paths + [Join(pluginDir, "worddumb-wikimedia")];
    }
    runJob := |paths| > 0;
  }

  /** config.py:566-575: `rmtree` every path that is a directory when its turn comes. */
  method DeleteFiles(fs: FileSystem, paths: seq<string>)
    modifies fs
    ensures fs.entries == RemainingAfter(old(fs.entries), paths)
  {
    ghost var orig := fs.entries;
    var i := 0;
    while i < |paths|
      invariant 0 <= i <= |paths|
      invariant fs.entries == RemainingAfter(orig, paths[..i])
    {
      RemainingAfterStep(orig, paths[..i], paths[i]);
      if fs.IsDir(paths[i]) {
        fs.RemoveTree(paths[i]);
      }
      assert paths[..i + 1] == paths[..i] + [paths[i]];
      i := i + 1;
    }
    assert paths[..|paths|] == paths;
  }

  /** After `delete_files`, a listed directory is gone with everything inside it, an entry
      outside every listed directory is untouched, and a listed path that is not a
      directory is left alone unless it lies inside a listed directory. */
  lemma DeleteFilesSpec(entries: map<string, Kind>, paths: seq<string>, e: string)
    ensures var r := RemainingAfter(entries, paths);
      && (forall j :: 0 <= j < |paths| && IsDirIn(entries, paths[j]) && Under(e, paths[j]) ==> e !in r)
      && (e in entries && (forall j :: 0 <= j < |paths| && IsDirIn(entries, paths[j]) ==> !Under(e, paths[j])) ==>
            e in r && r[e] == entries[e])
      && (forall e' :: e' in r ==> e' in entries && r[e'] == entries[e'])
  {
  }
}
