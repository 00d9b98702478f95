/** The pieces of the host environment the plugin's code reads and writes: JSON values,
    calibre's `JSONConfig` preference store, and a directory tree that
    `Path.is_dir` and `shutil.rmtree` act on. */
module Host {
  import opened Common

  /** A JSON value, as held by the preference store and the per-book settings file. */
  datatype Value = VNull | VBool(b: bool) | VInt(i: int) | VStr(s: string) | VList(items: seq<Value>)

  /** A preference dictionary (the `Prefs` record of utils.py at run time). */
  type Prefs = map<string, Value>

  /** The keys of the `Prefs` record that the modelled code reads, with their declared types. */
  predicate WellTyped(p: Prefs) {
    && "gloss_lang" in p && p["gloss_lang"].VStr?
    && "use_wiktionary_for_kindle" in p && p["use_wiktionary_for_kindle"].VBool?
    && "test_wsd" in p && p["test_wsd"].VBool?
    && "python_path" in p && p["python_path"].VStr?
    && "torch_compute_platform" in p && p["torch_compute_platform"].VStr?
    && "use_china_proxy" in p && p["use_china_proxy"].VBool?
  }

  function GlossLang(p: Prefs): string requires WellTyped(p) { p["gloss_lang"].s }
  function UseWiktionaryForKindle(p: Prefs): bool requires WellTyped(p) { p["use_wiktionary_for_kindle"].b }
  function TestWsd(p: Prefs): bool requires WellTyped(p) { p["test_wsd"].b }
  function PythonPath(p: Prefs): string requires WellTyped(p) { p["python_path"].s }
  function TorchComputePlatform(p: Prefs): string requires WellTyped(p) { p["torch_compute_platform"].s }
  function UseChinaProxy(p: Prefs): bool requires WellTyped(p) { p["use_china_proxy"].b }

  /** Writing a value of the declared type under a typed key keeps the dictionary typed. */
  predicate SameKind(a: Value, b: Value) {
    (a.VStr? && b.VStr?) || (a.VBool? && b.VBool?) || (a.VInt? && b.VInt?)
    || (a.VNull? && b.VNull?) || (a.VList? && b.VList?)
  }

  lemma WellTypedUpdate(p: Prefs, k: string, v: Value)
    requires WellTyped(p) && k in p && SameKind(p[k], v)
    ensures WellTyped(p[k := v])
  {
  }

  /** calibre's `JSONConfig`: the values the plugin has stored, looked up over the
      defaults the plugin declares. Persisting to disk is not modelled. */
  class PrefsStore {
    var defaults: Prefs
    var stored: Prefs

    /** `prefs[key]` for every key: a stored value wins over the default. */
    function View(): Prefs
      reads this
    {
      defaults + stored
    }

    constructor (defaults: Prefs)
      ensures this.defaults == defaults && stored == map[]
    {
      this.defaults := defaults;
      stored := map[];
    }

    /** `prefs[key] = v` */
    method Set(key: string, v: Value)
      modifies this
      ensures stored == old(stored)[key := v] && defaults == old(defaults)
      ensures View() == old(View())[key := v]
    {
      stored := stored[key := v];
    }
  }

  /** `e` is `p` or lies inside the directory `p`. */
  predicate Under(e: string, p: string) {
    e == p || StartsWith(e, p + "/")
  }

  lemma UnderTransitive(e: string, p: string, q: string)
    requires Under(e, p) && Under(p, q)
    ensures Under(e, q)
  {
    if e != p && p != q {
      assert e[..|p|] == p;
      assert e[..|q| + 1] == e[..|p|][..|q| + 1] == p[..|q| + 1] == q + "/";
    }
  }

  /** The operating system, as `calibre.constants` reports it. */
  datatype Os = Windows | Linux | MacOS | OtherOs

  datatype Kind = File | Dir

  predicate IsDirIn(entries: map<string, Kind>, p: string) {
    p in entries && entries[p] == Dir
  }

  /** The entries that are not `p` and do not lie inside `p`. */
  function Without(entries: map<string, Kind>, p: string): map<string, Kind> {
    map e | e in entries && !Under(e, p) :: entries[e]
  }

  /** `e` lies in (or is) one of the listed paths that is a directory of `entries`. */
  predicate RemovedBy(entries: map<string, Kind>, paths: seq<string>, e: string) {
    exists j :: 0 <= j < |paths| && IsDirIn(entries, paths[j]) && Under(e, paths[j])
  }

  /** What is left of `entries` once every path of `paths` that is a directory has been
      removed with all of its contents, whatever the order. */
  function RemainingAfter(entries: map<string, Kind>, paths: seq<string>): map<string, Kind> {
    map e | e in entries && !RemovedBy(entries, paths, e) :: entries[e]
  }

  lemma RemovedByAppend(orig: map<string, Kind>, ps: seq<string>, p: string, e: string)
    ensures RemovedBy(orig, ps + [p], e) <==> RemovedBy(orig, ps, e) || (IsDirIn(orig, p) && Under(e, p))
  {
    var qs := ps + [p];
    if RemovedBy(orig, qs, e) {
      var j :| 0 <= j < |qs| && IsDirIn(orig, qs[j]) && Under(e, qs[j]);
      if j < |ps| { assert qs[j] == ps[j]; }
    }
    if RemovedBy(orig, ps, e) {
      var j :| 0 <= j < |ps| && IsDirIn(orig, ps[j]) && Under(e, ps[j]);
      assert qs[j] == ps[j];
    }
    if IsDirIn(orig, p) && Under(e, p) { assert qs[|ps|] == p; }
  }

  /** Removing the next listed path when it is (still) a directory, and skipping it otherwise,
      extends `RemainingAfter` by that path: a directory that is already gone lay inside one
      removed earlier, so its contents went with it. */
  lemma RemainingAfterStep(orig: map<string, Kind>, ps: seq<string>, p: string)
    ensures var cur := RemainingAfter(orig, ps);
      (if IsDirIn(cur, p) then Without(cur, p) else cur) == RemainingAfter(orig, ps + [p])
  {
    var cur := RemainingAfter(orig, ps);
    var lhs := if IsDirIn(cur, p) then Without(cur, p) else cur;
    var rhs := RemainingAfter(orig, ps + [p]);
    forall e | e in orig
      ensures (e in lhs <==> e in rhs)
    {
      RemainingAfterStepAt(orig, ps, p, e);
    }
    assert forall e :: e in lhs ==> e in orig && lhs[e] == orig[e];
    assert forall e :: e in rhs ==> e in orig && rhs[e] == orig[e];
    assert lhs.Keys == rhs.Keys;
    assert lhs == rhs;
  }

  lemma RemainingAfterStepAt(orig: map<string, Kind>, ps: seq<string>, p: string, e: string)
    requires e in orig
    ensures var cur := RemainingAfter(orig, ps);
      e in (if IsDirIn(cur, p) then Without(cur, p) else cur) <==> e in RemainingAfter(orig, ps + [p])
  {
    var cur := RemainingAfter(orig, ps);
    RemovedByAppend(orig, ps, p, e);
    assert e in cur <==> !RemovedBy(orig, ps, e);
    if IsDirIn(cur, p) {
      assert IsDirIn(orig, p);
    } else if IsDirIn(orig, p) && Under(e, p) {
      assert RemovedBy(orig, ps, p);
      var j :| 0 <= j < |ps| && IsDirIn(orig, ps[j]) && Under(p, ps[j]);
      UnderTransitive(e, p, ps[j]);
      assert RemovedBy(orig, ps, e);
    }
  }

  lemma RemainingAfterNone(orig: map<string, Kind>)
    ensures RemainingAfter(orig, []) == orig
  {
  }

  /** The part of the file system the plugin deletes from, as a map from path to kind. */
  class FileSystem {
    var entries: map<string, Kind>

    /** `Path(p).is_dir()` */
    predicate IsDir(p: string)
      reads this
    {
      IsDirIn(entries, p)
    }

    /** `shutil.rmtree(p)`: removes `p` and everything below it. */
    method RemoveTree(p: string)
      requires IsDir(p)
      modifies this
      ensures entries == Without(old(entries), p)
    {
      entries := Without(entries, p);
    }
  }
}
