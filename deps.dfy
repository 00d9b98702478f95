/** The dependency installer of deps.py: the `pip` command and the "already installed"
    pattern of `pip_install`, the package plan and PyTorch index of `install_deps`, the
    interpreter choice and version gate of `which_python`, and the Word Wise file downloads. */
module Deps {
  import opened Common
  import opened Host
  import opened Utils
  import opened Download

  const ChinaPypiMirror := "https://pypi.tuna.tsinghua.edu.cn/simple"
  const TorchWhl := "https://download.pytorch.org/whl"

  /** A compute platform table: platform key to extra index URL (`None` is standard PyPI). */
  type PlatformTable = seq<(string, Option<string>)>

  /** deps.py:26-32 */
  const LinuxPlatforms: PlatformTable := [
    ("cpu", Some(TorchWhl + "/cpu")),
    ("cuda12.6", Some(TorchWhl + "/cu126")),
    ("cuda12.8", None),
    ("cuda13.0", Some(TorchWhl + "/cu130")),
    ("rocm6.4", Some(TorchWhl + "/rocm6.4"))]

  /** deps.py:33-38 */
  const WindowsPlatforms: PlatformTable := [
    ("cpu", None),
    ("cuda12.6", Some(TorchWhl + "/cu126")),
    ("cuda12.8", Some(TorchWhl + "/cu128")),
    ("cuda13.0", Some(TorchWhl + "/cu130"))]

  /** deps.py:40-43 */
  const MacPlatforms: PlatformTable := [("cpu", None), ("mps", None)]

  function TorchPlatforms(os: Os): PlatformTable {
    match os
    case Windows => WindowsPlatforms
    case Linux => LinuxPlatforms
    case MacOS => MacPlatforms
    case OtherOs => []
  }

  /** `table.get(key)`: the URL of the first entry with that key; a missing key and an
      entry holding `None` both give `None`. */
  function TableGet(t: PlatformTable, key: string): (r: Option<string>)
    ensures r.Some? ==> exists i :: 0 <= i < |t| && t[i] == (key, r)
    ensures key !in Keys(t) ==> r.None?
  {
    if t == [] then None else if t[0].0 == key then t[0].1 else TableGet(t[1..], key)
  }

  /** The extra index `torch` is installed from (deps.py:77-89). */
  function TorchExtraIndex(os: Os, platform: string): Option<string> {
    TableGet(TorchPlatforms(os), platform)
  }

  /** macOS and unknown systems always install `torch` from standard PyPI. */
  lemma TorchIndexMacAndOther(platform: string)
    ensures TorchExtraIndex(MacOS, platform) == None && TorchExtraIndex(OtherOs, platform) == None
  {
    var t := MacPlatforms;
    assert t[1..][1..] == [];
  }

  /** Windows has no ROCm build and takes the CPU build from PyPI. */
  lemma TorchIndexWindows()
    ensures TorchExtraIndex(Windows, "rocm6.4") == None
    ensures TorchExtraIndex(Windows, "cpu") == None
    ensures TorchExtraIndex(Windows, "cuda12.8") == Some(TorchWhl + "/cu128")
  {
    assert "rocm6.4" !in Keys(WindowsPlatforms);
  }

  /** Linux has its own CPU and ROCm indexes and takes CUDA 12.8 from PyPI. */
  lemma TorchIndexLinux()
    ensures TorchExtraIndex(Linux, "rocm6.4") == Some(TorchWhl + "/rocm6.4")
    ensures TorchExtraIndex(Linux, "cpu") == Some(TorchWhl + "/cpu")
    ensures TorchExtraIndex(Linux, "cuda12.8") == None
  {
  }

  /** CUDA 12.6 and 13.0 come from the same index on Linux and Windows. */
  lemma TorchIndexCudaShared()
    ensures TorchExtraIndex(Windows, "cuda12.6") == TorchExtraIndex(Linux, "cuda12.6") == Some(TorchWhl + "/cu126")
    ensures TorchExtraIndex(Windows, "cuda13.0") == TorchExtraIndex(Linux, "cuda13.0") == Some(TorchWhl + "/cu130")
  {
    assert TorchPlatforms(Windows) == WindowsPlatforms && TorchPlatforms(Linux) == LinuxPlatforms;
    TorchIndexCuda(WindowsPlatforms);
    TorchIndexCuda(LinuxPlatforms);
  }

  lemma TorchIndexCuda(t: PlatformTable)
    requires t == WindowsPlatforms || t == LinuxPlatforms
    ensures TableGet(t, "cuda12.6") == Some(TorchWhl + "/cu126")
    ensures TableGet(t, "cuda13.0") == Some(TorchWhl + "/cu130")
  {
    assert t[0].0 == "cpu" && t[1] == ("cuda12.6", Some(TorchWhl + "/cu126"));
    assert t[2].0 == "cuda12.8" && t[3] == ("cuda13.0", Some(TorchWhl + "/cu130"));
    assert "cuda12.6"[1] != "cpu"[1];
    TableGetFirst(t, "cuda12.6", 1);
    assert "cuda13.0"[5] != "cuda12.6"[5] && "cuda13.0"[5] != "cuda12.8"[5];
    TableGetFirst(t, "cuda13.0", 3);
  }

  /** `TableGet` answers with the first entry under the key. */
  lemma {:induction false} TableGetFirst(t: PlatformTable, key: string, i: nat)
    requires i < |t| && t[i].0 == key
    requires forall j :: 0 <= j < i ==> t[j].0 != key
    ensures TableGet(t, key) == t[i].1
    decreases i
  {
    if i > 0 {
      TableGetFirst(t[1..], key, i - 1);
    }
  }

  /** On Windows an extra index is used only for the CUDA builds. */
  lemma TorchIndexWindowsCuda(platform: string)
    ensures TorchExtraIndex(Windows, platform).Some? ==> platform in ["cuda12.6", "cuda12.8", "cuda13.0"]
  {
    var t := WindowsPlatforms;
    if TorchExtraIndex(Windows, platform).Some? {
      var i :| 0 <= i < |t| && t[i] == (platform, TorchExtraIndex(Windows, platform));
      assert i != 0;
    }
  }

  /** A glob pattern match where `*` stands for any run of characters and every other
      character stands for itself. */
  predicate GlobMatch(name: string, pattern: string)
    decreases |name| + |pattern|
  {
    if pattern == [] then name == []
    else if pattern[0] == '*' then GlobMatch(name, pattern[1..]) || (name != [] && GlobMatch(name[1..], pattern))
    else name != [] && name[0] == pattern[0] && GlobMatch(name[1..], pattern[1..])
  }

  lemma StarMatchesAll(name: string)
    ensures GlobMatch(name, "*")
    decreases |name|
  {
    if name != [] { StarMatchesAll(name[1..]); }
  }

  /** A pattern made of a literal prefix and one trailing `*` matches exactly the names
      that start with the prefix. */
  lemma {:induction false} PrefixGlob(name: string, prefix: string)
    requires '*' !in prefix
    ensures GlobMatch(name, prefix + "*") <==> StartsWith(name, prefix)
    decreases |prefix|
  {
    if prefix == [] {
      assert prefix + "*" == "*";
      StarMatchesAll(name);
    } else {
      assert (prefix + "*")[1..] == prefix[1..] + "*";
      if name != [] {
        PrefixGlob(name[1..], prefix[1..]);
        if StartsWith(name[1..], prefix[1..]) && name[0] == prefix[0] {
          assert name[..|prefix|] == [name[0]] + name[1..][..|prefix| - 1];
        }
        if StartsWith(name, prefix) {
          assert name[1..][..|prefix| - 1] == name[..|prefix|][1..];
        }
      }
    }
  }

  /** The literal part of the "already installed" pattern (deps.py:158-160): the pattern
      is this followed by `*`. */
  function SkipPrefix(pkg: string, version: string, extraIndex: Option<string>): string {
    if pkg == "torch" && Truthy(extraIndex) then "torch-" + version + "+" + LastSegment(extraIndex.value)
    else ReplaceChar(pkg, '-', '_') + "-" + version
  }

  function SkipPattern(pkg: string, version: string, extraIndex: Option<string>): string {
    SkipPrefix(pkg, version, extraIndex) + "*"
  }

  /** The pattern's package part has `_` for every `-`; a CUDA or ROCm build of torch is
      recognised by its local version tag, the last segment of the index URL. */
  lemma SkipPatternShape(pkg: string, version: string, tag: string)
    requires '/' !in tag
    ensures pkg != "torch" ==>
      SkipPattern(pkg, version, Some(TorchWhl + "/" + tag)) == ReplaceChar(pkg, '-', '_') + "-" + version + "*"
    ensures '-' !in ReplaceChar(pkg, '-', '_')
    ensures tag != "" ==> SkipPattern("torch", version, Some(TorchWhl + "/" + tag)) == "torch-" + version + "+" + tag + "*"
    ensures SkipPattern("torch", version, None) == "torch-" + version + "*"
  {
    SkipPrefixTagged(TorchWhl, version, tag);
    ReplaceCharAbsent("torch", '-', '_');
    assert "torch" + "-" == "torch-";
  }

  lemma SkipPrefixTagged(base: string, version: string, tag: string)
    requires '/' !in tag
    ensures SkipPrefix("torch", version, Some(base + "/" + tag)) == "torch-" + version + "+" + tag
  {
    LastSegmentOf(base, tag);
    assert |base + "/" + tag| > 0;
  }

  /** With no `*` in the version, a package counts as installed exactly when some entry of
      the libraries folder starts with the pattern's literal part. */
  lemma SkipPatternMatches(name: string, pkg: string, version: string, extraIndex: Option<string>)
    requires '*' !in SkipPrefix(pkg, version, extraIndex)
    ensures GlobMatch(name, SkipPattern(pkg, version, extraIndex)) <==> StartsWith(name, SkipPrefix(pkg, version, extraIndex))
  {
    PrefixGlob(name, SkipPrefix(pkg, version, extraIndex));
  }

  /** `any(LIBS_PATH.glob(pattern))` over the folder's entry names. */
  predicate Installed(listing: seq<string>, pattern: string) {
    exists i :: 0 <= i < |listing| && GlobMatch(listing[i], pattern)
  }

  /** The arguments of one `pip_install` call. */
  datatype PipRequest = PipRequest(pkg: string, version: string, url: Option<string>, extraIndex: Option<string>,
                                   noDeps: bool, indexUrl: Option<string>)

  function PipPrefix(pyPath: string, libsPath: string): (s: seq<string>)
    ensures |s| == 10
  {
    [pyPath, "-m", "pip", "--disable-pip-version-check", "install", "-U", "-t", libsPath, "--no-user", "--no-cache-dir"]
  }

  /** The one thing pip is asked to install: the wheel URL, else `pkg==version`, else `pkg`. */
  function PipTarget(r: PipRequest): string {
    if Truthy(r.url) then r.url.value else if r.version != "" then r.pkg + "==" + r.version else r.pkg
  }

  function IndexArgs(r: PipRequest): seq<string> {
    (if r.indexUrl.Some? then ["--index-url", r.indexUrl.value] else [])
    + (if r.extraIndex.Some? then ["--extra-index-url", r.extraIndex.value] else [])
  }

  /** The command line `pip_install` runs (deps.py:165-191). */
  function PipArgs(pyPath: string, libsPath: string, r: PipRequest): seq<string> {
    PipPrefix(pyPath, libsPath) + (if r.noDeps then ["--no-deps"] else []) + [PipTarget(r)] + IndexArgs(r)
  }

  /** The layout of the command: the fixed ten words, `--no-deps` exactly when asked for,
      exactly one target, then the `--index-url` pair when an index is given and the
      `--extra-index-url` pair when an extra index is given. */
  lemma PipArgsLayout(pyPath: string, libsPath: string, r: PipRequest)
    ensures var args := PipArgs(pyPath, libsPath, r);
      var t := if r.noDeps then 11 else 10;
      && args[..10] == PipPrefix(pyPath, libsPath)
      && (r.noDeps ==> args[10] == "--no-deps")
      && args[t] == PipTarget(r)
      && |args| == t + 1 + (if r.indexUrl.Some? then 2 else 0) + (if r.extraIndex.Some? then 2 else 0)
      && (r.indexUrl.Some? ==> args[t + 1] == "--index-url" && args[t + 2] == r.indexUrl.value)
      && (r.extraIndex.Some? ==> args[|args| - 2] == "--extra-index-url" && args[|args| - 1] == r.extraIndex.value)
      && (r.indexUrl.None? && r.extraIndex.None? ==> |args| == t + 1)
  {
  }

  /** How pip reads a target written `name==version`: the part before the first `==`
      and the part after it (`""` when there is none). */
  function SplitPin(s: string): (string, string) {
    if |s| < 2 then (s, "")
    else if s[0] == '=' && s[1] == '=' then ("", s[2..])
    else var (a, b) := SplitPin(s[1..]); ([s[0]] + a, b)
  }

  lemma {:induction false} SplitPinOf(pkg: string, rest: string)
    requires '=' !in pkg
    requires rest == [] || (|rest| >= 2 && rest[..2] == "==")
    ensures SplitPin(pkg + rest) == (pkg, if rest == [] then "" else rest[2..])
    decreases |pkg|
  {
    if pkg == [] {
      assert pkg + rest == rest;
    } else {
      var s := pkg + rest;
      assert s[0] == pkg[0] != '=';
      if |s| < 2 {
        assert rest == [] && s == pkg;
      } else {
        assert s[1..] == pkg[1..] + rest;
        SplitPinOf(pkg[1..], rest);
        assert [pkg[0]] + pkg[1..] == pkg;
      }
    }
  }

  /** Without a wheel URL the target reads back as the package and its pinned version
      (none when the version is `""`); with one it is that URL. */
  lemma PipTargetChoice(r: PipRequest)
    ensures Truthy(r.url) ==> PipTarget(r) == r.url.value
    ensures !Truthy(r.url) && '=' !in r.pkg ==> SplitPin(PipTarget(r)) == (r.pkg, r.version)
  {
    if !Truthy(r.url) && '=' !in r.pkg {
      if r.version == "" {
        SplitPinOf(r.pkg, []);
        assert r.pkg + [] == r.pkg;
      } else {
        var rest := "==" + r.version;
        assert rest[..2] == "==" && rest[2..] == r.version;
        SplitPinOf(r.pkg, rest);
        assert r.pkg + "==" + r.version == r.pkg + rest;
      }
    }
  }

  /** Builds the command by appending to a list, as `pip_install` does. */
  method BuildPipArgs(pyPath: string, libsPath: string, r: PipRequest) returns (args: seq<string>)
    ensures args == PipArgs(pyPath, libsPath, r)
  {
    args := [pyPath, "-m", "pip", "--disable-pip-version-check", "install", "-U", "-t", libsPath,
             "--no-user", "--no-cache-dir"];
    if r.noDeps {
      args := args + ["--no-deps"];
    }
    if Truthy(r.url) {
      args := args + [r.url.value];
    } else if r.version != "" {
      args := args + [r.pkg + "==" + r.version];
    } else {
      args := args + [r.pkg];
    }
    if r.indexUrl.Some? {
      args := args + ["--index-url", r.indexUrl.value];
    }
    if r.extraIndex.Some? {
      args := args + ["--extra-index-url", r.extraIndex.value];
    }
  }

  /** The commands one `pip_install` call runs: none when the package is already installed. */
  function PipCall(pyPath: string, libsPath: string, listing: seq<string>, r: PipRequest): seq<seq<string>> {
    if Installed(listing, SkipPattern(r.pkg, r.version, r.extraIndex)) then [] else [PipArgs(pyPath, libsPath, r)]
  }

  function PipCalls(pyPath: string, libsPath: string, listing: seq<string>, rs: seq<PipRequest>): seq<seq<string>> {
    if rs == [] then [] else PipCall(pyPath, libsPath, listing, rs[0]) + PipCalls(pyPath, libsPath, listing, rs[1..])
  }

  lemma PipCallsCons(pyPath: string, libsPath: string, listing: seq<string>, r: PipRequest, rs: seq<PipRequest>)
    ensures PipCalls(pyPath, libsPath, listing, [r] + rs)
      == PipCall(pyPath, libsPath, listing, r) + PipCalls(pyPath, libsPath, listing, rs)
  {
    assert ([r] + rs)[0] == r;
    assert ([r] + rs)[1..] == rs;
  }

  lemma PinnedStep(pyPath: string, libsPath: string, listing: seq<string>, versions: map<string, string>, key: string,
                   index: Option<string>, extra: Option<string>, rest: Plan, before: seq<seq<string>>, after: seq<seq<string>>)
    requires key in versions
    requires after == before + PipCall(pyPath, libsPath, listing, PipRequest(key, versions[key], None, extra, false, index))
    ensures before + PipCalls(pyPath, libsPath, listing, Pinned(versions, key, index, extra, rest).requests)
      == after + PipCalls(pyPath, libsPath, listing, rest.requests)
    ensures Pinned(versions, key, index, extra, rest).error == rest.error
  {
    var r := PipRequest(key, versions[key], None, extra, false, index);
    assert Pinned(versions, key, index, extra, rest).requests == [r] + rest.requests;
    PipCallsCons(pyPath, libsPath, listing, r, rest.requests);
    AppendAssoc(before, PipCall(pyPath, libsPath, listing, r), PipCalls(pyPath, libsPath, listing, rest.requests));
  }

  lemma AppendAssoc<T>(a: seq<T>, b: seq<T>, c: seq<T>)
    ensures a + (b + c) == (a + b) + c
  {
  }

  /** The packages `install_deps` asks for, in order, and the `KeyError` that stops it when
      `deps.json` lacks a version it looks up. */
  datatype Plan = Plan(requests: seq<PipRequest>, error: Option<string>)

  const Done := Plan([], None)

  function Prepend(r: PipRequest, p: Plan): Plan {
    Plan([r] + p.requests, p.error)
  }

  /** `pip_install(key, dep_versions[key], ...)` followed by the rest of the plan. */
  function Pinned(versions: map<string, string>, key: string, index: Option<string>, extra: Option<string>, rest: Plan): Plan {
    if key !in versions then Plan([], Some("KeyError"))
    else Prepend(PipRequest(key, versions[key], None, extra, false, index), rest)
  }

  /** The wheel of a spaCy model release (deps.py:105-108). */
  function SpacyModelUrl(model: string, version: string): string {
    "https://github.com/explosion/spacy-models/releases/download/" + model + "-" + version + "/"
    + model + "-" + version + "-py3-none-any.whl"
  }

  function ChinaIndex(useChinaProxy: bool): Option<string> {
    if useChinaProxy then Some(ChinaPypiMirror) else None
  }

  /** deps.py:59-109 */
  function InstallPlan(pkg: string, platform: string, os: Os, useChinaProxy: bool, versions: map<string, string>): Plan {
    var index := ChinaIndex(useChinaProxy);
    if pkg == "lxml" then Pinned(versions, "lxml", index, None, Done)
    else if pkg == "wsd" then WsdSteps(platform, os, index, versions)
    else XRaySteps(pkg, index, versions)
  }

  /** deps.py:63-96 */
  function WsdSteps(platform: string, os: Os, index: Option<string>, versions: map<string, string>): Plan {
    var torch := Pinned(versions, "torch", index, TorchExtraIndex(os, platform), Done);
    Pinned(versions, "transformers", index, None,
      if platform != "cpu" then Pinned(versions, "accelerate", index, None, torch) else torch)
  }

  /** deps.py:97-109 */
  function XRaySteps(pkg: string, index: Option<string>, versions: map<string, string>): Plan {
    Pinned(versions, "rapidfuzz", index, None, Pinned(versions, "spacy", index, None, ModelPlan(pkg, index, versions)))
  }

  function Packages(rs: seq<PipRequest>): (ps: seq<string>)
    ensures |ps| == |rs| && forall i :: 0 <= i < |rs| ==> ps[i] == rs[i].pkg
  {
    if rs == [] then [] else [rs[0].pkg] + Packages(rs[1..])
  }

  predicate AllIndexed(p: Plan, index: Option<string>) {
    forall i :: 0 <= i < |p.requests| ==> p.requests[i].indexUrl == index
  }

  lemma PinnedIndexed(versions: map<string, string>, key: string, index: Option<string>, extra: Option<string>, rest: Plan)
    requires AllIndexed(rest, index)
    ensures AllIndexed(Pinned(versions, key, index, extra, rest), index)
  {
    var p := Pinned(versions, key, index, extra, rest);
    if key in versions {
      forall i | 0 <= i < |p.requests| ensures p.requests[i].indexUrl == index {
        if i > 0 { assert p.requests[i] == rest.requests[i - 1]; }
      }
    }
  }

  /** Every `pip` call goes through the China mirror exactly when the proxy preference is set. */
  lemma InstallPlanIndex(pkg: string, platform: string, os: Os, useChinaProxy: bool, versions: map<string, string>)
    ensures AllIndexed(InstallPlan(pkg, platform, os, useChinaProxy, versions), ChinaIndex(useChinaProxy))
  {
    var index := ChinaIndex(useChinaProxy);
    if pkg == "lxml" {
      PinnedIndexed(versions, "lxml", index, None, Done);
    } else if pkg == "wsd" {
      WsdIndexed(platform, os, index, versions);
    } else {
      XRayIndexed(pkg, index, versions);
    }
  }

  lemma WsdIndexed(platform: string, os: Os, index: Option<string>, versions: map<string, string>)
    ensures AllIndexed(WsdSteps(platform, os, index, versions), index)
  {
    var torch := Pinned(versions, "torch", index, TorchExtraIndex(os, platform), Done);
    PinnedIndexed(versions, "torch", index, TorchExtraIndex(os, platform), Done);
    PinnedIndexed(versions, "accelerate", index, None, torch);
    PinnedIndexed(versions, "transformers", index, None,
      if platform != "cpu" then Pinned(versions, "accelerate", index, None, torch) else torch);
  }

  lemma XRayIndexed(pkg: string, index: Option<string>, versions: map<string, string>)
    ensures AllIndexed(XRaySteps(pkg, index, versions), index)
  {
    var model := ModelPlan(pkg, index, versions);
    assert AllIndexed(model, index) by {
      if pkg != "" {
        assert |model.requests| == 1 && model.requests[0].indexUrl == index;
      }
    }
    var spacy := Pinned(versions, "spacy", index, None, model);
    PinnedIndexed(versions, "spacy", index, None, model);
    PinnedIndexed(versions, "rapidfuzz", index, None, spacy);
  }

  /** The requests of the word-sense plan, written out. */
  function WsdRequests(platform: string, os: Os, index: Option<string>, versions: map<string, string>): seq<PipRequest>
    requires "transformers" in versions && "accelerate" in versions && "torch" in versions
  {
    var tr := PipRequest("transformers", versions["transformers"], None, None, false, index);
    var ac := PipRequest("accelerate", versions["accelerate"], None, None, false, index);
    var to := PipRequest("torch", versions["torch"], None, TorchExtraIndex(os, platform), false, index);
    if platform != "cpu" then [tr, ac, to] else [tr, to]
  }

  lemma WsdPlanRequests(platform: string, os: Os, useChinaProxy: bool, versions: map<string, string>)
    requires "transformers" in versions && "accelerate" in versions && "torch" in versions
    ensures InstallPlan("wsd", platform, os, useChinaProxy, versions)
      == Plan(WsdRequests(platform, os, ChinaIndex(useChinaProxy), versions), None)
  {
    var index := ChinaIndex(useChinaProxy);
    var to := PipRequest("torch", versions["torch"], None, TorchExtraIndex(os, platform), false, index);
    var torch := Pinned(versions, "torch", index, TorchExtraIndex(os, platform), Done);
    assert torch == Plan([to], None);
    if platform != "cpu" {
      var ac := PipRequest("accelerate", versions["accelerate"], None, None, false, index);
      assert Pinned(versions, "accelerate", index, None, torch) == Plan([ac, to], None);
    }
  }

  /** The word-sense plan: `transformers`, then `accelerate` unless the platform is the CPU,
      then `torch` from the platform's index; only `torch` has an extra index. */
  lemma WsdPlan(platform: string, os: Os, useChinaProxy: bool, versions: map<string, string>)
    requires "transformers" in versions && "accelerate" in versions && "torch" in versions
    ensures var p := InstallPlan("wsd", platform, os, useChinaProxy, versions);
      && p.error == None
      && Packages(p.requests) == ["transformers"] + (if platform != "cpu" then ["accelerate"] else []) + ["torch"]
      && p.requests[|p.requests| - 1].extraIndex == TorchExtraIndex(os, platform)
      && p.requests[|p.requests| - 1].version == versions["torch"]
      && forall i :: 0 <= i < |p.requests| - 1 ==> p.requests[i].extraIndex == None
  {
    WsdPlanRequests(platform, os, useChinaProxy, versions);
    var ps := Packages(WsdRequests(platform, os, ChinaIndex(useChinaProxy), versions));
    assert ps == ["transformers"] + (if platform != "cpu" then ["accelerate"] else []) + ["torch"];
  }

  /** The X-Ray plan: `rapidfuzz`, `spacy`, then the named spaCy model from its release wheel. */
  lemma XRayPlan(pkg: string, platform: string, os: Os, useChinaProxy: bool, versions: map<string, string>)
    requires pkg != "lxml" && pkg != "wsd"
    requires "rapidfuzz" in versions && "spacy" in versions
    ensures var p := InstallPlan(pkg, platform, os, useChinaProxy, versions);
      && p.error == None
      && Packages(p.requests) == ["rapidfuzz", "spacy"] + (if pkg != "" then [pkg] else [])
      && (pkg != "" ==> var v := GetSpacyModelVersion(pkg, versions);
            p.requests[2].version == v && p.requests[2].url == Some(SpacyModelUrl(pkg, v)))
  {
  }

  /** One pinned install of a plan: the key its version is looked up under in `deps.json`,
      and its extra index. */
  datatype Pin = Pin(key: string, extra: Option<string>)

  /** The pinned installs `install_deps` runs for a package, in order (deps.py:61-103). */
  function PlanPins(pkg: string, platform: string, os: Os): seq<Pin> {
    if pkg == "lxml" then [Pin("lxml", None)]
    else if pkg == "wsd" then
      if platform != "cpu" then [Pin("transformers", None), Pin("accelerate", None), Pin("torch", TorchExtraIndex(os, platform))]
      else [Pin("transformers", None), Pin("torch", TorchExtraIndex(os, platform))]
    else [Pin("rapidfuzz", None), Pin("spacy", None)]
  }

  /** What follows the pinned installs: the spaCy model for X-Ray, nothing otherwise. */
  function PlanTail(pkg: string, index: Option<string>, versions: map<string, string>): Plan {
    if pkg == "lxml" || pkg == "wsd" then Done else ModelPlan(pkg, index, versions)
  }

  /** The pinned installs run one after another, then `tail`. */
  function Chain(versions: map<string, string>, pins: seq<Pin>, index: Option<string>, tail: Plan): Plan {
    if pins == [] then tail
    else Pinned(versions, pins[0].key, index, pins[0].extra, Chain(versions, pins[1..], index, tail))
  }

  /** The requests of pinned installs whose versions are all listed. */
  function PinRequests(versions: map<string, string>, pins: seq<Pin>, index: Option<string>): (rs: seq<PipRequest>)
    requires forall i :: 0 <= i < |pins| ==> pins[i].key in versions
    ensures |rs| == |pins|
    ensures forall i :: 0 <= i < |pins| ==> rs[i] == PipRequest(pins[i].key, versions[pins[i].key], None, pins[i].extra, false, index)
  {
    if pins == [] then [] else [PipRequest(pins[0].key, versions[pins[0].key], None, pins[0].extra, false, index)]
                                + PinRequests(versions, pins[1..], index)
  }

  /** Every package's plan is its pinned installs followed by its tail. */
  lemma InstallPlanChain(pkg: string, platform: string, os: Os, useChinaProxy: bool, versions: map<string, string>)
    ensures var index := ChinaIndex(useChinaProxy);
      InstallPlan(pkg, platform, os, useChinaProxy, versions)
        == Chain(versions, PlanPins(pkg, platform, os), index, PlanTail(pkg, index, versions))
  {
    var index := ChinaIndex(useChinaProxy);
    var pins := PlanPins(pkg, platform, os);
    if pkg == "lxml" {
      assert pins[1..] == [];
    } else if pkg == "wsd" {
      var torch := Pinned(versions, "torch", index, TorchExtraIndex(os, platform), Done);
      if platform != "cpu" {
        assert pins[1..][1..][1..] == [];
        assert Chain(versions, pins[1..][1..], index, Done) == torch;
        assert Chain(versions, pins[1..], index, Done) == Pinned(versions, "accelerate", index, None, torch);
      } else {
        assert pins[1..][1..] == [];
        assert Chain(versions, pins[1..], index, Done) == torch;
      }
    } else {
      var model := ModelPlan(pkg, index, versions);
      assert pins[1..][1..] == [];
      assert Chain(versions, pins[1..][1..], index, model) == model;
      assert Chain(versions, pins[1..], index, model) == Pinned(versions, "spacy", index, None, model);
    }
  }

  /** The first pinned install whose version is missing stops the chain with `KeyError`,
      after exactly the installs before it. */
  lemma {:induction false} ChainStops(versions: map<string, string>, pins: seq<Pin>, index: Option<string>, tail: Plan, i: nat)
    requires i < |pins| && pins[i].key !in versions
    requires forall j :: 0 <= j < i ==> pins[j].key in versions
    ensures Chain(versions, pins, index, tail) == Plan(PinRequests(versions, pins[..i], index), Some("KeyError"))
    decreases i
  {
    if i > 0 {
      ChainStops(versions, pins[1..], index, tail, i - 1);
      assert pins[1..][..i - 1] == pins[..i][1..];
    }
  }

  /** With every version listed, the chain makes all its requests and ends as its tail does. */
  lemma {:induction false} ChainRuns(versions: map<string, string>, pins: seq<Pin>, index: Option<string>, tail: Plan)
    requires forall j :: 0 <= j < |pins| ==> pins[j].key in versions
    ensures Chain(versions, pins, index, tail) == Plan(PinRequests(versions, pins, index) + tail.requests, tail.error)
    decreases |pins|
  {
    if pins != [] {
      ChainRuns(versions, pins[1..], index, tail);
      var r := PipRequest(pins[0].key, versions[pins[0].key], None, pins[0].extra, false, index);
      assert PinRequests(versions, pins, index) == [r] + PinRequests(versions, pins[1..], index);
    }
  }

  /** A missing version stops the plan with `KeyError`: the installs before the first
      missing one are made and none after it. */
  lemma MissingVersionStops(pkg: string, platform: string, os: Os, useChinaProxy: bool, versions: map<string, string>, i: nat)
    requires i < |PlanPins(pkg, platform, os)| && PlanPins(pkg, platform, os)[i].key !in versions
    requires forall j :: 0 <= j < i ==> PlanPins(pkg, platform, os)[j].key in versions
    ensures InstallPlan(pkg, platform, os, useChinaProxy, versions)
      == Plan(PinRequests(versions, PlanPins(pkg, platform, os)[..i], ChinaIndex(useChinaProxy)), Some("KeyError"))
  {
    var index := ChinaIndex(useChinaProxy);
    InstallPlanChain(pkg, platform, os, useChinaProxy, versions);
    ChainStops(versions, PlanPins(pkg, platform, os), index, PlanTail(pkg, index, versions), i);
  }

  /** With every version listed the plan makes all its pinned installs, then the model
      wheel for X-Ray, and raises nothing. */
  lemma AllVersionsListed(pkg: string, platform: string, os: Os, useChinaProxy: bool, versions: map<string, string>)
    requires forall j :: 0 <= j < |PlanPins(pkg, platform, os)| ==> PlanPins(pkg, platform, os)[j].key in versions
    ensures var index := ChinaIndex(useChinaProxy);
      InstallPlan(pkg, platform, os, useChinaProxy, versions)
        == Plan(PinRequests(versions, PlanPins(pkg, platform, os), index) + PlanTail(pkg, index, versions).requests, None)
  {
    var index := ChinaIndex(useChinaProxy);
    InstallPlanChain(pkg, platform, os, useChinaProxy, versions);
    ChainRuns(versions, PlanPins(pkg, platform, os), index, PlanTail(pkg, index, versions));
  }

  /** The plan fails exactly when some version it looks up is missing, and only with `KeyError`. */
  lemma PlanErrorIff(pkg: string, platform: string, os: Os, useChinaProxy: bool, versions: map<string, string>)
    ensures var pins := PlanPins(pkg, platform, os);
      var p := InstallPlan(pkg, platform, os, useChinaProxy, versions);
      && (p.error.Some? <==> exists j :: 0 <= j < |pins| && pins[j].key !in versions)
      && (p.error.Some? ==> p.error == Some("KeyError"))
  {
    var pins := PlanPins(pkg, platform, os);
    if exists j :: 0 <= j < |pins| && pins[j].key !in versions {
      var i := FirstMissing(versions, pins);
      MissingVersionStops(pkg, platform, os, useChinaProxy, versions, i);
    } else {
      AllVersionsListed(pkg, platform, os, useChinaProxy, versions);
    }
  }

  /** The index of the first pin whose version is missing. */
  lemma FirstMissing(versions: map<string, string>, pins: seq<Pin>) returns (i: nat)
    requires exists j :: 0 <= j < |pins| && pins[j].key !in versions
    ensures i < |pins| && pins[i].key !in versions
    ensures forall j :: 0 <= j < i ==> pins[j].key in versions
  {
    i := 0;
    while pins[i].key in versions
      invariant i < |pins|
      invariant forall j :: 0 <= j < i ==> pins[j].key in versions
      decreases |pins| - i
    {
      i := i + 1;
    }
  }

  /** The interpreter `which_python` tries (deps.py:118-124). */
  function PythonCommand(pythonPath: string, os: Os, machine: string, which: string -> Option<string>): string {
    if |pythonPath| > 0 then pythonPath
    else if os == Windows then "py"
    else if os == MacOS then MacBinPath("python3", machine, which)
    else "python3"
  }

  /** A configured path is used whatever the system, the machine and the `PATH` lookup;
      without one the system decides, and the machine and the lookup only matter on macOS,
      where the interpreter is one `mac_bin_path` can return. */
  lemma PythonCommandOrder(pythonPath: string, os: Os, machine: string, which: string -> Option<string>,
                           os': Os, machine': string, which': string -> Option<string>)
    ensures pythonPath != "" ==>
      PythonCommand(pythonPath, os, machine, which) == PythonCommand(pythonPath, os', machine', which') == pythonPath
    ensures os != MacOS ==> PythonCommand(pythonPath, os, machine, which) == PythonCommand(pythonPath, os, machine', which')
    ensures pythonPath == "" ==>
      PythonCommand(pythonPath, os, machine, which) in
        {"py", "python3", HomebrewPath("python3", machine)} + (if which("python3").Some? then {which("python3").value} else {})
  {
  }

  /** `s.split(c)`: the pieces between the separators, at least one. */
  function Split(s: string, c: char): (r: seq<string>)
    ensures |r| >= 1
  {
    if s == [] then [[]]
    else
      var rest := Split(s[1..], c);
      if s[0] == c then [[]] + rest else [[s[0]] + rest[0]] + rest[1..]
  }

  lemma {:induction false} SplitNone(s: string, c: char)
    requires c !in s
    ensures Split(s, c) == [s]
  {
    if s != [] {
      SplitNone(s[1..], c);
      assert [s[0]] + s[1..] == s;
    }
  }

  lemma {:induction false} SplitTwo(a: string, c: char, b: string)
    requires c !in a && c !in b
    ensures Split(a + [c] + b, c) == [a, b]
  {
    if a == [] {
      assert (a + [c] + b)[1..] == b;
      SplitNone(b, c);
    } else {
      assert (a + [c] + b)[1..] == a[1..] + [c] + b;
      SplitTwo(a[1..], c, b);
      assert [a[0]] + a[1..] == a;
    }
  }

  /** `tuple(map(int, parts))` on decimal digits; `None` where `int` raises `ValueError`. */
  function ParseParts(parts: seq<string>): (r: Option<seq<int>>)
    ensures r.Some? ==> |r.value| == |parts|
  {
    if parts == [] then Some([])
    else
      match (ParseNat(parts[0]), ParseParts(parts[1..]))
      case (Some(n), Some(ns)) => Some([n as int] + ns)
      case _ => None
  }

  function ParseVersion(s: string): Option<seq<int>> {
    ParseParts(Split(s, '.'))
  }

  /** Python's tuple `<`: lexicographic, a proper prefix being smaller. */
  predicate TupleLess(a: seq<int>, b: seq<int>) {
    if a == [] then b != []
    else if b == [] then false
    else a[0] < b[0] || (a[0] == b[0] && TupleLess(a[1..], b[1..]))
  }

  /** `".".join(platform.python_version_tuple()[:2])` of the running interpreter. */
  function VersionString(major: nat, minor: nat): string {
    NatToString(major) + "." + NatToString(minor)
  }

  lemma VersionStringParses(major: nat, minor: nat)
    ensures ParseVersion(VersionString(major, minor)) == Some([major as int, minor as int])
  {
    assert '.' !in NatToString(major) by { assert !IsDigit('.'); }
    assert '.' !in NatToString(minor) by { assert !IsDigit('.'); }
    SplitTwo(NatToString(major), '.', NatToString(minor));
    assert NatToString(major) + "." + NatToString(minor) == NatToString(major) + ['.'] + NatToString(minor);
    NatToStringRoundTrip(major);
    NatToStringRoundTrip(minor);
    var parts := [NatToString(major), NatToString(minor)];
    assert parts[1..] == [NatToString(minor)];
    assert parts[1..][1..] == [];
    assert ParseParts(parts[1..][1..]) == Some([]);
    assert ParseNat(parts[1..][0]) == Some(minor);
    assert [minor as int] + [] == [minor as int];
    assert ParseParts(parts[1..]) == Some([minor as int]);
    assert ParseNat(parts[0]) == Some(major);
    assert [major as int] + [minor as int] == [major as int, minor as int];
  }

  /** The version gate of deps.py:140-145 on a parsed version. */
  function VersionGate(v: seq<int>): Result<(), string> {
    if TupleLess(v, [3, 11]) then Failure("OutdatedPython")
    else if TupleLess([3, 13], v) then Failure("UnsupportedPython")
    else Success(())
  }

  /** For a `major.minor` version the gate accepts exactly 3.11 to 3.13, calls anything
      earlier outdated and anything later unsupported. */
  lemma VersionGateTwoParts(major: int, minor: int)
    ensures VersionGate([major, minor]).Success? <==> major == 3 && 11 <= minor <= 13
    ensures VersionGate([major, minor]) == Failure("OutdatedPython") <==> major < 3 || (major == 3 && minor < 11)
    ensures VersionGate([major, minor]) == Failure("UnsupportedPython") <==> major > 3 || (major == 3 && minor > 13)
  {
    var v := [major, minor];
    assert v[1..] == [minor] && v[1..][1..] == [];
    assert [3, 11][1..] == [11] && [3, 11][1..][1..] == [];
    assert [3, 13][1..] == [13] && [3, 13][1..][1..] == [];
    assert TupleLess(v, [3, 11]) <==> major < 3 || (major == 3 && minor < 11);
    assert TupleLess([3, 13], v) <==> 3 < major || (major == 3 && 13 < minor);
  }

  /** A third component still counts: 3.13.1 is above (3, 13) and so unsupported. */
  lemma VersionGateLonger()
    ensures VersionGate([3, 13, 1]) == Failure("UnsupportedPython")
    ensures VersionGate([3]) == Failure("OutdatedPython")
  {
    assert [3, 13, 1][1..] == [13, 1];
    assert [3, 13, 1][1..][1..] == [1];
    assert [3, 13][1..] == [13];
  }

  /** What `which_python` works with besides the preferences. */
  datatype PyEnv = PyEnv(
    os: Os,
    frozen: bool,                       // calibre's `isfrozen`
    machine: string,                    // `platform.machine()`
    which: string -> Option<string>,    // `shutil.which`
    probe: string -> string,            // the output of running the version one-liner with an interpreter
    running: (nat, nat))                // the version of the Python running calibre

  const Whitespace: set<char> := {' ', '\t', '\n', '\r', '\U{0B}', '\U{0C}'}

  /** deps.py:112-146: the interpreter and its `major.minor` version string, or the
      exception raised. */
  function WhichPython(pythonPath: string, env: PyEnv): Result<(string, string), string> {
    var py := PythonCommand(pythonPath, env.os, env.machine, env.which);
    if env.which(py).None? then Failure("PythonNotFound")
    else
      var pyV := if env.frozen || pythonPath != "" then Strip(env.probe(py), Whitespace)
                 else VersionString(env.running.0, env.running.1);
      match ParseVersion(pyV)
      case None => Failure("ValueError")
      case Some(v) =>
        match VersionGate(v)
        case Failure(e) => Failure(e)
        case Success(_) => Success((py, pyV))
  }

  /** Success means the chosen interpreter was found and its version passed the gate; a
      missing interpreter always fails with `PythonNotFound`. */
  lemma WhichPythonResult(pythonPath: string, env: PyEnv)
    ensures var r := WhichPython(pythonPath, env);
      var py := PythonCommand(pythonPath, env.os, env.machine, env.which);
      && (r == Failure("PythonNotFound") <==> env.which(py).None?)
      && (r.Success? ==> r.value.0 == py && ParseVersion(r.value.1).Some?
                         && VersionGate(ParseVersion(r.value.1).value).Success?)
  {
  }

  /** Calibre's own Python is used as is when no path is configured and calibre is not
      frozen: it passes exactly when it is 3.11 to 3.13. */
  lemma WhichPythonRunning(env: PyEnv)
    requires !env.frozen
    requires env.which(PythonCommand("", env.os, env.machine, env.which)).Some?
    ensures WhichPython("", env).Success? <==> env.running.0 == 3 && 11 <= env.running.1 <= 13
    ensures WhichPython("", env).Success? ==> WhichPython("", env).value.1 == VersionString(env.running.0, env.running.1)
  {
    VersionStringParses(env.running.0, env.running.1);
    VersionGateTwoParts(env.running.0, env.running.1);
  }

  /** The globals `PY_PATH` and `LIBS_PATH` of deps.py and the commands run through
      `run_subprocess`. */
  class Installer {
    var pyPath: string
    var libsPath: string
    var runs: seq<seq<string>>

    constructor ()
      ensures pyPath == "" && libsPath == "" && runs == []
    {
      pyPath := "";
      libsPath := "";
      runs := [];
    }

    /** deps.py:149-193; `listing` is the entry names of `LIBS_PATH`. */
    method PipInstall(r: PipRequest, listing: seq<string>)
      modifies this
      ensures pyPath == old(pyPath) && libsPath == old(libsPath)
      ensures runs == old(runs) + PipCall(pyPath, libsPath, listing, r)
    {
      var pattern := SkipPattern(r.pkg, r.version, r.extraIndex);
      if !Installed(listing, pattern) {
        var args := BuildPipArgs(pyPath, libsPath, r);
        runs := runs + [args];
      }
    }

    /** deps.py:46-56: on the first call, pick the interpreter, name the libraries folder
        after its version, and delete the old libraries folders when that one is missing. */
    method PrepareInterpreter(prefs: Prefs, pluginDir: string, env: PyEnv, fs: FileSystem, oldLibs: seq<string>)
      returns (r: Result<(), string>)
      requires WellTyped(prefs)
      requires OldLibsFound(fs.entries, pluginDir, oldLibs)
      modifies this, fs
      ensures runs == old(runs)
      ensures var first := old(pyPath) == "";
        var found := WhichPython(PythonPath(prefs), env);
        if first && found.Failure? then
          r == Failure(found.error) && pyPath == old(pyPath) && libsPath == old(libsPath) && fs.entries == old(fs.entries)
        else
          && r == Success(())
          && (first ==> pyPath == found.value.0 && libsPath == Join(pluginDir, LibsDirName(found.value.1)))
          && (!first ==> pyPath == old(pyPath) && libsPath == old(libsPath))
          && fs.entries == (if first && !IsDirIn(old(fs.entries), libsPath) then RemainingAfter(old(fs.entries), oldLibs)
                            else old(fs.entries))
    {
      if |pyPath| == 0 {
        var found := WhichPython(PythonPath(prefs), env);
        if found.Failure? {
          return Failure(found.error);
        }
        pyPath := found.value.0;
        libsPath := Join(pluginDir, LibsDirName(found.value.1));
        if !fs.IsDir(libsPath) {
          RemoveOldLibs(fs, oldLibs);
        }
      }
      return Success(());
    }

    /** deps.py:59-109: the `pip_install` calls of the plan, stopping at a `KeyError`. */
    method InstallPackages(pkg: string, platform: string, os: Os, useChinaProxy: bool,
                           versions: map<string, string>, listing: seq<string>) returns (r: Result<(), string>)
      modifies this
      ensures pyPath == old(pyPath) && libsPath == old(libsPath)
      ensures var plan := InstallPlan(pkg, platform, os, useChinaProxy, versions);
        && runs == old(runs) + PipCalls(pyPath, libsPath, listing, plan.requests)
        && r == (if plan.error.Some? then Failure(plan.error.value) else Success(()))
    {
      var index := ChinaIndex(useChinaProxy);
      if pkg == "lxml" {
        var ok := PipPinned(versions, "lxml", index, None, listing, Done);
        r := if ok then Success(()) else Failure("KeyError");
      } else if pkg == "wsd" {
        r := InstallWsd(platform, os, index, versions, listing);
      } else {
        r := InstallXRay(pkg, index, versions, listing);
      }
    }

    /** deps.py:63-96 */
    method InstallWsd(platform: string, os: Os, index: Option<string>, versions: map<string, string>, listing: seq<string>)
      returns (r: Result<(), string>)
      modifies this
      ensures pyPath == old(pyPath) && libsPath == old(libsPath)
      ensures var plan := WsdSteps(platform, os, index, versions);
        && runs == old(runs) + PipCalls(pyPath, libsPath, listing, plan.requests)
        && r == (if plan.error.Some? then Failure(plan.error.value) else Success(()))
    {
      ghost var torch := Pinned(versions, "torch", index, TorchExtraIndex(os, platform), Done);
      ghost var afterT := if platform != "cpu" then Pinned(versions, "accelerate", index, None, torch) else torch;
      assert WsdSteps(platform, os, index, versions) == Pinned(versions, "transformers", index, None, afterT);
      var ok := PipPinned(versions, "transformers", index, None, listing, afterT);
      if !ok {
        return Failure("KeyError");
      }
      if platform != "cpu" {
        ok := PipPinned(versions, "accelerate", index, None, listing, torch);
        if !ok {
          return Failure("KeyError");
        }
      }
      var extra := TorchExtraIndex(os, platform);
      ok := PipPinned(versions, "torch", index, extra, listing, Done);
      r := if ok then Success(()) else Failure("KeyError");
    }

    /** deps.py:97-109 */
    method InstallXRay(pkg: string, index: Option<string>, versions: map<string, string>, listing: seq<string>)
      returns (r: Result<(), string>)
      modifies this
      ensures pyPath == old(pyPath) && libsPath == old(libsPath)
      ensures var plan := XRaySteps(pkg, index, versions);
        && runs == old(runs) + PipCalls(pyPath, libsPath, listing, plan.requests)
        && r == (if plan.error.Some? then Failure(plan.error.value) else Success(()))
    {
      ghost var model := ModelPlan(pkg, index, versions);
      ghost var afterR := Pinned(versions, "spacy", index, None, model);
      assert XRaySteps(pkg, index, versions) == Pinned(versions, "rapidfuzz", index, None, afterR);
      var ok := PipPinned(versions, "rapidfuzz", index, None, listing, afterR);
      if !ok {
        return Failure("KeyError");
      }
      ok := PipPinned(versions, "spacy", index, None, listing, model);
      if !ok {
        return Failure("KeyError");
      }
      InstallModel(pkg, index, versions, listing);
      r := Success(());
    }

    /** deps.py:104-109: the spaCy model's wheel, when X-Ray uses one. */
    method InstallModel(pkg: string, index: Option<string>, versions: map<string, string>, listing: seq<string>)
      modifies this
      ensures pyPath == old(pyPath) && libsPath == old(libsPath)
      ensures runs == old(runs) + PipCalls(pyPath, libsPath, listing, ModelPlan(pkg, index, versions).requests)
    {
      if pkg != "" {
        var modelVersion := GetSpacyModelVersion(pkg, versions);
        var url := SpacyModelUrl(pkg, modelVersion);
        var req := PipRequest(pkg, modelVersion, Some(url), None, false, index);
        PipInstall(req, listing);
        assert ModelPlan(pkg, index, versions).requests == [req] + [];
        PipCallsCons(pyPath, libsPath, listing, req, []);
      }
    }

    /** deps.py:46-109. `oldLibs` is what `glob("worddumb-libs-py*")` finds beside the
        plugin; the commands `pip` runs are recorded but their effect is not. */
    method InstallDeps(pkg: string, prefs: Prefs, pluginDir: string, env: PyEnv, fs: FileSystem,
                       oldLibs: seq<string>, versions: map<string, string>, listing: seq<string>)
      returns (r: Result<(), string>)
      requires WellTyped(prefs)
      requires OldLibsFound(fs.entries, pluginDir, oldLibs)
      modifies this, fs
      ensures var first := old(pyPath) == "";
        var found := WhichPython(PythonPath(prefs), env);
        if first && found.Failure? then
          && r == Failure(found.error) && runs == old(runs) && fs.entries == old(fs.entries)
          && pyPath == old(pyPath) && libsPath == old(libsPath)
        else
          && (first ==> pyPath == found.value.0 && libsPath == Join(pluginDir, LibsDirName(found.value.1)))
          && (!first ==> pyPath == old(pyPath) && libsPath == old(libsPath))
          && fs.entries == (if first && !IsDirIn(old(fs.entries), libsPath) then RemainingAfter(old(fs.entries), oldLibs)
                            else old(fs.entries))
          && var plan := InstallPlan(pkg, TorchComputePlatform(prefs), env.os, UseChinaProxy(prefs), versions);
             && runs == old(runs) + PipCalls(pyPath, libsPath, listing, plan.requests)
             && r == (if plan.error.Some? then Failure(plan.error.value) else Success(()))
    {
      r := PrepareInterpreter(prefs, pluginDir, env, fs, oldLibs);
      if r.Failure? {
        return;
      }
      r := InstallPackages(pkg, TorchComputePlatform(prefs), env.os, UseChinaProxy(prefs), versions, listing);
    }

    /** The `pip_install` call for `deps.json`'s version of `key`, or `KeyError`; `rest` is
        the part of the plan that follows it. */
    method PipPinned(versions: map<string, string>, key: string, index: Option<string>, extra: Option<string>,
                     listing: seq<string>, ghost rest: Plan) returns (ok: bool)
      modifies this
      ensures pyPath == old(pyPath) && libsPath == old(libsPath)
      ensures ok <==> key in versions
      ensures var p := Pinned(versions, key, index, extra, rest);
        && (ok ==> old(runs) + PipCalls(pyPath, libsPath, listing, p.requests)
                   == runs + PipCalls(pyPath, libsPath, listing, rest.requests) && p.error == rest.error)
        && (!ok ==> runs == old(runs) && p == Plan([], Some("KeyError")))
    {
      if key !in versions {
        return false;
      }
      ghost var before := runs;
      PipInstall(PipRequest(key, versions[key], None, extra, false, index), listing);
      PinnedStep(pyPath, libsPath, listing, versions, key, index, extra, rest, before, runs);
      return true;
    }
  }

  /** The spaCy model step of the X-Ray plan (deps.py:103-109). */
  function ModelPlan(pkg: string, index: Option<string>, versions: map<string, string>): Plan {
    if pkg != "" then
      var v := GetSpacyModelVersion(pkg, versions);
      Prepend(PipRequest(pkg, v, Some(SpacyModelUrl(pkg, v)), None, false, index), Done)
    else Done
  }

  /** A path `glob("worddumb-libs-py*")` in the folder `pluginDir` can return: a name
      directly in that folder that starts with `worddumb-libs-py`. */
  predicate LibsGlobMatch(pluginDir: string, e: string) {
    StartsWith(e, Join(pluginDir, "worddumb-libs-py")) && '/' !in e[|pluginDir| + 1..]
  }

  /** What the glob beside the plugin returns: every entry it matches, each an existing
      directory, none inside another. */
  predicate OldLibsFound(entries: map<string, Kind>, pluginDir: string, oldLibs: seq<string>) {
    && (forall i :: 0 <= i < |oldLibs| ==> IsDirIn(entries, oldLibs[i]) && LibsGlobMatch(pluginDir, oldLibs[i]))
    && (forall e :: e in entries && LibsGlobMatch(pluginDir, e) ==> e in oldLibs)
    && (forall i, j :: 0 <= i < |oldLibs| && 0 <= j < |oldLibs| && i != j ==> !Under(oldLibs[i], oldLibs[j]))
  }

  /** Once the globbed folders are removed, nothing the glob matches is left. */
  lemma OldLibsAllRemoved(entries: map<string, Kind>, pluginDir: string, oldLibs: seq<string>)
    requires OldLibsFound(entries, pluginDir, oldLibs)
    ensures forall e :: e in RemainingAfter(entries, oldLibs) ==> !LibsGlobMatch(pluginDir, e)
  {
    forall e | e in entries && LibsGlobMatch(pluginDir, e)
      ensures RemovedBy(entries, oldLibs, e)
    {
      var j :| 0 <= j < |oldLibs| && oldLibs[j] == e;
      assert IsDirIn(entries, oldLibs[j]) && Under(e, oldLibs[j]);
    }
  }

  /** deps.py:53-55: `shutil.rmtree` on every old libraries folder. */
  method RemoveOldLibs(fs: FileSystem, oldLibs: seq<string>)
    requires forall i :: 0 <= i < |oldLibs| ==> IsDirIn(fs.entries, oldLibs[i])
    requires forall i, j :: 0 <= i < |oldLibs| && 0 <= j < |oldLibs| && i != j ==> !Under(oldLibs[i], oldLibs[j])
    modifies fs
    ensures fs.entries == RemainingAfter(old(fs.entries), oldLibs)
  {
    ghost var orig := fs.entries;
    var i := 0;
    while i < |oldLibs|
      invariant 0 <= i <= |oldLibs|
      invariant fs.entries == RemainingAfter(orig, oldLibs[..i])
    {
      assert oldLibs[i] in fs.entries by {
        forall j | 0 <= j < i ensures !Under(oldLibs[i], oldLibs[..i][j]) {
          assert oldLibs[..i][j] == oldLibs[j];
        }
      }
      RemainingAfterStep(orig, oldLibs[..i], oldLibs[i]);
      fs.RemoveTree(oldLibs[i]);
      assert oldLibs[..i + 1] == oldLibs[..i] + [oldLibs[i]];
      i := i + 1;
    }
    assert oldLibs[..|oldLibs|] == oldLibs;
  }

  /** A download of one `.tar.bz2` archive of the Proficiency release. */
  datatype Archive = Archive(url: string, path: string, sha256: string)

  /** The archive `name`, checked against `checksums[name]`, or `""` when it is not listed. */
  function ArchiveOf(folder: string, name: string, checksums: map<string, string>): Archive {
    Archive(ProficiencyReleaseUrl + "/" + name, Join(folder, name), if name in checksums then checksums[name] else "")
  }

  /** deps.py:196-229: the archives `download_word_wise_file` downloads, in order;
      `wsdChecksums` is only consulted for the second one. */
  function WordWiseArchives(pluginDir: string, lemmaLang: string, p: Prefs,
                            checksums: map<string, string>, wsdChecksums: map<string, string>): seq<Archive>
    requires WellTyped(p)
  {
    var folder := CustomLemmasFolder(pluginDir);
    var gloss := GlossLang(p);
    var plain := ArchiveOf(folder, lemmaLang + "_" + gloss + ".tar.bz2", checksums);
    if IsWsdEnabled(p, lemmaLang) then [plain, ArchiveOf(folder, lemmaLang + "_" + gloss + "_wsd.tar.bz2", wsdChecksums)]
    else [plain]
  }

  /** The plain archive always comes first; the `_wsd` archive follows exactly when WSD is
      enabled; each is saved in the lemmas folder, under its own name by `ArchiveOfSegment`. */
  lemma WordWiseArchivesShape(pluginDir: string, lemmaLang: string, p: Prefs,
                              checksums: map<string, string>, wsdChecksums: map<string, string>)
    requires WellTyped(p)
    ensures var a := WordWiseArchives(pluginDir, lemmaLang, p, checksums, wsdChecksums);
      var folder := CustomLemmasFolder(pluginDir);
      var name := lemmaLang + "_" + GlossLang(p) + ".tar.bz2";
      var wsdName := lemmaLang + "_" + GlossLang(p) + "_wsd.tar.bz2";
      && |a| == (if IsWsdEnabled(p, lemmaLang) then 2 else 1)
      && a[0] == ArchiveOf(folder, name, checksums)
      && a[0].url == ProficiencyReleaseUrl + "/" + name
      && a[0].path == Join(folder, name)
      && (name !in checksums ==> a[0].sha256 == "")
      && (|a| == 2 ==> a[1] == ArchiveOf(folder, wsdName, wsdChecksums) && a[1].path == Join(folder, wsdName))
  {
  }

  /** An archive is saved under the last segment of its URL. */
  lemma ArchiveOfSegment(folder: string, name: string, checksums: map<string, string>)
    ensures LastSegment(ArchiveOf(folder, name, checksums).path) == LastSegment(ArchiveOf(folder, name, checksums).url)
  {
    if '/' !in name {
      LastSegmentOf(folder, name);
      LastSegmentOf(ProficiencyReleaseUrl, name);
    } else {
      ArchiveSegments(folder, ProficiencyReleaseUrl, name);
    }
  }

  /** A name with a slash keeps the same trailing segment under either parent. */
  lemma ArchiveSegments(folder: string, url: string, name: string)
    ensures LastSegment(folder + "/" + name) == LastSegment(url + "/" + name)
  {
    if '/' in name {
      var k := LastIndexOf(name, '/');
      var b := name[k + 1..];
      var a := name[..k];
      assert name == a + "/" + b;
      assert '/' !in b by {
        forall j | 0 <= j < |b| ensures b[j] != '/' { assert b[j] == name[k + 1 + j]; }
      }
      assert folder + "/" + name == (folder + "/" + a) + "/" + b;
      assert url + "/" + name == (url + "/" + a) + "/" + b;
      LastSegmentOf(folder + "/" + a, b);
      LastSegmentOf(url + "/" + a, b);
    } else {
      LastSegmentOf(folder, name);
      LastSegmentOf(url, name);
    }
  }

  /** The download job for an archive. */
  function ArchiveJob(a: Archive, userAgent: string): Job {
    Job(a.url, userAgent, a.sha256)
  }

  /** An archive missing from the checksum list is checked against `""`, which no SHA-256
      digest equals, so its download never succeeds. */
  lemma UnlistedArchiveNeverDownloads(folder: string, name: string, checksums: map<string, string>,
                                      userAgent: string, remote: Remote, f: FileState, retry: int)
    requires name !in checksums && retry >= 1
    ensures Run(ArchiveJob(ArchiveOf(folder, name, checksums), userAgent), remote, 0, f, 0, retry).outcome != Downloaded
  {
    EmptyDigestNeverSucceeds(ArchiveJob(ArchiveOf(folder, name, checksums), userAgent), remote, 0, f, 0, retry);
  }

  /** deps.py:232-236: download with the default ten attempts, then (after the extraction,
      which is not modelled) delete the archive; a failed download raises before either. */
  method DownloadExtractBz2(dest: DestFile, a: Archive, userAgent: string, remote: Remote) returns (outcome: Outcome)
    modifies dest
    ensures var t := Run(ArchiveJob(a, userAgent), remote, 0, old(dest.State()), 0, 10);
      && outcome == t.outcome
      && dest.State() == (if outcome == Downloaded then Absent else t.file)
  {
    var attempts;
    outcome, attempts := DownloadFile(dest, ArchiveJob(a, userAgent), remote, 0, 10);
    if outcome == Downloaded {
      SuccessIsVerified(ArchiveJob(a, userAgent), remote, 0, old(dest.State()), 0, 10);
      dest.Unlink();
    }
  }

  /** deps.py:196-229: the plain archive first; the `_wsd` archive only when WSD is enabled
      and the first download succeeded (a failed download raises and ends the job). */
  method DownloadWordWiseFile(pluginDir: string, lemmaLang: string, p: Prefs,
                              checksums: map<string, string>, wsdChecksums: map<string, string>,
                              plain: DestFile, wsd: DestFile, userAgent: string, remote: Remote)
    returns (outcome: Outcome)
    requires WellTyped(p) && plain != wsd
    modifies plain, wsd
    ensures var a := WordWiseArchives(pluginDir, lemmaLang, p, checksums, wsdChecksums);
      var t0 := Run(ArchiveJob(a[0], userAgent), remote, 0, old(plain.State()), 0, 10);
      && plain.State() == (if t0.outcome == Downloaded then Absent else t0.file)
      && (t0.outcome != Downloaded || |a| == 1 ==> outcome == t0.outcome && wsd.State() == old(wsd.State()))
      && (t0.outcome == Downloaded && |a| == 2 ==>
            var t1 := Run(ArchiveJob(a[1], userAgent), remote, 0, old(wsd.State()), 0, 10);
            outcome == t1.outcome && wsd.State() == (if t1.outcome == Downloaded then Absent else t1.file))
    ensures outcome == Downloaded ==> plain.State() == Absent
  {
    var archives := WordWiseArchives(pluginDir, lemmaLang, p, checksums, wsdChecksums);
    WordWiseArchivesShape(pluginDir, lemmaLang, p, checksums, wsdChecksums);
    outcome := DownloadExtractBz2(plain, archives[0], userAgent, remote);
    if outcome == Downloaded && IsWsdEnabled(p, lemmaLang) {
      outcome := DownloadExtractBz2(wsd, archives[1], userAgent, remote);
    }
  }
}
