# WordDumb dependency, download and settings core in Dafny

WordDumb is a calibre plugin that adds Kindle Word Wise and X-Ray data to e-books. This
project models three parts of it and proves properties about them:

- **deps.py** installs the plugin's Python dependencies and downloads its data files:
  - the PyTorch index tables;
  - `pip_install`: its "already installed" glob pattern and its command line;
  - the `install_deps` package plan;
  - `which_python`: the interpreter choice and the version gate;
  - `download_file`: the resumable, SHA-256-checked downloader;
  - the two Word Wise archive downloads.
- **utils.py** holds the path and preference helpers the rest of the plugin relies on:
  - the definition database paths: Kindle, Wiktionary and the `.klld` files;
  - word-sense disambiguation (WSD) enabling;
  - spaCy model versions;
  - the `zh_cn` alias in the languages table;
  - `sys.path` insertion;
  - `dump_prefs`;
  - the Homebrew binary lookup.
- **config.py** holds the decision rules inside the settings dialogs:
  - which PyTorch compute platforms are offered, and which one is selected;
  - the language dialog: its Wiktionary check box, the book-language and definition-language lists, and the preferences written on accept;
  - the "use all formats" check box;
  - the MediaWiki API check in the book settings;
  - the "Delete downloaded files" dialog.

The modules follow the program:

| module | source |
|---|---|
| `Common` | Python string helpers: `strip`, `str(int)`, `int(str)`, `rfind`, `replace`, `split('/')[-1]`; the key list of a dict |
| `Host` | JSON values, calibre's `JSONConfig` preference store, a directory tree for `is_dir`/`rmtree` |
| `Download` | `download_file` |
| `Utils` | utils.py |
| `Deps` | the rest of deps.py, with `str.split` for version strings |
| `Config` | config.py |

How the model is built:

- Code that computes a value (paths, tables, plans, the version gate) becomes functions, with lemmas about them.
- Code that runs step by step becomes classes and methods.
  - The preference store, the destination file of a download, the interpreter and library globals of deps.py, `sys.path`, Qt combo boxes and check boxes, and the settings file are classes whose methods update fields.
  - The source's loops become `while` loops with invariants.
- At each loop-based method the recursion or loop is proved equal to a specification function. The properties are proved about that function.

The recursion of `download_file` is the function `Download.Run`, an instance of `Download.RunWith` for the request, open and copy of one attempt; the structure of the trace is proved once about `RunWith` for any attempt step. Its trace records every attempt: the offset, the request headers, the open mode, the file before and after, the declared length and the verdict. `Download.DownloadFile` runs the same process as a loop over a destination-file object and ends in the state `Run` describes.

Paths are strings joined with `/`. `pluginDir` stands for `plugin_path.parent`. The languages table `data/languages.json` is modelled as an ordered list of (code, language) pairs, because the dialogs depend on its order.

The model follows the code in these places:

- **Empty checksum.** `download_file` always compares the SHA-256 hex digest with the expected value, even when that value is empty. `download_word_wise_file` passes `""` for an archive missing from the checksum list. Such a download can never succeed: it is deleted and retried until `DownloadFailed`, unless a response without `content-length` ends it first with `MissingContentLength`.
- **Missing `content-length`.** A response without a `content-length` header ends the download with an error (`int(None)` raises), and the bytes already written stay on disk.

## Model

| member | source | states |
|---|---|---|
| Download.DownloadFile | deps.py:252-282 | The loop ends with the outcome, destination file and attempts given by `Run` from the starting file, offset and retry counter |
| Download.RequestHeadersRange | deps.py:257-261 | The user agent header always comes first. A Range header is present exactly when the offset is positive, and it names that offset |
| Download.ParseRangeValue | deps.py:260 | A Range value that parses has the form `bytes=…-` |
| Download.NonPositiveRetryNeverFails | deps.py:269-282 | With a counter of 0 or less the `retry == 1` guards never fire: no verdict fails the download. Whatever the file holds, only a digest mismatch deletes it, and every other verdict keeps exactly the copied bytes |
| Download.RunLength | deps.py:252-282 | At least one and at most `retry` requests are sent; the first starts from the given file and offset |
| Download.RunTail | deps.py:269-274 | A run with more than one attempt retried after its first one, with the counter decreased |
| Download.RunAttempts | deps.py:257-268 | Every recorded attempt is the request, open and copy performed from its own offset and starting file |
| Download.RunLinks | deps.py:269-282 | Each attempt after the first continues from the file and offset its predecessor's verdict left |
| Download.RunLast | deps.py:269-282 | The outcome and the final file are what the last verdict decides, under that attempt's counter |
| Download.SuccessIsVerified | deps.py:269-277 | A successful download keeps its file, whose digest equals the expected checksum and whose size is at least offset plus content-length |
| Download.MalformedDigestNeverSucceeds | deps.py:276-282 | A checksum that is not 64 lower-case hex digits can never be matched, so the download never succeeds |
| Download.EmptyDigestNeverSucceeds | deps.py:276-282 | An empty checksum can never be matched, so the download never succeeds |
| Download.EarlierAttemptsRetried | deps.py:269-282 | Every attempt but the last ended in a short transfer or a digest mismatch |
| Download.FailureRemovesFile | deps.py:269-282 | `DownloadFailed` occurs exactly when all `retry` attempts ended short or mismatched, and the file is then gone |
| Download.ShortTransferResumes | deps.py:269-274 | After a short transfer the next attempt keeps the file, asks for a Range from its size, appends, and only grows the file |
| Download.MismatchRestarts | deps.py:276-282 | After a digest mismatch the file is deleted and the next attempt sends no Range, truncates, and holds just the new body |
| Download.CompleteFirstResponse | deps.py:252-277 | A first response that is complete with a matching digest succeeds after one request and leaves exactly its body |
| Download.Classify | deps.py:266-277 | Defines the verdict of one attempt: missing `content-length`, short transfer, digest mismatch or verified. `Download.VerifiedAttempt` states what a verified attempt guarantees |
| Download.Next | deps.py:269-282 | Defines what follows a verdict under the counter. `Download.NonPositiveRetryNeverFails` and `Download.FailureRemovesFile` state its consequences |
| Download.AttemptAt | deps.py:257-268 | Defines one attempt: its headers, open mode, copy and verdict. `Download.RunAttempts` ties every recorded attempt to it |
| Download.Run | deps.py:252-282 | Defines the recursion of `download_file` as a trace. Its structure is stated by `Download.RunLength`, `Download.RunAttempts`, `Download.RunLinks` and `Download.RunLast` |
| Download.RunWithLength | deps.py:252-282 | For any attempt step, the recursion sends between one and `retry` requests and starts from the given file and offset |
| Download.RunWithAttempts | deps.py:257-268 | For a step that records its own file and offset, the i-th attempt is the step taken at counter `k + i` |
| Download.RunWithLinks | deps.py:269-282 | Each attempt starts from the file and offset the previous verdict left |
| Download.RunWithLast | deps.py:269-282 | The outcome and final file are decided by the last attempt's verdict |
| Download.VerifiedAttempt | deps.py:266-277 | An attempt judged verified has a digest equal to the checksum and at least the declared number of bytes |
| Download.DestFile.Open | deps.py:264 | `wb` empties the file; `ab` keeps its bytes, creating it when missing |
| Download.DestFile.Write | deps.py:265 | Copying the body appends it to the file |
| Download.DestFile.Tell | deps.py:266 | `tell` is the file size |
| Download.DestFile.Unlink | deps.py:271 | After `unlink` the file is absent |
| Common.NatToStringRoundTrip | deps.py:260 | A number written in decimal reads back as the same number |
| Common.StripIdempotent | config.py:611 | Stripping characters from both ends twice gives the same as once |
| Common.StripShape | config.py:611 | A stripped string neither starts nor ends with a stripped character |
| Common.LastSegmentOf | deps.py:160 | `split('/')[-1]` of `a/b` is `b` when `b` has no slash |
| Common.ReplaceChar | deps.py:158 | `replace` for single characters keeps the length, maps every character, and leaves none of the replaced character |
| Host.PrefsStore.Set | config.py:242 | Writing a preference changes only that key of the merged view |
| Host.FileSystem.RemoveTree | config.py:575 | `rmtree` removes the directory and everything below it |
| Host.RemainingAfterStep | config.py:573-575 | Removing the next listed directory, or skipping it when it is gone or not a directory, extends the order-independent description of what is left |
| Host.RemainingAfter | config.py:573-575 | Defines, independent of order, what is left after removing each listed directory (also deps.py:54-55). `Host.RemainingAfterStep` is its step, and `Config.DeleteFilesSpec` and `Deps.RemoveOldLibs` state its effect |
| Host.RemainingAfterStepAt | config.py:573-575 | For one entry: it survives the next step exactly when it survives the extended description |
| Utils.ProficiencyMajorVersionIsOne | utils.py:12-16 | The database version tag `v{PROFICIENCY_MAJOR_VERSION}` is `v1` |
| Utils.MajorVersion | utils.py:16 | The major version is the prefix of the version before its first dot |
| Utils.IsWsdEnabledIff | utils.py:197-198 | WSD is enabled exactly when `test_wsd` is set and both the book and definition languages are `en` |
| Utils.IsWsdEnabled | utils.py:197-198 | Defines `is_wsd_enabled`; `Utils.IsWsdEnabledIff` states when it holds |
| Utils.UseKindleWwDb | utils.py:100-105 | Defines when the Kindle Word Wise database is used. `Utils.KindleDbPathChoice` and `Config.AcceptedPrefsChoice` state its effect |
| Utils.WithStemSuffixOf | utils.py:124 | `with_stem(stem + tag)` on `base.ext` gives `base + tag + .ext` |
| Utils.CustomLemmasFolder | utils.py:96-97 | Defines `custom_lemmas_folder`: `worddumb-lemmas` beside the plugin. `Utils.WiktionaryDbPathShape`, `Utils.KindleDbPathChoice` and `Utils.WiktionaryKlldPathShape` state the exact paths under it |
| Utils.WiktionaryDbPathShape | utils.py:118-125 | The Wiktionary database is `wiktionary_<lemma>_<gloss>_v1.db` in the lemmas folder, with `_wsd` before `.db` exactly when WSD is enabled |
| Utils.WiktionaryDbPath | utils.py:118-125 | Defines `wiktionary_db_path`; `Utils.WiktionaryDbPathShape` states its shape |
| Utils.KindleDbPathChoice | utils.py:100-115 | Kindle books use `kindle_en_en_v1.db` exactly when the Kindle Word Wise database applies, and the Wiktionary database otherwise |
| Utils.KindleDbPath | utils.py:108-115 | Defines `kindle_db_path`; `Utils.KindleDbPathChoice` states its choice |
| Utils.WiktionaryKlldPathShape | utils.py:137-144 | The Wiktionary klld file is `kll.<lemma>.<gloss>_v1.klld`, with `_wsd` before the extension exactly when WSD is enabled |
| Utils.GetWiktionaryKlldPath | utils.py:137-144 | Defines `get_wiktionary_klld_path`; `Utils.WiktionaryKlldPathShape` states its shape |
| Utils.FirstWithSuffixIsFirst | utils.py:130-133 | The search returns the earliest match, and nothing only when no name matches |
| Utils.GetKindleKlldPath | utils.py:128-134 | The file is the first `*.<lang>.klld` in the lemmas folder, else the first `*.<lang>.db`, else none |
| Utils.SpacyModelVersionLookup | utils.py:187-194 | Two models of the same language (first two characters) get the same version. The version comes from `deps.json`, or is `""` only when neither key is listed. A language-specific entry always wins, and an entry for another language never changes the result |
| Utils.GetSpacyModelVersion | utils.py:187-194 | Defines `get_spacy_model_version`; `Utils.SpacyModelVersionLookup` states its properties |
| Common.Keys | utils.py:173-184 | The keys of a dict kept as a list of pairs, in insertion order: the codes of the languages table, and the keys of a torch platform table (deps.py:26-43) |
| Utils.Lookup | utils.py:173-184 | A lookup fails exactly when the code is not a key |
| Utils.Put | utils.py:182 | Assigning a key keeps the key order, adding a new key at the end |
| Utils.LookupPut | utils.py:182-183 | After assigning, the key maps to the new value and every other key is unchanged |
| Utils.LoadLanguagesData | utils.py:173-184 | Without `add_zh_cn` the table is unchanged. With it, `zh_cn` is a copy of `zh` named "Simplified Chinese", every other entry is unchanged, and a missing `zh` raises `KeyError` |
| Utils.InsertLibPathProperties | utils.py:80-82 | After the call the path is in the list. An absent path goes to the front with the rest in order; a present one changes nothing; a second call changes nothing |
| Utils.InsertedLibPath | utils.py:80-82 | Defines `sys.path` after `insert_lib_path`; `Utils.InsertLibPathProperties` states its properties |
| Utils.SysPath.InsertLibPath | utils.py:80-82 | `sys.path` becomes the list `InsertedLibPath` describes |
| Utils.MergedValue | utils.py:159-162 | In the merged dictionary a stored value wins over the default |
| Utils.DumpPrefs | utils.py:159-162 | The defaults dictionary becomes defaults updated by the stored values, and the merged view of the preferences is unchanged. `dump_prefs` returns that dictionary's `json.dumps` text; the model returns the dictionary, and the JSON text is not modelled |
| Utils.MacBinPathChoice | utils.py:63-77 | The result is always the Homebrew path or what `PATH` gives. Whenever either is found the result is one that was found, the Homebrew one first. Only an `arm64` machine changes the folder |
| Utils.MacBinPath | utils.py:63-77 | Defines `mac_bin_path`; `Utils.MacBinPathChoice` states its properties |
| Utils.HomebrewPath | utils.py:66-69 | Defines the Homebrew binary path for the machine |
| Deps.TableGet | deps.py:79-89 | `dict.get` returns a value listed under the key, and `None` for a missing key |
| Deps.TableGetFirst | deps.py:79-89 | `dict.get` answers with the value of the first entry under the key |
| Deps.TorchIndexMacAndOther | deps.py:40-89 | On macOS and other systems `torch` comes from standard PyPI for every platform |
| Deps.TorchIndexWindows | deps.py:33-81 | On Windows: `rocm6.4` and `cpu` give no extra index, `cuda12.8` gives the cu128 index |
| Deps.TorchIndexLinux | deps.py:26-85 | On Linux: the `rocm6.4` and `cpu` indexes, and none for `cuda12.8` |
| Deps.TorchIndexCudaShared | deps.py:26-38 | CUDA 12.6 and 13.0 use the same index on Windows and Linux |
| Deps.TorchIndexWindowsCuda | deps.py:33-38 | On Windows only a CUDA platform has an extra index |
| Deps.TorchExtraIndex | deps.py:77-89 | Defines the `.get` of the system's platform table, with none outside Windows, Linux and macOS. `Deps.TorchIndexMacAndOther`, `Deps.TorchIndexWindows`, `Deps.TorchIndexLinux`, `Deps.TorchIndexCudaShared` and `Deps.TorchIndexWindowsCuda` state its values |
| Deps.StarMatchesAll | deps.py:161 | The glob `*` matches every name |
| Deps.PrefixGlob | deps.py:161 | A literal prefix followed by `*` matches exactly the names starting with that prefix |
| Deps.SkipPatternShape | deps.py:158-160 | The pattern is `<pkg with _ for ->-<version>*`; for `torch` with an extra index, `torch-<version>+<last URL segment>*` |
| Deps.SkipPatternMatches | deps.py:158-161 | A name matches the skip pattern exactly when it starts with the pattern's literal part |
| Deps.SkipPattern | deps.py:158-160 | Defines the "already installed" glob. `Deps.SkipPatternShape` and `Deps.SkipPatternMatches` state its shape and its matches |
| Deps.PipArgs | deps.py:165-191 | Defines the pip command line; `Deps.PipArgsLayout` states its layout |
| Deps.PipCall | deps.py:158-193 | Defines the commands of one `pip_install`: none when already installed. `Deps.Installer.PipInstall` runs it |
| Deps.PipPrefix | deps.py:165-176 | The fixed part of the pip command line has ten words |
| Deps.PipArgsLayout | deps.py:165-191 | The ten fixed words; `--no-deps` exactly when asked; one target; the `--index-url` pair when an index is given; the `--extra-index-url` pair last when an extra index is given |
| Deps.PipTargetChoice | deps.py:181-186 | A non-empty wheel URL is the target. Without one, the target reads back as the package and its pinned version, or no version when it is `""` |
| Deps.PipTarget | deps.py:181-186 | Defines the one target word of the pip command; `Deps.PipTargetChoice` states how it reads back |
| Deps.BuildPipArgs | deps.py:165-191 | The appended list equals the specified command line |
| Deps.Installer.PipInstall | deps.py:149-193 | pip runs once with that command line unless a name in the libraries folder matches the skip pattern; interpreter and folder unchanged |
| Deps.Packages | deps.py:61-109 | The packages of a plan, one per request, in order |
| Deps.InstallPlan | deps.py:59-109 | Defines the package plan of `install_deps`. `Deps.WsdPlan`, `Deps.XRayPlan`, `Deps.InstallPlanIndex` and `Deps.MissingVersionStops` state its properties |
| Deps.WsdSteps | deps.py:63-96 | Defines the `wsd` plan that `Deps.Installer.InstallWsd` runs; `Deps.WsdPlan` states it |
| Deps.XRaySteps | deps.py:97-109 | Defines the X-Ray plan that `Deps.Installer.InstallXRay` runs; `Deps.XRayPlan` states it |
| Deps.InstallPlanIndex | deps.py:59-109 | Every install uses the China PyPI mirror as `--index-url` exactly when `use_china_proxy` is set |
| Deps.WsdPlan | deps.py:63-96 | `wsd` installs transformers, then accelerate unless the platform is `cpu`, then torch from the platform's extra index (only torch has one) |
| Deps.WsdPlanRequests | deps.py:63-96 | The `wsd` plan is its request list with no error when the three versions are listed |
| Deps.XRayPlan | deps.py:97-109 | Other packages install rapidfuzz and spacy, then the spaCy model wheel from the spacy-models release at the looked-up version when a model is named |
| Deps.ModelPlan | deps.py:103-109 | Defines the spaCy model step: the wheel at the looked-up version when a model is named, nothing otherwise. `Deps.XRayPlan` states it |
| Deps.MissingVersionStops | deps.py:61-109 | For any package, when the i-th pinned install is the first whose version is missing, the plan is exactly the requests of the installs before it, ending in `KeyError`; nothing after it runs |
| Deps.PlanPins | deps.py:61-103 | Defines the pinned installs of each package in order: `lxml`; `transformers`, `accelerate` unless `cpu`, `torch` with the platform's index; `rapidfuzz`, `spacy`. `Deps.InstallPlanChain` ties it to the plan |
| Deps.Chain | deps.py:61-109 | Defines pinned installs run one after another, each a `dep_versions[key]` lookup. `Deps.ChainStops` and `Deps.ChainRuns` state its two endings |
| Deps.InstallPlanChain | deps.py:59-109 | Every package's plan is its pinned installs followed by the spaCy model step (X-Ray only) |
| Deps.ChainStops | deps.py:61-103 | The first missing version stops the chain with `KeyError`, after exactly the requests before it |
| Deps.ChainRuns | deps.py:61-109 | With every version listed, the chain makes all its requests and then those of what follows |
| Deps.AllVersionsListed | deps.py:59-109 | With every version listed, a plan makes all its pinned installs, then the model wheel for X-Ray, and raises nothing |
| Deps.PlanErrorIff | deps.py:59-109 | A plan fails exactly when some version it looks up is missing, and then only with `KeyError` |
| Deps.Installer.PrepareInterpreter | deps.py:46-56 | On the first call the found interpreter and `worddumb-libs-py<version>` are recorded, and the old library folders are removed when that folder is missing; a failing `which_python` raises and changes nothing; later calls change nothing |
| Deps.Installer.InstallPackages | deps.py:59-109 | The pip calls made are those of the plan for the package, stopping at a `KeyError` |
| Deps.Installer.InstallWsd | deps.py:63-96 | The pip calls of the WSD plan |
| Deps.Installer.InstallXRay | deps.py:97-109 | The pip calls of the X-Ray plan |
| Deps.Installer.InstallModel | deps.py:104-109 | The pip calls of the spaCy model step: the model wheel when a model is named, nothing otherwise |
| Deps.Installer.InstallDeps | deps.py:46-109 | The interpreter step, then the plan's pip calls under the chosen interpreter and folder, with the plan's error; nothing is installed when `which_python` fails |
| Deps.Installer.PipPinned | deps.py:62-102 | A pinned install runs exactly when its version is listed; otherwise nothing runs and the plan stops with `KeyError` |
| Deps.RemoveOldLibs | deps.py:53-55 | Each old libraries folder is removed with its contents, and nothing else is |
| Deps.OldLibsAllRemoved | deps.py:53-55 | After removing what `glob("worddumb-libs-py*")` found, nothing the glob matches is left |
| Deps.PythonCommandOrder | deps.py:118-124 | A configured path is used whatever the system, machine and `PATH` lookup. Without one, the machine and lookup matter only on macOS. The command is then `py`, `python3`, the Homebrew `python3` or what `PATH` gives for `python3` |
| Deps.PythonCommand | deps.py:118-124 | Defines the interpreter `which_python` tries; `Deps.PythonCommandOrder` states its properties |
| Deps.SplitNone | deps.py:140 | Splitting a string without the separator gives the string itself |
| Deps.SplitTwo | deps.py:140 | Splitting `a.b` gives `[a, b]` when neither part has a dot |
| Deps.ParseParts | deps.py:140 | A sequence of parts that parses gives one number per part |
| Deps.VersionStringParses | deps.py:139-140 | The running interpreter's `major.minor` string parses back to the same pair |
| Deps.VersionGateTwoParts | deps.py:141-145 | Versions 3.11 to 3.13 pass; earlier ones are `OutdatedPython`, later ones `UnsupportedPython` |
| Deps.VersionGateLonger | deps.py:141-145 | Tuple comparison: `3.13.1` is unsupported and `3` is outdated |
| Deps.VersionGate | deps.py:141-145 | Defines the version gate; `Deps.VersionGateTwoParts` and `Deps.VersionGateLonger` state its outcomes |
| Deps.WhichPython | deps.py:112-146 | Defines `which_python`; `Deps.WhichPythonResult` and `Deps.WhichPythonRunning` state its outcomes |
| Deps.WhichPythonResult | deps.py:112-146 | A missing interpreter fails exactly with `PythonNotFound`; success returns the chosen command and a version string that parses and passes the gate |
| Deps.WhichPythonRunning | deps.py:129-146 | Unfrozen and with no configured path, the result depends only on the running version: success exactly for 3.11 to 3.13, reporting `major.minor` |
| Deps.WordWiseArchivesShape | deps.py:196-229 | The plain archive `<lemma>_<gloss>.tar.bz2` comes first, and the `_wsd` archive follows exactly when WSD is enabled. Both are saved in the lemmas folder; an unlisted archive gets checksum `""` |
| Deps.WordWiseArchives | deps.py:215-229 | Defines the archives `download_word_wise_file` fetches; `Deps.WordWiseArchivesShape` states them |
| Deps.ArchiveOfSegment | deps.py:204-223 | An archive is saved under the name its URL ends with: the last segment of its path equals the last segment of its URL |
| Deps.ArchiveOf | deps.py:221-223 | Defines one archive: its release URL, its path in the folder, and `checksum.get(name, "")`. `Deps.WordWiseArchivesShape`, `Deps.ArchiveOfSegment` and `Deps.UnlistedArchiveNeverDownloads` state its properties |
| Deps.ArchiveSegments | deps.py:216-222 | A file name keeps the same last path segment under the folder and under the release URL |
| Deps.UnlistedArchiveNeverDownloads | deps.py:221-223 | An archive missing from the checksum list never downloads successfully |
| Deps.DownloadExtractBz2 | deps.py:232-236 | Downloads with ten attempts; on success the archive is deleted, on failure the file is left as the download left it |
| Deps.DownloadWordWiseFile | deps.py:196-229 | The plain archive is downloaded first; the WSD archive is downloaded only when WSD is enabled and the first download succeeded |
| Config.FindText | config.py:174-176 | `findText`: the first index with the text, or -1 when no item has it |
| Config.FindData | config.py:479-489 | The first index with the data, or -1 when no item has it |
| Config.ComboBox.AddItem | config.py:171 | The item is appended; the first item of an empty box becomes current |
| Config.ComboBox.Clear | config.py:530 | The box is empty with no selection |
| Config.ComboBox.SetCurrentText | config.py:174-176 | The first item with the text becomes current; an unknown text keeps the selection |
| Config.CheckBox.SetChecked | config.py:425 | Sets the checked state only |
| Config.CheckBox.SetEnabled | config.py:426-428 | Sets the enabled state only |
| Config.Offered | config.py:168-171 | No ROCm item is offered on Windows |
| Config.SetupComputePlatform | config.py:152-177 | The box lists the platforms in table order without ROCm on Windows. A stored platform outside the table is reset to `cpu` and nothing else changes. The selection is that platform's label when listed, else the first item |
| Config.PlatformAfterSetup | config.py:172-173 | Defines the stored platform after setup: kept when it is a key of the table, `cpu` otherwise. `Config.SetupComputePlatform` and `Config.RocmOnWindowsShowsCpu` use it |
| Config.FillPlatformBox | config.py:168-171 | The loop fills an empty box with exactly the offered platforms in table order, the first one current |
| Config.OfferedPlatforms | config.py:154-171 | Linux offers CPU, CUDA 13.0, 12.8, 12.6 and ROCm 6.4; Windows the same without ROCm; macOS CPU and MPS |
| Config.OfferedPlatformsHaveIndexEntry | config.py:152-171 | Every platform offered is a key of the PyTorch table `install_deps` uses on that system |
| Config.RocmOnWindowsShowsCpu | config.py:168-176 | A stored `rocm6.4` on Windows is kept but has no item, so the box shows the first item |
| Config.KindleLangChanged | config.py:515-526 | English books with `en`/`zh`/`zh_cn` definitions enable the Wiktionary box and show the stored preference. Otherwise it is checked and disabled, with the warning shown unless this is the first call |
| Config.AcceptedPrefsChoice | config.py:242-246 | The chosen definition language is stored and the preferences stay typed. A Kindle book then uses the Kindle Word Wise database exactly when the choice was open and Wiktionary was unchecked, and never when it was closed |
| Config.AcceptedPrefsFrame | config.py:242-246 | Accepting writes `gloss_lang`. It writes `use_wiktionary_for_kindle` only for a Kindle book with an `en` book language and `en`/`zh`/`zh_cn` definitions, and otherwise that value is unchanged. Every other preference keeps its value, and no key is added |
| Config.AcceptedPrefs | config.py:242-246 | Defines the preference writes on accept; `Config.AcceptedPrefsChoice` and `Config.AcceptedPrefsFrame` state their effect |
| Config.AcceptChooseLemmaLang | config.py:237-258 | The preference writes, then the Kindle or Wiktionary database path, with a download exactly when it does not exist |
| Config.ItemData | config.py:534-540 | The data column of the items, in order |
| Config.FillLemmas | config.py:533-540 | Defines the book-language fill and whether it completes. `Config.FillLemmasSpec` states its properties |
| Config.FillLemmasSpec | config.py:528-540 | The book-language list never offers `zh_cn`. Every item is a table language under its name. It completes exactly when every other code is in the table, and then lists those codes in order |
| Config.FillLemmasNamed | config.py:534-540 | Every item added is a code other than `zh_cn` shown under its language's name |
| Config.FillLemmasComplete | config.py:534-540 | The loop completes exactly when every code other than `zh_cn` is in the table |
| Config.FillLemmasData | config.py:534-540 | A completed fill lists the codes other than `zh_cn`, in order |
| Config.GlossLangChanged | config.py:528-540 | The box holds exactly the items of the book-language fill, with the first one current. `KeyError` is raised when the definition language or a listed code is missing, keeping the items added before |
| Config.FillLemmasSplit | config.py:534-540 | Filling from a list made of two parts is filling from the first and, when it completed, continuing with the second |
| Config.GlossItems | config.py:483-487 | Defines the definition list in table order; it never holds more items than the table has entries. `Config.GlossItemsMembers` says which items it holds |
| Config.GlossItemsMembers | config.py:483-487 | An item is listed exactly when it is a table language whose `gloss_source` is not `""`, under its name |
| Config.GlossItemsDistinct | config.py:483-487 | With distinct codes in the table, no language is listed twice |
| Config.GlossItemsData | config.py:483-487 | A code that is not a table key is never listed |
| Config.FillGlossBox | config.py:483-489 | The box lists the languages whose `gloss_source` is not `""`, in order. The one stored in the preferences is selected when listed, else the first item |
| Config.ChosenGlossAppend | config.py:487-489 | Adding a language moves the selection only when it is the stored one, which cannot have been listed before |
| Config.DisableAllFormatsButton | config.py:423-428 | Checking "choose format manually" unchecks and disables "use all formats". Unchecking it re-enables the box and keeps its state |
| Config.AcceptedIsNormal | config.py:611-615 | An accepted MediaWiki address is already stripped |
| Config.AcceptsMediaWikiApi | config.py:612-615 | Defines the accepted MediaWiki addresses: `http(s)://…/api.php`, or empty |
| Config.SavedSettings | config.py:610-616 | Defines the settings after saving a text. `Config.SavedSettingsSpec` states its properties |
| Config.SavedSettingsSpec | config.py:610-616 | A rejected value leaves the settings as they were. An accepted one changes only `mediawiki_api`, to the stripped text. Saving the same text, or its stripped form, again changes nothing |
| Config.ResaveStoredValue | config.py:610-616 | The stored address, shown again in the field and saved, is kept |
| Config.BookSettings.Save | config.py:610-618 | The settings become the accepted value's update, and the file is written whether or not the value was accepted |
| Config.CollectDeletePaths | config.py:316-329 | Old library folders, the lemmas folder and the two MediaWiki folders, in order, each as its box is checked; the job runs exactly when some path was collected |
| Config.DeleteFiles | config.py:565-575 | Afterwards the file system is the original without every listed path that was a directory, together with its contents |
| Config.DeleteFilesSpec | config.py:565-575 | A listed directory and everything inside it is gone. An entry outside every listed directory is untouched. Nothing is added |

## Left out

- I/O and external processes are modelled as parameters:
  - HTTP requests and responses are a per-request oracle (`Remote.server`), and SHA-256 is a parameter (`Remote.digest`).
  - `shutil.which`, `platform.machine`, the version a `python -c` probe prints, and `Path.exists` are parameters.
  - `run_subprocess` is modelled as a recorded command line. What pip installs into the libraries folder is not modelled, so the folder listing given to `Deps.Installer.InstallPackages` does not change within one call.
- Not modelled:
  - tar extraction (`tarfile.extractall`);
  - the JSON files `data/deps.json`, `languages.json` and the checksum lists, which are taken as already-loaded values;
  - the proxy opener;
  - `get_user_agent`, which is a parameter;
  - progress notifications.
- `download_checksum`, `get_plugin_path`, `insert_installed_libs`, `load_plugin_json`, `run_subprocess`, `donate` and `spacy_model_name` are I/O wrappers. They are not modelled.
- Qt widgets are modelled only as far as the decision rules use them: item lists, current index, checked and enabled state. Signals, layouts, the dialogs' `exec`, translations (`_()`) and the custom-lemmas dialog with its import, export and dump jobs are not modelled. `run_threaded_job` is modelled as the command that it is called. `change_kindle_ww_lang_dialog` is modelled as the boolean `warn`.
- Not modelled in config.py: `save_settings`, `FormatOrderDialog.save` and `ChooseFormatDialog.accept_format`, which only copy widget states into preferences; the Chinese Wikipedia variant box.
- `Download.DownloadFile`: requires `retry >= 1`, which the one call site (deps.py:233) meets with its default of 10. With 0 or less the counter never ends the recursion: only a verified attempt or a missing `content-length` does. `Download.NonPositiveRetryNeverFails` states the one-step behaviour instead.
- `Deps.RemoveOldLibs`: requires the globbed paths to be directories, none inside another. `rmtree` on a plain file or on an already removed path raises, and that error path is not modelled.
- `Deps.Installer.InstallDeps`: requires the same of what `glob("worddumb-libs-py*")` finds (`Deps.OldLibsFound`).
- `Deps.Installer.PipInstall`: the glob supports only `*`. The skip patterns the source builds contain no other glob character.
- `Deps.ParseParts`: parses digits only. Python's `int()` also accepts surrounding whitespace, a sign and underscores.
- `Deps.DownloadWordWiseFile`: creating the lemmas folder (`mkdir`) is not modelled.
- `Config.AcceptChooseLemmaLang`: takes the chosen book and definition languages as strings. The case where a combo box has no current item (`currentData()` is `None`) is not modelled there.
- Preferences are JSON values with declared types (`Host.WellTyped`). A preference of the wrong type, which the source would read anyway, is excluded.
- `Utils.GetKindleKlldPath`: the folder listing is taken in glob order, and Python does not fix that order.
- `Download.DownloadFile` and `Download.Run`: `Remote.server` always answers. A transport error from `opener.open` or `shutil.copyfileobj` propagates without a retry, and a reset mid-stream leaves a partial file. These paths are not modelled.
- `Deps.Installer.PipInstall`: the recorded command always succeeds. `run_subprocess` runs with `check=True`, so a failing pip raises `CalledProcessError` and stops `install_deps` before the later packages. That path is not modelled, and the plan goes on.
- `Deps.WhichPython`: `PyEnv.probe` is total. The probe can raise `CalledProcessError`, or `UnicodeDecodeError` from `.decode()`, and these are not modelled. `Deps.Whitespace` holds only the ASCII whitespace; `str.strip()` also removes Unicode whitespace.
