# Spore Mod Loader installer — a Dafny model

This project models the deterministic core of `SporeModLoaderInstaller`, the
NaK installer that sets up the Spore ModAPI Launcher Kit in a Proton-GE Wine
prefix. The installer:

- finds the Spore game;
- reuses or creates a Wine prefix;
- installs the `vcrun2022` and `d3dcompiler_43` dependencies once, guarded by a marker file;
- imports the registry keys that let ModAPI find Spore;
- downloads `ModAPI.InterimSetup.exe` from the latest GitHub release;
- starts it under Wine, with instructions for the user.

After the user finishes that installer, it can locate the kit, check it and
write one launch script per kit executable.

The model is functional:

- Collaborators (game finder, Proton-GE manager, dependency installer, Steam
  detection, GitHub downloader) become input values.
- What became of each subprocess is an input, and the subprocess itself is
  recorded as the command it would start.
- The host filesystem is a set of existing paths.

Modules:

| module | file | models |
|---|---|---|
| `Wrappers`, `Seqs` | `wrappers.dfy` | `Option` (Python's `None`-or-value); the first-match search of a `for … if …: return` loop |
| `PyStr` | `pystr.dfy` | `str.replace` (left to right, non-overlapping), `str.lower` on ASCII, `in` on strings, `Path / name` and `Path.parent` |
| `WinePaths` | `winepaths.dfy` | the display and registry forms of a host path on Wine's Z: drive, the .reg escaping, the in-guest `C:` path |
| `Registry` | `registry.dfy` | the .reg document `create_spore_registry` writes: its four keys and values, rendered line by line |
| `Locate` | `locate.dfy` | `find_spore_game`, `find_modapi_installation`, `verify_installation` |
| `Steps` | `steps.dfy` | the Wine commands, `create_spore_registry`, `download_modapi_installer`, `launch_installer_with_instructions` |
| `LaunchScripts` | `launchscripts.dfy` | the selection and path logic of `create_launch_scripts` |
| `Pipeline` | `pipeline.dfy` | `install`: verdict, progress updates, paths created, steps run |

Strings are `seq<char>`. Backslashes are written as Dafny escapes: `"Z:\\"` is
the three characters `Z`, `:`, `\`, as in the Python source.

Behaviour of the code worth knowing, all of it in the model:

- `%CDKEY%` is left unresolved in two places: the ergc default value and
  the EP1 `ProductKey`.
- The temporary .reg file is removed only after `regedit` exits. It stays
  behind when writing it raises, when no Proton-GE is active and when
  running `regedit` raises.
- `LD_LIBRARY_PATH` is set to a fixed value; the caller's value is dropped.
- The kit folder is spelled `SPORE ModAPI Launcher Kit` under `ProgramData`
  and `Spore ModAPI Launcher Kit` under both Program Files folders.
- Only the first asset named `ModAPI.InterimSetup.exe` is consulted. An
  empty download url counts as no installer.
- `create_launch_scripts` has no explicit check for a missing Proton-GE.
  Reading `.parent` of `None` raises, and the handler returns `False`; the
  model gives that outcome with no script written.
- An absolute custom prefix name replaces the prefixes folder, because
  pathlib's `/` drops its left side when the right side is absolute.

## Model

| member | source | states |
|---|---|---|
| `WinePaths.DisplayPath` | spore-mod-loader/installer.py:72-77 | the display path is `Z:\` then the host path character by character with each `/` turned into one backslash; it is 3 longer than the input and holds no `/` |
| `WinePaths.RegistryPath` | spore-mod-loader/installer.py:79-84 | the registry path is `Z:\\` followed by the host path character by character, each `/` becoming two backslashes at the position its predecessors leave, and every other character kept; it is `4 + (number of '/')` longer than the input and holds no `/` |
| `WinePaths.UnescapeEscape` | spore-mod-loader/installer.py:79-84 | doubling every backslash, as a .reg string value requires, is undone by the importer's reading for every string |
| `WinePaths.RegistryIsEscapedDisplay` | spore-mod-loader/installer.py:72-84 | the registry form equals the escaped display form exactly when the host path has no backslash of its own |
| `WinePaths.RegistryReadsAsDisplay` | spore-mod-loader/installer.py:72-84 | for a backslash-free host path, the importer reads the registry form followed by an escaped suffix as the display form followed by that suffix |
| `WinePaths.GuestPath` | spore-mod-loader/installer.py:346-348 | the in-guest executable path holds no `/` |
| `WinePaths.GuestPathUnderDriveC` | spore-mod-loader/installer.py:346-348 | a host path `<prefix>/drive_c<rest>`, with no `_` in `rest`, becomes `C:` followed by `rest` with backslashes |
| `Registry.SplitJoinLines` | spore-mod-loader/installer.py:98-119 | joining lines that hold no newline, each ended by a newline, and splitting the text again gives back the same lines |
| `Registry.DocumentStartsWithHeader` | spore-mod-loader/installer.py:98-99 | the .reg text opens with the `Windows Registry Editor Version 5.00` line |
| `Registry.DocumentKeyOrder` | spore-mod-loader/installer.py:98-119 | the document has exactly four key headers: spore, ergc, Creepy and Cute Parts Pack, SPORE_EP1, in that order |
| `Registry.DocumentReadsBack` | spore-mod-loader/installer.py:98-119 | for a host path without newlines, splitting the written text into lines gives back the rendered lines: the header first, then the four key headers in order |
| `Registry.DocumentHasNoSlash` | spore-mod-loader/installer.py:92-119 | no `/` occurs anywhere in the document, for every host path |
| `Registry.SporeRegistryFree` | spore-mod-loader/installer.py:92-119 | no key path, value name or value holds a `/`, nor a newline unless the host path brings one |
| `Registry.CdKeyPlaceholders` | spore-mod-loader/installer.py:106-118 | `%CDKEY%` is the value exactly twice: the ergc default value and the EP1 `ProductKey` |
| `Registry.SporeDatadir` | spore-mod-loader/installer.py:92-102 | a reader looking up `datadir` under the spore key finds the registry path followed by `\\Data` |
| `Registry.PartsPackDatadir` | spore-mod-loader/installer.py:95-111 | `datadir` under the parts pack key is the registry path followed by `\\bp1content\\` |
| `Registry.Ep1Datadir` | spore-mod-loader/installer.py:94-116 | `datadir` under the EP1 key is the registry path followed by `\\DataEP1\\` |
| `Registry.DatadirValuesAsStored` | spore-mod-loader/installer.py:92-116 | once unescaped, the three `datadir` values are the display path followed by `\Data`, `\bp1content\` and `\DataEP1\` |
| `Seqs.FirstIndex` | spore-mod-loader/installer.py:56-66 | the search returns the first index whose element matches, and None exactly when none matches |
| `Seqs.FirstIndexAppend` | spore-mod-loader/installer.py:56-66 | a match in the first part of a list wins; otherwise the second part's match, shifted |
| `Locate.FindSporeGame` | spore-mod-loader/installer.py:48-70 | the result is the first game whose lower-cased name contains `spore`, copied unchanged; None when none matches or the finder raised |
| `Locate.FindSporeGameAppend` | spore-mod-loader/installer.py:55-66 | games listed after a match never change the result |
| `Locate.IsSporeIgnoresCase` | spore-mod-loader/installer.py:57 | a name and its lower-cased form match alike |
| `Locate.FindModApiInstallation` | spore-mod-loader/installer.py:268-300 | the result is the first of `ProgramData/SPORE ModAPI Launcher Kit`, `Program Files (x86)/Spore ModAPI Launcher Kit`, `Program Files/Spore ModAPI Launcher Kit` (under `drive_c`) holding the launcher; None exactly when none does |
| `Locate.VerifyInstallation` | spore-mod-loader/installer.py:417-438 | true exactly when all three executables exist; the log has one Found or Missing line for every file, even after a miss |
| `Locate.CompleteKitIsFound` | spore-mod-loader/installer.py:276-297 | a complete kit in any of the three probed folders is found by the search |
| `Locate.FindsKitInProgramFilesX86` | spore-mod-loader/installer.py:276-289 | with no launcher in the default folder, a launcher in `Program Files (x86)/Spore ModAPI Launcher Kit` makes that folder the result |
| `Locate.GuestPathOfKitFile` | spore-mod-loader/installer.py:336-348 | a kit executable in a probed folder runs in the guest as `C:\<root>\<kit folder>\<exe>`, with that probe's own spelling of the kit folder |
| `Steps.WineToolsShareBin` | spore-mod-loader/installer.py:504-506 | wine64 and wineserver are in the same `files/bin` folder of the Proton-GE directory |
| `Steps.CreateSporeRegistry` | spore-mod-loader/installer.py:86-161 | success exactly when the .reg file is created and written in full, Proton is active and regedit exits 0; the file holds the registry document; the command is `wine64 regedit <file>` with a 60-second wait; a created file is left behind exactly when the run ends before regedit exits, including when writing it raised |
| `Steps.InstallerAssetIndex` | spore-mod-loader/installer.py:174-180 | the index is that of the first asset named `ModAPI.InterimSetup.exe`; None exactly when no asset has that name |
| `Steps.DownloadModApiInstaller` | spore-mod-loader/installer.py:163-204 | the downloader is asked for the first installer asset's url exactly when the release exists and that url is non-empty; an installer results exactly when the download then yields a file |
| `Steps.FirstInstallerAssetDecides` | spore-mod-loader/installer.py:175-184 | only the first asset named `ModAPI.InterimSetup.exe` is consulted, even if its url is empty |
| `Steps.LaunchInstaller` | spore-mod-loader/installer.py:206-266 | success exactly when Proton is active and starting does not fail (a start timeout counts as success); the command is `wine64 <installer>`, detached; the shown location holds no `/` |
| `Steps.ShownLocationMatchesRegistry` | spore-mod-loader/installer.py:215-222 | for a host path without backslashes, the install location shown to the user is the folder that the spore and EP1 `datadir` values name once the importer unescapes them |
| `LaunchScripts.PlanFacts` | spore-mod-loader/installer.py:335-340 | a script is due only for an executable present in the install folder; none is due exactly when none is present |
| `LaunchScripts.PlanAppend` | spore-mod-loader/installer.py:335-404 | the scripts due for two lists of executables are those of each, in order |
| `LaunchScripts.PlannedScripts` | spore-mod-loader/installer.py:327-340 | the scripts due are, in order, those for the launcher, the easy installer and the easy uninstaller, each only when present |
| `LaunchScripts.WriteScripts` | spore-mod-loader/installer.py:335-411 | scripts are written in order as a prefix of the due ones; a failed write ends the run; success exactly when all due scripts are written and there is at least one |
| `LaunchScripts.CreateLaunchScripts` | spore-mod-loader/installer.py:302-415 | nothing is written without an install folder (given or found) or without Proton; otherwise as `WriteScripts`, with the Steam root falling back to `$HOME/.steam/steam` |
| `LaunchScripts.FoundKitScripts` | spore-mod-loader/installer.py:343-348 | for a kit found in a probed folder, every script runs `C:\<root>\<kit folder>\<exe>` with that probe's spelling of the kit folder, and the prefix's parent as compatibility data |
| `Pipeline.Install` | spore-mod-loader/installer.py:459-577 | the run succeeds exactly when the game is found, Proton is active, the dependencies are marked or install, the installer downloads and its launch does not fail; progress is a rising prefix of 0, 5, 10, 15, 40, 50, 60, 100 and all of it exactly on success; without Spore it stops after 0 and 5 with nothing created and no step run; once the game is found the prefix exists; only the prefix and the marker can be created; an existing marker means no dependency call; the marker appears exactly when the dependency installer was called and succeeded |
| `Pipeline.SetUp` | spore-mod-loader/installer.py:487-543 | from progress 10 on: success exactly when Proton is active, the marker exists or the dependencies install, the installer downloads and its launch does not fail; the dependency installer is called only without the marker and with Proton; the marker is the only path added, and it appears exactly when that call succeeded |
| `Pipeline.Apply` | spore-mod-loader/installer.py:545-565 | from progress 40 on: success exactly when the installer downloads, Proton is active and the launch does not fail; no path is created and the dependency record passes through |
| `Pipeline.DependencyRequest` | spore-mod-loader/installer.py:499-535 | the dependency request names vcrun2022 and d3dcompiler_43, Proton's wine64 and wineserver, the prefix, its parent as compatibility data, and the Steam root or `/tmp` |
| `Pipeline.PrefixParent` | spore-mod-loader/installer.py:479-517 | the prefix's parent is the named folder holding `pfx` |
| `Pipeline.PrefixNameDefault` | spore-mod-loader/installer.py:478 | the default prefix name is used exactly when no name, an empty name or the default itself is asked for |
| `Pipeline.AbsolutePrefixName` | spore-mod-loader/installer.py:478-479 | an absolute custom prefix name replaces the prefixes folder: the prefix is `<name>/pfx` |
| `Pipeline.RegistryIsSoft` | spore-mod-loader/installer.py:545-548 | whatever the registry step meets, the verdict, progress, paths and the other steps are the same |
| `Pipeline.InstallIdempotent` | spore-mod-loader/installer.py:477-542 | a second run on what the first left changes no path; after a success it succeeds again without calling the dependency installer |

## Left out

- Process execution (`subprocess.run`, `Popen`), the copied environment, output capture and timeouts: only the command, `WINEPREFIX`, `LD_LIBRARY_PATH`, the wait mode and the outcome are modelled.
- `tempfile`, `write_text`, `chmod`, `mkdir`, `touch` and `unlink` as operations: the filesystem is a set of existing paths. A temporary file is known by its name. A script write that fails is a path in an `unwritable` set.
- Pipeline.Install: `mkdir` and `touch` are taken to succeed. In the source, a raise there ends the run with `False` through the outer handler.
- Pipeline.Install: `mkdir(parents=True)` also creates missing parent folders; only the prefix itself is added to the set of paths.
- The GitHub downloader, game finder, Proton-GE manager, dependency installer, Steam detection and `get_prefixes_dir`: their source is not part of this model, so their answers are inputs.
- The Proton-GE manager is asked several times in one run; the model takes one answer for the whole run. Likewise the Steam root detected for each launch script is one answer.
- Steps.DownloadModApiInstaller: an asset without a `browser_download_url` key raises in the source and gives None. The model has no such asset; its empty url gives the same None.
- Logging, the log and progress callbacks, and the wording of messages and of the user instructions: only the progress values, the verification log entries and the shown install location are modelled.
- The fixed text of the generated bash script and its mode 0o755: only the variables the script sets are modelled.
- `str.lower` beyond ASCII letters, and pathlib's normalisation of `.`, `..`, repeated and trailing separators: `Join` joins with one `/`, or takes an absolute right side alone. An empty right side, which pathlib ignores, never occurs in the model.
- Pipeline.Install: the Steam helper is constructed outside the `try` that guards `get_steam_root`. If that construction raises, the run ends with `False`; the model has only the root or its absence.
- Pipeline.Install: the `install_dir` argument is accepted but never used by the source, so the model has none.
- The `sys.path` set-up, the constructor and the `__main__` demo: environment and demo glue.
