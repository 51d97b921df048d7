/** The installer steps that run Wine or fetch the ModAPI installer. A
    subprocess is recorded as the command it would start; what became of it
    (its exit code, a timeout, a failure to start) is an input, as are the
    answers of the Proton-GE manager and the GitHub downloader. */
module Steps {
  import opened Wrappers
  import opened Seqs
  import opened PyStr
  import opened WinePaths
  import opened Registry

  /** The library path every Wine command runs with (it replaces the
      caller's value rather than extending it). */
  const LdLibraryPath := "/usr/lib:/usr/lib/x86_64-linux-gnu:/lib:/lib/x86_64-linux-gnu"

  /** `subprocess.run(..., timeout=...)` waits; `subprocess.Popen` does not. */
  datatype Mode = Blocking(timeoutSeconds: nat) | Detached

  /** A Wine command: its argument vector and the two variables it sets. */
  datatype Spawn = Spawn(argv: seq<string>, winePrefix: string, ldLibraryPath: string, mode: Mode)

  /** The Proton-GE folder of the active Proton executable. */
  function ProtonDir(proton: string): string
  {
    Parent(proton)
  }

  /** `<proton dir>/files/bin/<tool>`. */
  function ProtonTool(proton: string, tool: string): string
  {
    Join(Join(Join(ProtonDir(proton), "files"), "bin"), tool)
  }

  function WineBinary(proton: string): string
  {
    ProtonTool(proton, "wine64")
  }

  function WineserverBinary(proton: string): string
  {
    ProtonTool(proton, "wineserver")
  }

  /** wine64 and wineserver sit side by side in Proton's `files/bin`. */
  lemma WineToolsShareBin(proton: string)
    ensures Parent(WineBinary(proton)) == Parent(WineserverBinary(proton))
                                      == Join(Join(ProtonDir(proton), "files"), "bin")
  {
    var bin := Join(Join(ProtonDir(proton), "files"), "bin");
    assert bin != "" by {
      if Join(ProtonDir(proton), "files") == "/" { } else { assert |bin| > 0; }
    }
    ParentOfJoin(bin, "wine64");
    ParentOfJoin(bin, "wineserver");
  }

  // ---------------------------------------------------------------------
  // create_spore_registry

  /** What became of a blocking Wine command. */
  datatype RunOutcome = Exited(code: int) | TimedOut | SpawnFailed

  /** The effect of the registry step: its verdict, the .reg file written
      (path and text), the command run, and the temporary file it leaves
      behind. */
  datatype RegistryRun = RegistryRun(ok: bool, written: Option<(string, string)>, spawn: Option<Spawn>, leftover: Option<string>)

  /** What became of the temporary .reg file: it could not be created, it
      was created under `name` but writing the text into it raised, or it
      was created and written in full. */
  datatype TempFile = NotCreated | WriteFailed(name: string) | Written(name: string)

  /** `create_spore_registry`. `temp` is what became of the temporary .reg
      file; `proton` the active Proton executable; `outcome` what became of
      `wine64 regedit`. The temporary file is removed only after regedit
      exits: a failed write, the early return without Proton and a failure
      to run regedit all leave it behind. */
  function CreateSporeRegistry(sporePath: string, prefix: string, temp: TempFile,
                               proton: Option<string>, outcome: RunOutcome): (r: RegistryRun)
    ensures r.ok <==> temp.Written? && proton.Some? && outcome == Exited(0)
    ensures r.written.Some? <==> temp.Written?
    ensures r.written.Some? ==> r.written.value.0 == temp.name
                                && r.written.value.1 == RegistryDocument(sporePath)
    ensures r.spawn.Some? <==> temp.Written? && proton.Some?
    ensures r.spawn.Some? ==> r.spawn.value.argv == [WineBinary(proton.value), "regedit", temp.name]
                              && r.spawn.value.winePrefix == prefix
                              && r.spawn.value.ldLibraryPath == LdLibraryPath
                              && r.spawn.value.mode == Blocking(60)
    ensures r.leftover.Some? ==> !temp.NotCreated? && r.leftover.value == temp.name
    ensures r.leftover.None? <==> temp.NotCreated? || (temp.Written? && proton.Some? && outcome.Exited?)
  {
    match temp
    case NotCreated => RegistryRun(false, None, None, None)
    case WriteFailed(tmp) => RegistryRun(false, None, None, Some(tmp))
    case Written(tmp) =>
      var written := Some((tmp, RegistryDocument(sporePath)));
      match proton
      case None => RegistryRun(false, written, None, Some(tmp))
      case Some(p) =>
        var spawn := Some(Spawn([WineBinary(p), "regedit", tmp], prefix, LdLibraryPath, Blocking(60)));
        match outcome
        case Exited(code) => RegistryRun(code == 0, written, spawn, None)
        case _ => RegistryRun(false, written, spawn, Some(tmp))
  }

  // ---------------------------------------------------------------------
  // download_modapi_installer

  /** A release asset: its name and its `browser_download_url`. */
  datatype Asset = Asset(name: string, url: string)

  datatype Release = Release(tag: string, assets: seq<Asset>)

  const InstallerAsset := "ModAPI.InterimSetup.exe"

  predicate IsInstallerAsset(a: Asset)
  {
    a.name == InstallerAsset
  }

  /** Index of the first asset named `ModAPI.InterimSetup.exe`: the loop
      stops at the first match. */
  function InstallerAssetIndex(assets: seq<Asset>): (r: Option<nat>)
    ensures r.Some? ==> r.value < |assets| && assets[r.value].name == InstallerAsset
    ensures r.Some? ==> forall j :: 0 <= j < r.value ==> assets[j].name != InstallerAsset
    ensures r.None? <==> forall j :: 0 <= j < |assets| ==> assets[j].name != InstallerAsset
  {
    FirstIndex(assets, IsInstallerAsset)
  }

  /** The download step's effect: the url handed to the downloader (None
      when it was never called) and the installer it yields. */
  datatype DownloadRun = DownloadRun(requested: Option<string>, installer: Option<string>)

  /** `download_modapi_installer`. `release` is the latest release (None when
      it could not be fetched) and `fetched` the downloader's answer for the
      requested url. An empty url, like an empty answer, counts as absent. */
  function DownloadModApiInstaller(release: Option<Release>, fetched: Option<string>): (r: DownloadRun)
    ensures r.requested.Some? <==> release.Some? && InstallerAssetIndex(release.value.assets).Some?
                                   && release.value.assets[InstallerAssetIndex(release.value.assets).value].url != ""
    ensures r.requested.Some? ==> r.requested.value == release.value.assets[InstallerAssetIndex(release.value.assets).value].url
    ensures r.installer.Some? <==> r.requested.Some? && fetched.Some? && fetched.value != ""
    ensures r.installer.Some? ==> r.installer == fetched
  {
    match release
    case None => DownloadRun(None, None)
    case Some(rel) =>
      match InstallerAssetIndex(rel.assets)
      case None => DownloadRun(None, None)
      case Some(i) =>
        var url := rel.assets[i].url;
        if url == "" then DownloadRun(None, None)
        else if fetched.None? || fetched.value == "" then DownloadRun(Some(url), None)
        else DownloadRun(Some(url), fetched)
  }

  /** Only the first installer asset counts: a later asset of the same name
      is never consulted, even when the first one's url is empty. */
  lemma FirstInstallerAssetDecides(tag: string, a: Asset, rest: seq<Asset>, fetched: Option<string>)
    requires a.name == InstallerAsset
    ensures DownloadModApiInstaller(Some(Release(tag, [a] + rest)), fetched).requested
              == (if a.url == "" then None else Some(a.url))
  {
    assert ([a] + rest)[0] == a;
  }

  // ---------------------------------------------------------------------
  // launch_installer_with_instructions

  /** What became of starting the installer without waiting for it. */
  datatype LaunchOutcome = Started | StartTimedOut | StartFailed

  /** The launch step's effect: its verdict, the install location shown to
      the user, and the command started. */
  datatype LaunchRun = LaunchRun(ok: bool, shownLocation: string, spawn: Option<Spawn>)

  /** `launch_installer_with_instructions`. It first shows the recommended
      install location (the Spore folder as Wine's Z: drive shows it), then
      starts the installer detached; a timeout while starting still counts
      as launched. */
  function LaunchInstaller(installerExe: string, prefix: string, sporePath: string,
                           proton: Option<string>, outcome: LaunchOutcome): (r: LaunchRun)
    ensures r.ok <==> proton.Some? && outcome != StartFailed
    ensures r.spawn.Some? <==> proton.Some?
    ensures r.spawn.Some? ==> r.spawn.value.argv == [WineBinary(proton.value), installerExe]
                              && r.spawn.value.winePrefix == prefix
                              && r.spawn.value.ldLibraryPath == LdLibraryPath
                              && r.spawn.value.mode == Detached
    ensures |r.shownLocation| == |sporePath| + 3 && '/' !in r.shownLocation
  {
    var shown := DisplayPath(sporePath);
    match proton
    case None => LaunchRun(false, shown, None)
    case Some(p) =>
      LaunchRun(outcome != StartFailed, shown,
                Some(Spawn([WineBinary(p), installerExe], prefix, LdLibraryPath, Detached)))
  }

  /** The location the user is told to pick is the Spore folder the registry
      names: unescaped, each `datadir` value is the shown location followed
      by the content folder. */
  lemma ShownLocationMatchesRegistry(installerExe: string, prefix: string, sporePath: string,
                                     proton: Option<string>, outcome: LaunchOutcome)
    requires '\\' !in sporePath
    ensures var shown := LaunchInstaller(installerExe, prefix, sporePath, proton, outcome).shownLocation;
            && Lookup(SporeRegistry(sporePath).keys, SporeKey, "datadir") == Some(Sz(RegistryPath(sporePath) + "\\\\" + "Data"))
            && Unescape(RegistryPath(sporePath) + "\\\\" + "Data") == shown + "\\" + "Data"
            && Lookup(SporeRegistry(sporePath).keys, Ep1Key, "datadir") == Some(Sz(RegistryPath(sporePath) + "\\\\" + "DataEP1" + "\\\\"))
            && Unescape(RegistryPath(sporePath) + "\\\\" + "DataEP1" + "\\\\") == shown + "\\" + "DataEP1" + "\\"
  {
    SporeDatadir(sporePath);
    Ep1Datadir(sporePath);
    DatadirValuesAsStored(sporePath);
    var w := RegistryPath(sporePath);
    assert "\\\\Data" == "\\\\" + "Data";
    assert "\\\\DataEP1" == "\\\\" + "DataEP1";
    assert w + "\\\\Data" == w + "\\\\" + "Data";
    assert w + "\\\\DataEP1" + "\\\\" == w + "\\\\" + "DataEP1" + "\\\\";
  }
}
