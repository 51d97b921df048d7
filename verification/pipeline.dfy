/** `install`: the whole run as one function of the collaborators' answers
    and of the paths that exist beforehand. It returns the verdict, the
    progress percentages reported, the paths that exist afterwards and the
    record of each step that ran. */
module Pipeline {
  import opened Wrappers
  import opened PyStr
  import opened Locate
  import opened Steps

  const DefaultPrefixName := "spore_modloader"
  const MarkerName := ".dependencies_installed"
  const Dependencies := ["vcrun2022", "d3dcompiler_43"]
  /** Steam client path handed to the dependency installer when the Steam
      root cannot be detected. */
  const SteamClientFallback := "/tmp"

  /** Every progress update of a successful run, in order. */
  const Schedule := [0, 5, 10, 15, 40, 50, 60, 100]

  /** The answers of everything outside the installer: the game finder
      (None when it raised), the prefix name asked for, the prefixes folder,
      the active Proton executable, the Steam root (None when detection
      raised), the dependency installer's verdict, and what the registry,
      download and launch steps meet. */
  datatype Outcomes = Outcomes(
    games: Option<seq<Game>>,
    customName: Option<string>,
    prefixesDir: string,
    proton: Option<string>,
    steamRoot: Option<string>,
    depsOk: bool,
    regTemp: TempFile,
    regRun: RunOutcome,
    release: Option<Release>,
    fetched: Option<string>,
    launch: LaunchOutcome)

  /** The request made of the dependency installer. */
  datatype DependencyCall = DependencyCall(gameName: string, appId: string, dependencies: seq<string>,
                                           wineBinary: string, wineserverBinary: string, winePrefix: string,
                                           compatDataPath: string, compatClientPath: string, methodName: string)

  /** A run: verdict, progress updates, the paths that exist afterwards and
      the steps that ran. */
  datatype Run = Run(ok: bool, progress: seq<int>, fs: set<string>, dependencies: Option<DependencyCall>,
                     registry: Option<RegistryRun>, download: Option<DownloadRun>, launch: Option<LaunchRun>)

  /** `custom_name or "spore_modloader"`: an empty name counts as none. */
  function PrefixName(customName: Option<string>): string
  {
    if customName.Some? && customName.value != "" then customName.value else DefaultPrefixName
  }

  /** `<prefixes>/<name>/pfx`. */
  function PrefixPath(o: Outcomes): string
  {
    Join(Join(o.prefixesDir, PrefixName(o.customName)), "pfx")
  }

  /** The marker whose existence says the dependencies are installed. */
  function Marker(o: Outcomes): string
  {
    Join(PrefixPath(o), MarkerName)
  }

  function DependencyCallOf(o: Outcomes, proton: string): DependencyCall
  {
    var prefix := PrefixPath(o);
    DependencyCall("SporeModLoader", "spore_modloader", Dependencies, WineBinary(proton), WineserverBinary(proton),
                   prefix, Parent(prefix), o.steamRoot.GetOr(SteamClientFallback), "Proton-GE")
  }

  /** `install`. Steps: find the game (stop without one); make sure the
      prefix exists; unless the marker exists, install the dependencies with
      Proton and write the marker (stop when Proton is missing or the
      installer fails); apply the registry keys, whose failure is only a
      warning; download the ModAPI installer (stop on failure); launch it
      (stop on failure). */
  function Install(o: Outcomes, fs: set<string>): (r: Run)
    ensures r.progress <= Schedule && |r.progress| >= 2
    ensures r.ok <==> r.progress == Schedule
    ensures fs <= r.fs && r.fs <= fs + {PrefixPath(o), Marker(o)}
    ensures r.dependencies.Some? ==> Marker(o) !in fs && o.proton.Some?
    ensures forall i, j :: 0 <= i <= j < |r.progress| ==> r.progress[i] <= r.progress[j]
    ensures r.ok <==>
              && FindSporeGame(o.games).Some?
              && o.proton.Some?
              && (Marker(o) in fs || o.depsOk)
              && DownloadModApiInstaller(o.release, o.fetched).installer.Some?
              && o.launch != StartFailed
    ensures FindSporeGame(o.games).None? ==>
              r.progress == [0, 5] && r.fs == fs
              && r.dependencies.None? && r.registry.None? && r.download.None? && r.launch.None?
    ensures FindSporeGame(o.games).Some? ==> PrefixPath(o) in r.fs
    ensures Marker(o) in fs ==> r.dependencies.None?
    ensures Marker(o) in r.fs && Marker(o) !in fs <==> r.dependencies.Some? && o.depsOk
  {
    MarkerIsNotPrefix(o);
    ScheduleRises();
    match FindSporeGame(o.games)
    case None => Run(false, Schedule[..2], fs, None, None, None, None)
    case Some(game) => SetUp(o, game.path, fs + {PrefixPath(o)})
  }

  /** From progress 10 on: the dependency step, then the rest. */
  function SetUp(o: Outcomes, sporePath: string, fs: set<string>): (r: Run)
    ensures r.progress <= Schedule && |r.progress| >= 4
    ensures r.ok <==> r.progress == Schedule
    ensures fs <= r.fs && r.fs <= fs + {Marker(o)}
    ensures r.dependencies.Some? ==> Marker(o) !in fs && o.proton.Some?
    ensures r.ok <==>
              && o.proton.Some?
              && (Marker(o) in fs || o.depsOk)
              && DownloadModApiInstaller(o.release, o.fetched).installer.Some?
              && o.launch != StartFailed
    ensures Marker(o) in r.fs && Marker(o) !in fs <==> r.dependencies.Some? && o.depsOk
  {
    if Marker(o) in fs then Apply(o, sporePath, fs, None)
    else
      match o.proton
      case None => Run(false, Schedule[..4], fs, None, None, None, None)
      case Some(p) =>
        var call := Some(DependencyCallOf(o, p));
        if !o.depsOk then Run(false, Schedule[..4], fs, call, None, None, None)
        else Apply(o, sporePath, fs + {Marker(o)}, call)
  }

  /** From progress 40 on: registry, download, launch. */
  function Apply(o: Outcomes, sporePath: string, fs: set<string>, deps: Option<DependencyCall>): (r: Run)
    ensures r.progress <= Schedule && |r.progress| >= 6
    ensures r.ok <==> r.progress == Schedule
    ensures r.fs == fs && r.dependencies == deps
    ensures r.ok <==>
              && o.proton.Some?
              && DownloadModApiInstaller(o.release, o.fetched).installer.Some?
              && o.launch != StartFailed
  {
    var prefix := PrefixPath(o);
    var reg := CreateSporeRegistry(sporePath, prefix, o.regTemp, o.proton, o.regRun);
    var dl := DownloadModApiInstaller(o.release, o.fetched);
    if dl.installer.None? then
      Run(false, Schedule[..6], fs, deps, Some(reg), Some(dl), None)
    else
      var la := LaunchInstaller(dl.installer.value, prefix, sporePath, o.proton, o.launch);
      if la.ok then Run(true, Schedule, fs, deps, Some(reg), Some(dl), Some(la))
      else Run(false, Schedule[..7], fs, deps, Some(reg), Some(dl), Some(la))
  }

  /** The percentages of a successful run only ever rise. */
  lemma ScheduleRises()
    ensures forall i, j :: 0 <= i <= j < |Schedule| ==> Schedule[i] <= Schedule[j]
  {
  }

  lemma MarkerIsNotPrefix(o: Outcomes)
    ensures Marker(o) != PrefixPath(o)
  {
    var p := PrefixPath(o);
    assert |Marker(o)| > |p|;
  }

  /** The dependency installer is asked for vcrun2022 and d3dcompiler_43
      with Proton's wine64 and wineserver, the prefix, and the prefix's
      parent folder as Steam compatibility data. */
  lemma DependencyRequest(o: Outcomes, fs: set<string>)
    requires Install(o, fs).dependencies.Some?
    ensures var c := Install(o, fs).dependencies.value;
            && c.dependencies == ["vcrun2022", "d3dcompiler_43"]
            && c.wineBinary == WineBinary(o.proton.value)
            && c.wineserverBinary == WineserverBinary(o.proton.value)
            && Parent(c.wineBinary) == Parent(c.wineserverBinary)
            && c.winePrefix == PrefixPath(o)
            && c.compatDataPath == Join(o.prefixesDir, PrefixName(o.customName))
            && c.compatClientPath == o.steamRoot.GetOr("/tmp")
  {
    WineToolsShareBin(o.proton.value);
    PrefixParent(o);
  }

  /** The parent of the prefix is the named folder that holds `pfx`. */
  lemma PrefixParent(o: Outcomes)
    ensures Parent(PrefixPath(o)) == Join(o.prefixesDir, PrefixName(o.customName))
  {
    var named := Join(o.prefixesDir, PrefixName(o.customName));
    assert named != "" by {
      if o.prefixesDir == "/" { } else { assert |named| > 0; }
    }
    ParentOfJoin(named, "pfx");
  }

  /** An absolute prefix name replaces the prefixes folder, as pathlib's
      `/` does: the prefix is `<name>/pfx`. */
  lemma AbsolutePrefixName(o: Outcomes)
    requires o.customName.Some? && |o.customName.value| > 0 && o.customName.value[0] == '/'
    ensures PrefixPath(o) == Join(o.customName.value, "pfx")
  {
  }

  /** An unnamed or empty-named request uses the default prefix name. */
  lemma PrefixNameDefault(customName: Option<string>)
    ensures PrefixName(customName) == DefaultPrefixName <==>
              customName.None? || customName.value == "" || customName.value == DefaultPrefixName
  {
  }

  /** A failing registry step is only a warning: whatever it meets, the
      verdict, the progress, the paths and every other step are the same. */
  lemma RegistryIsSoft(o: Outcomes, fs: set<string>, t: TempFile, out: RunOutcome)
    ensures var r1 := Install(o, fs);
            var r2 := Install(o.(regTemp := t, regRun := out), fs);
            r1.ok == r2.ok && r1.progress == r2.progress && r1.fs == r2.fs
            && r1.dependencies == r2.dependencies && r1.download == r2.download && r1.launch == r2.launch
  {
    var o2 := o.(regTemp := t, regRun := out);
    assert PrefixPath(o2) == PrefixPath(o);
    match FindSporeGame(o.games)
    case None =>
    case Some(game) =>
      SetUpIgnoresRegistry(o, o2, game.path, fs + {PrefixPath(o)});
  }

  lemma SetUpIgnoresRegistry(o: Outcomes, o2: Outcomes, sporePath: string, fs: set<string>)
    requires o2 == o.(regTemp := o2.regTemp, regRun := o2.regRun)
    ensures var r1 := SetUp(o, sporePath, fs);
            var r2 := SetUp(o2, sporePath, fs);
            r1.ok == r2.ok && r1.progress == r2.progress && r1.fs == r2.fs
            && r1.dependencies == r2.dependencies && r1.download == r2.download && r1.launch == r2.launch
  {
    assert PrefixPath(o2) == PrefixPath(o);
    assert Marker(o2) == Marker(o);
    ApplyIgnoresRegistry(o, o2, sporePath, fs, None);
    if o.proton.Some? {
      var call := DependencyCallOf(o, o.proton.value);
      assert DependencyCallOf(o2, o.proton.value) == call;
      ApplyIgnoresRegistry(o, o2, sporePath, fs + {Marker(o)}, Some(call));
    }
  }

  lemma ApplyIgnoresRegistry(o: Outcomes, o2: Outcomes, sporePath: string, fs: set<string>, deps: Option<DependencyCall>)
    requires o2 == o.(regTemp := o2.regTemp, regRun := o2.regRun)
    ensures var r1 := Apply(o, sporePath, fs, deps);
            var r2 := Apply(o2, sporePath, fs, deps);
            r1.ok == r2.ok && r1.progress == r2.progress && r1.fs == r2.fs
            && r1.dependencies == r2.dependencies && r1.download == r2.download && r1.launch == r2.launch
  {
    assert PrefixPath(o2) == PrefixPath(o);
  }

  /** Running again on what a run leaves behind changes no path, and after
      a success the second run succeeds too without calling the dependency
      installer. */
  lemma InstallIdempotent(o: Outcomes, fs: set<string>)
    ensures var r := Install(o, fs);
            var r2 := Install(o, r.fs);
            && r2.fs == r.fs
            && (r.ok ==> r2.ok && r2.dependencies.None?)
  {
    MarkerIsNotPrefix(o);
  }
}
