/** `create_launch_scripts`: one shell script per ModAPI executable found
    in the kit folder, in the fixed order launcher, easy installer, easy
    uninstaller. Only the variables a script sets are modelled, not the
    fixed text around them. */
module LaunchScripts {
  import opened Wrappers
  import opened PyStr
  import opened WinePaths
  import opened Locate
  import opened Steps

  /** Used when the Steam root cannot be detected. */
  const SteamFallback := "$HOME/.steam/steam"

  /** The executables and the script written for each, in order. */
  const Executables: seq<(string, string)> := [
    (LauncherExe, "launch_spore_modapi_launcher.sh"),
    (EasyInstallerExe, "launch_spore_modapi_installer.sh"),
    (EasyUninstallerExe, "launch_spore_modapi_uninstaller.sh")]

  /** A generated script: where it is written, the executable it runs and
      the values of `PROTON_GE`, `PREFIX`, `COMPAT_DATA`, `MODAPI_EXE` and
      `STEAM_PATH`. */
  datatype LaunchScript = LaunchScript(path: string, exeName: string, protonDir: string, prefix: string,
                                       compatData: string, modApiExe: string, steamPath: string)

  /** What every script of one run shares. */
  datatype ScriptContext = ScriptContext(outputDir: string, prefix: string, installDir: string,
                                         protonDir: string, steamPath: string)

  function ScriptFor(ctx: ScriptContext, exe: (string, string)): LaunchScript
  {
    LaunchScript(Join(ctx.outputDir, exe.1), exe.0, ctx.protonDir, ctx.prefix, Parent(ctx.prefix),
                 GuestPath(Join(ctx.installDir, exe.0), ctx.prefix), ctx.steamPath)
  }

  /** The scripts due for `exes`: one for each executable present in the
      install folder, skipping the missing ones, in the order of `exes`. */
  function Plan(ctx: ScriptContext, existing: set<string>, exes: seq<(string, string)>): seq<LaunchScript>
    decreases |exes|
  {
    if |exes| == 0 then [] else Plan(ctx, existing, exes[..|exes| - 1]) + Due(ctx, existing, exes[|exes| - 1])
  }

  /** What the plan holds: nothing exactly when no executable is present,
      and only scripts for present executables. */
  lemma {:induction false} PlanFacts(ctx: ScriptContext, existing: set<string>, exes: seq<(string, string)>)
    ensures |Plan(ctx, existing, exes)| <= |exes|
    ensures |Plan(ctx, existing, exes)| == 0 <==> forall j :: 0 <= j < |exes| ==> Join(ctx.installDir, exes[j].0) !in existing
    ensures forall s :: s in Plan(ctx, existing, exes) ==> Join(ctx.installDir, s.exeName) in existing
    decreases |exes|
  {
    if |exes| > 0 {
      var init := exes[..|exes| - 1];
      PlanFacts(ctx, existing, init);
      assert forall j :: 0 <= j < |init| ==> init[j] == exes[j];
    }
  }

  /** The script due for one executable: none when it is missing. */
  function Due(ctx: ScriptContext, existing: set<string>, exe: (string, string)): seq<LaunchScript>
  {
    if Join(ctx.installDir, exe.0) in existing then [ScriptFor(ctx, exe)] else []
  }

  /** Every planned script is the script of one of the executables. */
  lemma {:induction false} PlanMembers(ctx: ScriptContext, existing: set<string>, exes: seq<(string, string)>, s: LaunchScript)
    requires s in Plan(ctx, existing, exes)
    ensures exists j :: 0 <= j < |exes| && s == ScriptFor(ctx, exes[j])
    decreases |exes|
  {
    var init := exes[..|exes| - 1];
    if s in Plan(ctx, existing, init) {
      PlanMembers(ctx, existing, init, s);
      var j :| 0 <= j < |init| && s == ScriptFor(ctx, init[j]);
      assert exes[j] == init[j];
    } else {
      assert s == ScriptFor(ctx, exes[|exes| - 1]);
    }
  }

  lemma {:induction false} PlanAppend(ctx: ScriptContext, existing: set<string>, xs: seq<(string, string)>, ys: seq<(string, string)>)
    ensures Plan(ctx, existing, xs + ys) == Plan(ctx, existing, xs) + Plan(ctx, existing, ys)
    decreases |ys|
  {
    if |ys| > 0 {
      var zs := xs + ys;
      var init := ys[..|ys| - 1];
      var last := ys[|ys| - 1];
      assert zs[..|zs| - 1] == xs + init;
      assert zs[|zs| - 1] == last;
      PlanAppend(ctx, existing, xs, init);
      assert Plan(ctx, existing, zs) == Plan(ctx, existing, xs + init) + Due(ctx, existing, last);
      assert Plan(ctx, existing, ys) == Plan(ctx, existing, init) + Due(ctx, existing, last);
    } else {
      assert xs + ys == xs;
    }
  }

  lemma PlanSingle(ctx: ScriptContext, existing: set<string>, x: (string, string))
    ensures Plan(ctx, existing, [x]) == if Join(ctx.installDir, x.0) in existing then [ScriptFor(ctx, x)] else []
  {
    assert [x][..0] == [];
  }

  /** Exactly the scripts for the executables present, launcher first,
      uninstaller last. */
  lemma PlannedScripts(ctx: ScriptContext, existing: set<string>)
    ensures Plan(ctx, existing, Executables) ==
              (if Join(ctx.installDir, LauncherExe) in existing then [ScriptFor(ctx, Executables[0])] else [])
              + (if Join(ctx.installDir, EasyInstallerExe) in existing then [ScriptFor(ctx, Executables[1])] else [])
              + (if Join(ctx.installDir, EasyUninstallerExe) in existing then [ScriptFor(ctx, Executables[2])] else [])
  {
    var e := Executables;
    assert e == [e[0]] + [e[1]] + [e[2]];
    PlanAppend(ctx, existing, [e[0]] + [e[1]], [e[2]]);
    PlanAppend(ctx, existing, [e[0]], [e[1]]);
    PlanSingle(ctx, existing, e[0]);
    PlanSingle(ctx, existing, e[1]);
    PlanSingle(ctx, existing, e[2]);
  }

  /** The context `create_launch_scripts` builds once the install folder
      and the Proton executable are known. */
  function ContextOf(outputDir: string, prefix: string, dir: string, proton: string, steamRoot: Option<string>): ScriptContext
  {
    ScriptContext(outputDir, prefix, dir, ProtonDir(proton), steamRoot.GetOr(SteamFallback))
  }

  /** The install folder used: the one given, or else the one found. */
  function ResolveInstallDir(prefix: string, installDir: Option<string>, existing: set<string>): Option<string>
  {
    if installDir.Some? then installDir else FindModApiInstallation(prefix, existing)
  }

  /** Writes the scripts due for `exes` in order. A write to a path in
      `unwritable` fails and ends the run; the run succeeds when at least
      one script is written and none failed. */
  method WriteScripts(ctx: ScriptContext, existing: set<string>, exes: seq<(string, string)>, unwritable: set<string>)
    returns (ok: bool, written: seq<LaunchScript>)
    ensures written <= Plan(ctx, existing, exes)
    ensures forall k :: 0 <= k < |written| ==> written[k].path !in unwritable
    ensures written == Plan(ctx, existing, exes) || Plan(ctx, existing, exes)[|written|].path in unwritable
    ensures ok <==> written == Plan(ctx, existing, exes) && |written| > 0
  {
    written := [];
    var i := 0;
    while i < |exes|
      invariant 0 <= i <= |exes|
      invariant written == Plan(ctx, existing, exes[..i])
      invariant forall k :: 0 <= k < |written| ==> written[k].path !in unwritable
    {
      PlanStep(ctx, existing, exes, i);
      if Join(ctx.installDir, exes[i].0) in existing {
        var script := ScriptFor(ctx, exes[i]);
        if script.path in unwritable {
          PlanStopsAt(ctx, existing, exes, i);
          return false, written;
        }
        assert Due(ctx, existing, exes[i]) == [script];
        written := written + [script];
      } else {
        assert Due(ctx, existing, exes[i]) == [];
      }
      i := i + 1;
    }
    assert exes[..i] == exes;
    ok := |written| > 0;
  }

  /** Extending the executables considered by one. */
  lemma PlanStep(ctx: ScriptContext, existing: set<string>, exes: seq<(string, string)>, i: nat)
    requires i < |exes|
    ensures Plan(ctx, existing, exes[..i + 1]) == Plan(ctx, existing, exes[..i]) + Due(ctx, existing, exes[i])
  {
    assert exes[..i + 1][..i] == exes[..i];
    assert exes[..i + 1][i] == exes[i];
  }

  /** When the `i`th executable is due, its script follows those due before it. */
  lemma PlanStopsAt(ctx: ScriptContext, existing: set<string>, exes: seq<(string, string)>, i: nat)
    requires i < |exes| && Join(ctx.installDir, exes[i].0) in existing
    ensures Plan(ctx, existing, exes[..i]) < Plan(ctx, existing, exes)
    ensures Plan(ctx, existing, exes)[|Plan(ctx, existing, exes[..i])|] == ScriptFor(ctx, exes[i])
  {
    var a := Plan(ctx, existing, exes[..i]);
    var b := Plan(ctx, existing, exes[i + 1..]);
    var x := ScriptFor(ctx, exes[i]);
    PlanStep(ctx, existing, exes, i);
    assert Due(ctx, existing, exes[i]) == [x];
    assert Plan(ctx, existing, exes[..i + 1]) == a + [x];
    PlanAppend(ctx, existing, exes[..i + 1], exes[i + 1..]);
    assert exes[..i + 1] + exes[i + 1..] == exes;
    assert Plan(ctx, existing, exes) == a + [x] + b;
    assert (a + [x] + b)[..|a|] == a;
    assert (a + [x] + b)[|a|] == x;
  }

  /** `create_launch_scripts`. `steamRoot` is the detected Steam root (None
      when detection raised) and `unwritable` the script paths whose write
      fails. Without an install folder or without Proton nothing is written;
      otherwise the scripts due are written as `WriteScripts` does. */
  method CreateLaunchScripts(outputDir: string, prefix: string, installDir: Option<string>, existing: set<string>,
                             proton: Option<string>, steamRoot: Option<string>, unwritable: set<string>)
    returns (ok: bool, written: seq<LaunchScript>)
    ensures ResolveInstallDir(prefix, installDir, existing).None? ==> !ok && written == []
    ensures proton.None? ==> !ok && written == []
    ensures ResolveInstallDir(prefix, installDir, existing).Some? && proton.Some? ==>
              var plan := Plan(ContextOf(outputDir, prefix, ResolveInstallDir(prefix, installDir, existing).value,
                                         proton.value, steamRoot), existing, Executables);
              && written <= plan
              && (forall k :: 0 <= k < |written| ==> written[k].path !in unwritable)
              && (written == plan || plan[|written|].path in unwritable)
              && (ok <==> written == plan && |plan| > 0)
  {
    var dir := ResolveInstallDir(prefix, installDir, existing);
    if dir.None? || proton.None? {
      return false, [];
    }
    var ctx := ContextOf(outputDir, prefix, dir.value, proton.value, steamRoot);
    ok, written := WriteScripts(ctx, existing, Executables, unwritable);
  }

  /** The script for the `j`th executable of a kit found in a probed folder. */
  lemma FoundKitScript(ctx: ScriptContext, i: nat, j: nat)
    requires i < |Probes| && j < |Executables|
    requires ctx.installDir == KitDir(ctx.prefix, Probes[i])
    ensures ScriptFor(ctx, Executables[j]).modApiExe
              == "C:" + "\\" + Probes[i].root + "\\" + Probes[i].kit + "\\" + Executables[j].0
  {
    assert Executables[j].0 == RequiredFiles[j];
    GuestPathOfKitFile(ctx.prefix, i, Executables[j].0);
  }

  /** For a kit found by the search, every script runs its executable at
      `C:\<root>\<kit>\<exe>` of its probed folder inside the guest,
      with the prefix's parent as Steam compatibility data. */
  lemma FoundKitScripts(ctx: ScriptContext, existing: set<string>, i: nat)
    requires i < |Probes|
    requires ctx.installDir == KitDir(ctx.prefix, Probes[i])
    ensures forall s :: s in Plan(ctx, existing, Executables) ==>
              s.modApiExe == "C:" + "\\" + Probes[i].root + "\\" + Probes[i].kit + "\\" + s.exeName
              && s.compatData == Parent(ctx.prefix)
  {
    forall s | s in Plan(ctx, existing, Executables)
      ensures s.modApiExe == "C:" + "\\" + Probes[i].root + "\\" + Probes[i].kit + "\\" + s.exeName
      ensures s.compatData == Parent(ctx.prefix)
    {
      PlanMembers(ctx, existing, Executables, s);
      var j :| 0 <= j < |Executables| && s == ScriptFor(ctx, Executables[j]);
      FoundKitScript(ctx, i, j);
    }
  }
}
