/** Finding the game and the ModAPI Launcher Kit, and checking the kit is
    complete. The game finder is an input (its list of games, or None when
    it raised) and the host filesystem is the set of paths that exist. */
module Locate {
  import opened Wrappers
  import opened Seqs
  import opened PyStr
  import opened WinePaths

  /** A game the finder reports; `find_spore_game` copies all three fields. */
  datatype Game = Game(name: string, path: string, platform: string)

  /** The match test of `find_spore_game`: "spore" occurs in the lower-cased name. */
  predicate IsSpore(g: Game)
  {
    Contains(Lower(g.name), "spore")
  }

  /** `find_spore_game`: the first game of the finder's list whose name
      matches; None when none matches or the finder raised. */
  function FindSporeGame(found: Option<seq<Game>>): (r: Option<Game>)
    ensures found.None? ==> r.None?
    ensures r.Some? <==> found.Some? && exists i :: 0 <= i < |found.value| && IsSpore(found.value[i])
    ensures r.Some? ==> exists i :: 0 <= i < |found.value| && found.value[i] == r.value
                                    && IsSpore(r.value)
                                    && forall j :: 0 <= j < i ==> !IsSpore(found.value[j])
  {
    match found
    case None => None
    case Some(games) =>
      match FirstIndex(games, IsSpore)
      case None => None
      case Some(i) => Some(games[i])
  }

  /** Listing more games after a match changes nothing; without a match
      the later games decide. */
  lemma FindSporeGameAppend(gs: seq<Game>, hs: seq<Game>)
    ensures FindSporeGame(Some(gs + hs)) ==
              if FindSporeGame(Some(gs)).Some? then FindSporeGame(Some(gs)) else FindSporeGame(Some(hs))
  {
    FirstIndexAppend(gs, hs, IsSpore);
    match FirstIndex(gs, IsSpore)
    case Some(i) =>
      assert (gs + hs)[i] == gs[i];
    case None =>
      match FirstIndex(hs, IsSpore)
      case None =>
      case Some(k) =>
        assert (gs + hs)[|gs| + k] == hs[k];
  }

  /** The match ignores ASCII case: a game and its lower-cased twin match alike. */
  lemma IsSporeIgnoresCase(g: Game)
    ensures IsSpore(g) <==> IsSpore(g.(name := Lower(g.name)))
  {
    assert Lower(Lower(g.name)) == Lower(g.name);
  }

  // ---------------------------------------------------------------------
  // The ModAPI Launcher Kit inside the Wine prefix.

  const LauncherExe := "Spore ModAPI Launcher.exe"
  const EasyInstallerExe := "Spore ModAPI Easy Installer.exe"
  const EasyUninstallerExe := "Spore ModAPI Easy Uninstaller.exe"

  /** A folder probed for the kit: a folder directly under `drive_c` and the
      kit's folder inside it. The default location spells the kit folder in
      capitals; the two Program Files alternatives do not. */
  datatype Probe = Probe(root: string, kit: string)

  /** The folders probed for the kit, in probe order. */
  const Probes := [
    Probe("ProgramData", "SPORE ModAPI Launcher Kit"),
    Probe("Program Files (x86)", "Spore ModAPI Launcher Kit"),
    Probe("Program Files", "Spore ModAPI Launcher Kit")
  ]

  /** `<prefix>/drive_c/<root>/<kit>`. */
  function KitDir(prefix: string, probe: Probe): string
  {
    Join(Join(DriveC(prefix), probe.root), probe.kit)
  }

  function Candidates(prefix: string): seq<string>
  {
    seq(|Probes|, i requires 0 <= i < |Probes| => KitDir(prefix, Probes[i]))
  }

  /** `find_modapi_installation`: the first candidate folder, in probe
      order, that holds the launcher executable. */
  function FindModApiInstallation(prefix: string, existing: set<string>): (r: Option<string>)
    ensures r.None? <==> forall i :: 0 <= i < |Probes| ==> Join(KitDir(prefix, Probes[i]), LauncherExe) !in existing
    ensures r.Some? ==> exists i :: 0 <= i < |Probes| && r.value == KitDir(prefix, Probes[i])
                                    && Join(r.value, LauncherExe) in existing
                                    && forall j :: 0 <= j < i ==> Join(KitDir(prefix, Probes[j]), LauncherExe) !in existing
  {
    var cs := Candidates(prefix);
    if Join(cs[0], LauncherExe) in existing then Some(cs[0])
    else if Join(cs[1], LauncherExe) in existing then Some(cs[1])
    else if Join(cs[2], LauncherExe) in existing then Some(cs[2])
    else None
  }

  /** The executables `verify_installation` requires, in the order it checks them. */
  const RequiredFiles := [LauncherExe, EasyInstallerExe, EasyUninstallerExe]

  /** One line of the verification log. */
  datatype FileCheck = Found(file: string) | Missing(file: string)

  predicate AllRequiredPresent(dir: string, existing: set<string>)
  {
    forall i :: 0 <= i < |RequiredFiles| ==> Join(dir, RequiredFiles[i]) in existing
  }

  /** `verify_installation`: succeeds exactly when all three executables
      exist, and reports on every one of them even after a miss. */
  method VerifyInstallation(dir: string, existing: set<string>) returns (ok: bool, log: seq<FileCheck>)
    ensures ok <==> AllRequiredPresent(dir, existing)
    ensures |log| == |RequiredFiles|
    ensures forall i :: 0 <= i < |log| ==>
              log[i] == (if Join(dir, RequiredFiles[i]) in existing then Found(RequiredFiles[i]) else Missing(RequiredFiles[i]))
  {
    ok := true;
    log := [];
    var i := 0;
    while i < |RequiredFiles|
      invariant 0 <= i <= |RequiredFiles|
      invariant |log| == i
      invariant ok <==> forall j :: 0 <= j < i ==> Join(dir, RequiredFiles[j]) in existing
      invariant forall j :: 0 <= j < i ==>
                  log[j] == (if Join(dir, RequiredFiles[j]) in existing then Found(RequiredFiles[j]) else Missing(RequiredFiles[j]))
    {
      var file := RequiredFiles[i];
      if Join(dir, file) in existing {
        log := log + [Found(file)];
      } else {
        log := log + [Missing(file)];
        ok := false;
      }
      i := i + 1;
    }
  }

  /** A complete kit in any probed folder is always found: the search only
      needs the launcher, which a complete kit has. */
  lemma CompleteKitIsFound(prefix: string, existing: set<string>, i: nat)
    requires i < |Probes|
    requires AllRequiredPresent(KitDir(prefix, Probes[i]), existing)
    ensures FindModApiInstallation(prefix, existing).Some?
  {
    assert RequiredFiles[0] == LauncherExe;
  }

  /** A kit in the mixed-case `Program Files (x86)` folder is found when the
      default location holds no launcher. */
  lemma FindsKitInProgramFilesX86(prefix: string, existing: set<string>)
    requires Join(Join(Join(DriveC(prefix), "ProgramData"), "SPORE ModAPI Launcher Kit"), LauncherExe) !in existing
    requires Join(Join(Join(DriveC(prefix), "Program Files (x86)"), "Spore ModAPI Launcher Kit"), LauncherExe) in existing
    ensures FindModApiInstallation(prefix, existing)
              == Some(Join(Join(DriveC(prefix), "Program Files (x86)"), "Spore ModAPI Launcher Kit"))
  {
  }

  /** The in-guest path of a kit executable found in a probed folder:
      `C:\<root>\<kit>\<exe>`. None of these names holds a '_', so the
      `drive_c` rewrite applies exactly once. */
  lemma GuestPathOfKitFile(prefix: string, i: nat, exe: string)
    requires i < |Probes|
    requires exe in RequiredFiles
    ensures GuestPath(Join(KitDir(prefix, Probes[i]), exe), prefix)
              == "C:" + "\\" + Probes[i].root + "\\" + Probes[i].kit + "\\" + exe
  {
    ProbeFree(Probes[i]);
    ExeFree(exe);
    GuestPathOfNames(prefix, Probes[i].root, Probes[i].kit, exe);
  }

  /** `<prefix>/drive_c/a/b/c` is `C:\a\b\c` in the guest when the three
      names hold neither '/' nor '_'. */
  lemma GuestPathOfNames(prefix: string, a: string, b: string, c: string)
    requires NoChar(a, '_') && NoChar(b, '_') && NoChar(c, '_')
    requires NoChar(a, '/') && NoChar(b, '/') && NoChar(c, '/')
    ensures GuestPath(Join(Join(Join(DriveC(prefix), a), b), c), prefix)
              == "C:" + "\\" + a + "\\" + b + "\\" + c
  {
    var d := DriveC(prefix);
    assert d != "/" by {
      assert d[|d| - 1] == 'c';
    }
    assert Join(d, a) == d + "/" + a;
    assert Join(d, a) != "/" by {
      assert |Join(d, a)| > 1;
    }
    assert Join(Join(d, a), b) == d + "/" + a + "/" + b;
    assert Join(Join(d, a), b) != "/" by {
      assert |Join(Join(d, a), b)| > 1;
    }
    var rest := "/" + a + "/" + b + "/" + c;
    assert Join(Join(Join(d, a), b), c) == d + rest;
    assert NoChar(rest, '_') by {
      assert NoChar("/", '_');
      NoCharAppend("/", a, '_');
      NoCharAppend("/" + a, "/", '_');
      NoCharAppend("/" + a + "/", b, '_');
      NoCharAppend("/" + a + "/" + b, "/", '_');
      NoCharAppend("/" + a + "/" + b + "/", c, '_');
      NoCharAbsent(rest, '_');
    }
    GuestPathUnderDriveC(prefix, rest);
    SlashesToBackslashes(a, b, c);
  }

  /** Rewriting the slashes of `/a/b/c`. */
  lemma SlashesToBackslashes(a: string, b: string, c: string)
    requires NoChar(a, '/') && NoChar(b, '/') && NoChar(c, '/')
    ensures ReplaceAll("/" + a + "/" + b + "/" + c, "/", "\\") == "\\" + a + "\\" + b + "\\" + c
  {
    ReplaceCharSingle('/', '/', "\\");
    NoCharAbsent(a, '/');
    NoCharAbsent(b, '/');
    NoCharAbsent(c, '/');
    ReplaceAbsentPattern(a, "/", "\\", '/');
    ReplaceAbsentPattern(b, "/", "\\", '/');
    ReplaceAbsentPattern(c, "/", "\\", '/');
    ReplaceCharAppend("/", a, '/', "\\");
    ReplaceCharAppend("/" + a, "/", '/', "\\");
    ReplaceCharAppend("/" + a + "/", b, '/', "\\");
    ReplaceCharAppend("/" + a + "/" + b, "/", '/', "\\");
    ReplaceCharAppend("/" + a + "/" + b + "/", c, '/', "\\");
  }

  lemma ProbeFree(probe: Probe)
    requires probe in Probes
    ensures NoChar(probe.root, '_') && NoChar(probe.root, '/')
    ensures NoChar(probe.kit, '_') && NoChar(probe.kit, '/')
  {
    assert probe == Probes[0] || probe == Probes[1] || probe == Probes[2];
    RootFree(probe.root);
    KitFolderFree(probe.kit);
  }

  lemma RootFree(root: string)
    requires root in ["ProgramData", "Program Files (x86)", "Program Files"]
    ensures NoChar(root, '_') && NoChar(root, '/')
  {
  }

  lemma KitFolderFree(kit: string)
    requires kit in ["SPORE ModAPI Launcher Kit", "Spore ModAPI Launcher Kit"]
    ensures NoChar(kit, '_') && NoChar(kit, '/')
  {
  }

  lemma ExeFree(exe: string)
    requires exe in RequiredFiles
    ensures NoChar(exe, '_') && NoChar(exe, '/')
  {
  }
}
