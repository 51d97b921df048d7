/** Translation of host (Linux) paths into the paths a Wine guest sees.
    Wine maps the host root to drive Z: and the prefix's `drive_c` to C:. */
module WinePaths {
  import opened PyStr

  /** `convert_to_wine_path_display`: `Z:\` followed by the host path with
      every '/' turned into a single backslash, for showing to the user. */
  function DisplayPath(p: string): (r: string)
    ensures |r| == |p| + 3
    ensures r[..3] == "Z:\\"
    ensures forall i :: 0 <= i < |p| ==> r[i + 3] == (if p[i] == '/' then '\\' else p[i])
    ensures '/' !in r
  {
    ReplaceCharPointwise(p, '/', '\\');
    ReplaceCharSources(p, '/', "\\");
    "Z:\\" + ReplaceAll(p, "/", "\\")
  }

  /** `convert_to_wine_path_registry`: `Z:\\` followed by the host path with
      every '/' turned into two backslashes, as a .reg string value needs. */
  function RegistryPath(p: string): (r: string)
    ensures |r| == |p| + 4 + Count(p, '/')
    ensures r[..4] == "Z:\\\\"
    ensures '/' !in r
    ensures forall i :: 0 <= i < |p| ==>
              var k := 4 + i + Count(p[..i], '/');
              if p[i] == '/' then k + 2 <= |r| && r[k] == '\\' && r[k + 1] == '\\'
              else k < |r| && r[k] == p[i]
  {
    ReplaceCharLength(p, '/', "\\\\");
    ReplaceCharSources(p, '/', "\\\\");
    DoubledSlashes(p);
    "Z:\\\\" + ReplaceAll(p, "/", "\\\\")
  }

  /** Where each host character lands once every '/' is doubled into two
      backslashes. */
  lemma DoubledSlashes(p: string)
    ensures var b := ReplaceAll(p, "/", "\\\\");
            forall i :: 0 <= i < |p| ==>
              var k := i + Count(p[..i], '/');
              if p[i] == '/' then k + 2 <= |b| && b[k] == '\\' && b[k + 1] == '\\'
              else k < |b| && b[k] == p[i]
  {
    forall i | 0 <= i < |p| {
      DoubledSlashAt(p, i);
    }
  }

  lemma DoubledSlashAt(p: string, i: nat)
    requires i < |p|
    ensures var b := ReplaceAll(p, "/", "\\\\");
            var k := i + Count(p[..i], '/');
            if p[i] == '/' then k + 2 <= |b| && b[k] == '\\' && b[k + 1] == '\\'
            else k < |b| && b[k] == p[i]
  {
    var b := ReplaceAll(p, "/", "\\\\");
    ReplaceCharAt(p, '/', "\\\\", i);
    ReplaceCharLength(p[..i], '/', "\\\\");
    var k := |ReplaceAll(p[..i], "/", "\\\\")|;
    assert k == i + Count(p[..i], '/');
    if p[i] == '/' {
      assert b[k..k + 2] == "\\\\";
      assert b[k] == b[k..k + 2][0] && b[k + 1] == b[k..k + 2][1];
    }
  }

  /** The escaping of a .reg string value: each backslash is doubled. */
  function Escape(s: string): string
  {
    ReplaceAll(s, "\\", "\\\\")
  }

  /** What the registry importer reads back from an escaped value: each
      doubled backslash stands for one. */
  function Unescape(s: string): string
  {
    if |s| >= 2 && s[0] == '\\' && s[1] == '\\' then "\\" + Unescape(s[2..])
    else if |s| == 0 then []
    else [s[0]] + Unescape(s[1..])
  }

  /** Escaping then unescaping gives back any string. */
  lemma {:induction false} UnescapeEscape(s: string)
    ensures Unescape(Escape(s)) == s
  {
    if |s| > 0 {
      UnescapeEscape(s[1..]);
      var tail := Escape(s[1..]);
      if s[0] == '\\' {
        assert Escape(s) == "\\\\" + tail;
        assert ("\\\\" + tail)[2..] == tail;
      } else {
        assert Escape(s) == [s[0]] + tail;
        assert ([s[0]] + tail)[1..] == tail;
      }
      assert s == [s[0]] + s[1..];
    }
  }

  /** The registry form is exactly the escaped display form, and this holds
      precisely when the host path has no backslash of its own (a backslash
      in the host path stays single in the registry form). */
  lemma RegistryIsEscapedDisplay(p: string)
    ensures RegistryPath(p) == Escape(DisplayPath(p)) <==> '\\' !in p
  {
    EscapeDisplay(p);
    if '\\' !in p {
      RegistryBodyIsEscaped(p);
    } else {
      // Compare lengths: every host backslash costs the escaped form one more character.
      EscapedBodyLength(p);
      CountZeroIffAbsent(p, '\\');
      assert |Escape(DisplayPath(p))| != |RegistryPath(p)|;
    }
  }

  /** Escaping the display form doubles the drive's backslash and escapes the rest. */
  lemma EscapeDisplay(p: string)
    ensures Escape(DisplayPath(p)) == "Z:\\\\" + Escape(ReplaceAll(p, "/", "\\"))
  {
    var body := ReplaceAll(p, "/", "\\");
    ReplaceCharAppend("Z:\\", body, '\\', "\\\\");
    assert DisplayPath(p) == "Z:\\" + body;
    assert Escape("Z:\\") == "Z:\\\\" by {
      ReplaceCharSingle('Z', '\\', "\\\\");
      ReplaceCharSingle(':', '\\', "\\\\");
      ReplaceCharSingle('\\', '\\', "\\\\");
      ReplaceCharAppend("Z", ":", '\\', "\\\\");
      ReplaceCharAppend("Z:", "\\", '\\', "\\\\");
      assert "Z:\\" == "Z:" + "\\";
      assert "Z:" == "Z" + ":";
    }
  }

  /** Length of the escaped slash-rewritten host path. */
  lemma EscapedBodyLength(p: string)
    ensures |Escape(ReplaceAll(p, "/", "\\"))| == |p| + Count(p, '/') + Count(p, '\\')
  {
    var body := ReplaceAll(p, "/", "\\");
    ReplaceCharLength(p, '/', "\\");
    assert |body| == |p|;
    ReplaceCharLength(body, '\\', "\\\\");
    ReplaceCharCount(p, '/', "\\", '\\');
    assert Count("\\", '\\') == 1;
  }

  /** Without host backslashes, doubling after the slash rewrite is the
      same as rewriting each slash to two backslashes. */
  lemma {:induction false} RegistryBodyIsEscaped(p: string)
    requires '\\' !in p
    ensures ReplaceAll(p, "/", "\\\\") == Escape(ReplaceAll(p, "/", "\\"))
  {
    if |p| > 0 {
      RegistryBodyIsEscaped(p[1..]);
      var t := ReplaceAll(p[1..], "/", "\\");
      if p[0] == '/' {
        assert ReplaceAll(p, "/", "\\") == "\\" + t;
        ReplaceCharAppend("\\", t, '\\', "\\\\");
      } else {
        assert ReplaceAll(p, "/", "\\") == [p[0]] + t;
        ReplaceCharAppend([p[0]], t, '\\', "\\\\");
      }
    }
  }

  /** The importer stores the display path whenever the host path has no
      backslash: the two translations name the same guest location. */
  lemma RegistryReadsAsDisplay(p: string, suffix: string)
    requires '\\' !in p
    ensures Unescape(RegistryPath(p) + Escape(suffix)) == DisplayPath(p) + suffix
  {
    RegistryIsEscapedDisplay(p);
    ReplaceCharAppend(DisplayPath(p), suffix, '\\', "\\\\");
    UnescapeEscape(DisplayPath(p) + suffix);
  }

  /** The host directory Wine uses as drive C: of a prefix. */
  function DriveC(prefix: string): string
  {
    Join(prefix, "drive_c")
  }

  /** The in-guest path built by `create_launch_scripts`: the prefix's
      `drive_c` replaced by `C:`, then every '/' by a backslash. */
  function GuestPath(hostPath: string, prefix: string): (r: string)
    ensures '/' !in r
  {
    ReplaceCharSources(ReplaceAll(hostPath, DriveC(prefix), "C:"), '/', "\\");
    ReplaceAll(ReplaceAll(hostPath, DriveC(prefix), "C:"), "/", "\\")
  }

  /** A host path under `drive_c` whose remainder has no '_' becomes
      `C:` followed by that remainder in backslash form. The '_' of
      `drive_c` keeps the pattern from matching a second time. */
  lemma GuestPathUnderDriveC(prefix: string, rest: string)
    requires '_' !in rest
    ensures GuestPath(DriveC(prefix) + rest, prefix) == "C:" + ReplaceAll(rest, "/", "\\")
  {
    var d := DriveC(prefix);
    var q := if prefix == "/" then "" else prefix;
    assert d == q + "/drive_c";
    assert '_' in d by {
      assert d[|q| + 6] == "/drive_c"[6] == '_';
    }
    ReplaceLeadingMatch(d, rest, "C:");
    ReplaceAbsentPattern(rest, d, "C:", '_');
    ReplaceAbsentPattern("C:", "/", "\\", '/');
    ReplaceCharAppend("C:", rest, '/', "\\");
    assert GuestPath(d + rest, prefix) == ReplaceAll("C:" + rest, "/", "\\");
  }
}
