/** The BitCollector framework script: the `Platform` descriptor built from
    `platform.uname()` and the one OS-specific detail object its system name
    selects, and `importBCModules`, which tries to import every listed
    collector module. The answers of the OS queries and the set of importable
    module names are inputs. The root logger is set to DEBUG and the
    platform loggers set no level of their own, so every record these
    operations log reaches the sink. */
module BitCollectorMain {
  import opened Python
  import opened Logging

  /** `platform.uname()`: system, node, release, version, machine, processor. */
  type Uname = (string, string, string, string, string, string)

  /** The middle entry of `platform.mac_ver()`: version, dev stage, non-release version. */
  datatype VersionInfo = VersionInfo(version: string, devStage: string, nonReleaseVersion: string)

  /** `platform.mac_ver()`: release, version info, machine. */
  type MacVer = (string, VersionInfo, string)

  /** `platform.linux_distribution()`: distribution name, version, id. */
  type LinuxDistribution = (string, string, string)

  /** `platform.win32_ver()`: release, version, service pack, processor type. */
  type Win32Ver = (string, string, string, string)

  /** What each OS-specific query would answer on this machine. */
  datatype OsQueries = Queries(macVer: MacVer, linuxDistribution: LinuxDistribution, win32Ver: Win32Ver)

  datatype MacPlatform = MacPlatform(release: string, versionInfo: VersionInfo, machine: string)

  datatype NixPlatform = NixPlatform(distname: string, version: string, id: string)

  datatype WinPlatform = WinPlatform(release: string, version: string, csd: string, ptype: string)

  /** A `Platform` object: the six platform-independent attributes and the
      `mac_platform`, `nix_platform` and `win_platform` attributes, `None`
      when not assigned. */
  datatype Platform = Platform(
    system: string, node: string, release: string, version: string, machine: string, processor: string,
    macPlatform: Option<MacPlatform>, nixPlatform: Option<NixPlatform>, winPlatform: Option<WinPlatform>)

  /** An object together with the records its constructor logged. */
  datatype Built<T> = Built(value: T, log: seq<Record>)

  /** Which branch of the if/elif chain in `Platform.__init__` is taken. */
  datatype Family = MacOS | Unix | Windows | Unknown

  // ---------------------------------------------------------------------
  // Platform.__init__ and the detail constructors

  /** `MacPlatform(tuple)`. The loop meant to replace empty strings by
      "Unknown" only rebinds its loop variable, so the tuple is copied as
      it is. */
  function NewMacPlatform(t: MacVer): Built<MacPlatform>
  {
    Built(MacPlatform(t.0, t.1, t.2), [Record("MacPlatform", Debug, "BitCollector.MacPlatform.__init__():")])
  }

  /** `NixPlatform(tuple)`, copying the tuple as it is. */
  function NewNixPlatform(t: LinuxDistribution): Built<NixPlatform>
  {
    Built(NixPlatform(t.0, t.1, t.2), [Record("NixPlatform", Debug, "BitCollector.NixPlatform.__init__():")])
  }

  /** `WinPlatform(tuple)`, copying the tuple as it is. */
  function NewWinPlatform(t: Win32Ver): Built<WinPlatform>
  {
    Built(WinPlatform(t.0, t.1, t.2, t.3), [Record("WinPlatform", Debug, "BitCollector.WinPlatform.__init__():")])
  }

  /** The tests `re.search(r'mac', ...)`, `re.search(r'nix', ...)` and
      `re.search(r'win', ...)` on the lower-cased system name, in that order. */
  function Classify(system: string): Family
  {
    var lowered := Lower(system);
    if Contains(lowered, "mac") then MacOS
    else if Contains(lowered, "nix") then Unix
    else if Contains(lowered, "win") then Windows
    else Unknown
  }

  /** `Platform(tuple)` for `tuple = uname`; only the OS query of the selected
      branch is consulted. */
  function NewPlatform(uname: Uname, queries: OsQueries): Built<Platform>
  {
    var base := Platform(uname.0, uname.1, uname.2, uname.3, uname.4, uname.5, None, None, None);
    var enter := [Record("Platform", Debug, "BitCollector.Platform.__init__():")];
    match Classify(base.system)
    case MacOS =>
      var d := NewMacPlatform(queries.macVer);
      Built(base.(macPlatform := Some(d.value)), enter + d.log)
    case Unix =>
      var d := NewNixPlatform(queries.linuxDistribution);
      Built(base.(nixPlatform := Some(d.value)), enter + d.log)
    case Windows =>
      var d := NewWinPlatform(queries.win32Ver);
      Built(base.(winPlatform := Some(d.value)), enter + d.log)
    case Unknown =>
      Built(base, enter + [Record("Platform", Warning, "Unknown system type.")])
  }

  // ---------------------------------------------------------------------
  // What Platform promises

  /** The keyword occurs somewhere in the lower-cased system name. */
  ghost predicate Mentions(system: string, keyword: string)
  {
    exists i: nat :: OccursAt(Lower(system), keyword, i)
  }

  /** The family is chosen by keyword occurrence with priority
      Mac > Unix > Windows, and is Unknown when no keyword occurs. */
  lemma ClassifyRule(system: string)
    ensures Classify(system) == MacOS <==> Mentions(system, "mac")
    ensures Classify(system) == Unix <==> !Mentions(system, "mac") && Mentions(system, "nix")
    ensures Classify(system) == Windows
      <==> !Mentions(system, "mac") && !Mentions(system, "nix") && Mentions(system, "win")
    ensures Classify(system) == Unknown
      <==> !Mentions(system, "mac") && !Mentions(system, "nix") && !Mentions(system, "win")
  {
    ContainsIffOccurs(Lower(system), "mac");
    ContainsIffOccurs(Lower(system), "nix");
    ContainsIffOccurs(Lower(system), "win");
  }

  /** Exactly the detail object of the selected family is assigned, and
      exactly one warning is logged when no family is selected. */
  lemma PlatformDetailMatchesFamily(uname: Uname, queries: OsQueries)
    ensures var p := NewPlatform(uname, queries).value;
      && (p.macPlatform.Some? <==> Classify(uname.0) == MacOS)
      && (p.nixPlatform.Some? <==> Classify(uname.0) == Unix)
      && (p.winPlatform.Some? <==> Classify(uname.0) == Windows)
    ensures var p := NewPlatform(uname, queries).value;
      !(p.macPlatform.Some? && p.nixPlatform.Some?) && !(p.macPlatform.Some? && p.winPlatform.Some?)
      && !(p.nixPlatform.Some? && p.winPlatform.Some?)
    ensures CountAt(NewPlatform(uname, queries).log, Warning) == (if Classify(uname.0) == Unknown then 1 else 0)
  {
    var b := NewPlatform(uname, queries);
    assert b.log == b.log[..1] + b.log[1..];
    CountAtAppend(b.log[..1], b.log[1..], Warning);
  }

  /** The six attributes are the tuple's entries 0 to 5, empty strings
      included, and the detail object holds the matching query's tuple
      entries in order. */
  lemma PlatformCopiesFields(uname: Uname, queries: OsQueries)
    ensures var p := NewPlatform(uname, queries).value;
      && p.system == uname.0 && p.node == uname.1 && p.release == uname.2
      && p.version == uname.3 && p.machine == uname.4 && p.processor == uname.5
    ensures var p := NewPlatform(uname, queries).value;
      && (p.macPlatform.Some? ==>
           var t := queries.macVer;
           p.macPlatform.value.release == t.0 && p.macPlatform.value.versionInfo == t.1
           && p.macPlatform.value.machine == t.2)
      && (p.nixPlatform.Some? ==>
           var t := queries.linuxDistribution;
           p.nixPlatform.value.distname == t.0 && p.nixPlatform.value.version == t.1
           && p.nixPlatform.value.id == t.2)
      && (p.winPlatform.Some? ==>
           var t := queries.win32Ver;
           p.winPlatform.value.release == t.0 && p.winPlatform.value.version == t.1
           && p.winPlatform.value.csd == t.2 && p.winPlatform.value.ptype == t.3)
  {
  }

  lemma LinuxLowered()
    ensures Lower("Linux") == "linux"
  {
    assert Lower("Linux")[0] == 'l';
  }

  lemma LinuxKeywords()
    ensures !Contains("linux", "mac") && !Contains("linux", "nix") && !Contains("linux", "win")
  {
    assert "linux"[1..] == "inux" && "inux"[1..] == "nux" && "nux"[1..] == "ux";
    assert "linux"[..3] == "lin" && "inux"[..3] == "inu" && "nux"[..3] == "nux";
  }

  /** "Linux" contains none of the keywords: no detail object, one warning. */
  lemma LinuxIsUnknown(uname: Uname, queries: OsQueries)
    requires uname.0 == "Linux"
    ensures Classify(uname.0) == Unknown
    ensures var p := NewPlatform(uname, queries).value;
      p.macPlatform.None? && p.nixPlatform.None? && p.winPlatform.None?
  {
    LinuxLowered();
    LinuxKeywords();
    PlatformDetailMatchesFamily(uname, queries);
  }

  lemma DarwinLowered()
    ensures Lower("Darwin") == "darwin"
  {
    assert Lower("Darwin")[0] == 'd';
  }

  lemma DarwinKeywords()
    ensures !Contains("darwin", "mac") && !Contains("darwin", "nix") && Contains("darwin", "win")
  {
    assert "darwin"[1..] == "arwin" && "arwin"[1..] == "rwin" && "rwin"[1..] == "win" && "win"[1..] == "in";
    assert "darwin"[..3] == "dar" && "arwin"[..3] == "arw" && "rwin"[..3] == "rwi" && "win"[..3] == "win";
  }

  /** "Darwin" (the system name of macOS) contains "win" and so selects the
      Windows detail object. */
  lemma DarwinIsWindows(uname: Uname, queries: OsQueries)
    requires uname.0 == "Darwin"
    ensures Classify(uname.0) == Windows
    ensures NewPlatform(uname, queries).value.winPlatform == Some(NewWinPlatform(queries.win32Ver).value)
  {
    DarwinLowered();
    DarwinKeywords();
  }

  // ---------------------------------------------------------------------
  // importBCModules

  /** The module list `importBCModules` hard-codes for now. */
  const DebugModuleList: seq<string> := ["os", "foo", "math", "time", "bar"]

  const EnterImport: Record := Record("root", Debug, "BitCollector.importBCModules():")

  /** The record logged for one import attempt. */
  function ImportRecord(name: string, importable: set<string>): Record
  {
    if name in importable then Record("root", Info, "Successfully imported module: " + name)
    else Record("root", Warning, "Unable to import module: " + name)
  }

  /** Everything `importBCModules` logs for `names`. */
  function ImportLog(names: seq<string>, importable: set<string>): seq<Record>
  {
    [EnterImport] + seq(|names|, k requires 0 <= k < |names| => ImportRecord(names[k], importable))
  }

  /** `importBCModules()`, where `__import__(name)` succeeds exactly for the
      names in `importable`. Every failure is caught, so the loop always goes
      on to the next name. */
  method ImportBCModules(importable: set<string>) returns (log: seq<Record>)
    ensures log == ImportLog(DebugModuleList, importable)
  {
    var moduleList := DebugModuleList;
    log := [EnterImport];
    for i := 0 to |moduleList|
      invariant log == ImportLog(moduleList[..i], importable)
    {
      var name := moduleList[i];
      if name in importable {
        log := log + [Record("root", Info, "Successfully imported module: " + name)];
      } else {
        log := log + [Record("root", Warning, "Unable to import module: " + name)];
      }
      assert moduleList[..i + 1][i] == name;
    }
    assert moduleList[..|moduleList|] == moduleList;
  }

  /** The names of `names` whose import fails, in list order. */
  function FailedImports(names: seq<string>, importable: set<string>): (r: seq<string>)
    ensures |r| <= |names|
    ensures forall n :: n in r <==> n in names && n !in importable
  {
    if names == [] then []
    else (if names[0] in importable then [] else [names[0]]) + FailedImports(names[1..], importable)
  }

  /** One record per listed name, in list order: INFO on success, WARNING on
      failure, whatever happened to the names before it. */
  lemma ImportLogShape(names: seq<string>, importable: set<string>)
    ensures |ImportLog(names, importable)| == |names| + 1
    ensures ImportLog(names, importable)[0] == EnterImport
    ensures forall k :: 0 <= k < |names| ==>
      && ImportLog(names, importable)[k + 1].level == (if names[k] in importable then Info else Warning)
      && ImportLog(names, importable)[k + 1].message
        == (if names[k] in importable then "Successfully imported module: " else "Unable to import module: ")
           + names[k]
  {
  }

  /** A failed import does not change what is logged for the names after it:
      the records for a list are those for its parts, one after the other. */
  lemma ImportLogAppend(a: seq<string>, b: seq<string>, importable: set<string>)
    ensures ImportLog(a + b, importable) == ImportLog(a, importable) + ImportLog(b, importable)[1..]
  {
    var l := ImportLog(a + b, importable);
    var r := ImportLog(a, importable) + ImportLog(b, importable)[1..];
    assert |l| == |r|;
    forall k | 0 <= k < |l| ensures l[k] == r[k] {
      if 1 <= k <= |a| {
        assert (a + b)[k - 1] == a[k - 1];
      } else if k > |a| {
        assert (a + b)[k - 1] == b[k - 1 - |a|];
      }
    }
  }

  /** For the hard-coded list, with only the standard modules "os", "math"
      and "time" importable: two warnings, for "foo" and "bar". */
  lemma DebugListLog()
    ensures var log := ImportLog(DebugModuleList, {"os", "math", "time"});
      && |log| == 6
      && log[2] == Record("root", Warning, "Unable to import module: foo")
      && log[5] == Record("root", Warning, "Unable to import module: bar")
      && CountAt(log, Warning) == 2 && CountAt(log, Info) == 3
  {
    var log := ImportLog(DebugModuleList, {"os", "math", "time"});
    assert "foo" !in {"os", "math", "time"} && "bar" !in {"os", "math", "time"};
    assert log[1].level == Info && log[2].level == Warning && log[3].level == Info;
    assert log[4].level == Info && log[5].level == Warning;
    forall k | 0 <= k < 6 ensures log[k..][1..] == log[k + 1..] { }
    assert log[6..] == [];
    assert CountAt(log[5..], Warning) == 1 && CountAt(log[5..], Info) == 0;
    assert CountAt(log[4..], Warning) == 1 && CountAt(log[4..], Info) == 1;
    assert CountAt(log[3..], Warning) == 1 && CountAt(log[3..], Info) == 2;
    assert CountAt(log[2..], Warning) == 2 && CountAt(log[2..], Info) == 2;
    assert CountAt(log[1..], Warning) == 2 && CountAt(log[1..], Info) == 3;
    assert log[0..] == log;
  }

  /** One WARNING record per failed import and no other. */
  lemma {:induction false} ImportWarnings(names: seq<string>, importable: set<string>)
    ensures CountAt(ImportLog(names, importable), Warning) == |FailedImports(names, importable)|
    ensures CountAt(ImportLog(names, importable), Info) == |names| - |FailedImports(names, importable)|
  {
    if names == [] {
      assert ImportLog(names, importable) == [EnterImport];
    } else {
      var head := [names[0]];
      var rest := names[1..];
      assert names == head + rest;
      ImportLogAppend(head, rest, importable);
      ImportWarnings(rest, importable);
      var r := ImportLog(rest, importable);
      assert r == [r[0]] + r[1..];
      CountAtAppend([r[0]], r[1..], Warning);
      CountAtAppend([r[0]], r[1..], Info);
      var h := ImportLog(head, importable);
      assert h == [h[0]] + [h[1]];
      CountAtAppend([h[0]], [h[1]], Warning);
      CountAtAppend([h[0]], [h[1]], Info);
      CountAtAppend(h, r[1..], Warning);
      CountAtAppend(h, r[1..], Info);
    }
  }
}
