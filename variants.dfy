/** Variant mapping: how the declared settings and options decide the per-OS
    file patterns and target prefixes (`configure`), and the generator and
    build-tool arguments (`build`). Every decision is a lookup into one of the
    tables of module Tables; a missing entry is a KeyError, as in Python. */
module Variants {
  import opened Tables
  import opened Text

  /** The settings the recipe reads. `msvc` is the answer of Conan's
      `is_msvc`, whose rules are not part of this model. */
  datatype Settings = Settings(os: string, msvc: bool, compilerVersion: string, arch: string, buildType: string)

  datatype Options = Options(shared: bool, tools: bool)

  /** The per-OS fields `configure` assigns. */
  datatype OsLayout = OsLayout(
    libExt: seq<string>,        // patterns copied into lib/; the first one is counted
    binExt: seq<string>,
    libTargetPrefix: string,    // build-target prefixes
    toolTargetPrefix: string,
    shaderCPrefix: string,
    packageLibPrefix: string,   // prefix of the packaged library's canonical name
    binFolder: string)          // folder of the genie binary shipped with bx

  const ConfigurableOses: set<string> := {"Windows", "Linux", "FreeBSD", "Macos"}

  /** The per-OS branch of `configure`. On any other OS no branch runs and the
      first read of `libTargetPrefix` fails. */
  function LayoutFor(os: string, shared: bool): Result<OsLayout> {
    if os == "Windows" then
      Ok(OsLayout(["*.lib", "*.pdb"], ["*.exe"] + (if shared then ["*.dll"] else []),
                  "libs\\", "tools\\", "shaderc\\", "", "windows"))
    else if os in ["Linux", "FreeBSD"] then
      Ok(OsLayout(["*.a"] + (if shared then ["*.so"] else []), [], "", "", "", "lib", "linux"))
    else if os == "Macos" then
      Ok(OsLayout(["*.a"] + (if shared then ["*.so"] else []), [], "", "", "", "lib", "darwin"))
    else
      Err(MissingAttribute("libTargetPrefix"))
  }

  /** Extra genie flags for the options. */
  function GenieExtraFor(shared: bool, tools: bool): string {
    (if shared then " --with-shared-lib" else "") + (if tools then " --with-tools" else "")
  }

  function ToolTargets(layout: OsLayout): seq<string> {
    [layout.toolTargetPrefix + layout.shaderCPrefix + "shaderc",
     layout.toolTargetPrefix + "texturev",
     layout.toolTargetPrefix + "geometryc",
     layout.toolTargetPrefix + "geometryv"]
  }

  /** The build targets for the options: the library, then the four tools. */
  function ProjectsFor(layout: OsLayout, shared: bool, tools: bool): seq<string> {
    [layout.libTargetPrefix + (if shared then "bgfx-shared-lib" else "bgfx")]
    + (if tools then ToolTargets(layout) else [])
  }

  // ---------------------------------------------------------------------------
  // Properties of configure

  /** `configure` completes exactly on the four OSes it has a branch for. */
  lemma ConfigureSucceedsIff(os: string, shared: bool)
    ensures LayoutFor(os, shared).Ok? <==> os in ConfigurableOses
    ensures LayoutFor(os, shared).Err? ==> LayoutFor(os, shared).failure == MissingAttribute("libTargetPrefix")
  {
  }

  /** The counted library pattern is `*.lib` on Windows and `*.a` elsewhere;
      `shared` contributes `*.dll` to the binaries on Windows and `*.so` to the
      libraries elsewhere, and nothing otherwise. */
  lemma LibPatterns(os: string, shared: bool)
    requires LayoutFor(os, shared).Ok?
    ensures var l := LayoutFor(os, shared).value;
      && 1 <= |l.libExt|
      && l.libExt[0] == (if os == "Windows" then "*.lib" else "*.a")
      && ("*.dll" in l.binExt <==> os == "Windows" && shared)
      && ("*.so" in l.libExt <==> os != "Windows" && shared)
  {
  }

  /** Turning `shared` on appends exactly one pattern and changes nothing else. */
  lemma SharedAddsOnlyDynamicLibs(os: string)
    requires os in ConfigurableOses
    ensures var s, t := LayoutFor(os, true).value, LayoutFor(os, false).value;
      && (os == "Windows" ==> s == t.(binExt := t.binExt + ["*.dll"]))
      && (os != "Windows" ==> s == t.(libExt := t.libExt + ["*.so"]))
  {
  }

  /** The target list: the library target (shared or static) first, then,
      with `tools`, exactly the four tools in order. */
  lemma ProjectsFollowOptions(layout: OsLayout, shared: bool, tools: bool)
    ensures var p := ProjectsFor(layout, shared, tools);
      && |p| == (if tools then 5 else 1)
      && p[0] == layout.libTargetPrefix + (if shared then "bgfx-shared-lib" else "bgfx")
      && (tools ==> p[1..] == ToolTargets(layout))
  {
  }

  /** The shared-library flag is present exactly when `shared` is on, and the
      tools flag exactly when `tools` is on. */
  lemma GenieExtraFollowsOptions(shared: bool, tools: bool)
    ensures Contains(GenieExtraFor(shared, tools), " --with-shared-lib") <==> shared
    ensures Contains(GenieExtraFor(shared, tools), " --with-tools") <==> tools
  {
    var g := GenieExtraFor(shared, tools);
    var sharedFlag, toolsFlag := " --with-shared-lib", " --with-tools";
    if shared {
      ContainsAt([], sharedFlag, if tools then toolsFlag else []);
      assert g == [] + sharedFlag + (if tools then toolsFlag else []);
    } else if Contains(g, sharedFlag) {
      ContainsShorter(g, sharedFlag);
    }
    if tools {
      ContainsAt(if shared then sharedFlag else [], toolsFlag, []);
      assert g == (if shared then sharedFlag else []) + toolsFlag + [];
    } else if Contains(g, toolsFlag) {
      ContainsChars(g, toolsFlag, 9);
    }
  }

  // ---------------------------------------------------------------------------
  // The build plan

  /** MSBuild's platform: Win32 for x86, otherwise what MSBuild derives itself. */
  datatype Platform = Win32 | ToolDefault

  /** One genie run in the bgfx source tree: the executable's path relative to
      the source folder, and the argument string. */
  datatype GenieRun = GenieRun(exe: seq<string>, args: string)

  /** One `make` invocation: `make -R -C <projDir> <conf> <target>`. */
  datatype MakeCall = MakeCall(target: string, projDir: seq<string>, conf: string)

  datatype BuildPlan =
    | MsBuildPlan(genie: GenieRun, solution: seq<string>, configuration: string, platform: Platform, targets: seq<string>)
    | MakePlan(genie: GenieRun, projDir: seq<string>, conf: string, calls: seq<MakeCall>)

  function GeniePath(binFolder: string): seq<string> {
    ["bx", "tools", "bin", binFolder, "genie"]
  }

  /** `"vs" + vsVerToGenie[version]`. */
  function VsGenerator(compilerVersion: string): Result<string> {
    var year :- Lookup(VsVerToGenie, "vsVerToGenie", compilerVersion);
    Ok("vs" + year)
  }

  function MsBuildConfiguration(buildType: string): string {
    if buildType == "Debug" then "Debug" else "Release"
  }

  function MsBuildPlatform(arch: string): Platform {
    if arch == "x86" then Win32 else ToolDefault
  }

  /** The gmake project folder genie generates, looked up in source order. */
  function ProjFolderFor(os: string, arch: string): Result<string> {
    var proj :- Lookup(GmakeOsToProj, "gmakeOsToProj", os);
    var useArch :- Lookup(OsToUseArchConfigSuffix, "osToUseArchConfigSuffix", os);
    if useArch then
      var suffix :- Lookup(GmakeArchToGenieSuffix, "gmakeArchToGenieSuffix", arch);
      Ok("gmake-" + proj + suffix)
    else
      Ok("gmake-" + proj)
  }

  /** make's `config=` argument, looked up in source order. */
  function MakeConfFor(os: string, arch: string, buildType: string): Result<string> {
    var conf :- Lookup(BuildTypeToMakeConfig, "buildTypeToMakeConfig", buildType);
    var useBits :- Lookup(OsToUseMakeConfigSuffix, "osToUseMakeConfigSuffix", os);
    if useBits then
      var bits :- Lookup(ArchToMakeConfigSuffix, "archToMakeConfigSuffix", arch);
      Ok(conf + bits)
    else
      Ok(conf)
  }

  /** One make call per target, in target order. */
  function MakeCallsFor(projs: seq<string>, projDir: seq<string>, conf: string): seq<MakeCall> {
    seq(|projs|, i requires 0 <= i < |projs| => MakeCall(projs[i], projDir, conf))
  }

  /** What `build` runs, from the settings and the fields `configure` set. */
  function PlanFor(s: Settings, binFolder: string, genieExtra: string, projs: seq<string>): Result<BuildPlan> {
    if s.msvc then
      var genieVS :- VsGenerator(s.compilerVersion);
      Ok(MsBuildPlan(GenieRun(GeniePath(binFolder), genieExtra + " " + genieVS),
                     ["bgfx", ".build", "projects", genieVS, "bgfx.sln"],
                     MsBuildConfiguration(s.buildType), MsBuildPlatform(s.arch), projs))
    else
      var osFlag :- Lookup(GccOsToGenie, "gccOsToGenie", s.os);
      var projFolder :- ProjFolderFor(s.os, s.arch);
      var conf :- MakeConfFor(s.os, s.arch, s.buildType);
      var projDir := ["bgfx", ".build", "projects", projFolder];
      Ok(MakePlan(GenieRun(GeniePath(binFolder), genieExtra + " " + osFlag + " gmake"),
                  projDir, conf, MakeCallsFor(projs, projDir, conf)))
  }

  // ---------------------------------------------------------------------------
  // Properties of the build plan

  /** The MSVC path: it fails exactly on an unknown compiler version; otherwise
      genie gets the VS generator, MSBuild builds the generated solution in
      Debug exactly for Debug builds (Release for every other build type), on
      Win32 exactly for x86, and builds every configured target. */
  lemma MsvcPlan(s: Settings, binFolder: string, genieExtra: string, projs: seq<string>)
    requires s.msvc
    ensures var r := PlanFor(s, binFolder, genieExtra, projs);
      && (r.Ok? <==> s.compilerVersion in VsVerToGenie)
      && (r.Err? ==> r.failure == KeyError("vsVerToGenie", s.compilerVersion))
      && (r.Ok? ==>
            var vs := "vs" + VsVerToGenie[s.compilerVersion];
            && r.value.MsBuildPlan?
            && r.value.genie == GenieRun(GeniePath(binFolder), genieExtra + " " + vs)
            && r.value.solution == ["bgfx", ".build", "projects", vs, "bgfx.sln"]
            && r.value.configuration in {"Debug", "Release"}
            && (r.value.configuration == "Debug" <==> s.buildType == "Debug")
            && (r.value.platform == Win32 <==> s.arch == "x86")
            && r.value.targets == projs)
  {
  }

  /** The settings the make path has table entries for, stated OS by OS
      rather than through the tables. */
  predicate MakeSupported(os: string, arch: string, buildType: string) {
    && buildType in {"Debug", "Release"}
    && (os in {"Windows", "Linux"} ==> arch in {"x86", "x86_64"})
    && (os in {"Macos", "Android", "iOS"} ==> arch in {"x86", "x86_64", "armv8", "armv7"})
    && os in {"Windows", "Linux", "Macos", "Android", "iOS"}
  }

  /** The make path yields a plan exactly for the supported settings. */
  lemma MakePlanOkIff(s: Settings, binFolder: string, genieExtra: string, projs: seq<string>)
    requires !s.msvc
    ensures PlanFor(s, binFolder, genieExtra, projs).Ok? <==> MakeSupported(s.os, s.arch, s.buildType)
  {
    ProjFolderOkIff(s.os, s.arch);
    MakeConfOkIff(s.os, s.arch, s.buildType);
    assert PlanFor(s, binFolder, genieExtra, projs).Ok? <==>
      s.os in GccOsToGenie && ProjFolderFor(s.os, s.arch).Ok? && MakeConfFor(s.os, s.arch, s.buildType).Ok?;
  }

  /** The project folder exists for the five tabled OSes, and on the OSes
      that suffix it, for the four tabled architectures. */
  lemma ProjFolderOkIff(os: string, arch: string)
    ensures ProjFolderFor(os, arch).Ok? <==>
      os in {"Windows", "Linux", "Macos", "Android", "iOS"}
      && (os in {"Macos", "Android", "iOS"} ==> arch in {"x86", "x86_64", "armv8", "armv7"})
  {
    if os in {"Macos", "Android", "iOS"} {
      assert os in OsToUseArchConfigSuffix && OsToUseArchConfigSuffix[os];
    }
  }

  /** The make configuration exists for Debug and Release on the five tabled
      OSes, and on the OSes that add the bitness, for x86 and x86_64. */
  lemma MakeConfOkIff(os: string, arch: string, buildType: string)
    ensures MakeConfFor(os, arch, buildType).Ok? <==>
      buildType in {"Debug", "Release"} && os in {"Windows", "Linux", "Macos", "Android", "iOS"}
      && (os in {"Windows", "Linux"} ==> arch in {"x86", "x86_64"})
  {
    if os in {"Windows", "Linux"} {
      assert os in OsToUseMakeConfigSuffix && OsToUseMakeConfigSuffix[os];
    }
  }

  /** The project folder is `gmake-` and the OS's folder name, followed by the
      architecture suffix only on Macos, Android and iOS. */
  lemma ProjFolderShape(os: string, arch: string)
    requires ProjFolderFor(os, arch).Ok?
    ensures os in GmakeOsToProj
    ensures ProjFolderFor(os, arch).value ==
      "gmake-" + GmakeOsToProj[os] + (if os in {"Macos", "Android", "iOS"} then GmakeArchToGenieSuffix[arch] else "")
  {
  }

  /** The make configuration is the build type's `config=` argument, followed
      by the bitness only on Windows and Linux. */
  lemma MakeConfShape(os: string, arch: string, buildType: string)
    requires MakeConfFor(os, arch, buildType).Ok?
    ensures buildType in BuildTypeToMakeConfig
    ensures MakeConfFor(os, arch, buildType).value ==
      BuildTypeToMakeConfig[buildType]
      + (if os in {"Windows", "Linux"} then (if arch == "x86" then "32" else "64") else "")
  {
  }

  /** Every make plan uses the architecture in exactly one place: as the
      project folder's suffix, or as make's bitness. */
  lemma MakePlanUsesArchOnce(s: Settings, binFolder: string, genieExtra: string, projs: seq<string>)
    requires PlanFor(s, binFolder, genieExtra, projs).Ok?
    requires PlanFor(s, binFolder, genieExtra, projs).value.MakePlan?
    ensures s.os in GmakeOsToProj && s.buildType in BuildTypeToMakeConfig
    ensures var p := PlanFor(s, binFolder, genieExtra, projs).value;
      var archInFolder := p.projDir[3] != "gmake-" + GmakeOsToProj[s.os];
      var archInConf := p.conf != BuildTypeToMakeConfig[s.buildType];
      && archInFolder != archInConf
      && (archInFolder ==> p.projDir[3] == "gmake-" + GmakeOsToProj[s.os] + GmakeArchToGenieSuffix[s.arch])
      && (archInConf ==> p.conf == BuildTypeToMakeConfig[s.buildType] + ArchToMakeConfigSuffix[s.arch])
  {
    SuffixTablesComplement();
    ProjFolderShape(s.os, s.arch);
    MakeConfShape(s.os, s.arch, s.buildType);
  }

  /** The OS tables agree, so a make plan never stops on an OS lookup after
      the first one: an untabled OS stops on `gccOsToGenie`, and a tabled
      OS can only stop on an architecture or build-type lookup. */
  lemma MakeOsFailsFirst(s: Settings, binFolder: string, genieExtra: string, projs: seq<string>)
    requires !s.msvc
    ensures s.os !in GccOsToGenie ==> PlanFor(s, binFolder, genieExtra, projs) == Err(KeyError("gccOsToGenie", s.os))
    ensures var r := PlanFor(s, binFolder, genieExtra, projs);
      s.os in GccOsToGenie && r.Err? ==>
        r.failure.KeyError? && r.failure.table in {"gmakeArchToGenieSuffix", "buildTypeToMakeConfig", "archToMakeConfigSuffix"}
  {
    OsTablesAgree();
  }

  /** make's bitness table is nested in the folder-suffix table, so every
      architecture make builds on Windows or Linux also builds on Macos,
      Android and iOS, with the same build type. */
  lemma MakeArchesCarryOver(s: Settings, os: string, binFolder: string, genieExtra: string, projs: seq<string>)
    requires !s.msvc && s.os in {"Windows", "Linux"} && PlanFor(s, binFolder, genieExtra, projs).Ok?
    requires os in {"Macos", "Android", "iOS"}
    ensures PlanFor(s.(os := os), binFolder, genieExtra, projs).Ok?
  {
    ArchTablesNest();
    MakePlanOkIff(s, binFolder, genieExtra, projs);
    MakePlanOkIff(s.(os := os), binFolder, genieExtra, projs);
  }

  /** Both Visual Studio numberings of a release give the same build plan. */
  lemma VsNumberingsSamePlan(s: Settings, binFolder: string, genieExtra: string, projs: seq<string>)
    ensures PlanFor(s.(compilerVersion := "17"), binFolder, genieExtra, projs)
            == PlanFor(s.(compilerVersion := "193"), binFolder, genieExtra, projs)
    ensures PlanFor(s.(compilerVersion := "16"), binFolder, genieExtra, projs)
            == PlanFor(s.(compilerVersion := "192"), binFolder, genieExtra, projs)
    ensures PlanFor(s.(compilerVersion := "15"), binFolder, genieExtra, projs)
            == PlanFor(s.(compilerVersion := "191"), binFolder, genieExtra, projs)
  {
    VsNumberingsAgree();
  }

  /** Every make plan builds each configured target once, in order, in the
      generated project folder. */
  lemma MakeCallsCoverTargets(s: Settings, binFolder: string, genieExtra: string, projs: seq<string>)
    requires PlanFor(s, binFolder, genieExtra, projs).Ok?
    requires PlanFor(s, binFolder, genieExtra, projs).value.MakePlan?
    ensures var p := PlanFor(s, binFolder, genieExtra, projs).value;
      && |p.calls| == |projs|
      && forall i :: 0 <= i < |projs| ==> p.calls[i] == MakeCall(projs[i], p.projDir, p.conf)
  {
  }

  /** FreeBSD passes `configure` but has no gmake generator flag. */
  lemma FreeBsdMakeUnsupported(shared: bool, arch: string, buildType: string, binFolder: string, genieExtra: string, projs: seq<string>)
    ensures LayoutFor("FreeBSD", shared).Ok?
    ensures PlanFor(Settings("FreeBSD", false, "", arch, buildType), binFolder, genieExtra, projs)
            == Err(KeyError("gccOsToGenie", "FreeBSD"))
  {
  }

  /** 64-bit ARM on Linux has a project folder but no make bitness. */
  lemma LinuxArmv8Unsupported(buildType: string, binFolder: string, genieExtra: string, projs: seq<string>)
    requires buildType in BuildTypeToMakeConfig
    ensures PlanFor(Settings("Linux", false, "", "armv8", buildType), binFolder, genieExtra, projs)
            == Err(KeyError("archToMakeConfigSuffix", "armv8"))
  {
  }

  /** Two concrete make variants. */
  lemma MakeExamples()
    ensures ProjFolderFor("Macos", "armv8") == Ok("gmake-osx-arm64")
    ensures MakeConfFor("Macos", "armv8", "Release") == Ok("config=release")
    ensures ProjFolderFor("Linux", "x86") == Ok("gmake-linux")
    ensures MakeConfFor("Linux", "x86", "Debug") == Ok("config=debug32")
  {
    assert "gmake-" + "osx" + "-arm64" == "gmake-osx-arm64";
    assert "gmake-" + "linux" == "gmake-linux";
    assert "config=debug" + "32" == "config=debug32";
  }
}
