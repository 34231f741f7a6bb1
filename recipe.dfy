/** The bgfx recipe object: the settings and options Conan hands it, the
    attributes `configure` sets, the version `set_version` sets, and the
    package folder's lib/ and bin/ that `package` fills. Each recipe step is a
    method proved against the specification functions of the other modules. */
module Recipe {
  import opened Tables
  import opened Version
  import opened Variants
  import opened Packaging

  class BgfxRecipe {
    const settings: Settings
    const options: Options

    var version: string

    /** Whether `configure` ran to its end, so that every attribute below is set. */
    var configured: bool
    var libExt: seq<string>
    var binExt: seq<string>
    var libTargetPrefix: string
    var toolTargetPrefix: string
    var shaderCPrefix: string
    var packageLibPrefix: string
    var binFolder: string
    var genieExtra: string
    var projs: seq<string>

    /** The package folder's lib/ and bin/ directories. */
    var lib: set<string>
    var bin: set<string>

    /** The OS-dependent attributes, as one value. */
    function Layout(): OsLayout
      reads this`libExt, this`binExt, this`libTargetPrefix, this`toolTargetPrefix,
            this`shaderCPrefix, this`packageLibPrefix, this`binFolder
    {
      OsLayout(libExt, binExt, libTargetPrefix, toolTargetPrefix, shaderCPrefix, packageLibPrefix, binFolder)
    }

    /** Once configured, the attributes are what `configure` derives from the
        settings and options. */
    predicate Valid()
      reads this`configured, this`libExt, this`binExt, this`libTargetPrefix, this`toolTargetPrefix,
            this`shaderCPrefix, this`packageLibPrefix, this`binFolder, this`genieExtra, this`projs
    {
      configured ==>
        && LayoutFor(settings.os, options.shared).Ok?
        && Layout() == LayoutFor(settings.os, options.shared).value
        && genieExtra == GenieExtraFor(options.shared, options.tools)
        && projs == ProjectsFor(Layout(), options.shared, options.tools)
    }

    /** A fresh recipe object with an empty package folder. */
    constructor (settings: Settings, options: Options)
      ensures this.settings == settings && this.options == options
      ensures !configured && lib == {} && bin == {}
      ensures Valid()
    {
      this.settings := settings;
      this.options := options;
      version := "";
      configured := false;
      libExt, binExt := [], [];
      libTargetPrefix, toolTargetPrefix, shaderCPrefix, packageLibPrefix, binFolder := "", "", "", "", "";
      genieExtra := "";
      projs := [];
      lib, bin := {}, {};
    }

    /** `set_version`, given the commit count git reports for master. */
    method SetVersion(numCommits: nat)
      modifies this`version
      ensures version == VersionString(VersionOf(numCommits))
    {
      var verMajor := 1 + numCommits / 10000;
      var verMinor := (numCommits / 100) % 100;
      var verRev := numCommits % 100;
      version := Decimal(verMajor) + "." + Decimal(verMinor) + "." + Decimal(verRev);
    }

    /** The OS branch of `configure`: the layout attributes for Windows, for
        Linux and FreeBSD, and for Macos; other OSes have no branch and leave
        them unset. */
    method ConfigureLayout() returns (layoutSet: bool)
      modifies this`libExt, this`binExt, this`libTargetPrefix, this`toolTargetPrefix,
               this`shaderCPrefix, this`packageLibPrefix, this`binFolder
      ensures layoutSet == LayoutFor(settings.os, options.shared).Ok?
      ensures layoutSet ==> Layout() == LayoutFor(settings.os, options.shared).value
      ensures !layoutSet ==> Layout() == old(Layout())
    {
      layoutSet := true;
      if settings.os == "Windows" {
        libExt := ["*.lib", "*.pdb"];
        binExt := ["*.exe"];
        libTargetPrefix := "libs\\";
        toolTargetPrefix := "tools\\";
        shaderCPrefix := "shaderc\\";
        if options.shared {
          binExt := binExt + ["*.dll"];
        }
        packageLibPrefix := "";
        binFolder := "windows";
      } else if settings.os in ["Linux", "FreeBSD"] {
        libExt := ["*.a"];
        binExt := [];
        if options.shared {
          libExt := libExt + ["*.so"];
        }
        libTargetPrefix := "";
        toolTargetPrefix := "";
        shaderCPrefix := "";
        packageLibPrefix := "lib";
        binFolder := "linux";
      } else if settings.os == "Macos" {
        libExt := ["*.a"];
        binExt := [];
        if options.shared {
          libExt := libExt + ["*.so"];
        }
        libTargetPrefix := "";
        toolTargetPrefix := "";
        shaderCPrefix := "";
        packageLibPrefix := "lib";
        binFolder := "darwin";
      } else {
        layoutSet := false;
      }
    }

    /** `configure`: the OS branch sets the layout attributes, then the genie
        flags and the target list follow the options. On an OS without a
        branch the target list reads the unset `libTargetPrefix`, which stops
        the step after the shared-library flag (if any) was recorded. */
    method Configure() returns (outcome: Outcome)
      requires Valid()
      modifies this`configured, this`libExt, this`binExt, this`libTargetPrefix, this`toolTargetPrefix,
               this`shaderCPrefix, this`packageLibPrefix, this`binFolder, this`genieExtra, this`projs
      ensures Valid()
      ensures var r := LayoutFor(settings.os, options.shared);
        && configured == r.Ok?
        && (r.Ok? ==> outcome == Pass)
        && (r.Err? ==> outcome == Fail(r.failure))
        && (r.Err? ==> Layout() == old(Layout()) && projs == old(projs)
                       && genieExtra == (if options.shared then " --with-shared-lib" else ""))
    {
      var layoutSet := ConfigureLayout();

      genieExtra := "";
      if !options.shared {
        if !layoutSet {
          return Fail(MissingAttribute("libTargetPrefix"));
        }
        projs := [libTargetPrefix + "bgfx"];
      } else {
        genieExtra := genieExtra + " --with-shared-lib";
        if !layoutSet {
          return Fail(MissingAttribute("libTargetPrefix"));
        }
        projs := [libTargetPrefix + "bgfx-shared-lib"];
      }
      if options.tools {
        genieExtra := genieExtra + " --with-tools";
        projs := projs + [toolTargetPrefix + shaderCPrefix + "shaderc", toolTargetPrefix + "texturev",
                          toolTargetPrefix + "geometryc", toolTargetPrefix + "geometryv"];
      }
      configured := true;
      outcome := Pass;
    }

    /** `build`: the genie run and the MSBuild or make invocations, composed
        from the settings and the configured attributes; it stops on the first
        table without an entry for a setting. Before `configure` has run, the
        genie path reads the unset `binFolder`. */
    method Build() returns (plan: Result<BuildPlan>)
      ensures !configured ==> plan == Err(MissingAttribute("binFolder"))
      ensures configured ==> plan == PlanFor(settings, binFolder, genieExtra, projs)
    {
      if !configured {
        return Err(MissingAttribute("binFolder"));
      }
      var genie := GeniePath(binFolder);
      var os, arch := settings.os, settings.arch;
      if settings.msvc {
        if settings.compilerVersion !in VsVerToGenie {
          return Err(KeyError("vsVerToGenie", settings.compilerVersion));
        }
        var genieVS := "vs" + VsVerToGenie[settings.compilerVersion];
        var buildType := if settings.buildType == "Debug" then "Debug" else "Release";
        var platform := if arch == "x86" then Win32 else ToolDefault;
        return Ok(MsBuildPlan(GenieRun(genie, genieExtra + " " + genieVS),
                              ["bgfx", ".build", "projects", genieVS, "bgfx.sln"], buildType, platform, projs));
      }

      if os !in GccOsToGenie {
        return Err(KeyError("gccOsToGenie", os));
      }
      var genieGen := genieExtra + " " + GccOsToGenie[os] + " gmake";

      if os !in GmakeOsToProj {
        return Err(KeyError("gmakeOsToProj", os));
      }
      var projFolder := "gmake-" + GmakeOsToProj[os];
      if os !in OsToUseArchConfigSuffix {
        return Err(KeyError("osToUseArchConfigSuffix", os));
      }
      if OsToUseArchConfigSuffix[os] {
        if arch !in GmakeArchToGenieSuffix {
          return Err(KeyError("gmakeArchToGenieSuffix", arch));
        }
        projFolder := projFolder + GmakeArchToGenieSuffix[arch];
      }
      var projPath := ["bgfx", ".build", "projects", projFolder];

      if settings.buildType !in BuildTypeToMakeConfig {
        return Err(KeyError("buildTypeToMakeConfig", settings.buildType));
      }
      var conf := BuildTypeToMakeConfig[settings.buildType];
      if os !in OsToUseMakeConfigSuffix {
        return Err(KeyError("osToUseMakeConfigSuffix", os));
      }
      if OsToUseMakeConfigSuffix[os] {
        if arch !in ArchToMakeConfigSuffix {
          return Err(KeyError("archToMakeConfigSuffix", arch));
        }
        conf := conf + ArchToMakeConfigSuffix[arch];
      }

      var calls: seq<MakeCall> := [];
      for i := 0 to |projs|
        invariant calls == MakeCallsFor(projs[..i], projPath, conf)
      {
        calls := calls + [MakeCall(projs[i], projPath, conf)];
      }
      assert projs[..|projs|] == projs;
      plan := Ok(MakePlan(GenieRun(genie, genieGen), projPath, conf, calls));
    }

    /** `package`, given the `.build` listing in directory order and the files
        each build directory's bin/ holds: find the build directory, copy the
        libraries (checking the count for the first pattern) and, with
        `tools`, the four tools; rename to canonical names; remove the
        byproducts from lib/. A stop before the copies leaves lib/ and bin/
        untouched. */
    method Package(entries: seq<string>, outputs: map<string, seq<string>>) returns (outcome: Outcome)
      requires configured && Valid()
      modifies this`lib, this`bin
      ensures Valid()
      ensures var r := PackagedFor(libExt, packageLibPrefix, options.tools, entries, outputs, old(PackageDirs(lib, bin)));
        && (r.Ok? ==> outcome == Pass && lib == r.value.lib && bin == r.value.bin)
        && (r.Err? ==> outcome == Fail(r.failure))
        && (r.Err? && !r.failure.RenameDstExists? ==> lib == old(lib) && bin == old(bin))
    {
      LibPatterns(settings.os, options.shared);
      var buildBin := FirstBuildDir(entries);
      if buildBin.None? {
        return Fail(UnboundBuildBin);
      }
      var files := BuildListing(outputs, buildBin.value);

      var copied := Matching(files, libExt[0]);
      if |copied| < ExpectedNumLibs {
        return Fail(Raised(InvalidPackageExceptionText));
      }
      CopyOutputs(files);
      outcome := Finish();
    }

    /** The steps after the copies: the rename loops, then, when they
        complete, the removal of byproducts. */
    method Finish() returns (outcome: Outcome)
      requires configured && Valid()
      modifies this`lib, this`bin
      ensures var r := Finished(old(PackageDirs(lib, bin)), packageLibPrefix);
        && (r.Ok? ==> outcome == Pass && PackageDirs(lib, bin) == r.value)
        && (r.Err? ==> outcome == Fail(r.failure))
      ensures outcome.Fail? ==> outcome.failure.RenameDstExists?
    {
      RenameFailureKind(PackageDirs(lib, bin), packageLibPrefix);
      outcome := RenameToCanonical();
      if outcome.Fail? {
        return;
      }
      RemoveByproducts();
    }

    /** The copy calls after the count check: every library pattern into lib/
        and, with `tools`, the four tool patterns into bin/. */
    method CopyOutputs(files: seq<string>)
      modifies this`lib, this`bin
      ensures lib == old(lib) + CopiedSet(files, libExt)
      ensures bin == old(bin) + (if options.tools then CopiedSet(files, ToolPatterns) else {})
    {
      lib := CopyPatterns(lib, files, libExt);
      if options.tools {
        bin := CopyPatterns(bin, files, ToolPatterns);
      }
    }

    /** The rename loops: library files to `<packageLibPrefix>bgfx<suffix>`,
        then each tool to `<tool><suffix>`. A loop that meets an existing
        destination stops the step; the loops before it have completed. */
    method RenameToCanonical() returns (outcome: Outcome)
      requires configured && Valid()
      modifies this`lib, this`bin
      ensures var r := RenamedDirs(old(PackageDirs(lib, bin)), packageLibPrefix);
        && (r.Ok? ==> outcome == Pass && PackageDirs(lib, bin) == r.value)
        && (r.Err? ==> outcome == Fail(r.failure))
      ensures Rename(old(lib), "bgfx", packageLibPrefix).Ok? ==> lib == Rename(old(lib), "bgfx", packageLibPrefix).value
    {
      LayoutPrefixClean(settings.os, options.shared);
      var renamedLib := RenameAll(lib, "bgfx", packageLibPrefix);
      if renamedLib.Err? {
        return Fail(renamedLib.failure);
      }
      lib := renamedLib.value;
      var renamedBin := RenameTools(bin);
      if renamedBin.Err? {
        return Fail(renamedBin.failure);
      }
      bin := renamedBin.value;
      outcome := Pass;
    }

    /** The `rm` calls on lib/. */
    method RemoveByproducts()
      modifies this`lib
      ensures lib == Pruned(old(lib), RmPatterns)
    {
      lib := RemoveMatching(lib, RmPatterns);
    }
  }
}
