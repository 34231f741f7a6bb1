# bgfx Conan recipe — a Dafny model

This project models the Conan recipe that builds and packages the bgfx
rendering library (`conanfile.py`). The recipe does five things that are
modelled here:

- **Versioning.** `set_version` turns the number of commits on bgfx's master
  branch into a synthetic version `major.minor.patch`. Every 10000 commits
  raise the major number, every 100 the minor number, and the patch number
  counts the rest.
- **Variant tables.** Static dictionaries map a setting (compiler version,
  OS, architecture, build type) to a genie generator name, a gmake project
  folder or a `make` configuration argument.
- **Configure.** `configure` picks the per-OS layout: library and binary
  file patterns, build target prefixes, the package library prefix and the
  folder holding the genie executable. It then picks the genie flags and the
  list of build targets from the `shared` and `tools` options.
- **Build.** `build` composes the genie command line and either the MSBuild
  invocation (MSVC) or one `make` call per target (everything else).
- **Package.** `package` finds the build output directory and copies the
  libraries, checking that at least one file matches the first library
  pattern. With `tools`, it also copies the four tools. It renames the
  results to canonical names and deletes byproducts (bx, bimg, tool and
  example libraries) from `lib/`.

Modules:

- `Text`: prefix, suffix and substring tests, fnmatch globbing with `*`, and
  pathlib's file-name `suffix`.
- `Version`: the commit-count version and its string.
- `Tables`: the dictionaries, the recipe's constants, and the ways a step
  stops (`Failure`).
- `Variants`: what `configure` derives and the build plan.
- `Packaging`: the name-level rules of `package` and their loops.
- `Recipe`: the recipe object. Its class `BgfxRecipe` holds the settings,
  the options, the attributes `configure` sets, the version, and the package
  folder's `lib/` and `bin/`. Each recipe step is a method whose contract ties
  the new state to the specification functions of the other modules.

A Python exception becomes a `Failure` value:

- a missing dictionary key is `KeyError(table, key)`;
- reading an attribute `configure` never set is `MissingAttribute(name)`;
- reading `buildBin` when no build directory was found is `UnboundBuildBin`;
- the recipe's own `raise Exception(...)` is `Raised(message)`;
- Conan's `rename` raising because its destination exists is
  `RenameDstExists(stem)`, naming the `*stem*` loop it stopped.

A directory is the set of file names it holds.

## Model

| member | source | states |
|---|---|---|
| Version.VersionOf | conanfile.py:100-105 | the version of n commits is well formed (major at least 1, minor and patch below 100) and stands for exactly n commits |
| Version.VersionMonotonic | conanfile.py:101-103 | one commit count gives an older version than another exactly when it is smaller |
| Version.VersionRoundTrip | conanfile.py:101-103 | every well-formed version is the version of its own commit count, so the mapping is onto the well-formed versions |
| Version.Decimal | conanfile.py:104-105 | Python's `str(n)` of a natural number: a non-empty digit string that starts with '0' exactly when the number is 0 |
| Version.VersionString | conanfile.py:104-105 | the version string: the three numbers in decimal, joined by dots |
| Version.DecimalRoundTrip | conanfile.py:104-105 | the decimal rendering `str(n)` of a number parses back to that number |
| Version.VersionStringInjective | conanfile.py:104-105 | distinct commit counts give distinct version strings |
| Version.Example10234 | conanfile.py:100-105 | 10234 commits give version 2.2.34 |
| Recipe.BgfxRecipe.SetVersion | conanfile.py:93-105 | the recipe's version becomes the string of the commit-count version |
| Tables.OsTablesAgree | conanfile.py:38-45 | the four OS tables cover the same five OSes |
| Tables.SuffixTablesComplement | conanfile.py:41-45 | an OS suffixes its project folder with the architecture exactly when its make configuration has no bitness |
| Tables.ArchTablesNest | conanfile.py:40-44 | make's bitness is known for a strict subset of the architectures that have a folder suffix |
| Tables.VsNumberingsAgree | conanfile.py:35-36 | both Visual Studio numberings of a release name the same year |
| Tables.Lookup | conanfile.py:139-168 | Python's `table[key]`: the entry when the key is in the table, otherwise a KeyError naming the table and the key |
| Variants.LayoutFor | conanfile.py:52-81 | the attributes the OS branch of configure sets: library and binary patterns (with `*.dll` or `*.so` for shared builds), target prefixes, package library prefix and genie folder for Windows, Linux/FreeBSD and Macos; no branch for any other OS |
| Variants.GenieExtraFor | conanfile.py:83-90 | the genie flags: the shared-library flag when `shared` is on, then the tools flag when `tools` is on |
| Variants.ToolTargets | conanfile.py:91-91 | the four tool targets in order: shaderc with the tool and shaderc prefixes, then texturev, geometryc and geometryv with the tool prefix |
| Variants.ProjectsFor | conanfile.py:84-91 | the build targets: the prefixed static or shared library target, then with `tools` the four prefixed tool targets |
| Variants.ConfigureSucceedsIff | conanfile.py:51-91 | configure completes exactly on Windows, Linux, FreeBSD and Macos; on any other OS it stops on the unset `libTargetPrefix` |
| Variants.LibPatterns | conanfile.py:52-76 | the counted library pattern is `*.lib` on Windows and `*.a` elsewhere; `*.dll` joins the binary patterns exactly for shared Windows builds and `*.so` joins the library patterns exactly for shared non-Windows builds |
| Variants.SharedAddsOnlyDynamicLibs | conanfile.py:52-81 | turning `shared` on appends exactly one pattern and changes nothing else in the layout |
| Variants.ProjectsFollowOptions | conanfile.py:84-91 | the target list is the static or shared library target, then with `tools` exactly the four tool targets, in order |
| Variants.GenieExtraFollowsOptions | conanfile.py:83-90 | the genie flags contain the shared-library flag exactly when `shared` is on and the tools flag exactly when `tools` is on |
| Recipe.BgfxRecipe.ConfigureLayout | conanfile.py:52-81 | the OS branch sets the layout to the OS's layout when it has one, and leaves the attributes as they were otherwise |
| Recipe.BgfxRecipe.Configure | conanfile.py:51-91 | configure keeps the recipe valid; it succeeds exactly when the OS has a layout, then sets the layout, flags and targets; on failure it has recorded only the shared-library flag |
| Variants.GeniePath | conanfile.py:136-136 | the genie executable's path: bx's `tools/bin/<binFolder>/genie` |
| Variants.MsBuildConfiguration | conanfile.py:146-146 | MSBuild's configuration: Debug for a Debug build, Release for every other build type |
| Variants.MsBuildPlatform | conanfile.py:148-148 | MSBuild's platform: Win32 for x86, the helper's default otherwise |
| Variants.VsGenerator | conanfile.py:139-139 | the VS generator `vs<year>` looked up from the compiler version, or a KeyError on `vsVerToGenie` |
| Variants.ProjFolderFor | conanfile.py:160-162 | the gmake project folder: `gmake-` and the OS folder, plus the architecture suffix where the OS table says so, each lookup in source order with its KeyError |
| Variants.MakeConfFor | conanfile.py:166-168 | make's `config=` argument, plus the bitness where the OS table says so, each lookup in source order with its KeyError |
| Variants.MakeCallsFor | conanfile.py:171-172 | one make call per target, in target order, with the project folder and configuration |
| Variants.PlanFor | conanfile.py:136-172 | the build plan: with MSVC the genie VS run and the MSBuild invocation; otherwise the genie gmake run and the make calls; the first failing lookup stops it |
| Variants.MsvcPlan | conanfile.py:137-149 | with MSVC the plan fails exactly on an unknown compiler version; otherwise genie gets the VS generator, MSBuild builds the generated solution in Debug exactly for Debug builds, on Win32 exactly for x86, with every configured target |
| Variants.MakePlanOkIff | conanfile.py:150-168 | without MSVC a plan exists exactly for Debug/Release builds on the five tabled OSes, with x86 or x86_64 on Windows and Linux and any of the four tabled architectures elsewhere |
| Variants.ProjFolderOkIff | conanfile.py:160-162 | the project folder lookup succeeds exactly on the five tabled OSes, and where the architecture suffix is used, for the four tabled architectures |
| Variants.MakeConfOkIff | conanfile.py:166-168 | the make configuration lookup succeeds exactly for Debug and Release on the five tabled OSes, and where the bitness is used, for x86 and x86_64 |
| Variants.ProjFolderShape | conanfile.py:160-163 | the gmake project folder is `gmake-` plus the OS folder, plus the architecture suffix only on Macos, Android and iOS |
| Variants.MakeConfShape | conanfile.py:166-168 | make's configuration is the build type's `config=` argument, plus the bitness only on Windows and Linux |
| Variants.MakePlanUsesArchOnce | conanfile.py:159-168 | every make plan uses the architecture in exactly one place: as the project folder's suffix or as make's bitness |
| Variants.MakeOsFailsFirst | conanfile.py:155-168 | an untabled OS stops the make plan on `gccOsToGenie`; on a tabled OS only an architecture or build-type lookup can fail |
| Variants.MakeArchesCarryOver | conanfile.py:159-168 | every architecture make builds on Windows or Linux also builds on Macos, Android and iOS |
| Variants.VsNumberingsSamePlan | conanfile.py:137-149 | both Visual Studio numberings of a release give the same build plan |
| Variants.MakeCallsCoverTargets | conanfile.py:171-172 | make is called once per configured target, in order, in the generated project folder |
| Variants.FreeBsdMakeUnsupported | conanfile.py:155-157 | FreeBSD passes configure but build stops on the missing gmake flavour |
| Variants.LinuxArmv8Unsupported | conanfile.py:165-168 | Linux on armv8 has a project folder but build stops on the missing make bitness |
| Variants.MakeExamples | conanfile.py:159-168 | Macos armv8 Release builds in `gmake-osx-arm64` with `config=release`; Linux x86 Debug in `gmake-linux` with `config=debug32` |
| Recipe.BgfxRecipe.Build | conanfile.py:131-172 | before configure, build stops on the unset `binFolder`; after it, the plan is the one the settings and configured attributes determine |
| Recipe.BgfxRecipe.constructor | conanfile.py:16-25 | a fresh recipe holds the given settings and options, is not configured and has an empty package folder |
| Packaging.FirstBuildDirOf | conanfile.py:176-179 | no build directory exactly when every listed entry is `projects`; otherwise the result is a listed entry other than `projects` |
| Packaging.FirstBuildDir | conanfile.py:176-179 | the loop returns the first listed entry other than `projects`, with every earlier entry being `projects` |
| Packaging.Matching | conanfile.py:187-187 | the files one copy takes are exactly the listed files its pattern matches, and never more than the listing holds |
| Packaging.CopiedSet | conanfile.py:186-202 | the names a series of copy calls adds: every listed file some pattern matches |
| Packaging.CopiedSetStep | conanfile.py:190-192 | each further copy call adds exactly the names its pattern matches |
| Packaging.CopyPatterns | conanfile.py:190-192 | the copy loop adds to a directory exactly the listed names some pattern matches |
| Recipe.BgfxRecipe.CopyOutputs | conanfile.py:186-202 | lib/ gains every file any library pattern matches; bin/ gains every file a tool pattern matches when `tools` is on, and nothing otherwise |
| Packaging.NothingMatchingIff | conanfile.py:187-188 | a copy takes no file exactly when its pattern matches no listed file |
| Packaging.PackagedFor | conanfile.py:174-230 | what package leaves in lib/ and bin/: no build directory stops it, too few first-pattern files raise the recipe's message, otherwise the copies are renamed and pruned |
| Packaging.Finished | conanfile.py:204-230 | the rename loops on the copied lib/ and bin/ and then the rm calls on lib/, or the rename failure |
| Packaging.PackageFailsIff | conanfile.py:176-219 | packaging stops when no build directory exists; otherwise it raises "Less lib files found for copy than expected. Aborting." exactly when the first library pattern matches no file there, and any other stop is a rename whose destination exists |
| Packaging.PackageRenameFailsIff | conanfile.py:186-219 | once the count check passes, packaging stops exactly when the library rename loop cannot complete or a tool rename loop fails |
| Text.Glob | conanfile.py:187-230 | fnmatch with `*` only: `*` matches any run of characters, every other character matches itself, and the whole name must be consumed |
| Text.GlobInfix | conanfile.py:205-205 | the pattern `*x*` matches exactly the names containing x |
| Text.GlobPrefix | conanfile.py:196-196 | the pattern `x*` matches exactly the names starting with x |
| Text.GlobSuffix | conanfile.py:187-187 | the pattern `*x` matches exactly the names ending with x |
| Text.PathSuffix | conanfile.py:207-207 | a file's suffix is non-empty exactly when the name's last dot is neither its first nor its last character, and is then the name from that dot on: a dot followed by dot-free characters |
| Text.SuffixKept | conanfile.py:207-207 | a dot-free stem followed by a name's suffix has that same suffix |
| Packaging.Matches | conanfile.py:205-217 | the glob snapshot of a rename loop: the names in the directory that `*stem*` matches |
| Packaging.Canonical | conanfile.py:207-219 | the rename target: the prefix (the package library prefix for lib/, empty for the tools), the stem, and the name's pathlib suffix |
| Packaging.RenameCompletes | conanfile.py:204-219 | a rename loop completes when no match already has its canonical name and no two matches share one |
| Packaging.RenamedDir | conanfile.py:204-219 | a directory after a completed rename loop: the unmatched names plus the canonical names of the matches |
| Packaging.Rename | conanfile.py:204-219 | one rename loop: the renamed directory when it completes, otherwise `RenameDstExists(stem)` |
| Packaging.RenamedTools | conanfile.py:208-219 | the four tool loops in source order, each on the previous result, stopping at the first failure |
| Packaging.RenamedDirs | conanfile.py:204-219 | the library loop on lib/, then the tool loops on bin/, stopping at the first failure |
| Packaging.RenameAll | conanfile.py:205-219 | the rename loop over the glob snapshot, which stops when a destination exists, fails exactly when some match already has its canonical name or two matches share one (in any order of the matches); otherwise every `*stem*` name is replaced by its canonical name |
| Packaging.DstPresentBlocksRename | conanfile.py:205-207 | a destination present when a match is renamed means some match already has its canonical name or two matches share one |
| Packaging.RenameFailsOnSharedSuffix | conanfile.py:205-207 | two files containing the stem with the same suffix make the loop fail |
| Packaging.RenameTools | conanfile.py:208-219 | the four tool rename loops, in source order, give exactly `RenamedTools`: they stop at the first loop that fails, and otherwise each loop renames the previous loop's result |
| Packaging.ToolRenameKeeps | conanfile.py:208-219 | one completed tool loop keeps every name without its stem |
| Packaging.ToolRenameGives | conanfile.py:208-219 | one completed tool loop renames every name with its stem to the stem and the name's suffix |
| Packaging.ToolRenameOrigin | conanfile.py:208-219 | after one completed tool loop, a name with its stem is the stem and its suffix, and any other name was there before |
| Packaging.RenamedToolsOrigin | conanfile.py:208-219 | after the four tool loops complete, every name in bin/ was there before and contains no tool stem, or is a tool stem followed by its own suffix |
| Packaging.RenamedToolsKeeps | conanfile.py:208-219 | the four tool loops keep every name that contains no tool stem |
| Packaging.RenamedToolsPresent | conanfile.py:208-219 | a file whose name contains exactly one tool stem, and whose renamed name contains no other, ends up in bin/ as that stem and its suffix |
| Packaging.CanonicalIdempotent | conanfile.py:205-207 | renaming a canonical name gives the same name |
| Packaging.RenamedDirMeaning | conanfile.py:205-207 | after renaming, names without the stem are the old ones; every old name with the stem is present under its canonical name; every name with the stem is canonical |
| Packaging.RenameTwiceFails | conanfile.py:204-219 | after a rename loop completes, a second pass fails exactly when the first renamed something |
| Packaging.RenameWithoutMatches | conanfile.py:205-207 | in a directory where no name contains the stem the loop completes and leaves the directory unchanged |
| Recipe.BgfxRecipe.RenameToCanonical | conanfile.py:204-219 | the library loop and then the tool loops run; if all complete, lib/ and bin/ become their renamed forms, otherwise the failure is returned, with lib/ renamed when its loop completed |
| Recipe.BgfxRecipe.Finish | conanfile.py:204-230 | after the copies, lib/ and bin/ are renamed and lib/ pruned when the rename loops complete; otherwise the step stops on the rename failure |
| Packaging.Pruned | conanfile.py:221-230 | a directory after the rm calls: the names no pattern matches |
| Packaging.RemoveMatching | conanfile.py:221-230 | the removal calls leave exactly the names no pattern matches |
| Packaging.PrunedMeaning | conanfile.py:221-230 | a name survives the removal exactly when it was present and contains none of the ten byproduct substrings |
| Recipe.BgfxRecipe.RemoveByproducts | conanfile.py:221-230 | lib/ loses exactly the names the byproduct patterns match |
| Packaging.CanonicalIsClean | conanfile.py:205-230 | a canonical library name built from a prefix and an extension that avoid the byproduct letters contains no byproduct substring |
| Packaging.LayoutLibPatternsClean | conanfile.py:52-76 | every library pattern configure chooses is `*` followed by an extension that avoids the byproduct letters |
| Packaging.LayoutPrefixClean | conanfile.py:60-80 | the package library prefix configure chooses has no dot and avoids the byproduct letters |
| Packaging.LibPatternSuffix | conanfile.py:187-207 | a file a library pattern matches whose name contains `bgfx` has that pattern's extension as its suffix |
| Packaging.CleanLibraryPresent | conanfile.py:186-230 | with a dot-free prefix and library patterns that avoid the byproduct letters, each copied library file whose name contains `bgfx` ends up in lib/ as the prefix, `bgfx` and its suffix |
| Packaging.PackagedLibraryPresent | conanfile.py:186-230 | on every configurable OS, each copied library file whose name contains `bgfx` ends up in lib/ as the OS prefix, `bgfx` and its suffix |
| Packaging.CountCheckAdmitsNoBgfx | conanfile.py:186-230 | when the only library files are bx's (each containing `bx` and none `bgfx`), the count check passes, packaging succeeds exactly when the tool renames do, and lib/ ends empty |
| Recipe.BgfxRecipe.Package | conanfile.py:174-230 | packaging keeps the recipe valid; on success lib/ and bin/ are what the copy, rename and removal rules give; on failure the reason is returned, and a stop before the copies leaves lib/ and bin/ untouched |

## Left out

- Fetching and building are external. The git clone, `git rev-list --count master`, the genie, MSBuild and make runs, and the `VCVars`/`AutotoolsToolchain` generation are left out. The commit count is a parameter; build's plan is the commands it would run.
- `validate` is not part of this model: the C++14 check and the bimg cross-build guard depend on dependency versions.
- `package_id` and `package_info` are not part of this model: they only declare metadata.
- The license and header copies in `package` are not modelled: they do not depend on the variant.
- File contents are not modelled. `copy` is modelled on file names only.
- Packaging.BuildListing: only the top level of the build directory's bin/ is listed. Conan's `copy` matches each pattern against the path relative to bin/, so a pattern such as `*.lib` would also take files in sub-folders (flattened by `keep_path=False`) while `shaderc*` would not; sub-folders of bin/ are not modelled.
- Directory listing order is an input. `os.listdir` order is unspecified, so the `.build` listing is a sequence the caller supplies.
- Path separators are not modelled: paths are sequences of components.
- Globbing is modelled with `*` only and case-sensitive; the recipe's patterns use neither `?` nor `[`. Conan's `copy` ignores case by default on every OS, and `Path.glob` and `rm` follow the OS's case rules; neither kind of case folding is modelled.
- Recipe.BgfxRecipe.Build: when a table lookup fails after genie was already run (the make path), the model reports only the failure, not the earlier genie run.
- `is_msvc` is a Conan helper; the model takes its answer as the setting `msvc` and chooses between the MSBuild and make paths by it.
- MSBuild's default platform for non-x86 builds is modelled as `ToolDefault`, because the Conan helper derives it.
- The attributes `configure` never sets on an unsupported OS are modelled as unchanged values plus a failure. An unset Python attribute has no value.
- Packaging.RenameAll: Conan's `rename` raises when the destination exists, and the model returns `RenameDstExists(stem)`. The message Conan prints names the source and destination of the failing rename, which depend on the glob's order; the model does not name them. The rename loop works from the glob snapshot taken before renaming.
- Recipe.BgfxRecipe.RenameToCanonical: when a loop stops, the renames it had already made stay in the real directory; the model does not say which, because they depend on the glob's order.
- Recipe.BgfxRecipe.Package: after a rename failure, lib/ and bin/ hold the copies with an order-dependent part of the renames made, so the contract does not state them. Before the copies, the real `package` has already copied the license and the headers.
- Recipe.BgfxRecipe.Package: requires the recipe to be configured and models a `package` run after `build`, as `conan create` runs it. `conan export-pkg` runs `package` alone, which stops on the unset `bgfxPath` (set only by `build`); that run is not modelled.
- `binExt` (`*.exe`, plus `*.dll` for shared Windows builds) is computed by `configure`, but no line of `package` reads it. The model therefore copies no executable or DLL by it. The comment on line 59 says Windows DLLs go in bin/; the model follows the code.
