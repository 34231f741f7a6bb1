/** The recipe's constants: its static variant tables (one-way dictionaries
    from a setting to a generator or build-tool argument), the packaging
    constants, and the ways a recipe step stops. */
module Tables {

  /** Why a recipe step stops. The recipe raises Python exceptions; the model
      returns the reason instead. */
  datatype Failure =
    | KeyError(table: string, key: string)  // a variant table has no entry for a setting
    | MissingAttribute(name: string)        // a field configure() was meant to set is read unset
    | UnboundBuildBin                       // no build output directory besides "projects"
    | Raised(message: string)               // the recipe's own `raise Exception(...)`
    | RenameDstExists(stem: string)         // Conan's `rename` found its destination present, in the `*stem*` loop

  datatype Result<+T> = Ok(value: T) | Err(failure: Failure) {
    predicate IsFailure() { Err? }
    function PropagateFailure<U>(): Result<U> requires Err? { Err(failure) }
    function Extract(): T requires Ok? { value }
  }

  datatype Outcome = Pass | Fail(failure: Failure)

  /** `table[key]` in Python: the entry, or a KeyError naming table and key. */
  function Lookup<V>(table: map<string, V>, tableName: string, key: string): Result<V> {
    if key in table then Ok(table[key]) else Err(KeyError(tableName, key))
  }

  // Compiler version (both the IDE and the toolset numbering) -> genie VS generator.
  const VsVerToGenie: map<string, string> :=
    map["17" := "2022", "16" := "2019", "15" := "2017",
        "193" := "2022", "192" := "2019", "191" := "2017"]

  // OS -> genie's --gcc flavour for the gmake generator.
  const GccOsToGenie: map<string, string> :=
    map["Windows" := "--gcc=mingw-gcc", "Linux" := "--gcc=linux-gcc", "Macos" := "--gcc=osx",
        "Android" := "--gcc=android", "iOS" := "--gcc=ios"]

  // OS -> the gmake project folder genie generates.
  const GmakeOsToProj: map<string, string> :=
    map["Windows" := "mingw", "Linux" := "linux", "Macos" := "osx", "Android" := "android", "iOS" := "ios"]

  // Architecture -> suffix of the gmake project folder.
  const GmakeArchToGenieSuffix: map<string, string> :=
    map["x86" := "-x86", "x86_64" := "-x64", "armv8" := "-arm64", "armv7" := "-arm"]

  // Whether the OS's project folder carries the architecture suffix.
  const OsToUseArchConfigSuffix: map<string, bool> :=
    map["Windows" := false, "Linux" := false, "Macos" := true, "Android" := true, "iOS" := true]

  // Build type -> make's config= argument.
  const BuildTypeToMakeConfig: map<string, string> :=
    map["Debug" := "config=debug", "Release" := "config=release"]

  // Architecture -> bitness appended to make's config= argument.
  const ArchToMakeConfigSuffix: map<string, string> :=
    map["x86" := "32", "x86_64" := "64"]

  // Whether the OS's make config= argument carries the bitness.
  const OsToUseMakeConfigSuffix: map<string, bool> :=
    map["Windows" := true, "Linux" := true, "Macos" := false, "Android" := false, "iOS" := false]

  /** The four OS tables cover the same five OSes. */
  lemma OsTablesAgree()
    ensures var oses := {"Windows", "Linux", "Macos", "Android", "iOS"};
      && GccOsToGenie.Keys == oses && GmakeOsToProj.Keys == oses
      && OsToUseArchConfigSuffix.Keys == oses && OsToUseMakeConfigSuffix.Keys == oses
  {
  }

  /** An OS gets the architecture suffix on its project folder exactly when
      its make configuration carries no bitness. */
  lemma SuffixTablesComplement()
    ensures forall os :: os in OsToUseArchConfigSuffix ==> (OsToUseArchConfigSuffix[os] <==> !OsToUseMakeConfigSuffix[os])
  {
  }

  /** make knows a bitness only for architectures that also have a folder
      suffix, and not for all of them. */
  lemma ArchTablesNest()
    ensures ArchToMakeConfigSuffix.Keys < GmakeArchToGenieSuffix.Keys
  {
    assert "armv8"[0] != "x86"[0] && "armv8"[0] != "x86_64"[0];
    assert "armv8" in GmakeArchToGenieSuffix.Keys && "armv8" !in ArchToMakeConfigSuffix.Keys;
  }

  /** Both Visual Studio numberings of a release give the same generator year. */
  lemma VsNumberingsAgree()
    ensures VsVerToGenie["17"] == VsVerToGenie["193"] == "2022"
    ensures VsVerToGenie["16"] == VsVerToGenie["192"] == "2019"
    ensures VsVerToGenie["15"] == VsVerToGenie["191"] == "2017"
  {
  }

  const InvalidPackageExceptionText := "Less lib files found for copy than expected. Aborting."
  const ExpectedNumLibs := 1
}
