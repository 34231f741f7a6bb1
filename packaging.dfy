/** The name-level rules of `package`: which build output directory is used,
    which file names are copied into the package's lib/ and bin/, the
    minimum-count check, the renaming to canonical names and the removal of
    byproducts. A directory is the set of the file names in it. */
module Packaging {
  import opened Tables
  import opened Text
  import opened Variants

  datatype Option<+T> = None | Some(value: T)

  /** The package folder's lib/ and bin/ directories. */
  datatype PackageDirs = PackageDirs(lib: set<string>, bin: set<string>)

  /** The first entry of the `.build` listing that is not "projects". */
  function FirstBuildDirOf(entries: seq<string>): (r: Option<string>)
    ensures r.None? <==> forall i :: 0 <= i < |entries| ==> entries[i] == "projects"
    ensures r.Some? ==> r.value != "projects" && r.value in entries
  {
    if entries == [] then None
    else if entries[0] != "projects" then Some(entries[0])
    else FirstBuildDirOf(entries[1..])
  }

  /** The file names at the top level of `<dir>/bin`, which the copy patterns
      are matched against; a directory that was not produced lists nothing. */
  function BuildListing(outputs: map<string, seq<string>>, dir: string): seq<string> {
    if dir in outputs then outputs[dir] else []
  }

  /** The files one `copy` call takes for `pattern`, in listing order; the
      length of this list is what the recipe counts. */
  function Matching(files: seq<string>, pattern: string): (r: seq<string>)
    ensures |r| <= |files|
    ensures forall f :: f in r <==> f in files && Glob(pattern, f)
  {
    if files == [] then []
    else (if Glob(pattern, files[0]) then [files[0]] else []) + Matching(files[1..], pattern)
  }

  /** The names a series of `copy` calls, one per pattern, adds to a directory. */
  function CopiedSet(files: seq<string>, patterns: seq<string>): set<string> {
    set f | f in files && exists k :: 0 <= k < |patterns| && Glob(patterns[k], f)
  }

  /** One more `copy` call adds exactly the names its pattern matches; no
      call adds nothing. */
  lemma CopiedSetStep(files: seq<string>, patterns: seq<string>, k: nat)
    requires k < |patterns|
    ensures CopiedSet(files, patterns[..0]) == {}
    ensures CopiedSet(files, patterns[..k + 1])
            == CopiedSet(files, patterns[..k]) + (set f | f in Matching(files, patterns[k]))
  {
    var before, after := patterns[..k], patterns[..k + 1];
    forall f | f in CopiedSet(files, after) && f !in CopiedSet(files, before)
      ensures Glob(patterns[k], f)
    {
      var j :| 0 <= j < |after| && Glob(after[j], f);
    }
    forall f | f in files && Glob(patterns[k], f) ensures f in CopiedSet(files, after) {
      assert after[k] == patterns[k];
    }
    forall f | f in CopiedSet(files, before) ensures f in CopiedSet(files, after) {
      var j :| 0 <= j < |before| && Glob(before[j], f);
      assert after[j] == before[j];
    }
  }

  const ToolPatterns: seq<string> := ["shaderc*", "texturev*", "geometryc*", "geometryv*"]

  /** The name a matched file is renamed to: prefix, stem, and the file's own suffix. */
  function Canonical(prefix: string, stem: string, name: string): string {
    prefix + stem + PathSuffix(name)
  }

  /** The names the glob `*stem*` yields, taken before any of them is renamed. */
  function Matches(dir: set<string>, stem: string): set<string> {
    set n | n in dir && Glob("*" + stem + "*", n)
  }

  /** Conan's `rename` raises when its destination exists, so the loop over
      the matches completes exactly when no match already has its canonical
      name and no two matches share one, whatever the order of the matches. */
  predicate RenameCompletes(dir: set<string>, stem: string, prefix: string) {
    var matched := Matches(dir, stem);
    && (forall n :: n in matched ==> Canonical(prefix, stem, n) != n)
    && (forall n, m :: n in matched && m in matched && n != m ==> Canonical(prefix, stem, n) != Canonical(prefix, stem, m))
  }

  /** A directory after every name matching `*stem*` was renamed to its
      canonical name, for a loop that completes. */
  function RenamedDir(dir: set<string>, stem: string, prefix: string): set<string> {
    (set n | n in dir && !Glob("*" + stem + "*", n))
    + (set n | n in dir && Glob("*" + stem + "*", n) :: Canonical(prefix, stem, n))
  }

  /** The renamed directory is the unmatched names plus the canonical names of the matches. */
  lemma RenamedDirSplit(dir: set<string>, stem: string, prefix: string)
    ensures RenamedDir(dir, stem, prefix)
            == (dir - Matches(dir, stem)) + (set n | n in Matches(dir, stem) :: Canonical(prefix, stem, n))
  {
  }

  /** The `*stem*` rename loop: the renamed directory, or the failure of the
      rename whose destination exists. */
  function Rename(dir: set<string>, stem: string, prefix: string): Result<set<string>> {
    if RenameCompletes(dir, stem, prefix) then Ok(RenamedDir(dir, stem, prefix))
    else Err(RenameDstExists(stem))
  }

  /** bin/ after the four tool rename loops, in source order. */
  function RenamedTools(bin: set<string>): Result<set<string>> {
    var b1 :- Rename(bin, "shaderc", "");
    var b2 :- Rename(b1, "texturev", "");
    var b3 :- Rename(b2, "geometryc", "");
    Rename(b3, "geometryv", "")
  }

  /** lib/ and bin/ after all rename loops: the library loop first, then the tools. */
  function RenamedDirs(dirs: PackageDirs, packageLibPrefix: string): Result<PackageDirs> {
    var lib :- Rename(dirs.lib, "bgfx", packageLibPrefix);
    var bin :- RenamedTools(dirs.bin);
    Ok(PackageDirs(lib, bin))
  }

  /** The byproducts removed from lib/, as the substrings their patterns look for. */
  const Denylist: seq<string> :=
    ["bx", "bimg", "shaderc", "texturev", "geometryc", "geometryv", "example", "fcpp", "glsl", "spirv"]

  /** The `rm` patterns, in source order. */
  const RmPatterns: seq<string> :=
    ["*bx*", "*bimg*", "*shaderc*", "*texturev*", "*geometryc*", "*geometryv*", "*example*", "*fcpp*", "*glsl*", "*spirv*"]

  /** A directory after every name matching one of `patterns` was removed. */
  function Pruned(dir: set<string>, patterns: seq<string>): set<string> {
    set n | n in dir && forall k :: 0 <= k < |patterns| ==> !Glob(patterns[k], n)
  }

  /** What `package` leaves in lib/ and bin/, or why it stops. */
  function PackagedFor(libExt: seq<string>, packageLibPrefix: string, tools: bool,
                       entries: seq<string>, outputs: map<string, seq<string>>, before: PackageDirs): Result<PackageDirs>
    requires libExt != []
  {
    match FirstBuildDirOf(entries)
    case None => Err(UnboundBuildBin)
    case Some(dir) =>
      var files := BuildListing(outputs, dir);
      if |Matching(files, libExt[0])| < ExpectedNumLibs then Err(Raised(InvalidPackageExceptionText))
      else
        var copied := PackageDirs(before.lib + CopiedSet(files, libExt),
                                  before.bin + (if tools then CopiedSet(files, ToolPatterns) else {}));
        Finished(copied, packageLibPrefix)
  }

  /** What the rename loops and the removal of byproducts make of the copied
      lib/ and bin/, or why they stop. */
  function Finished(copied: PackageDirs, packageLibPrefix: string): Result<PackageDirs> {
    var renamed :- RenamedDirs(copied, packageLibPrefix);
    Ok(PackageDirs(Pruned(renamed.lib, RmPatterns), renamed.bin))
  }

  // ---------------------------------------------------------------------------
  // The loops of `package`

  /** The loop over the `.build` listing that stops at the first directory
      other than "projects". */
  method FirstBuildDir(entries: seq<string>) returns (dir: Option<string>)
    ensures dir == FirstBuildDirOf(entries)
    ensures dir.Some? ==> (exists k :: 0 <= k < |entries| && entries[k] == dir.value
                                       && forall i :: 0 <= i < k ==> entries[i] == "projects")
  {
    var i := 0;
    while i < |entries|
      invariant 0 <= i <= |entries|
      invariant forall j :: 0 <= j < i ==> entries[j] == "projects"
      invariant FirstBuildDirOf(entries[i..]) == FirstBuildDirOf(entries)
    {
      if entries[i] != "projects" {
        return Some(entries[i]);
      }
      assert entries[i..][1..] == entries[i + 1..];
      i := i + 1;
    }
    return None;
  }

  /** The rename loop over the glob snapshot of `*stem*` matches, in any
      order: each match is renamed to its canonical name, and the loop stops
      at the first rename whose destination is already present. */
  method RenameAll(dir: set<string>, stem: string, prefix: string) returns (result: Result<set<string>>)
    requires '*' !in stem && prefix + stem != [] && '.' !in prefix + stem
    ensures result == Rename(dir, stem, prefix)
  {
    var pending := Matches(dir, stem);
    ghost var done: set<string> := {};
    var current := dir;
    while pending != {}
      invariant done !! pending && done + pending == Matches(dir, stem)
      invariant current == (dir - done) + (set n | n in done :: Canonical(prefix, stem, n))
      invariant forall n :: n in done ==> Canonical(prefix, stem, n) != n
      invariant forall n, m :: n in done && m in done && n != m ==> Canonical(prefix, stem, n) != Canonical(prefix, stem, m)
      decreases pending
    {
      var n :| n in pending;
      var target := Canonical(prefix, stem, n);
      if target in current {
        DstPresentBlocksRename(dir, stem, prefix, done, n);
        return Err(RenameDstExists(stem));
      }
      forall m | m in done ensures Canonical(prefix, stem, m) != n {
        CanonicalIdempotent(prefix, stem, m);
      }
      current := current - {n} + {target};
      pending := pending - {n};
      done := done + {n};
    }
    RenamedDirSplit(dir, stem, prefix);
    result := Ok(current);
  }

  /** A destination present when a match is renamed is a match that already
      has its canonical name, or the canonical name of an earlier match. */
  lemma DstPresentBlocksRename(dir: set<string>, stem: string, prefix: string, done: set<string>, n: string)
    requires '*' !in stem && prefix + stem != [] && '.' !in prefix + stem
    requires done <= Matches(dir, stem) && n in Matches(dir, stem) && n !in done
    requires Canonical(prefix, stem, n) in (dir - done) + (set m | m in done :: Canonical(prefix, stem, m))
    ensures !RenameCompletes(dir, stem, prefix)
  {
    var target := Canonical(prefix, stem, n);
    if target in dir - done {
      CanonicalMatches(prefix, stem, n);
      CanonicalIdempotent(prefix, stem, n);
      assert target in Matches(dir, stem) && Canonical(prefix, stem, target) == target;
    } else {
      var m :| m in done && Canonical(prefix, stem, m) == target;
      assert m != n && m in Matches(dir, stem);
    }
  }

  /** A canonical name contains the stem, so the glob yields it. */
  lemma CanonicalMatches(prefix: string, stem: string, name: string)
    requires '*' !in stem
    ensures Glob("*" + stem + "*", Canonical(prefix, stem, name))
  {
    ContainsAt(prefix, stem, PathSuffix(name));
    GlobInfix(stem, Canonical(prefix, stem, name));
  }

  /** The four tool rename loops on bin/, in source order. */
  method RenameTools(bin: set<string>) returns (result: Result<set<string>>)
    ensures result == RenamedTools(bin)
  {
    assert '.' !in "shaderc" && '.' !in "texturev" && '.' !in "geometryc" && '.' !in "geometryv";
    assert '*' !in "shaderc" && '*' !in "texturev" && '*' !in "geometryc" && '*' !in "geometryv";
    var b :- RenameAll(bin, "shaderc", "");
    b :- RenameAll(b, "texturev", "");
    b :- RenameAll(b, "geometryc", "");
    result := RenameAll(b, "geometryv", "");
  }

  /** A series of `copy` calls into one directory, one per pattern, in order. */
  method CopyPatterns(dir: set<string>, files: seq<string>, patterns: seq<string>) returns (result: set<string>)
    ensures result == dir + CopiedSet(files, patterns)
  {
    result := dir;
    for k := 0 to |patterns|
      invariant result == dir + CopiedSet(files, patterns[..k])
    {
      CopiedSetStep(files, patterns, k);
      result := result + (set f | f in Matching(files, patterns[k]));
    }
    assert patterns[..|patterns|] == patterns;
  }

  /** The sequence of `rm` calls: one removal per pattern, in order. */
  method RemoveMatching(dir: set<string>, patterns: seq<string>) returns (kept: set<string>)
    ensures kept == Pruned(dir, patterns)
  {
    kept := dir;
    for k := 0 to |patterns|
      invariant kept == Pruned(dir, patterns[..k])
    {
      assert forall j :: 0 <= j < k ==> patterns[..k + 1][j] == patterns[..k][j];
      kept := kept - set n | n in kept && Glob(patterns[k], n);
    }
    assert patterns[..|patterns|] == patterns;
  }

  // ---------------------------------------------------------------------------
  // Properties of the renaming and the removal

  /** Renaming an already canonical name gives the same name. */
  lemma CanonicalIdempotent(prefix: string, stem: string, name: string)
    requires prefix + stem != [] && '.' !in prefix + stem
    ensures Canonical(prefix, stem, Canonical(prefix, stem, name)) == Canonical(prefix, stem, name)
  {
    SuffixKept(prefix + stem, name);
  }

  /** A name the renaming produced from a match is canonical. */
  lemma RenamedMatchIsCanonical(dir: set<string>, stem: string, prefix: string, n: string)
    requires prefix + stem != [] && '.' !in prefix + stem
    requires n in RenamedDir(dir, stem, prefix) && Glob("*" + stem + "*", n)
    ensures n == Canonical(prefix, stem, n)
  {
    var m :| m in dir && Glob("*" + stem + "*", m) && n == Canonical(prefix, stem, m);
    CanonicalIdempotent(prefix, stem, m);
  }

  /** After renaming, a name that does not contain the stem was there before;
      a name that contains it is canonical; every name that contained it
      before is now present under its canonical name, and every other name is
      kept. */
  lemma RenamedDirMeaning(dir: set<string>, stem: string, prefix: string)
    requires '*' !in stem && prefix + stem != [] && '.' !in prefix + stem
    ensures forall n :: n in dir && !Contains(n, stem) ==> n in RenamedDir(dir, stem, prefix)
    ensures forall n :: n in dir && Contains(n, stem) ==> Canonical(prefix, stem, n) in RenamedDir(dir, stem, prefix)
    ensures forall n :: n in RenamedDir(dir, stem, prefix) ==>
              if Contains(n, stem) then n == Canonical(prefix, stem, n) else n in dir
  {
    var pattern := "*" + stem + "*";
    forall n ensures Glob(pattern, n) <==> Contains(n, stem) {
      GlobInfix(stem, n);
    }
    forall n | n in RenamedDir(dir, stem, prefix)
      ensures if Contains(n, stem) then n == Canonical(prefix, stem, n) else n in dir
    {
      if Contains(n, stem) {
        RenamedMatchIsCanonical(dir, stem, prefix, n);
      } else if n !in dir {
        var m :| m in dir && Glob(pattern, m) && n == Canonical(prefix, stem, m);
        ContainsAt(prefix, stem, PathSuffix(m));
      }
    }
  }

  /** The tool stems, in the order of their rename loops. */
  const ToolStems: seq<string> := ["shaderc", "texturev", "geometryc", "geometryv"]

  /** A name containing none of the tool stems. */
  predicate NoToolStem(n: string) {
    forall k :: 0 <= k < |ToolStems| ==> !Contains(n, ToolStems[k])
  }

  /** One tool loop keeps every name without its stem. */
  lemma ToolRenameKeeps(dir: set<string>, stem: string, n: string)
    requires '*' !in stem && stem != [] && '.' !in stem
    requires Rename(dir, stem, "").Ok? && n in dir && !Contains(n, stem)
    ensures n in Rename(dir, stem, "").value
  {
    assert "" + stem == stem;
    RenamedDirMeaning(dir, stem, "");
  }

  /** One tool loop renames every name with its stem to the stem and the name's suffix. */
  lemma ToolRenameGives(dir: set<string>, stem: string, n: string)
    requires '*' !in stem && stem != [] && '.' !in stem
    requires Rename(dir, stem, "").Ok? && n in dir && Contains(n, stem)
    ensures stem + PathSuffix(n) in Rename(dir, stem, "").value
  {
    assert "" + stem == stem;
    RenamedDirMeaning(dir, stem, "");
    assert Canonical("", stem, n) == stem + PathSuffix(n);
  }

  /** After one tool loop, a name with its stem is the stem and the name's
      suffix, and any other name was there before. */
  lemma ToolRenameOrigin(dir: set<string>, stem: string, n: string)
    requires '*' !in stem && stem != [] && '.' !in stem
    requires Rename(dir, stem, "").Ok? && n in Rename(dir, stem, "").value
    ensures if Contains(n, stem) then n == stem + PathSuffix(n) else n in dir
  {
    assert "" + stem == stem;
    RenamedDirMeaning(dir, stem, "");
    assert Canonical("", stem, n) == stem + PathSuffix(n);
  }

  /** The tool stems contain neither a wildcard nor a dot. */
  lemma ToolStemsPlain()
    ensures forall k :: 0 <= k < |ToolStems| ==> '*' !in ToolStems[k] && ToolStems[k] != [] && '.' !in ToolStems[k]
  {
    forall k | 0 <= k < |ToolStems|
      ensures '*' !in ToolStems[k] && ToolStems[k] != [] && '.' !in ToolStems[k]
    {
      var t := ToolStems[k];
      assert forall i :: 0 <= i < |t| ==> 'a' <= t[i] <= 'z';
    }
  }

  /** The bin/ states between the four tool loops, when they all complete. */
  lemma ToolLoopStates(bin: set<string>) returns (b1: set<string>, b2: set<string>, b3: set<string>)
    requires RenamedTools(bin).Ok?
    ensures Rename(bin, ToolStems[0], "") == Ok(b1)
    ensures Rename(b1, ToolStems[1], "") == Ok(b2)
    ensures Rename(b2, ToolStems[2], "") == Ok(b3)
    ensures Rename(b3, ToolStems[3], "") == RenamedTools(bin)
    ensures forall k :: 0 <= k < |ToolStems| ==> '*' !in ToolStems[k] && ToolStems[k] != [] && '.' !in ToolStems[k]
  {
    ToolStemsPlain();
    b1 := Rename(bin, "shaderc", "").value;
    b2 := Rename(b1, "texturev", "").value;
    b3 := Rename(b2, "geometryc", "").value;
  }

  /** Every name after a rename loop with `stem` and an empty prefix is the
      stem followed by its own suffix, or a name without the stem from before. */
  predicate StepOrigin(dir: set<string>, stem: string, out: set<string>) {
    forall n :: n in out ==> if Contains(n, stem) then n == stem + PathSuffix(n) else n in dir
  }

  /** After the four tool loops, every name in bin/ either was there and
      contains no tool stem, or is a tool stem followed by its own suffix. */
  lemma RenamedToolsOrigin(bin: set<string>, n: string)
    requires RenamedTools(bin).Ok? && n in RenamedTools(bin).value
    ensures (n in bin && NoToolStem(n)) || exists k :: 0 <= k < |ToolStems| && n == ToolStems[k] + PathSuffix(n)
  {
    var b1, b2, b3 := ToolLoopStates(bin);
    var b4 := RenamedTools(bin).value;
    forall m | m in b1 ensures if Contains(m, ToolStems[0]) then m == ToolStems[0] + PathSuffix(m) else m in bin {
      ToolRenameOrigin(bin, ToolStems[0], m);
    }
    forall m | m in b2 ensures if Contains(m, ToolStems[1]) then m == ToolStems[1] + PathSuffix(m) else m in b1 {
      ToolRenameOrigin(b1, ToolStems[1], m);
    }
    forall m | m in b3 ensures if Contains(m, ToolStems[2]) then m == ToolStems[2] + PathSuffix(m) else m in b2 {
      ToolRenameOrigin(b2, ToolStems[2], m);
    }
    forall m | m in b4 ensures if Contains(m, ToolStems[3]) then m == ToolStems[3] + PathSuffix(m) else m in b3 {
      ToolRenameOrigin(b3, ToolStems[3], m);
    }
    ChainOrigin(ToolStems, bin, b1, b2, b3, b4, n);
  }

  /** Four rename loops with the given stems, one after the other: every name
      at the end was there at the start and contains none of the stems, or is
      one of the stems followed by its own suffix. */
  lemma ChainOrigin(stems: seq<string>, b0: set<string>, b1: set<string>, b2: set<string>, b3: set<string>,
                    b4: set<string>, n: string)
    requires |stems| == 4
    requires StepOrigin(b0, stems[0], b1) && StepOrigin(b1, stems[1], b2)
    requires StepOrigin(b2, stems[2], b3) && StepOrigin(b3, stems[3], b4)
    requires n in b4
    ensures (n in b0 && forall k :: 0 <= k < 4 ==> !Contains(n, stems[k]))
            || exists k :: 0 <= k < 4 && n == stems[k] + PathSuffix(n)
  {
    if Contains(n, stems[3]) {
      assert n == stems[3] + PathSuffix(n);
    } else if Contains(n, stems[2]) {
      assert n == stems[2] + PathSuffix(n);
    } else if Contains(n, stems[1]) {
      assert n == stems[1] + PathSuffix(n);
    } else if Contains(n, stems[0]) {
      assert n == stems[0] + PathSuffix(n);
    } else {
      forall k | 0 <= k < 4 ensures !Contains(n, stems[k]) {
        if k == 0 {
        } else if k == 1 {
        } else if k == 2 {
        }
      }
    }
  }

  /** The four tool loops keep every name that contains no tool stem. */
  lemma RenamedToolsKeeps(bin: set<string>, n: string)
    requires RenamedTools(bin).Ok? && n in bin && NoToolStem(n)
    ensures n in RenamedTools(bin).value
  {
    var b1, b2, b3 := ToolLoopStates(bin);
    ToolRenameKeeps(bin, ToolStems[0], n);
    ToolRenameKeeps(b1, ToolStems[1], n);
    ToolRenameKeeps(b2, ToolStems[2], n);
    ToolRenameKeeps(b3, ToolStems[3], n);
  }

  /** A tool file whose name contains exactly one tool stem, and whose renamed
      name contains no other, ends up in bin/ as that stem and its suffix. */
  lemma RenamedToolsPresent(bin: set<string>, n: string, k: nat)
    requires RenamedTools(bin).Ok? && n in bin && k < |ToolStems| && Contains(n, ToolStems[k])
    requires forall j :: 0 <= j < |ToolStems| && j != k ==>
               !Contains(n, ToolStems[j]) && !Contains(ToolStems[k] + PathSuffix(n), ToolStems[j])
    ensures ToolStems[k] + PathSuffix(n) in RenamedTools(bin).value
  {
    var b1, b2, b3 := ToolLoopStates(bin);
    var c := ToolStems[k] + PathSuffix(n);
    if k == 0 {
      ToolRenameGives(bin, ToolStems[0], n);
      ToolRenameKeeps(b1, ToolStems[1], c);
      ToolRenameKeeps(b2, ToolStems[2], c);
      ToolRenameKeeps(b3, ToolStems[3], c);
    } else if k == 1 {
      ToolRenameKeeps(bin, ToolStems[0], n);
      ToolRenameGives(b1, ToolStems[1], n);
      ToolRenameKeeps(b2, ToolStems[2], c);
      ToolRenameKeeps(b3, ToolStems[3], c);
    } else if k == 2 {
      ToolRenameKeeps(bin, ToolStems[0], n);
      ToolRenameKeeps(b1, ToolStems[1], n);
      ToolRenameGives(b2, ToolStems[2], n);
      ToolRenameKeeps(b3, ToolStems[3], c);
    } else {
      ToolRenameKeeps(bin, ToolStems[0], n);
      ToolRenameKeeps(b1, ToolStems[1], n);
      ToolRenameKeeps(b2, ToolStems[2], n);
      ToolRenameGives(b3, ToolStems[3], n);
    }
  }

  /** A second pass of a rename loop that completed fails exactly when the
      first pass renamed something: every renamed name is its own
      destination. */
  lemma RenameTwiceFails(dir: set<string>, stem: string, prefix: string)
    requires '*' !in stem && prefix + stem != [] && '.' !in prefix + stem
    requires Rename(dir, stem, prefix).Ok?
    ensures Rename(RenamedDir(dir, stem, prefix), stem, prefix).Err? <==> Matches(dir, stem) != {}
  {
    var once := RenamedDir(dir, stem, prefix);
    if n :| n in Matches(dir, stem) {
      var c := Canonical(prefix, stem, n);
      CanonicalMatches(prefix, stem, n);
      CanonicalIdempotent(prefix, stem, n);
      assert c in once && c in Matches(once, stem);
    } else {
      RenamedDirSplit(dir, stem, prefix);
      assert once == dir;
    }
  }

  /** A directory where no name contains the stem is left as it is. */
  lemma RenameWithoutMatches(dir: set<string>, stem: string, prefix: string)
    requires '*' !in stem
    requires forall n :: n in dir ==> !Contains(n, stem)
    ensures Rename(dir, stem, prefix) == Ok(dir)
  {
    forall n | n in dir ensures !Glob("*" + stem + "*", n) {
      GlobInfix(stem, n);
    }
    assert Matches(dir, stem) == {};
    assert RenameCompletes(dir, stem, prefix);
    RenamedDirSplit(dir, stem, prefix);
    assert RenamedDir(dir, stem, prefix) == dir;
  }

  /** Two matches with the same suffix have the same canonical name, so the
      second of them to be renamed finds its destination present. */
  lemma RenameFailsOnSharedSuffix(dir: set<string>, stem: string, prefix: string, a: string, b: string)
    requires '*' !in stem
    requires a in dir && b in dir && a != b && Contains(a, stem) && Contains(b, stem)
    requires PathSuffix(a) == PathSuffix(b)
    ensures Rename(dir, stem, prefix) == Err(RenameDstExists(stem))
  {
    GlobInfix(stem, a);
    GlobInfix(stem, b);
    assert a in Matches(dir, stem) && b in Matches(dir, stem);
  }

  /** Each `rm` pattern looks for exactly its denylisted substring. */
  lemma RmPatternsAreDenylist()
    ensures |RmPatterns| == |Denylist|
    ensures forall k :: 0 <= k < |Denylist| ==> '*' !in Denylist[k] && RmPatterns[k] == "*" + Denylist[k] + "*"
  {
  }

  /** After the removal, no name in lib/ contains a denylisted substring, and
      every name that contains none is kept. */
  lemma PrunedMeaning(dir: set<string>, n: string)
    ensures n in Pruned(dir, RmPatterns) <==>
            n in dir && forall k :: 0 <= k < |Denylist| ==> !Contains(n, Denylist[k])
  {
    RmPatternsAreDenylist();
    forall k | 0 <= k < |Denylist| ensures Glob(RmPatterns[k], n) <==> Contains(n, Denylist[k]) {
      GlobInfix(Denylist[k], n);
    }
  }

  // ---------------------------------------------------------------------------
  // Properties of the whole packaging step

  /** Packaging stops when the listing has no directory other than
      "projects"; otherwise it raises the recipe's own message exactly when
      that directory has no file for the first library pattern, and any other
      stop is a rename whose destination exists. */
  lemma PackageFailsIff(libExt: seq<string>, packageLibPrefix: string, tools: bool,
                        entries: seq<string>, outputs: map<string, seq<string>>, before: PackageDirs)
    requires libExt != []
    ensures var r := PackagedFor(libExt, packageLibPrefix, tools, entries, outputs, before);
      && (FirstBuildDirOf(entries).None? ==> r == Err(UnboundBuildBin))
      && (FirstBuildDirOf(entries).Some? ==>
            var files := BuildListing(outputs, FirstBuildDirOf(entries).value);
            (r == Err(Raised("Less lib files found for copy than expected. Aborting.")) <==>
               forall f :: f in files ==> !Glob(libExt[0], f))
            && (r.Err? ==> r.failure.Raised? || r.failure.RenameDstExists?))
  {
    if FirstBuildDirOf(entries).Some? {
      var files := BuildListing(outputs, FirstBuildDirOf(entries).value);
      NothingMatchingIff(files, libExt[0]);
      if |Matching(files, libExt[0])| >= ExpectedNumLibs {
        var copied := PackageDirs(before.lib + CopiedSet(files, libExt),
                                  before.bin + (if tools then CopiedSet(files, ToolPatterns) else {}));
        RenameFailureKind(copied, packageLibPrefix);
      }
    }
  }

  /** The rename loops stop only on a destination that exists. */
  lemma RenameFailureKind(dirs: PackageDirs, packageLibPrefix: string)
    ensures RenamedDirs(dirs, packageLibPrefix).Err? ==> RenamedDirs(dirs, packageLibPrefix).failure.RenameDstExists?
  {
  }

  /** Once the count check passes, packaging stops exactly when one of the
      rename loops meets an existing destination. */
  lemma PackageRenameFailsIff(libExt: seq<string>, packageLibPrefix: string, tools: bool,
                              entries: seq<string>, outputs: map<string, seq<string>>, before: PackageDirs)
    requires libExt != [] && FirstBuildDirOf(entries).Some?
    requires Matching(BuildListing(outputs, FirstBuildDirOf(entries).value), libExt[0]) != []
    ensures var files := BuildListing(outputs, FirstBuildDirOf(entries).value);
      var lib := before.lib + CopiedSet(files, libExt);
      var bin := before.bin + (if tools then CopiedSet(files, ToolPatterns) else {});
      var r := PackagedFor(libExt, packageLibPrefix, tools, entries, outputs, before);
      r.Err? <==> !RenameCompletes(lib, "bgfx", packageLibPrefix) || RenamedTools(bin).Err?
  {
  }

  /** A copy takes no file exactly when its pattern matches no listed file. */
  lemma NothingMatchingIff(files: seq<string>, pattern: string)
    ensures Matching(files, pattern) == [] <==> forall f :: f in files ==> !Glob(pattern, f)
  {
    var m := Matching(files, pattern);
    if m != [] {
      assert m[0] in m;
    }
  }

  /** No denylisted substring occurs in the name. */
  predicate Clean(name: string) {
    forall k :: 0 <= k < |Denylist| ==> !Contains(name, Denylist[k])
  }

  /** The letters that make a canonical library name clean: the prefix and the
      extension use none of them. */
  predicate AvoidsDenyLetters(s: string) {
    && 'x' !in s && 'g' !in s && 'm' !in s && 'h' !in s
    && 't' !in s && 'e' !in s && 'c' !in s && 'v' !in s
  }

  /** In `<pre>bgfx<ext>` the only 'x' follows an 'f', so "bx" does not occur. */
  lemma NoBxInCanonical(pre: string, ext: string)
    requires AvoidsDenyLetters(pre) && AvoidsDenyLetters(ext)
    ensures !Contains(pre + "bgfx" + ext, "bx")
  {
    var a := pre + "bgf";
    assert 'x' !in a && 'x' !in ext;
    assert pre + "bgfx" + ext == a + ['x'] + ext;
    if Contains(a + ['x'] + ext, "bx") {
      ContainsBeforeUnique(a, 'x', ext, "bx", 1);
    }
  }

  /** In `<pre>bgfx<ext>` the only 'g' is followed by an 'f', so "glsl" does not occur. */
  lemma NoGlslInCanonical(pre: string, ext: string)
    requires AvoidsDenyLetters(pre) && AvoidsDenyLetters(ext)
    ensures !Contains(pre + "bgfx" + ext, "glsl")
  {
    var a, b := pre + "b", "fx" + ext;
    assert 'g' !in a && 'g' !in b;
    assert pre + "bgfx" + ext == a + ['g'] + b;
    if Contains(a + ['g'] + b, "glsl") {
      ContainsAfterUnique(a, 'g', b, "glsl", 0);
    }
  }

  /** `<pre>bgfx<ext>` is clean when the prefix and the extension avoid the
      letters that every other denylisted substring needs. */
  lemma CanonicalIsClean(pre: string, ext: string)
    requires AvoidsDenyLetters(pre) && AvoidsDenyLetters(ext)
    ensures Clean(pre + "bgfx" + ext)
  {
    var name := pre + "bgfx" + ext;
    NoBxInCanonical(pre, ext);
    NotContainsMissingChar(name, "bimg", 2);
    NotContainsMissingChar(name, "shaderc", 1);
    NotContainsMissingChar(name, "texturev", 0);
    NotContainsMissingChar(name, "geometryc", 1);
    NotContainsMissingChar(name, "geometryv", 1);
    NotContainsMissingChar(name, "example", 0);
    NotContainsMissingChar(name, "fcpp", 1);
    NoGlslInCanonical(pre, ext);
    NotContainsMissingChar(name, "spirv", 4);
  }

  /** A file matched by `*<ext>` whose name contains "bgfx" has suffix `<ext>`
      when the extension is a dot and letters other than 'g'. */
  lemma LibPatternSuffix(ext: string, name: string)
    requires 2 <= |ext| && ext[0] == '.' && '.' !in ext[1..] && '*' !in ext && AvoidsDenyLetters(ext)
    requires Glob("*" + ext, name) && Contains(name, "bgfx")
    ensures PathSuffix(name) == ext
  {
    assert 'g' !in ext;
    GlobSuffix(ext, name);
    var stem := name[..|name| - |ext|];
    assert name == stem + ext;
    if stem == [] {
      ContainsChars(name, "bgfx", 1);
      assert false;
    }
    SuffixOfDotted(stem, ext);
  }

  /** A library pattern `*<ext>` whose extension is a dot followed by
      dot-free letters that avoid the denylist's letters. */
  predicate CleanLibPattern(p: string) {
    3 <= |p| && p[0] == '*' && p[1] == '.' && '.' !in p[2..] && '*' !in p[1..] && AvoidsDenyLetters(p[1..])
  }

  /** The Windows library patterns are of that kind. */
  lemma WindowsLibPatternsClean()
    ensures CleanLibPattern("*.lib") && CleanLibPattern("*.pdb")
  {
    assert "*.lib"[2..] == "lib" && "*.pdb"[2..] == "pdb";
  }

  /** The library patterns of the other OSes are of that kind. */
  lemma UnixLibPatternsClean()
    ensures CleanLibPattern("*.a") && CleanLibPattern("*.so")
  {
    assert "*.a"[2..] == "a" && "*.so"[2..] == "so";
  }

  /** Every library pattern `configure` picks is of that kind. */
  lemma LayoutLibPatternsClean(os: string, shared: bool)
    requires LayoutFor(os, shared).Ok?
    ensures var l := LayoutFor(os, shared).value;
      forall k :: 0 <= k < |l.libExt| ==> CleanLibPattern(l.libExt[k])
  {
    var l := LayoutFor(os, shared).value;
    if os == "Windows" {
      WindowsLibPatternsClean();
      assert l.libExt == ["*.lib", "*.pdb"];
    } else {
      UnixLibPatternsClean();
      assert l.libExt == ["*.a"] + (if shared then ["*.so"] else []);
    }
  }

  /** The package library prefix `configure` picks has no dot and avoids the
      denylist's letters. */
  lemma LayoutPrefixClean(os: string, shared: bool)
    requires LayoutFor(os, shared).Ok?
    ensures var l := LayoutFor(os, shared).value;
      AvoidsDenyLetters(l.packageLibPrefix) && '.' !in l.packageLibPrefix
  {
    var l := LayoutFor(os, shared).value;
    assert l.packageLibPrefix in {"", "lib"};
  }

  /** Every copied library file whose name contains "bgfx" ends up in lib/
      under the canonical name, provided the prefix and every library pattern
      avoid the denylist's letters. */
  lemma CleanLibraryPresent(libExt: seq<string>, packageLibPrefix: string, tools: bool, entries: seq<string>,
                            outputs: map<string, seq<string>>, before: PackageDirs, name: string)
    requires libExt != [] && forall k :: 0 <= k < |libExt| ==> CleanLibPattern(libExt[k])
    requires AvoidsDenyLetters(packageLibPrefix) && '.' !in packageLibPrefix
    requires PackagedFor(libExt, packageLibPrefix, tools, entries, outputs, before).Ok?
    requires name in CopiedSet(BuildListing(outputs, FirstBuildDirOf(entries).value), libExt)
    requires Contains(name, "bgfx")
    ensures packageLibPrefix + "bgfx" + PathSuffix(name)
              in PackagedFor(libExt, packageLibPrefix, tools, entries, outputs, before).value.lib
  {
    var files := BuildListing(outputs, FirstBuildDirOf(entries).value);
    var ext := CopiedLibSuffix(libExt, files, name);
    var lib := before.lib + CopiedSet(files, libExt);
    PackagedLib(libExt, packageLibPrefix, tools, entries, outputs, before);
    GlobInfix("bgfx", name);
    var renamed := RenamedDir(lib, "bgfx", packageLibPrefix);
    var c := Canonical(packageLibPrefix, "bgfx", name);
    assert c in renamed;
    CanonicalIsClean(packageLibPrefix, ext);
    PrunedMeaning(renamed, c);
  }

  /** A copied library file whose name contains "bgfx" has as its suffix the
      extension of a pattern that matched it. */
  lemma CopiedLibSuffix(libExt: seq<string>, files: seq<string>, name: string) returns (ext: string)
    requires forall k :: 0 <= k < |libExt| ==> CleanLibPattern(libExt[k])
    requires name in CopiedSet(files, libExt) && Contains(name, "bgfx")
    ensures PathSuffix(name) == ext && AvoidsDenyLetters(ext)
  {
    var k :| 0 <= k < |libExt| && Glob(libExt[k], name);
    ext := libExt[k][1..];
    assert CleanLibPattern(libExt[k]);
    assert libExt[k] == "*" + ext;
    assert '.' !in ext[1..] by { assert ext[1..] == libExt[k][2..]; }
    LibPatternSuffix(ext, name);
  }

  /** When packaging succeeds, lib/ is the pruned result of renaming the copies. */
  lemma PackagedLib(libExt: seq<string>, packageLibPrefix: string, tools: bool, entries: seq<string>,
                    outputs: map<string, seq<string>>, before: PackageDirs)
    requires libExt != [] && PackagedFor(libExt, packageLibPrefix, tools, entries, outputs, before).Ok?
    ensures var lib := before.lib + CopiedSet(BuildListing(outputs, FirstBuildDirOf(entries).value), libExt);
      && Rename(lib, "bgfx", packageLibPrefix).Ok?
      && PackagedFor(libExt, packageLibPrefix, tools, entries, outputs, before).value.lib
         == Pruned(RenamedDir(lib, "bgfx", packageLibPrefix), RmPatterns)
  {
  }

  /** End to end: on every OS `configure` accepts, every library file the
      build produced whose name contains "bgfx" ends up in the package's lib/
      under the canonical name: the OS's library prefix, "bgfx", and the
      file's suffix. */
  lemma PackagedLibraryPresent(os: string, shared: bool, tools: bool, entries: seq<string>,
                               outputs: map<string, seq<string>>, before: PackageDirs, name: string)
    requires LayoutFor(os, shared).Ok?
    requires var l := LayoutFor(os, shared).value;
      PackagedFor(l.libExt, l.packageLibPrefix, tools, entries, outputs, before).Ok?
    requires name in CopiedSet(BuildListing(outputs, FirstBuildDirOf(entries).value), LayoutFor(os, shared).value.libExt)
    requires Contains(name, "bgfx")
    ensures var l := LayoutFor(os, shared).value;
      l.packageLibPrefix + "bgfx" + PathSuffix(name)
        in PackagedFor(l.libExt, l.packageLibPrefix, tools, entries, outputs, before).value.lib
  {
    var l := LayoutFor(os, shared).value;
    LibPatterns(os, shared);
    LayoutLibPatternsClean(os, shared);
    LayoutPrefixClean(os, shared);
    CleanLibraryPresent(l.libExt, l.packageLibPrefix, tools, entries, outputs, before, name);
  }

  /** The count check does not make sure a bgfx library is packaged: when one
      file matches the first library pattern, but every library name that lib/
      would hold contains "bx" (bx's own library, say) and none contains
      "bgfx", packaging succeeds unless a tool rename fails, and the removal
      of byproducts leaves lib/ empty. */
  lemma CountCheckAdmitsNoBgfx(libExt: seq<string>, packageLibPrefix: string, tools: bool,
                               entries: seq<string>, outputs: map<string, seq<string>>, before: PackageDirs)
    requires libExt != [] && FirstBuildDirOf(entries).Some?
    requires var files := BuildListing(outputs, FirstBuildDirOf(entries).value);
      && (exists f :: f in files && Glob(libExt[0], f))
      && forall f :: f in before.lib + CopiedSet(files, libExt) ==> Contains(f, "bx") && !Contains(f, "bgfx")
    ensures var files := BuildListing(outputs, FirstBuildDirOf(entries).value);
      var r := PackagedFor(libExt, packageLibPrefix, tools, entries, outputs, before);
      && (r.Ok? <==> RenamedTools(before.bin + (if tools then CopiedSet(files, ToolPatterns) else {})).Ok?)
      && (r.Ok? ==> r.value.lib == {})
  {
    var files := BuildListing(outputs, FirstBuildDirOf(entries).value);
    var f :| f in files && Glob(libExt[0], f);
    assert f in Matching(files, libExt[0]);
    var lib := before.lib + CopiedSet(files, libExt);
    RenameWithoutMatches(lib, "bgfx", packageLibPrefix);
    forall n | n in lib ensures n !in Pruned(lib, RmPatterns) {
      PrunedMeaning(lib, n);
      assert Denylist[0] == "bx";
    }
  }
}
