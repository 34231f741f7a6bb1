/** Name-level string rules the recipe relies on: prefix, suffix and substring
    tests, fnmatch-style glob patterns whose only wildcard is `*`, and the
    extension (`suffix`) of a file name as pathlib computes it. */
module Text {

  predicate StartsWith(s: string, prefix: string) {
    |prefix| <= |s| && s[..|prefix|] == prefix
  }

  predicate EndsWith(s: string, suffix: string) {
    |suffix| <= |s| && s[|s| - |suffix|..] == suffix
  }

  /** `sub` occurs somewhere in `s`. */
  predicate Contains(s: string, sub: string)
    decreases |s|
  {
    StartsWith(s, sub) || (s != [] && Contains(s[1..], sub))
  }

  /** fnmatch of `name` against `pattern`, where `*` matches any run of
      characters and every other character matches itself. The patterns the
      recipe uses contain neither `?` nor `[`. */
  predicate Glob(pattern: string, name: string)
    decreases |pattern| + |name|
  {
    if pattern == [] then name == []
    else if pattern[0] == '*' then Glob(pattern[1..], name) || (name != [] && Glob(pattern, name[1..]))
    else name != [] && pattern[0] == name[0] && Glob(pattern[1..], name[1..])
  }

  /** Index of the last '.' in `name`, or -1 (Python's `str.rfind('.')`). */
  function LastDot(name: string): (i: int)
    ensures -1 <= i < |name|
    ensures 0 <= i ==> name[i] == '.'
    ensures forall j :: i < j < |name| ==> name[j] != '.'
  {
    if name == [] then -1
    else if name[|name| - 1] == '.' then |name| - 1
    else LastDot(name[..|name| - 1])
  }

  /** pathlib's `PurePath.suffix` of a file name: from its last dot on, unless
      that dot is the first or the last character, in which case it is empty. */
  function PathSuffix(name: string): (r: string)
    ensures r == [] || (2 <= |r| < |name| && r[0] == '.' && '.' !in r[1..] && EndsWith(name, r))
    ensures r != [] <==> 0 < LastDot(name) < |name| - 1
    ensures r != [] ==> |r| == |name| - LastDot(name)
  {
    var i := LastDot(name);
    if 0 < i < |name| - 1 then name[i..] else []
  }

  // ---------------------------------------------------------------------------
  // Substring facts

  lemma StartsWithCons(s: string, x: string)
    requires x != []
    ensures StartsWith(s, x) <==> s != [] && s[0] == x[0] && StartsWith(s[1..], x[1..])
  {
    if s != [] && |x| <= |s| {
      assert s[1..][..|x| - 1] == s[1..|x|];
      if s[0] == x[0] && s[1..|x|] == x[1..] {
        assert s[..|x|] == [s[0]] + s[1..|x|];
        assert x == [x[0]] + x[1..];
      }
    }
  }

  lemma EndsWithCons(s: string, x: string)
    ensures EndsWith(s, x) <==> s == x || (s != [] && EndsWith(s[1..], x))
  {
    if s != [] && |x| < |s| {
      assert s[1..][|s| - 1 - |x|..] == s[|s| - |x|..];
    }
  }

  /** A string longer than `s` never occurs in it. */
  lemma {:induction false} ContainsShorter(s: string, sub: string)
    requires Contains(s, sub)
    ensures |sub| <= |s|
    decreases |s|
  {
    if !StartsWith(s, sub) {
      ContainsShorter(s[1..], sub);
    }
  }

  /** Every string occurs in itself followed by anything. */
  lemma {:induction false} ContainsAt(a: string, b: string, c: string)
    ensures Contains(a + b + c, b)
    decreases |a|
  {
    if a == [] {
      assert (a + b + c)[..|b|] == b;
    } else {
      assert (a + b + c)[1..] == a[1..] + b + c;
      ContainsAt(a[1..], b, c);
    }
  }

  /** Every character of an occurring string is a character of the whole. */
  lemma {:induction false} ContainsChars(s: string, sub: string, k: nat)
    requires Contains(s, sub) && k < |sub|
    ensures sub[k] in s
    decreases |s|
  {
    if StartsWith(s, sub) {
      assert s[k] == sub[k];
    } else {
      ContainsChars(s[1..], sub, k);
      assert sub[k] in s[1..];
    }
  }

  /** A string with a character that `x` has but `s` lacks does not contain `x`. */
  lemma NotContainsMissingChar(s: string, x: string, k: nat)
    requires k < |x| && x[k] !in s
    ensures !Contains(s, x)
  {
    if Contains(s, x) {
      ContainsChars(s, x, k);
    }
  }

  /** `sub` occurs in `s` starting at index `i`. */
  predicate OccursAt(s: string, sub: string, i: int) {
    0 <= i <= |s| - |sub| && s[i..i + |sub|] == sub
  }

  /** An occurrence of `sub` starts at some index of `s`. */
  lemma {:induction false} ContainsIndex(s: string, sub: string)
    requires Contains(s, sub)
    ensures exists i :: OccursAt(s, sub, i)
    decreases |s|
  {
    if StartsWith(s, sub) {
      assert OccursAt(s, sub, 0);
    } else {
      ContainsIndex(s[1..], sub);
      var i :| OccursAt(s[1..], sub, i);
      assert s[1..][i..i + |sub|] == s[i + 1..i + 1 + |sub|];
      assert OccursAt(s, sub, i + 1);
    }
  }

  /** An occurrence matches character by character. */
  lemma OccursAtChar(s: string, x: string, i: int, j: int)
    requires OccursAt(s, x, i) && 0 <= j < |x|
    ensures s[i + j] == x[j]
  {
    assert s[i..i + |x|][j] == x[j];
  }

  /** An occurrence of `x` in `a + [ch] + b`, where `ch` is in neither `a`
      nor `b`, puts `x[k] == ch` exactly on that character. */
  lemma OccurrenceAtUnique(a: string, ch: char, b: string, x: string, k: nat, i: int)
    requires k < |x| && x[k] == ch && ch !in a && ch !in b
    requires OccursAt(a + [ch] + b, x, i)
    ensures i + k == |a|
  {
    var s := a + [ch] + b;
    OccursAtChar(s, x, i, k);
  }

  /** An occurrence at `i` of `x` in `a + [ch] + b`, where `ch` is in neither
      `a` nor `b` and `x[k] == ch`, has the neighbours of `ch` around `x[k]`. */
  lemma OccurrenceNeighbours(a: string, ch: char, b: string, x: string, k: nat, i: int)
    requires k < |x| && x[k] == ch && ch !in a && ch !in b
    requires OccursAt(a + [ch] + b, x, i)
    ensures 0 < k ==> a != [] && a[|a| - 1] == x[k - 1]
    ensures k + 1 < |x| ==> b != [] && b[0] == x[k + 1]
  {
    var s := a + [ch] + b;
    OccurrenceAtUnique(a, ch, b, x, k, i);
    if 0 < k {
      OccursAtChar(s, x, i, k - 1);
      assert s[|a| - 1] == a[|a| - 1];
    }
    if k + 1 < |x| {
      OccursAtChar(s, x, i, k + 1);
      assert s[|a| + 1] == b[0];
    }
  }

  /** When a character occurs in `s` exactly once, any occurrence of `x`
      that uses it at position `k > 0` of `x` has the character before it. */
  lemma ContainsBeforeUnique(a: string, ch: char, b: string, x: string, k: nat)
    requires 0 < k < |x| && x[k] == ch && ch !in a && ch !in b
    requires Contains(a + [ch] + b, x)
    ensures a != [] && a[|a| - 1] == x[k - 1]
  {
    ContainsIndex(a + [ch] + b, x);
    var i :| OccursAt(a + [ch] + b, x, i);
    OccurrenceNeighbours(a, ch, b, x, k, i);
  }

  /** Likewise, such an occurrence that goes on past `ch` has the character
      after it. */
  lemma ContainsAfterUnique(a: string, ch: char, b: string, x: string, k: nat)
    requires k + 1 < |x| && x[k] == ch && ch !in a && ch !in b
    requires Contains(a + [ch] + b, x)
    ensures b != [] && b[0] == x[k + 1]
  {
    ContainsIndex(a + [ch] + b, x);
    var i :| OccursAt(a + [ch] + b, x, i);
    OccurrenceNeighbours(a, ch, b, x, k, i);
  }

  // ---------------------------------------------------------------------------
  // Glob patterns against their plain-string meaning

  /** A pattern without `*` matches exactly itself. */
  lemma {:induction false} GlobLiteral(p: string, s: string)
    requires '*' !in p
    ensures Glob(p, s) <==> s == p
    decreases |p|
  {
    if p != [] {
      assert '*' !in p[1..] by { forall c | c in p[1..] ensures c in p { } }
      if s != [] {
        GlobLiteral(p[1..], s[1..]);
        assert s == [s[0]] + s[1..];
        assert p == [p[0]] + p[1..];
      }
    }
  }

  /** `*` matches every name. */
  lemma {:induction false} GlobStar(s: string)
    ensures Glob("*", s)
    decreases |s|
  {
    if s != [] {
      GlobStar(s[1..]);
    }
  }

  /** `x*` matches exactly the names that start with `x`. */
  lemma {:induction false} GlobPrefix(x: string, s: string)
    requires '*' !in x
    ensures Glob(x + "*", s) <==> StartsWith(s, x)
    decreases |x|
  {
    if x == [] {
      assert x + "*" == "*";
      GlobStar(s);
    } else {
      assert '*' !in x[1..] by { forall c | c in x[1..] ensures c in x { } }
      assert (x + "*")[0] == x[0] && (x + "*")[1..] == x[1..] + "*";
      StartsWithCons(s, x);
      if s != [] {
        GlobPrefix(x[1..], s[1..]);
      }
    }
  }

  /** `*x` matches exactly the names that end with `x`. */
  lemma {:induction false} GlobSuffix(x: string, s: string)
    requires '*' !in x
    ensures Glob("*" + x, s) <==> EndsWith(s, x)
    decreases |s|
  {
    assert ("*" + x)[0] == '*' && ("*" + x)[1..] == x;
    GlobLiteral(x, s);
    EndsWithCons(s, x);
    if s != [] {
      GlobSuffix(x, s[1..]);
    }
  }

  /** `*x*` matches exactly the names that contain `x`. */
  lemma {:induction false} GlobInfix(x: string, s: string)
    requires '*' !in x
    ensures Glob("*" + x + "*", s) <==> Contains(s, x)
    decreases |s|
  {
    assert ("*" + x + "*")[0] == '*' && ("*" + x + "*")[1..] == x + "*";
    GlobPrefix(x, s);
    if s != [] {
      GlobInfix(x, s[1..]);
    }
  }

  // ---------------------------------------------------------------------------
  // Suffix facts

  /** A name without a dot has no suffix. */
  lemma SuffixOfDotless(s: string)
    requires '.' !in s
    ensures PathSuffix(s) == []
  {
  }

  /** A non-empty stem followed by a dot and a dot-free, non-empty extension has
      exactly that extension as its suffix. */
  lemma SuffixOfDotted(stem: string, ext: string)
    requires stem != [] && 2 <= |ext| && ext[0] == '.' && '.' !in ext[1..]
    ensures PathSuffix(stem + ext) == ext
  {
    var n := stem + ext;
    var i := LastDot(n);
    assert n[|stem|] == '.';
    assert i == |stem|;
    assert n[i..] == ext;
  }

  /** Appending a name's suffix to a dot-free stem keeps that suffix, which is
      what makes the recipe's renaming idempotent. */
  lemma SuffixKept(stem: string, name: string)
    requires stem != [] && '.' !in stem
    ensures PathSuffix(stem + PathSuffix(name)) == PathSuffix(name)
  {
    var r := PathSuffix(name);
    if r == [] {
      assert stem + r == stem;
      SuffixOfDotless(stem);
    } else {
      SuffixOfDotted(stem, r);
    }
  }
}
