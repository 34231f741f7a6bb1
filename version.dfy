/** The recipe's synthetic semantic version, derived from the number of commits
    on the library's main branch: every 10000 commits raise the major number,
    every 100 the minor number, and the patch number counts the rest. */
module Version {

  datatype SemVer = SemVer(major: nat, minor: nat, patch: nat)

  /** The shape every computed version has. */
  predicate WellFormed(v: SemVer) {
    1 <= v.major && v.minor < 100 && v.patch < 100
  }

  /** Commits a well-formed version stands for. */
  function CommitCount(v: SemVer): nat
    requires WellFormed(v)
  {
    (v.major - 1) * 10000 + v.minor * 100 + v.patch
  }

  /** `set_version`: major = 1 + n // 10000, minor = (n // 100) % 100,
      patch = n % 100 (Python's floor division equals Dafny's on naturals). */
  function VersionOf(numCommits: nat): (v: SemVer)
    ensures WellFormed(v)
    ensures CommitCount(v) == numCommits
  {
    var v := SemVer(1 + numCommits / 10000, (numCommits / 100) % 100, numCommits % 100);
    DigitsSplit(numCommits);
    v
  }

  lemma DigitsSplit(n: nat)
    ensures n == (n / 10000) * 10000 + ((n / 100) % 100) * 100 + n % 100
  {
    var q, r := n / 100, n % 100;
    assert n == q * 100 + r;
    assert q == (q / 100) * 100 + q % 100;
    assert q / 100 == n / 10000;
  }

  /** Lexicographic order on (major, minor, patch). */
  predicate Before(a: SemVer, b: SemVer) {
    a.major < b.major
    || (a.major == b.major && a.minor < b.minor)
    || (a.major == b.major && a.minor == b.minor && a.patch < b.patch)
  }

  /** On well-formed versions the lexicographic order is the order of the
      commit counts they stand for. */
  lemma BeforeIsCountOrder(a: SemVer, b: SemVer)
    requires WellFormed(a) && WellFormed(b)
    ensures Before(a, b) <==> CommitCount(a) < CommitCount(b)
  {
    var x := a.minor * 100 + a.patch;
    var y := b.minor * 100 + b.patch;
    assert x < 10000 && y < 10000;
    assert CommitCount(a) == (a.major - 1) * 10000 + x;
    assert CommitCount(b) == (b.major - 1) * 10000 + y;
    if a.major < b.major {
      assert (a.major - 1) * 10000 + 10000 <= (b.major - 1) * 10000;
    } else if a.major > b.major {
      assert (b.major - 1) * 10000 + 10000 <= (a.major - 1) * 10000;
    }
  }

  /** More commits never give an older version, and an older version always
      means fewer commits. */
  lemma VersionMonotonic(n: nat, m: nat)
    ensures Before(VersionOf(n), VersionOf(m)) <==> n < m
  {
    BeforeIsCountOrder(VersionOf(n), VersionOf(m));
  }

  /** Every well-formed version is the version of exactly its own commit count. */
  lemma VersionRoundTrip(v: SemVer)
    requires WellFormed(v)
    ensures VersionOf(CommitCount(v)) == v
  {
    var w := VersionOf(CommitCount(v));
    BeforeIsCountOrder(v, w);
    BeforeIsCountOrder(w, v);
    assert !Before(v, w) && !Before(w, v);
  }

  // ---------------------------------------------------------------------------
  // The version string "major.minor.patch"

  predicate IsDigits(s: string) {
    forall i :: 0 <= i < |s| ==> '0' <= s[i] <= '9'
  }

  /** Python's `str(n)` for a natural number: decimal, no leading zeros. */
  function Decimal(n: nat): (s: string)
    ensures 1 <= |s| && IsDigits(s)
    ensures s[0] == '0' <==> n == 0
  {
    if n < 10 then [('0' as int + n) as char]
    else Decimal(n / 10) + [('0' as int + n % 10) as char]
  }

  function ParseDecimal(s: string): nat
    requires IsDigits(s)
  {
    if s == [] then 0
    else ParseDecimal(s[..|s| - 1]) * 10 + (s[|s| - 1] as int - '0' as int)
  }

  lemma {:induction false} DecimalRoundTrip(n: nat)
    ensures ParseDecimal(Decimal(n)) == n
  {
    var s := Decimal(n);
    if n >= 10 {
      DecimalRoundTrip(n / 10);
      assert s[..|s| - 1] == Decimal(n / 10);
    }
  }

  function VersionString(v: SemVer): string {
    Decimal(v.major) + "." + Decimal(v.minor) + "." + Decimal(v.patch)
  }

  /** Splitting at the first dot: a digit string followed by a dot is
      determined by the whole. */
  lemma SplitAtDot(a: string, r: string, a': string, r': string)
    requires IsDigits(a) && IsDigits(a')
    requires a + "." + r == a' + "." + r'
    ensures a == a' && r == r'
  {
    var s := a + "." + r;
    DotAfterDigits(a, r);
    DotAfterDigits(a', r');
    assert |a| == |a'|;
    assert a == s[..|a|] && a' == s[..|a'|];
    assert r == s[|a| + 1..] && r' == s[|a'| + 1..];
  }

  lemma DotAfterDigits(a: string, r: string)
    requires IsDigits(a)
    ensures (a + "." + r)[|a|] == '.'
    ensures forall i :: 0 <= i < |a| ==> (a + "." + r)[i] != '.'
  {
  }

  /** Distinct commit counts give distinct version strings. */
  lemma VersionStringInjective(n: nat, m: nat)
    requires VersionString(VersionOf(n)) == VersionString(VersionOf(m))
    ensures n == m
  {
    var v, w := VersionOf(n), VersionOf(m);
    assert VersionString(v) == Decimal(v.major) + "." + (Decimal(v.minor) + "." + Decimal(v.patch));
    assert VersionString(w) == Decimal(w.major) + "." + (Decimal(w.minor) + "." + Decimal(w.patch));
    SplitAtDot(Decimal(v.major), Decimal(v.minor) + "." + Decimal(v.patch),
               Decimal(w.major), Decimal(w.minor) + "." + Decimal(w.patch));
    SplitAtDot(Decimal(v.minor), Decimal(v.patch), Decimal(w.minor), Decimal(w.patch));
    DecimalRoundTrip(v.major); DecimalRoundTrip(w.major);
    DecimalRoundTrip(v.minor); DecimalRoundTrip(w.minor);
    DecimalRoundTrip(v.patch); DecimalRoundTrip(w.patch);
  }

  /** 10234 commits give version 2.2.34. */
  lemma Example10234()
    ensures VersionOf(10234) == SemVer(2, 2, 34)
    ensures VersionString(SemVer(2, 2, 34)) == "2.2.34"
  {
    assert 10234 / 10000 == 1 && 10234 / 100 == 102 && 10234 % 100 == 34;
    assert Decimal(2) == "2";
    assert Decimal(34) == "34" by {
      assert Decimal(34) == Decimal(3) + ['4'];
      assert Decimal(3) == "3";
    }
    assert "2" + "." + "2" + "." + "34" == "2.2.34";
  }
}
