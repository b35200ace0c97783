/**
 * `incrementVersion`: the `X.Y.Z` version string of the package is read as
 * three decimal numbers, the last one is incremented, and a number that
 * passes 9 wraps to 0 and carries into the one before it (the first one
 * has no limit).
 */
module Version {
  import opened Common
  import opened Text

  datatype Version = Version(major: nat, minor: nat, patch: nat)

  /** Strict lexicographic order on (major, minor, patch). */
  predicate Less(a: Version, b: Version)
  {
    a.major < b.major ||
    (a.major == b.major && (a.minor < b.minor || (a.minor == b.minor && a.patch < b.patch)))
  }

  /** The increment with decimal carry; every version strictly grows. */
  function Increment(v: Version): (r: Version)
    ensures Less(v, r)
  {
    var patch := v.patch + 1;
    if patch > 9 then
      var minor := v.minor + 1;
      if minor > 9 then Version(v.major + 1, 0, 0) else Version(v.major, minor, 0)
    else Version(v.major, v.minor, patch)
  }

  /** A patch below 9 just moves up by one. */
  lemma IncrementNoCarry(v: Version)
    requires v.patch < 9
    ensures Increment(v) == v.(patch := v.patch + 1)
  {
  }

  /** A patch of 9 wraps to 0 and carries into the minor number. */
  lemma IncrementPatchCarry(v: Version)
    requires v.patch == 9 && v.minor < 9
    ensures Increment(v) == Version(v.major, v.minor + 1, 0)
  {
  }

  /** A carry into a minor of 9 wraps it too and carries into the major number. */
  lemma IncrementMinorCarry(v: Version)
    requires v.patch == 9 && v.minor == 9
    ensures Increment(v) == Version(v.major + 1, 0, 0)
  {
  }

  /** Minor and patch numbers that start as digits stay digits. */
  lemma IncrementKeepsDigits(v: Version)
    requires v.minor <= 9 && v.patch <= 9
    ensures Increment(v).minor <= 9 && Increment(v).patch <= 9
  {
  }

  /** The version read as one decimal counter, the major number on top. */
  function Counter(v: Version): nat
  {
    100 * v.major + 10 * v.minor + v.patch
  }

  /** On digit versions the increment is the counter's successor: nothing is skipped. */
  lemma IncrementCounts(v: Version)
    requires v.minor <= 9 && v.patch <= 9
    ensures Counter(Increment(v)) == Counter(v) + 1
  {
  }

  /** Every digit version is the counter of exactly one version. */
  lemma CounterInjective(a: Version, b: Version)
    requires a.minor <= 9 && a.patch <= 9 && b.minor <= 9 && b.patch <= 9
    requires Counter(a) == Counter(b)
    ensures a == b
  {
    assert Counter(a) % 10 == a.patch && Counter(b) % 10 == b.patch;
    assert Counter(a) / 10 == 10 * a.major + a.minor && Counter(b) / 10 == 10 * b.major + b.minor;
  }

  /** `version.split('.').map(Number)`, destructured into the first three numbers. */
  function ParseVersion(s: string): (r: Option<Version>)
    ensures r.Some? ==> |Split(s, '.')| >= 3
  {
    var parts := Split(s, '.');
    if |parts| < 3 then None
    else match (Number(parts[0]), Number(parts[1]), Number(parts[2]))
      case (Some(x), Some(y), Some(z)) => Some(Version(x, y, z))
      case _ => None
  }

  /** `${major}.${minor}.${patch}` */
  function Show(v: Version): string
  {
    Join([DigitsOf(v.major), DigitsOf(v.minor), DigitsOf(v.patch)], '.')
  }

  /** Reading a printed version gives it back. */
  lemma ParseShow(v: Version)
    ensures ParseVersion(Show(v)) == Some(v)
  {
    var parts := [DigitsOf(v.major), DigitsOf(v.minor), DigitsOf(v.patch)];
    assert forall i :: 0 <= i < 3 ==> '.' !in parts[i];
    SplitJoin(parts, '.');
    ValueOfDigits(v.major);
    ValueOfDigits(v.minor);
    ValueOfDigits(v.patch);
  }

  /** `incrementVersion`: `None` where the source would compute with `NaN`. */
  function IncrementVersion(s: string): (r: Option<string>)
    ensures r.Some? <==> ParseVersion(s).Some?
  {
    match ParseVersion(s)
    case None => None
    case Some(v) => Some(Show(Increment(v)))
  }

  /** Bumping a printed version prints the incremented version, which reads back as a larger one. */
  lemma IncrementVersionShown(v: Version)
    ensures IncrementVersion(Show(v)) == Some(Show(Increment(v)))
    ensures ParseVersion(IncrementVersion(Show(v)).value) == Some(Increment(v))
    ensures Less(v, ParseVersion(IncrementVersion(Show(v)).value).value)
  {
    ParseShow(v);
    ParseShow(Increment(v));
  }

  lemma IncrementVersionExamples()
    ensures Increment(Version(1, 2, 3)) == Version(1, 2, 4)
    ensures Increment(Version(1, 2, 9)) == Version(1, 3, 0)
    ensures Increment(Version(9, 9, 9)) == Version(10, 0, 0)
  {
  }

  /** The same on strings. */
  lemma IncrementVersionPatchCarryString()
    ensures IncrementVersion("1.2.9") == Some("1.3.0")
  {
    assert DigitsOf(1) == "1" && DigitsOf(2) == "2" && DigitsOf(9) == "9" && DigitsOf(3) == "3" && DigitsOf(0) == "0";
    assert Show(Version(1, 2, 9)) == "1.2.9";
    assert Show(Version(1, 3, 0)) == "1.3.0";
    IncrementVersionShown(Version(1, 2, 9));
  }

  lemma IncrementVersionMinorCarryString()
    ensures IncrementVersion("9.9.9") == Some("10.0.0")
  {
    assert DigitsOf(9) == "9" && DigitsOf(0) == "0";
    assert DigitsOf(10) == "10" by { assert DigitsOf(1) == "1"; }
    assert Show(Version(9, 9, 9)) == "9.9.9";
    assert Show(Version(10, 0, 0)) == "10.0.0";
    IncrementVersionShown(Version(9, 9, 9));
  }

  /** Empty numbers read as 0, as `Number('')` does. */
  lemma IncrementVersionEmptyNumbers()
    ensures IncrementVersion("..") == Some("0.0.1")
  {
    assert Split("..", '.') == ["", "", ""] by {
      assert Split(".", '.') == ["", ""] by { assert "."[1..] == ""; }
      assert ".."[1..] == ".";
    }
    assert DigitsOf(0) == "0" && DigitsOf(1) == "1";
    assert Show(Version(0, 0, 1)) == "0.0.1";
  }
}
