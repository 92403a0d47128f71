/**
 * Tool versions: the three-part version and its order, the minimum nix and direnv
 * versions, and the preflight decision over "running under direnv" and the two
 * version checks.  The `--version` runs and the regex are inputs.
 */
module Versions {
  import opened Wrappers
  import opened Util

  datatype Version = Version(major: i32, minor: i32, point: i32)

  datatype Ordering = Less | Equal | Greater

  const RequiredDirenvVersion: Version := Version(2, 21, 3)
  const RequiredNixVersion: Version := Version(2, 10, 0)

  /** `i32::cmp`. */
  function CmpI32(a: i32, b: i32): Ordering
  {
    if a < b then Less else if a == b then Equal else Greater
  }

  /** Strictly before in the lexicographic order on (major, minor, point). */
  predicate LexLess(a: Version, b: Version)
  {
    || a.major < b.major
    || (a.major == b.major && a.minor < b.minor)
    || (a.major == b.major && a.minor == b.minor && a.point < b.point)
  }

  /** `Ord::cmp`: majors decide, then minors, then points. */
  function Cmp(a: Version, b: Version): (o: Ordering)
    ensures o == Less <==> LexLess(a, b)
    ensures o == Equal <==> a == b
    ensures o == Greater <==> LexLess(b, a)
  {
    match CmpI32(a.major, b.major)
    case Equal =>
      (match CmpI32(a.minor, b.minor)
       case Equal => CmpI32(a.point, b.point)
       case other => other)
    case other => other
  }

  function Reversed(o: Ordering): Ordering
  {
    match o
    case Less => Greater
    case Equal => Equal
    case Greater => Less
  }

  /** Swapping the arguments swaps Less and Greater. */
  lemma CmpAntisymmetric(a: Version, b: Version)
    ensures Cmp(b, a) == Reversed(Cmp(a, b))
  {
  }

  /** The order is transitive, so `>=` on versions is a total order. */
  lemma CmpTransitive(a: Version, b: Version, c: Version)
    requires Cmp(a, b) != Greater && Cmp(b, c) != Greater
    ensures Cmp(a, c) != Greater
  {
  }

  /** `cur >= needed`, through `partial_cmp`. */
  predicate AtLeast(cur: Version, needed: Version)
  {
    Cmp(cur, needed) != Less
  }

  /** `is_new_enough`: an error passes through; a version is new enough iff it is >= needed. */
  function IsNewEnough(cur: Result<Version, string>, needed: Version): (r: Result<bool, string>)
    ensures cur.Err? ==> r == Err(cur.error)
    ensures cur.Ok? ==> r == Ok(cur.value == needed || LexLess(needed, cur.value))
  {
    match cur
    case Ok(v) => Ok(AtLeast(v, needed))
    case Err(e) => Err(e)
  }

  /**
   * The match at the end of `preflight_versions`, arm by arm: outside direnv nothing else
   * matters; then a too-old direnv, a too-old nix, a direnv error, a nix error; else Ok.
   */
  function PreflightDecision(inDirenv: bool, direnvNewEnough: Result<bool, string>,
                             nixNewEnough: Result<bool, string>): (r: Result<Unit, string>)
    ensures !inDirenv ==> r == Err("Not in direnv!")
    ensures r.Ok? <==> inDirenv && direnvNewEnough == Ok(true) && nixNewEnough == Ok(true)
    ensures inDirenv && direnvNewEnough == Ok(false) ==> r == Err("Direnv version is not new enough")
    ensures inDirenv && direnvNewEnough != Ok(false) && nixNewEnough == Ok(false) ==>
      r == Err("Nix version is not new enough")
    ensures inDirenv && direnvNewEnough.Err? && nixNewEnough != Ok(false) ==> r == Err(direnvNewEnough.error)
    ensures inDirenv && direnvNewEnough == Ok(true) && nixNewEnough.Err? ==> r == Err(nixNewEnough.error)
  {
    if !inDirenv then Err("Not in direnv!")
    else if direnvNewEnough == Ok(false) then Err("Direnv version is not new enough")
    else if nixNewEnough == Ok(false) then Err("Nix version is not new enough")
    else if direnvNewEnough.Err? then Err(direnvNewEnough.error)
    else if nixNewEnough.Err? then Err(nixNewEnough.error)
    else
      assert direnvNewEnough.value && nixNewEnough.value;
      Ok(Unit)
  }

  /**
   * `preflight_versions` with the version lookups as inputs: Ok iff under direnv and both
   * versions were found and reach nix 2.10.0 and direnv 2.21.3.
   */
  function PreflightVersions(inDirenv: bool, nixVersion: Result<Version, string>,
                             direnvVersion: Result<Version, string>): (r: Result<Unit, string>)
    ensures r.Ok? <==>
      && inDirenv && nixVersion.Ok? && direnvVersion.Ok?
      && (nixVersion.value == Version(2, 10, 0) || LexLess(Version(2, 10, 0), nixVersion.value))
      && (direnvVersion.value == Version(2, 21, 3) || LexLess(Version(2, 21, 3), direnvVersion.value))
    ensures !inDirenv ==> r == Err("Not in direnv!")
  {
    PreflightDecision(inDirenv, IsNewEnough(direnvVersion, RequiredDirenvVersion),
                      IsNewEnough(nixVersion, RequiredNixVersion))
  }

  /** What the semver regex found in stdout: each of the three groups parsed as an i32, if it parses. */
  type Captures = (Option<i32>, Option<i32>, Option<i32>)

  /**
   * `extract_version_number` once `<cmd> --version` has run: a failed run or empty stdout
   * is "Failed executing"; then no match, then the first group that does not parse.
   */
  function ExtractVersionNumber(cmd: string, status: ExitStatus, stdout: string,
                                semver: string -> Option<Captures>): (r: Result<Version, string>)
    ensures status != Success || stdout == [] ==> r == Err("Failed executing '" + cmd + "'")
    ensures r.Ok? <==>
      status == Success && stdout != [] && semver(stdout).Some? &&
      semver(stdout).value.0.Some? && semver(stdout).value.1.Some? && semver(stdout).value.2.Some?
    ensures r.Ok? ==>
      r.value == Version(semver(stdout).value.0.value, semver(stdout).value.1.value, semver(stdout).value.2.value)
  {
    if status == Success && |stdout| != 0 then
      match semver(stdout)
      case Some((major, minor, point)) =>
        if major.None? then Err("Failed to parse major version")
        else if minor.None? then Err("Failed to parse minor version")
        else if point.None? then Err("Failed to parse point version")
        else Ok(Version(major.value, minor.value, point.value))
      case None => Err("Stdout did not contain a version number for `" + cmd + " --version`")
    else
      Err("Failed executing '" + cmd + "'")
  }
}
