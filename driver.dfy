/**
 * The program's entry point (src/main.rs): split the arguments, check the tools and the
 * layout directory, fingerprint the watched files, then serve the cached environment if
 * it is still fresh or rebuild it.
 *
 * What the entry point reads from outside arrives as parameters: whether it runs under
 * direnv and the two version probes, the watch list direnv reports, the contents of the
 * watched files, the `.rc` file's modification time and the process id.
 */
module Driver {
  import opened Wrappers
  import opened Util
  import opened Versions
  import opened Watches
  import opened Cache

  /** The paths of the watches, in the same order. */
  function WatchPaths(watches: seq<Watch>): (paths: seq<Path>)
    ensures |paths| == |watches|
    ensures forall i | 0 <= i < |watches| :: paths[i] == watches[i].path
  {
    if |watches| == 0 then []
    else WatchPaths(watches[..|watches| - 1]) + [watches[|watches| - 1].path]
  }

  /** No watched file was modified after `rcMtime`; a modification in that very second is not after. */
  function AllOlder(watches: seq<Watch>, rcMtime: i64): (r: bool)
    ensures r <==> forall i | 0 <= i < |watches| :: watches[i].modtime <= rcMtime
  {
    if |watches| == 0 then true
    else
      assert forall i | 1 <= i < |watches| :: watches[i] == watches[1..][i - 1];
      watches[0].modtime <= rcMtime && AllOlder(watches[1..], rcMtime)
  }

  datatype Decision = Serve | Freshen | TimeWentBackwards

  /**
   * The cache decision once the fingerprint is known: the cached text is served exactly
   * when the `.rc` file and the profile root both exist and no watch is newer than the
   * `.rc` file; a modification time before the epoch panics; anything else rebuilds.
   */
  function CacheDecision(rcIsFile: bool, profileIsFile: bool, watches: seq<Watch>, rcMtime: i64): (d: Decision)
    ensures d == Serve <==>
      rcIsFile && profileIsFile && rcMtime >= 0 && forall i | 0 <= i < |watches| :: watches[i].modtime <= rcMtime
    ensures d == TimeWentBackwards <==> rcIsFile && profileIsFile && rcMtime < 0
    ensures d == Freshen <==>
      !rcIsFile || !profileIsFile || (rcMtime >= 0 && exists i | 0 <= i < |watches| :: watches[i].modtime > rcMtime)
  {
    if rcIsFile && profileIsFile then
      if rcMtime < 0 then TimeWentBackwards
      else if AllOlder(watches, rcMtime) then Serve
      else Freshen
    else Freshen
  }

  const UsageSuffix: string := "  <layout_directory> <flake specifier> <...args>"
  const EmptyArgvPanic: string := "index out of bounds: the len is 0 but the index is 0"
  const TimeWentBackwardsPanic: string := "Time went backwards"

  /** `main` after preflight: fingerprint the extant watches, then serve or rebuild. */
  function Cached(w: World, layoutDir: Path, flakeSpecifier: string, otherArgs: seq<string>, extant: seq<Watch>,
                  project: FileContents, sha1Hex: seq<byte> -> string, rcMtime: i64, pid: nat,
                  runProcess: ProcessRunner, parseJson: string -> Option<Json>): World
  {
    match HashFilesSpec(WatchPaths(extant), project, sha1Hex)
    case Err(msg) => ExitWith(Eprintln(w, msg), 1)
    case Ok(hash) =>
      var profileRc := ProfileRc(layoutDir, hash);
      match CacheDecision(IsFile(w, profileRc), IsFile(w, ProfilePath(layoutDir, hash)), extant, rcMtime)
      case Serve => CurCachePrinted(w, profileRc)
      case Freshen => Freshened(w, layoutDir, hash, flakeSpecifier, otherArgs, pid, runProcess, parseJson)
      case TimeWentBackwards => w.(status := Panicked(TimeWentBackwardsPanic))
  }

  /**
   * `main`: a short argument vector prints the usage line and exits 1 (an empty one panics
   * on `args[0]`); a preflight or watch error is printed and exits 1.
   */
  function MainOutcome(w: World, argv: seq<string>, inDirenv: bool, nixVersion: Result<Version, string>,
                       direnvVersion: Result<Version, string>, watches: Result<seq<Watch>, string>,
                       project: FileContents, sha1Hex: seq<byte> -> string, rcMtime: i64, pid: nat,
                       runProcess: ProcessRunner, parseJson: string -> Option<Json>): (w': World)
    ensures |argv| == 0 ==> w' == w.(status := Panicked(EmptyArgvPanic))
    ensures 1 <= |argv| < 3 ==>
      w'.status == Exited(1) && w'.trace == w.trace + [Stderr(argv[0] + UsageSuffix)] &&
      w'.files == w.files && w'.links == w.links && w'.dirs == w.dirs
  {
    match GetArgs(argv)
    case Err(_) =>
      if |argv| == 0 then w.(status := Panicked(EmptyArgvPanic)) else ExitWith(Eprintln(w, argv[0] + UsageSuffix), 1)
    case Ok((layoutDir, flakeSpecifier, otherArgs)) =>
      var (checked, preflight) := Preflighted(w, layoutDir, PreflightVersions(inDirenv, nixVersion, direnvVersion));
      if preflight.Err? then ExitWith(Eprintln(checked, preflight.error), 1)
      else
        match GetExtant(watches)
        case Err(e) => ExitWith(Eprintln(checked, e), 1)
        case Ok(extant) =>
          Cached(checked, layoutDir, flakeSpecifier, otherArgs, extant, project, sha1Hex, rcMtime, pid, runProcess, parseJson)
  }

  /** The chain of steps `main` takes, each failure ending the process where it happens. */
  method Run(w: World, argv: seq<string>, inDirenv: bool, nixVersion: Result<Version, string>,
             direnvVersion: Result<Version, string>, watches: Result<seq<Watch>, string>,
             project: FileContents, sha1Hex: seq<byte> -> string, rcMtime: i64, pid: nat,
             runProcess: ProcessRunner, parseJson: string -> Option<Json>)
    returns (w': World)
    ensures w' == MainOutcome(w, argv, inDirenv, nixVersion, direnvVersion, watches, project, sha1Hex,
                              rcMtime, pid, runProcess, parseJson)
  {
    var args := GetArgs(argv);
    if args.Err? {
      if |argv| == 0 {
        w' := w.(status := Panicked(EmptyArgvPanic));
      } else {
        w' := ExitWith(Eprintln(w, argv[0] + UsageSuffix), 1);
      }
      return;
    }
    var (layoutDir, flakeSpecifier, otherArgs) := args.value;
    var preflight;
    w', preflight := Preflight(w, layoutDir, inDirenv, nixVersion, direnvVersion);
    if preflight.Err? {
      w' := ExitWith(Eprintln(w', preflight.error), 1);
      return;
    }
    var extant := GetExtant(watches);
    if extant.Err? {
      w' := ExitWith(Eprintln(w', extant.error), 1);
      return;
    }
    w' := ServeOrFreshen(w', layoutDir, flakeSpecifier, otherArgs, extant.value, project, sha1Hex,
                         rcMtime, pid, runProcess, parseJson);
  }

  /** The steps of `main` after preflight: fingerprint, then serve or rebuild. */
  method ServeOrFreshen(w: World, layoutDir: Path, flakeSpecifier: string, otherArgs: seq<string>, extant: seq<Watch>,
                        project: FileContents, sha1Hex: seq<byte> -> string, rcMtime: i64, pid: nat,
                        runProcess: ProcessRunner, parseJson: string -> Option<Json>)
    returns (w': World)
    ensures w' == Cached(w, layoutDir, flakeSpecifier, otherArgs, extant, project, sha1Hex, rcMtime, pid,
                         runProcess, parseJson)
  {
    var hash := HashFiles(WatchPaths(extant), project, sha1Hex);
    if hash.Err? {
      w' := ExitWith(Eprintln(w, hash.error), 1);
      return;
    }
    var profile := ProfilePath(layoutDir, hash.value);
    var profileRc := ProfileRc(layoutDir, hash.value);
    if IsFile(w, profileRc) && IsFile(w, profile) {
      if rcMtime < 0 {
        w' := w.(status := Panicked(TimeWentBackwardsPanic));
      } else if AllOlder(extant, rcMtime) {
        w' := PrintCurCache(w, profileRc);
      } else {
        w' := FreshenCache(w, layoutDir, hash.value, flakeSpecifier, otherArgs, pid, runProcess, parseJson);
      }
    } else {
      w' := FreshenCache(w, layoutDir, hash.value, flakeSpecifier, otherArgs, pid, runProcess, parseJson);
    }
  }

  // ---- properties of main ----

  /** Nothing before the cache decision spawns a process, writes or removes anything. */
  predicate OnlyChecks(effects: seq<Effect>) {
    forall e | e in effects :: e.Stderr? || e.CreateDirAll?
  }

  /** An early failure ends `main` with one error line after preflight, and exit code 1. */
  lemma EarlyFailureMessage(w: World, argv: seq<string>, inDirenv: bool, nixVersion: Result<Version, string>,
                            direnvVersion: Result<Version, string>, watches: Result<seq<Watch>, string>,
                            project: FileContents, sha1Hex: seq<byte> -> string, rcMtime: i64, pid: nat,
                            runProcess: ProcessRunner, parseJson: string -> Option<Json>)
    returns (msg: string)
    requires |argv| >= 3
    requires
      var checked := Preflighted(w, argv[1], PreflightVersions(inDirenv, nixVersion, direnvVersion));
      || checked.1.Err?
      || watches.Err?
      || HashFilesSpec(WatchPaths(ExtantOnly(watches.value)), project, sha1Hex).Err?
    ensures MainOutcome(w, argv, inDirenv, nixVersion, direnvVersion, watches, project, sha1Hex,
                        rcMtime, pid, runProcess, parseJson)
         == ExitWith(Eprintln(Preflighted(w, argv[1], PreflightVersions(inDirenv, nixVersion, direnvVersion)).0, msg), 1)
  {
    var (checked, preflight) := Preflighted(w, argv[1], PreflightVersions(inDirenv, nixVersion, direnvVersion));
    assert GetArgs(argv) == Ok((argv[1], argv[2], argv[3..]));
    if preflight.Err? {
      msg := preflight.error;
    } else if watches.Err? {
      msg := watches.error;
    } else {
      msg := HashFilesSpec(WatchPaths(ExtantOnly(watches.value)), project, sha1Hex).error;
    }
  }

  /**
   * A preflight, watch or fingerprint error exits 1 before the cache is looked at: files
   * and GC roots are as they were, and the only effects are the layout directory's
   * creation and the error message.
   */
  lemma EarlyFailureExits(w: World, argv: seq<string>, inDirenv: bool, nixVersion: Result<Version, string>,
                          direnvVersion: Result<Version, string>, watches: Result<seq<Watch>, string>,
                          project: FileContents, sha1Hex: seq<byte> -> string, rcMtime: i64, pid: nat,
                          runProcess: ProcessRunner, parseJson: string -> Option<Json>)
    requires |argv| >= 3
    requires
      var checked := Preflighted(w, argv[1], PreflightVersions(inDirenv, nixVersion, direnvVersion));
      || checked.1.Err?
      || watches.Err?
      || HashFilesSpec(WatchPaths(ExtantOnly(watches.value)), project, sha1Hex).Err?
    ensures var w' := MainOutcome(w, argv, inDirenv, nixVersion, direnvVersion, watches, project, sha1Hex,
                                  rcMtime, pid, runProcess, parseJson);
      && w'.status == Exited(1)
      && w'.files == w.files && w'.links == w.links
      && |w'.trace| >= |w.trace| && w'.trace[..|w.trace|] == w.trace
      && OnlyChecks(w'.trace[|w.trace|..])
  {
    var versions := PreflightVersions(inDirenv, nixVersion, direnvVersion);
    var checked := Preflighted(w, argv[1], versions).0;
    PreflightedOutcome(w, argv[1], versions);
    var msg := EarlyFailureMessage(w, argv, inDirenv, nixVersion, direnvVersion, watches, project, sha1Hex,
                                   rcMtime, pid, runProcess, parseJson);
    var w' := ExitWith(Eprintln(checked, msg), 1);
    assert w'.trace[|w.trace|..] == checked.trace[|w.trace|..] + [Stderr(msg)];
  }

  /**
   * Once preflight and the watch list succeed, the cached text is served exactly when the decision says so, and
   * `freshen_cache` runs with the same fingerprint otherwise; the fingerprint and the
   * staleness test both see the extant watches, in their order.
   */
  lemma CacheHitOrFreshen(w: World, argv: seq<string>, inDirenv: bool, nixVersion: Result<Version, string>,
                          direnvVersion: Result<Version, string>, watches: Result<seq<Watch>, string>,
                          project: FileContents, sha1Hex: seq<byte> -> string, rcMtime: i64, pid: nat,
                          runProcess: ProcessRunner, parseJson: string -> Option<Json>)
    requires |argv| >= 3
    requires Preflighted(w, argv[1], PreflightVersions(inDirenv, nixVersion, direnvVersion)).1.Ok?
    requires watches.Ok?
    requires HashFilesSpec(WatchPaths(ExtantOnly(watches.value)), project, sha1Hex).Ok?
    ensures var checked := Preflighted(w, argv[1], PreflightVersions(inDirenv, nixVersion, direnvVersion)).0;
      var extant := ExtantOnly(watches.value);
      var hash := HashFilesSpec(WatchPaths(extant), project, sha1Hex).value;
      var isFresh := IsFile(checked, ProfileRc(argv[1], hash)) && IsFile(checked, ProfilePath(argv[1], hash)) &&
                   rcMtime >= 0 && forall i | 0 <= i < |extant| :: extant[i].modtime <= rcMtime;
      var isStale := !IsFile(checked, ProfileRc(argv[1], hash)) || !IsFile(checked, ProfilePath(argv[1], hash)) ||
                   (rcMtime >= 0 && exists i | 0 <= i < |extant| :: extant[i].modtime > rcMtime);
      var w' := MainOutcome(w, argv, inDirenv, nixVersion, direnvVersion, watches, project, sha1Hex,
                            rcMtime, pid, runProcess, parseJson);
      && (isFresh ==> w' == CurCachePrinted(checked, ProfileRc(argv[1], hash)))
      && (isStale ==> w' == Freshened(checked, argv[1], hash, argv[2], argv[3..], pid, runProcess, parseJson))
  {
  }

  /**
   * A watch whose file does not exist changes nothing: main behaves as if it were not in
   * the list, because both the fingerprint and the staleness test use the extant watches.
   */
  lemma MissingWatchIgnored(w: World, argv: seq<string>, inDirenv: bool, nixVersion: Result<Version, string>,
                            direnvVersion: Result<Version, string>, before: seq<Watch>, missing: Watch,
                            after: seq<Watch>, project: FileContents, sha1Hex: seq<byte> -> string,
                            rcMtime: i64, pid: nat, runProcess: ProcessRunner, parseJson: string -> Option<Json>)
    requires !missing.extant
    ensures MainOutcome(w, argv, inDirenv, nixVersion, direnvVersion, Ok(before + [missing] + after), project,
                        sha1Hex, rcMtime, pid, runProcess, parseJson)
         == MainOutcome(w, argv, inDirenv, nixVersion, direnvVersion, Ok(before + after), project,
                        sha1Hex, rcMtime, pid, runProcess, parseJson)
  {
    ExtantOnlySkipsMissing(before, missing, after);
    assert GetExtant(Ok(before + [missing] + after)) == GetExtant(Ok(before + after));
  }
}
