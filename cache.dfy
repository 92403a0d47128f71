/**
 * The cache of `nix print-dev-env` output under a layout directory (src/cache.rs).
 *
 * The host the program acts on is a `World` value that every step takes and returns:
 * the regular files, the symlinks `nix build --out-link` makes (GC roots), the
 * directories, the io error the host reports for a write or a directory creation at
 * a path, the effects in the order they happen, and whether the process still runs.
 * What nix does when it runs is a function parameter, `runProcess`.
 */
module Cache {
  import opened Wrappers
  import opened Text
  import opened Util
  import opened Versions
  import opened Watches

  /** One observable step, in the order the program takes them; a failed attempt is logged too. */
  datatype Effect =
    | Spawn(program: string, args: seq<string>)
    | RemoveDirAll(dir: Path)
    | CreateDirAll(dir: Path)
    | Write(path: Path, content: string)
    | RemoveFile(path: Path)
    | Stdout(text: string)
    | Stderr(text: string)

  /** `process::exit(code)` and `expect` end the process; otherwise it is still running. */
  datatype Status = Running | Exited(code: i32) | Panicked(message: string)

  datatype World = World(
    files: map<Path, string>,
    links: map<Path, Path>,
    dirs: set<Path>,
    faults: map<Path, string>,
    trace: seq<Effect>,
    status: Status)

  /** The io error text for reading a file that is not there. */
  const NotFound: string := "No such file or directory (os error 2)"

  /**
   * `p` is `dir` itself or lies somewhere below it.  The empty path names no file or
   * directory (the host answers "not found" for it), so nothing lies under it.
   */
  predicate Under(p: Path, dir: Path) {
    dir != "" && (p == dir || StartsWith(p, dir + "/"))
  }

  /** `util::is_file`: a regular file, or a GC root, which resolves to the profile it keeps. */
  predicate IsFile(w: World, p: Path) {
    p in w.files || p in w.links
  }

  /** `util::is_directory`: a directory was created at `p` or below it. */
  predicate IsDirectory(w: World, p: Path) {
    exists d | d in w.dirs :: Under(d, p)
  }

  // ---- host primitives ----

  /** `fs::remove_dir_all(dir)`: everything at or below `dir` goes; its result is ignored. */
  function RemoveDirAllIn(w: World, dir: Path): World {
    w.(files := (map p | p in w.files && !Under(p, dir) :: w.files[p]),
       links := (map p | p in w.links && !Under(p, dir) :: w.links[p]),
       dirs := (set d | d in w.dirs && !Under(d, dir)),
       trace := w.trace + [RemoveDirAll(dir)])
  }

  /** What `fs::create_dir_all(dir)` returns; for the empty path it succeeds at once. */
  function CreateDirAllResult(w: World, dir: Path): Result<Unit, string> {
    if dir == "" then Ok(Unit)
    else if dir in w.faults then Err(w.faults[dir]) else Ok(Unit)
  }

  /** The host after `fs::create_dir_all(dir)`, which creates nothing for the empty path. */
  function CreateDirAllIn(w: World, dir: Path): World {
    w.(dirs := if dir == "" || dir in w.faults then w.dirs else w.dirs + {dir},
       trace := w.trace + [CreateDirAll(dir)])
  }

  /** `write_file(path, content)`: replaces the file unless the host reports an error. */
  function WriteFileIn(w: World, path: Path, content: string): World {
    w.(files := if path in w.faults then w.files else w.files[path := content],
       trace := w.trace + [Write(path, content)])
  }

  /** `fs::remove_file(path)`: its result is ignored. */
  function RemoveFileIn(w: World, path: Path): World {
    w.(files := w.files - {path}, links := w.links - {path}, trace := w.trace + [RemoveFile(path)])
  }

  /** `read_file(path)`. */
  function ReadFileIn(w: World, path: Path): Result<string, string> {
    if path in w.files then Ok(w.files[path]) else Err(NotFound)
  }

  /** `util::nix(args)` as seen from the host: one spawn of `nix` with the fixed arguments first. */
  function SpawnNixIn(w: World, args: seq<string>): World {
    w.(trace := w.trace + [Spawn("nix", NixFixedArgs + args)])
  }

  function Eprintln(w: World, text: string): World {
    w.(trace := w.trace + [Stderr(text)])
  }

  function ExitWith(w: World, code: i32): World {
    w.(status := Exited(code))
  }

  // ---- print_cur_cache ----

  const ReadProfileFailed: string := "Failed to read profile: "

  /** `print_cur_cache(profile_rc)`: the file's text on stdout, or why it could not be read on stderr. */
  function CurCachePrinted(w: World, profileRc: Path): (w': World)
    ensures w'.files == w.files && w'.links == w.links && w'.dirs == w.dirs
    ensures w'.faults == w.faults && w'.status == w.status
    ensures profileRc in w.files ==> w'.trace == w.trace + [Stdout(w.files[profileRc])]
    ensures profileRc !in w.files ==> w'.trace == w.trace + [Stderr(ReadProfileFailed + NotFound)]
  {
    match ReadFileIn(w, profileRc)
    case Ok(content) => w.(trace := w.trace + [Stdout(content)])
    case Err(e) => Eprintln(w, ReadProfileFailed + e)
  }

  method PrintCurCache(w: World, profileRc: Path) returns (w': World)
    ensures w' == CurCachePrinted(w, profileRc)
  {
    var content := ReadFileIn(w, profileRc);
    match content
    case Ok(text) => w' := w.(trace := w.trace + [Stdout(text)]);
    case Err(e) => w' := Eprintln(w, ReadProfileFailed + e);
  }

  // ---- clean_old_gcroots ----

  /** The directory that holds one GC root per flake input; note the trailing slash. */
  function InputsDir(layoutDir: Path): Path {
    layoutDir + "/flake-inputs/"
  }

  const CreateInputsDirFailed: string := "Failed to create flake-inputs directory"

  /**
   * `clean_old_gcroots`: the whole layout directory goes, then `<layout>/flake-inputs/` is
   * made.  Nothing at or below the layout directory survives except that fresh directory,
   * everything outside it is untouched, and a failure to create it is a panic.
   */
  function Cleaned(w: World, layoutDir: Path): (w': World)
    ensures forall p | p in w'.files :: !Under(p, layoutDir) && p in w.files && w'.files[p] == w.files[p]
    ensures forall p | p in w.files && !Under(p, layoutDir) :: p in w'.files
    ensures forall p | p in w'.links :: !Under(p, layoutDir) && p in w.links && w'.links[p] == w.links[p]
    ensures forall p | p in w.links && !Under(p, layoutDir) :: p in w'.links
    ensures forall d | d in w'.dirs && Under(d, layoutDir) :: d == InputsDir(layoutDir)
    ensures InputsDir(layoutDir) !in w.faults ==> InputsDir(layoutDir) in w'.dirs
    ensures layoutDir != "" ==> (InputsDir(layoutDir) in w'.dirs <==> InputsDir(layoutDir) !in w.faults)
    ensures w'.status == if InputsDir(layoutDir) in w.faults then Panicked(CreateInputsDirFailed) else w.status
    ensures w'.faults == w.faults
    ensures w'.trace == w.trace + [RemoveDirAll(layoutDir), CreateDirAll(InputsDir(layoutDir))]
  {
    assert InputsDir(layoutDir) != "" by { assert |InputsDir(layoutDir)| >= 1; }
    var created := CreateDirAllIn(RemoveDirAllIn(w, layoutDir), InputsDir(layoutDir));
    if InputsDir(layoutDir) in w.faults then created.(status := Panicked(CreateInputsDirFailed)) else created
  }

  method CleanOldGcroots(w: World, layoutDir: Path) returns (w': World)
    ensures w' == Cleaned(w, layoutDir)
  {
    w' := RemoveDirAllIn(w, layoutDir);
    var created := CreateDirAllResult(w', InputsDir(layoutDir));
    w' := CreateDirAllIn(w', InputsDir(layoutDir));
    if created.Err? {
      w' := w'.(status := Panicked(CreateInputsDirFailed));
    }
  }

  /** Paths built as `<layout>/<rest>` lie below the layout directory. */
  lemma UnderLayout(layoutDir: Path, rest: string)
    requires layoutDir != ""
    ensures Under(layoutDir + "/" + rest, layoutDir)
  {
    assert (layoutDir + "/" + rest)[..|layoutDir + "/"|] == layoutDir + "/";
  }

  // ---- add_gcroot ----

  function GcrootArgs(storePath: Path, symlink: Path): seq<string> {
    ["build", "--out-link", symlink, storePath]
  }

  const NixBuildFailed: string := "Failed to run `nix build`!"

  /** What `add_gcroot(store_path, symlink)` returns: `Ok` exactly when `nix build` succeeds. */
  function GcrootResult(storePath: Path, symlink: Path, runProcess: ProcessRunner): (r: Result<Unit, string>)
    ensures r.Ok? <==> runProcess("nix", NixFixedArgs + GcrootArgs(storePath, symlink)).0 == Success
    ensures r.Err? ==> r.error == NixBuildFailed
  {
    if runProcess("nix", NixFixedArgs + GcrootArgs(storePath, symlink)).0 == Success then Ok(Unit)
    else Err(NixBuildFailed)
  }

  /** The host after `add_gcroot`: the spawn is logged, and a successful build leaves the link. */
  function WithGcroot(w: World, storePath: Path, symlink: Path, runProcess: ProcessRunner): World {
    var spawned := SpawnNixIn(w, GcrootArgs(storePath, symlink));
    if GcrootResult(storePath, symlink, runProcess).Ok? then spawned.(links := spawned.links[symlink := storePath])
    else spawned
  }

  method AddGcroot(w: World, storePath: Path, symlink: Path, runProcess: ProcessRunner)
    returns (w': World, r: Result<Unit, string>)
    ensures w' == WithGcroot(w, storePath, symlink, runProcess)
    ensures r == GcrootResult(storePath, symlink, runProcess)
  {
    var status, _ := Nix(GcrootArgs(storePath, symlink), runProcess);
    w' := SpawnNixIn(w, GcrootArgs(storePath, symlink));
    if status == Success {
      w' := w'.(links := w'.links[symlink := storePath]);
      r := Ok(Unit);
    } else {
      r := Err(NixBuildFailed);
    }
  }

  // ---- freshen_cache ----

  /** The number a string of decimal digits denotes, most significant digit first. */
  function DigitsValue(s: string): nat
    requires forall i | 0 <= i < |s| :: '0' <= s[i] <= '9'
  {
    if |s| == 0 then 0
    else DigitsValue(s[..|s| - 1]) * 10 + (s[|s| - 1] as int - '0' as int)
  }

  /** `process::id()` as `format!` writes it: its decimal digits, with no leading zero. */
  function Decimal(n: nat): (s: string)
    ensures |s| >= 1
    ensures forall i | 0 <= i < |s| :: '0' <= s[i] <= '9'
    ensures DigitsValue(s) == n
    ensures |s| > 1 ==> s[0] != '0'
  {
    var digit := [('0' as int + n % 10) as char];
    if n < 10 then digit
    else
      var high := Decimal(n / 10);
      assert (high + digit)[..|high|] == high;
      high + digit
  }

  /** The temporary profile: the layout directory and the name are joined without a `/`. */
  function TmpProfile(layoutDir: Path, pid: nat): Path {
    layoutDir + "flake-tmp-profile." + Decimal(pid)
  }

  function PrintDevEnvArgs(tmpProfile: Path, flakeSpecifier: string, otherArgs: seq<string>): seq<string> {
    ["print-dev-env", "--profile", tmpProfile, flakeSpecifier] + otherArgs
  }

  /** The GC root that keeps the evaluated environment alive. */
  function ProfilePath(layoutDir: Path, hash: string): Path {
    layoutDir + "/flake-profile-" + hash
  }

  /** The cached `print-dev-env` output. */
  function ProfileRc(layoutDir: Path, hash: string): Path {
    ProfilePath(layoutDir, hash) + ".rc"
  }

  const EvalFailed: string := "Failed evaluating flake"
  const WriteProfileFailed: string := "Failed to write profile: "
  const GcrootFailed: string := "Failed creating gcroot: "
  const InputGcrootFailed: string := "Failed creating flake-input gcroot: "

  /** The GC root `freshen_cache` makes for one flake input, and a logged failure. */
  function InputRoot(w: World, layoutDir: Path, input: string, runProcess: ProcessRunner): World {
    var storePath := "/nix/store/" + input;
    var symlink := InputsDir(layoutDir) + input;
    var rooted := WithGcroot(w, storePath, symlink, runProcess);
    if GcrootResult(storePath, symlink, runProcess).Err? then Eprintln(rooted, InputGcrootFailed + NixBuildFailed)
    else rooted
  }

  /** The loop over the flake inputs, one root after another in order. */
  function InputRoots(w: World, layoutDir: Path, inputs: seq<string>, runProcess: ProcessRunner): World
    decreases |inputs|
  {
    if |inputs| == 0 then w
    else InputRoot(InputRoots(w, layoutDir, inputs[..|inputs| - 1], runProcess), layoutDir, inputs[|inputs| - 1], runProcess)
  }

  /** `freshen_cache` once `print-dev-env` has succeeded with `stdout`. */
  function Profiled(w: World, layoutDir: Path, hash: string, tmpProfile: Path, stdout: string,
                    runProcess: ProcessRunner, parseJson: string -> Option<Json>): World
  {
    var rc := ProfileRc(layoutDir, hash);
    var written := WriteFileIn(w, rc, stdout);
    if rc in w.faults then ExitWith(Eprintln(written, WriteProfileFailed + w.faults[rc]), 1)
    else if GcrootResult(tmpProfile, ProfilePath(layoutDir, hash), runProcess).Err? then
      ExitWith(Eprintln(WithGcroot(written, tmpProfile, ProfilePath(layoutDir, hash), runProcess),
                        GcrootFailed + NixBuildFailed), 1)
    else
      var rooted := ProfileRooted(w, layoutDir, hash, tmpProfile, stdout, runProcess, parseJson);
      CurCachePrinted(InputRoots(rooted, layoutDir, InputPaths(runProcess, parseJson).0, runProcess), rc)
  }

  /**
   * The steps between the `.rc` write and the input loop: write, root the profile, remove
   * the temporary profile, ask nix for the inputs and print its diagnostic, if any.
   */
  function ProfileRooted(w: World, layoutDir: Path, hash: string, tmpProfile: Path, stdout: string,
                         runProcess: ProcessRunner, parseJson: string -> Option<Json>): World
  {
    var written := WriteFileIn(w, ProfileRc(layoutDir, hash), stdout);
    var rooted := WithGcroot(written, tmpProfile, ProfilePath(layoutDir, hash), runProcess);
    var archived := SpawnNixIn(RemoveFileIn(rooted, tmpProfile), FlakeArchiveArgs);
    var diagnostic := InputPaths(runProcess, parseJson).1;
    if diagnostic.Some? then Eprintln(archived, diagnostic.value) else archived
  }

  /** `freshen_cache(layout_dir, hash, flake_specifier, other_args)`, run as process `pid`. */
  function Freshened(w: World, layoutDir: Path, hash: string, flakeSpecifier: string, otherArgs: seq<string>,
                     pid: nat, runProcess: ProcessRunner, parseJson: string -> Option<Json>): World
  {
    var cleaned := Cleaned(w, layoutDir);
    if InputsDir(layoutDir) in w.faults then cleaned
    else
      var tmp := TmpProfile(layoutDir, pid);
      var args := PrintDevEnvArgs(tmp, flakeSpecifier, otherArgs);
      var evaluated := SpawnNixIn(cleaned, args);
      if runProcess("nix", NixFixedArgs + args).0 != Success then ExitWith(Eprintln(evaluated, EvalFailed), 1)
      else Profiled(evaluated, layoutDir, hash, tmp, runProcess("nix", NixFixedArgs + args).1, runProcess, parseJson)
  }

  method FreshenCache(w: World, layoutDir: Path, hash: string, flakeSpecifier: string, otherArgs: seq<string>,
                      pid: nat, runProcess: ProcessRunner, parseJson: string -> Option<Json>)
    returns (w': World)
    ensures w' == Freshened(w, layoutDir, hash, flakeSpecifier, otherArgs, pid, runProcess, parseJson)
  {
    w' := CleanOldGcroots(w, layoutDir);
    if w'.status.Panicked? && InputsDir(layoutDir) in w.faults {
      return;
    }
    var tmp := TmpProfile(layoutDir, pid);
    var args := PrintDevEnvArgs(tmp, flakeSpecifier, otherArgs);
    var exitCode, stdout := Nix(args, runProcess);
    w' := SpawnNixIn(w', args);
    if exitCode != Success {
      w' := ExitWith(Eprintln(w', EvalFailed), 1);
      return;
    }
    w' := ProfileAndRoot(w', layoutDir, hash, tmp, stdout, runProcess, parseJson);
  }

  /** The success arm of `freshen_cache`: write the profile, root it, root the inputs, print. */
  method ProfileAndRoot(w: World, layoutDir: Path, hash: string, tmpProfile: Path, stdout: string,
                        runProcess: ProcessRunner, parseJson: string -> Option<Json>)
    returns (w': World)
    ensures w' == Profiled(w, layoutDir, hash, tmpProfile, stdout, runProcess, parseJson)
  {
    var profile := ProfilePath(layoutDir, hash);
    var profileRc := ProfileRc(layoutDir, hash);
    w' := WriteFileIn(w, profileRc, stdout);
    if profileRc in w.faults {
      w' := ExitWith(Eprintln(w', WriteProfileFailed + w.faults[profileRc]), 1);
      return;
    }
    var rooted;
    w', rooted := AddGcroot(w', tmpProfile, profile, runProcess);
    if rooted.Err? {
      w' := ExitWith(Eprintln(w', GcrootFailed + rooted.error), 1);
      return;
    }
    w' := RemoveFileIn(w', tmpProfile);
    var inputs, diagnostic := GetInputPaths(runProcess, parseJson);
    w' := SpawnNixIn(w', FlakeArchiveArgs);
    if diagnostic.Some? {
      w' := Eprintln(w', diagnostic.value);
    }
    assert w' == ProfileRooted(w, layoutDir, hash, tmpProfile, stdout, runProcess, parseJson);
    ghost var reported := w';
    for i := 0 to |inputs|
      invariant w' == InputRoots(reported, layoutDir, inputs[..i], runProcess)
    {
      var storePath := "/nix/store/" + inputs[i];
      var symlink := InputsDir(layoutDir) + inputs[i];
      var added;
      w', added := AddGcroot(w', storePath, symlink, runProcess);
      if added.Err? {
        w' := Eprintln(w', InputGcrootFailed + added.error);
      }
      assert inputs[..i + 1][..i] == inputs[..i];
    }
    assert inputs[..|inputs|] == inputs;
    w' := PrintCurCache(w', profileRc);
  }

  // ---- properties of freshen_cache ----

  /** The temporary profile sits beside the layout directory, not in it, so no clean removes it. */
  lemma TmpProfileBesideLayout(layoutDir: Path, pid: nat)
    requires |layoutDir| > 0 && layoutDir[|layoutDir| - 1] != '/'
    ensures !Under(TmpProfile(layoutDir, pid), layoutDir)
  {
    var tmp := TmpProfile(layoutDir, pid);
    assert tmp[|layoutDir|] == 'f';
  }

  /** The flake-input roots touch only links and the log, and only add to the log. */
  lemma {:induction false} InputRootsFrame(w: World, layoutDir: Path, inputs: seq<string>, runProcess: ProcessRunner)
    ensures var w' := InputRoots(w, layoutDir, inputs, runProcess);
      && w'.files == w.files && w'.dirs == w.dirs && w'.faults == w.faults && w'.status == w.status
      && |w'.trace| >= |w.trace| && w'.trace[..|w.trace|] == w.trace
    decreases |inputs|
  {
    if |inputs| > 0 {
      InputRootsFrame(w, layoutDir, inputs[..|inputs| - 1], runProcess);
    }
  }

  function InputRootSpawn(layoutDir: Path, input: string): Effect {
    Spawn("nix", NixFixedArgs + GcrootArgs("/nix/store/" + input, InputsDir(layoutDir) + input))
  }

  /** What one input's attempt shows: its `nix build`, then the error line if that build fails. */
  function InputRootEffects(layoutDir: Path, input: string, runProcess: ProcessRunner): seq<Effect> {
    [InputRootSpawn(layoutDir, input)] +
    if GcrootResult("/nix/store/" + input, InputsDir(layoutDir) + input, runProcess).Err?
    then [Stderr(InputGcrootFailed + NixBuildFailed)] else []
  }

  /** The attempts for the inputs one after another, first input first. */
  function AttemptsInOrder(layoutDir: Path, inputs: seq<string>, runProcess: ProcessRunner): seq<Effect>
    decreases |inputs|
  {
    if |inputs| == 0 then []
    else InputRootEffects(layoutDir, inputs[0], runProcess) + AttemptsInOrder(layoutDir, inputs[1..], runProcess)
  }

  lemma {:induction false} AttemptsInOrderSnoc(layoutDir: Path, inputs: seq<string>, last: string,
                                               runProcess: ProcessRunner)
    ensures AttemptsInOrder(layoutDir, inputs + [last], runProcess)
         == AttemptsInOrder(layoutDir, inputs, runProcess) + InputRootEffects(layoutDir, last, runProcess)
    decreases |inputs|
  {
    if |inputs| == 0 {
      assert inputs + [last] == [last];
      assert [last][1..] == [];
    } else {
      assert (inputs + [last])[0] == inputs[0];
      assert (inputs + [last])[1..] == inputs[1..] + [last];
      AttemptsInOrderSnoc(layoutDir, inputs[1..], last, runProcess);
    }
  }

  /** The input loop's log is exactly the attempts in input order, after what was there. */
  lemma {:induction false} InputRootsLog(w: World, layoutDir: Path, inputs: seq<string>, runProcess: ProcessRunner)
    ensures InputRoots(w, layoutDir, inputs, runProcess).trace == w.trace + AttemptsInOrder(layoutDir, inputs, runProcess)
    decreases |inputs|
  {
    if |inputs| > 0 {
      var init := inputs[..|inputs| - 1];
      var last := inputs[|inputs| - 1];
      InputRootsLog(w, layoutDir, init, runProcess);
      AttemptsInOrderSnoc(layoutDir, init, last, runProcess);
      assert init + [last] == inputs;
    }
  }

  /** Every input's `nix build` is in the log of the input loop. */
  lemma {:induction false} InputRootsSpawns(w: World, layoutDir: Path, inputs: seq<string>, runProcess: ProcessRunner)
    ensures var w' := InputRoots(w, layoutDir, inputs, runProcess);
      forall k | 0 <= k < |inputs| :: InputRootSpawn(layoutDir, inputs[k]) in w'.trace
    decreases |inputs|
  {
    if |inputs| > 0 {
      var init := inputs[..|inputs| - 1];
      var last := inputs[|inputs| - 1];
      InputRootsSpawns(w, layoutDir, init, runProcess);
      var before := InputRoots(w, layoutDir, init, runProcess);
      var w' := InputRoots(w, layoutDir, inputs, runProcess);
      assert w' == InputRoot(before, layoutDir, last, runProcess);
      assert |w'.trace| > |before.trace| && w'.trace[|before.trace|] == InputRootSpawn(layoutDir, last);
      assert forall e | e in before.trace :: e in w'.trace;
      forall k | 0 <= k < |inputs|
        ensures InputRootSpawn(layoutDir, inputs[k]) in w'.trace
      {
        if k < |init| {
          assert inputs[k] == init[k];
        }
      }
    }
  }

  /**
   * Each input whose build succeeds is rooted at `<layout>/flake-inputs/<input>`, pointing
   * at `/nix/store/<input>`; every other link is one that was there before.
   */
  lemma {:induction false} InputRootsLinks(w: World, layoutDir: Path, inputs: seq<string>, runProcess: ProcessRunner)
    ensures var w' := InputRoots(w, layoutDir, inputs, runProcess);
      && (forall k | 0 <= k < |inputs| && GcrootResult("/nix/store/" + inputs[k], InputsDir(layoutDir) + inputs[k], runProcess).Ok? ::
            InputsDir(layoutDir) + inputs[k] in w'.links && w'.links[InputsDir(layoutDir) + inputs[k]] == "/nix/store/" + inputs[k])
      && (forall p | p in w'.links :: (p in w.links && w'.links[p] == w.links[p]) ||
            exists k | 0 <= k < |inputs| :: p == InputsDir(layoutDir) + inputs[k])
    decreases |inputs|
  {
    if |inputs| > 0 {
      var init := inputs[..|inputs| - 1];
      var last := inputs[|inputs| - 1];
      InputRootsLinks(w, layoutDir, init, runProcess);
      var before := InputRoots(w, layoutDir, init, runProcess);
      var w' := InputRoots(w, layoutDir, inputs, runProcess);
      assert w' == InputRoot(before, layoutDir, last, runProcess);
      forall p | p in w'.links
        ensures (p in w.links && w'.links[p] == w.links[p]) || exists k | 0 <= k < |inputs| :: p == InputsDir(layoutDir) + inputs[k]
      {
        if p == InputsDir(layoutDir) + last {
          assert p == InputsDir(layoutDir) + inputs[|inputs| - 1];
        } else {
          assert p in before.links && w'.links[p] == before.links[p];
          if !(p in w.links && before.links[p] == w.links[p]) {
            var k :| 0 <= k < |init| && p == InputsDir(layoutDir) + init[k];
            assert p == InputsDir(layoutDir) + inputs[k];
          }
        }
      }
      forall k | 0 <= k < |inputs| && GcrootResult("/nix/store/" + inputs[k], InputsDir(layoutDir) + inputs[k], runProcess).Ok?
        ensures InputsDir(layoutDir) + inputs[k] in w'.links && w'.links[InputsDir(layoutDir) + inputs[k]] == "/nix/store/" + inputs[k]
      {
        if k < |init| {
          assert inputs[k] == init[k];
          var p := InputsDir(layoutDir) + inputs[k];
          if p != InputsDir(layoutDir) + last {
            assert w'.links[p] == before.links[p];
          } else {
            assert inputs[k] == last by {
              assert |InputsDir(layoutDir) + inputs[k]| == |InputsDir(layoutDir) + last|;
              assert (InputsDir(layoutDir) + inputs[k])[|InputsDir(layoutDir)|..] == inputs[k];
            }
          }
        }
      }
    }
  }

  /**
   * The flake-input loop: every input gets its `nix build` attempt, in input order; a
   * failure prints its error line and does not stop the loop; each input whose build
   * succeeds is rooted at `<layout>/flake-inputs/<input>`, pointing at `/nix/store/<input>`;
   * every other link is one that was there before.
   */
  lemma InputRootsEach(w: World, layoutDir: Path, inputs: seq<string>, runProcess: ProcessRunner)
    ensures InputRoots(w, layoutDir, inputs, runProcess).trace == w.trace + AttemptsInOrder(layoutDir, inputs, runProcess)
    ensures var w' := InputRoots(w, layoutDir, inputs, runProcess);
      && (forall k | 0 <= k < |inputs| :: InputRootSpawn(layoutDir, inputs[k]) in w'.trace)
      && (forall k | 0 <= k < |inputs| && GcrootResult("/nix/store/" + inputs[k], InputsDir(layoutDir) + inputs[k], runProcess).Ok? ::
            InputsDir(layoutDir) + inputs[k] in w'.links && w'.links[InputsDir(layoutDir) + inputs[k]] == "/nix/store/" + inputs[k])
      && (forall p | p in w'.links :: (p in w.links && w'.links[p] == w.links[p]) ||
            exists k | 0 <= k < |inputs| :: p == InputsDir(layoutDir) + inputs[k])
  {
    InputRootsLog(w, layoutDir, inputs, runProcess);
    InputRootsSpawns(w, layoutDir, inputs, runProcess);
    InputRootsLinks(w, layoutDir, inputs, runProcess);
  }

  /**
   * An evaluation failure exits 1 having written no `.rc` file and rooted no profile; an
   * `.rc` file or root at those paths is left only when the layout path is empty, which
   * the clean does not remove.
   */
  lemma FreshenEvalFailure(w: World, layoutDir: Path, hash: string, flakeSpecifier: string, otherArgs: seq<string>,
                           pid: nat, runProcess: ProcessRunner, parseJson: string -> Option<Json>)
    requires InputsDir(layoutDir) !in w.faults
    requires runProcess("nix", NixFixedArgs + PrintDevEnvArgs(TmpProfile(layoutDir, pid), flakeSpecifier, otherArgs)).0 != Success
    ensures var w' := Freshened(w, layoutDir, hash, flakeSpecifier, otherArgs, pid, runProcess, parseJson);
      && w'.status == Exited(1)
      && (ProfileRc(layoutDir, hash) in w'.files <==> layoutDir == "" && ProfileRc(layoutDir, hash) in w.files)
      && (ProfilePath(layoutDir, hash) in w'.links <==> layoutDir == "" && ProfilePath(layoutDir, hash) in w.links)
      && w'.trace == w.trace + [RemoveDirAll(layoutDir), CreateDirAll(InputsDir(layoutDir)),
                                Spawn("nix", NixFixedArgs + PrintDevEnvArgs(TmpProfile(layoutDir, pid), flakeSpecifier, otherArgs)),
                                Stderr(EvalFailed)]
  {
    if layoutDir != "" {
      UnderLayout(layoutDir, "flake-profile-" + hash + ".rc");
      assert ProfileRc(layoutDir, hash) == layoutDir + "/" + ("flake-profile-" + hash + ".rc");
      UnderLayout(layoutDir, "flake-profile-" + hash);
      assert ProfilePath(layoutDir, hash) == layoutDir + "/" + ("flake-profile-" + hash);
    }
  }

  /** What `nix print-dev-env` reports for this run. */
  function PrintDevEnv(layoutDir: Path, pid: nat, flakeSpecifier: string, otherArgs: seq<string>,
                       runProcess: ProcessRunner): (ExitStatus, string)
  {
    runProcess("nix", NixFixedArgs + PrintDevEnvArgs(TmpProfile(layoutDir, pid), flakeSpecifier, otherArgs))
  }

  /** The first three steps of every evaluation: the clean and the `print-dev-env` spawn. */
  function EvalEffects(layoutDir: Path, pid: nat, flakeSpecifier: string, otherArgs: seq<string>): seq<Effect> {
    [RemoveDirAll(layoutDir), CreateDirAll(InputsDir(layoutDir)),
     Spawn("nix", NixFixedArgs + PrintDevEnvArgs(TmpProfile(layoutDir, pid), flakeSpecifier, otherArgs))]
  }

  /** The temporary profile, the `.rc` file, the profile root and the input roots are four different paths. */
  lemma CachePathsDistinct(layoutDir: Path, hash: string, pid: nat, input: string)
    ensures TmpProfile(layoutDir, pid) != ProfileRc(layoutDir, hash)
    ensures TmpProfile(layoutDir, pid) != ProfilePath(layoutDir, hash)
    ensures TmpProfile(layoutDir, pid) != InputsDir(layoutDir) + input
    ensures ProfilePath(layoutDir, hash) != InputsDir(layoutDir) + input
    ensures ProfilePath(layoutDir, hash) != ProfileRc(layoutDir, hash)
  {
    var n := |layoutDir|;
    assert TmpProfile(layoutDir, pid)[n] == 'f';
    assert ProfileRc(layoutDir, hash)[n] == '/';
    assert ProfilePath(layoutDir, hash)[n] == '/';
    assert (InputsDir(layoutDir) + input)[n] == '/';
    assert ProfilePath(layoutDir, hash)[n + 7] == 'p';
    assert (InputsDir(layoutDir) + input)[n + 7] == 'i';
    assert |ProfileRc(layoutDir, hash)| == |ProfilePath(layoutDir, hash)| + 3;
  }

  /**
   * A failure to write the `.rc` file exits 1 before any GC root is attempted; as after an
   * evaluation failure, older cache files survive only under an empty layout path.
   */
  lemma FreshenWriteFailure(w: World, layoutDir: Path, hash: string, flakeSpecifier: string, otherArgs: seq<string>,
                            pid: nat, runProcess: ProcessRunner, parseJson: string -> Option<Json>)
    requires InputsDir(layoutDir) !in w.faults
    requires PrintDevEnv(layoutDir, pid, flakeSpecifier, otherArgs, runProcess).0 == Success
    requires ProfileRc(layoutDir, hash) in w.faults
    ensures var w' := Freshened(w, layoutDir, hash, flakeSpecifier, otherArgs, pid, runProcess, parseJson);
      var stdout := PrintDevEnv(layoutDir, pid, flakeSpecifier, otherArgs, runProcess).1;
      && w'.status == Exited(1)
      && (ProfileRc(layoutDir, hash) in w'.files <==> layoutDir == "" && ProfileRc(layoutDir, hash) in w.files)
      && (ProfilePath(layoutDir, hash) in w'.links <==> layoutDir == "" && ProfilePath(layoutDir, hash) in w.links)
      && w'.trace == w.trace + EvalEffects(layoutDir, pid, flakeSpecifier, otherArgs) +
                     [Write(ProfileRc(layoutDir, hash), stdout),
                      Stderr(WriteProfileFailed + w.faults[ProfileRc(layoutDir, hash)])]
  {
    if layoutDir != "" {
      UnderLayout(layoutDir, "flake-profile-" + hash + ".rc");
      assert ProfileRc(layoutDir, hash) == layoutDir + "/" + ("flake-profile-" + hash + ".rc");
      UnderLayout(layoutDir, "flake-profile-" + hash);
      assert ProfilePath(layoutDir, hash) == layoutDir + "/" + ("flake-profile-" + hash);
    }
  }

  /**
   * A failure to root the profile exits 1 with the `.rc` file already written: the write
   * comes before the `nix build` in the log, and no profile root exists unless an empty
   * layout path left an older one in place.
   */
  lemma FreshenGcrootFailure(w: World, layoutDir: Path, hash: string, flakeSpecifier: string, otherArgs: seq<string>,
                             pid: nat, runProcess: ProcessRunner, parseJson: string -> Option<Json>)
    requires InputsDir(layoutDir) !in w.faults
    requires PrintDevEnv(layoutDir, pid, flakeSpecifier, otherArgs, runProcess).0 == Success
    requires ProfileRc(layoutDir, hash) !in w.faults
    requires GcrootResult(TmpProfile(layoutDir, pid), ProfilePath(layoutDir, hash), runProcess).Err?
    ensures var w' := Freshened(w, layoutDir, hash, flakeSpecifier, otherArgs, pid, runProcess, parseJson);
      var stdout := PrintDevEnv(layoutDir, pid, flakeSpecifier, otherArgs, runProcess).1;
      && w'.status == Exited(1)
      && ProfileRc(layoutDir, hash) in w'.files && w'.files[ProfileRc(layoutDir, hash)] == stdout
      && (ProfilePath(layoutDir, hash) in w'.links <==> layoutDir == "" && ProfilePath(layoutDir, hash) in w.links)
      && w'.trace == w.trace + EvalEffects(layoutDir, pid, flakeSpecifier, otherArgs) +
                     [Write(ProfileRc(layoutDir, hash), stdout),
                      Spawn("nix", NixFixedArgs + GcrootArgs(TmpProfile(layoutDir, pid), ProfilePath(layoutDir, hash))),
                      Stderr(GcrootFailed + NixBuildFailed)]
  {
    if layoutDir != "" {
      UnderLayout(layoutDir, "flake-profile-" + hash);
      assert ProfilePath(layoutDir, hash) == layoutDir + "/" + ("flake-profile-" + hash);
    }
  }

  /**
   * A successful run leaves the `print-dev-env` output in `<layout>/flake-profile-<hash>.rc`,
   * the root `<layout>/flake-profile-<hash>` pointing at the temporary profile, the
   * temporary profile itself gone, every flake input attempted, the process running, and
   * the cached text printed last.
   */
  lemma FreshenSuccess(w: World, layoutDir: Path, hash: string, flakeSpecifier: string, otherArgs: seq<string>,
                       pid: nat, runProcess: ProcessRunner, parseJson: string -> Option<Json>)
    requires InputsDir(layoutDir) !in w.faults
    requires PrintDevEnv(layoutDir, pid, flakeSpecifier, otherArgs, runProcess).0 == Success
    requires ProfileRc(layoutDir, hash) !in w.faults
    requires GcrootResult(TmpProfile(layoutDir, pid), ProfilePath(layoutDir, hash), runProcess).Ok?
    ensures var w' := Freshened(w, layoutDir, hash, flakeSpecifier, otherArgs, pid, runProcess, parseJson);
      var stdout := PrintDevEnv(layoutDir, pid, flakeSpecifier, otherArgs, runProcess).1;
      var tmp := TmpProfile(layoutDir, pid);
      && w'.status == w.status
      && ProfileRc(layoutDir, hash) in w'.files && w'.files[ProfileRc(layoutDir, hash)] == stdout
      && ProfilePath(layoutDir, hash) in w'.links && w'.links[ProfilePath(layoutDir, hash)] == tmp
      && tmp !in w'.files && tmp !in w'.links
      && (forall k | 0 <= k < |InputPaths(runProcess, parseJson).0| ::
            InputRootSpawn(layoutDir, InputPaths(runProcess, parseJson).0[k]) in w'.trace)
      && |w'.trace| >= |w.trace| + 7
      && w'.trace[..|w.trace| + 7] == w.trace + EvalEffects(layoutDir, pid, flakeSpecifier, otherArgs) +
                     [Write(ProfileRc(layoutDir, hash), stdout),
                      Spawn("nix", NixFixedArgs + GcrootArgs(tmp, ProfilePath(layoutDir, hash))),
                      RemoveFile(tmp),
                      Spawn("nix", NixFixedArgs + FlakeArchiveArgs)]
      && w'.trace[|w'.trace| - 1] == Stdout(stdout)
  {
    var stdout := PrintDevEnv(layoutDir, pid, flakeSpecifier, otherArgs, runProcess).1;
    var tmp := TmpProfile(layoutDir, pid);
    var evaluated := SpawnNixIn(Cleaned(w, layoutDir), PrintDevEnvArgs(tmp, flakeSpecifier, otherArgs));
    assert evaluated.trace == w.trace + EvalEffects(layoutDir, pid, flakeSpecifier, otherArgs);
    ProfileRootedState(evaluated, layoutDir, hash, pid, stdout, runProcess, parseJson);
    var inputs := InputPaths(runProcess, parseJson).0;
    var rooted := ProfileRooted(evaluated, layoutDir, hash, tmp, stdout, runProcess, parseJson);
    InputRootsKeepProfile(rooted, layoutDir, hash, pid, inputs, runProcess);
  }

  /** The state just before the input loop, on the path where every step succeeds. */
  lemma ProfileRootedState(w: World, layoutDir: Path, hash: string, pid: nat, stdout: string,
                           runProcess: ProcessRunner, parseJson: string -> Option<Json>)
    requires ProfileRc(layoutDir, hash) !in w.faults
    requires GcrootResult(TmpProfile(layoutDir, pid), ProfilePath(layoutDir, hash), runProcess).Ok?
    ensures var tmp := TmpProfile(layoutDir, pid);
      var w' := ProfileRooted(w, layoutDir, hash, tmp, stdout, runProcess, parseJson);
      && w'.status == w.status
      && ProfileRc(layoutDir, hash) in w'.files && w'.files[ProfileRc(layoutDir, hash)] == stdout
      && ProfilePath(layoutDir, hash) in w'.links && w'.links[ProfilePath(layoutDir, hash)] == tmp
      && tmp !in w'.files && tmp !in w'.links
      && |w'.trace| >= |w.trace| + 4
      && w'.trace[..|w.trace| + 4] == w.trace +
                     [Write(ProfileRc(layoutDir, hash), stdout),
                      Spawn("nix", NixFixedArgs + GcrootArgs(tmp, ProfilePath(layoutDir, hash))),
                      RemoveFile(tmp),
                      Spawn("nix", NixFixedArgs + FlakeArchiveArgs)]
  {
    CachePathsDistinct(layoutDir, hash, pid, "");
  }

  /**
   * The input loop and the final print keep what the earlier steps made, run every input's
   * `nix build`, and end with the cached text on stdout.
   */
  lemma InputRootsKeepProfile(w: World, layoutDir: Path, hash: string, pid: nat, inputs: seq<string>,
                              runProcess: ProcessRunner)
    requires ProfileRc(layoutDir, hash) in w.files
    requires ProfilePath(layoutDir, hash) in w.links
    requires TmpProfile(layoutDir, pid) !in w.files && TmpProfile(layoutDir, pid) !in w.links
    ensures var w' := CurCachePrinted(InputRoots(w, layoutDir, inputs, runProcess), ProfileRc(layoutDir, hash));
      && w'.status == w.status
      && ProfileRc(layoutDir, hash) in w'.files && w'.files[ProfileRc(layoutDir, hash)] == w.files[ProfileRc(layoutDir, hash)]
      && ProfilePath(layoutDir, hash) in w'.links && w'.links[ProfilePath(layoutDir, hash)] == w.links[ProfilePath(layoutDir, hash)]
      && TmpProfile(layoutDir, pid) !in w'.files && TmpProfile(layoutDir, pid) !in w'.links
      && (forall k | 0 <= k < |inputs| :: InputRootSpawn(layoutDir, inputs[k]) in w'.trace)
      && |w'.trace| > |w.trace| && w'.trace[..|w.trace|] == w.trace
      && w'.trace[|w'.trace| - 1] == Stdout(w.files[ProfileRc(layoutDir, hash)])
  {
    var looped := InputRoots(w, layoutDir, inputs, runProcess);
    InputRootsFrame(w, layoutDir, inputs, runProcess);
    InputRootsEach(w, layoutDir, inputs, runProcess);
    forall k | 0 <= k < |inputs|
      ensures ProfilePath(layoutDir, hash) != InputsDir(layoutDir) + inputs[k]
      ensures TmpProfile(layoutDir, pid) != InputsDir(layoutDir) + inputs[k]
    {
      CachePathsDistinct(layoutDir, hash, pid, inputs[k]);
    }
    var w' := CurCachePrinted(looped, ProfileRc(layoutDir, hash));
    assert w'.trace == looped.trace + [Stdout(w.files[ProfileRc(layoutDir, hash)])];
    assert w'.trace[..|w.trace|] == looped.trace[..|w.trace|];
  }

  // ---- preflight ----

  const CreateDirFailed: string := "Failed to create directory: "

  /**
   * `preflight(layout_directory)`, given what `preflight_versions` returned: a version
   * error comes back unchanged and nothing is created; otherwise a missing layout
   * directory is created, and a failure to create it is reported.
   */
  function Preflighted(w: World, layoutDir: Path, versions: Result<Unit, string>): (World, Result<Unit, string>)
  {
    if versions.Err? then (w, versions)
    else if IsDirectory(w, layoutDir) then (w, Ok(Unit))
    else
      match CreateDirAllResult(w, layoutDir)
      case Ok(_) => (CreateDirAllIn(w, layoutDir), Ok(Unit))
      case Err(e) => (CreateDirAllIn(w, layoutDir), Err(CreateDirFailed + e))
  }

  method Preflight(w: World, layoutDir: Path, inDirenv: bool, nixVersion: Result<Version, string>,
                   direnvVersion: Result<Version, string>)
    returns (w': World, r: Result<Unit, string>)
    ensures (w', r) == Preflighted(w, layoutDir, PreflightVersions(inDirenv, nixVersion, direnvVersion))
  {
    var versions := PreflightVersions(inDirenv, nixVersion, direnvVersion);
    var isDir := IsDirectory(w, layoutDir);
    if versions.Err? {
      w', r := w, versions;
    } else if isDir {
      w', r := w, Ok(Unit);
    } else {
      var created := CreateDirAllResult(w, layoutDir);
      w' := CreateDirAllIn(w, layoutDir);
      match created
      case Ok(_) => r := Ok(Unit);
      case Err(e) => r := Err(CreateDirFailed + e);
    }
  }

  /**
   * What preflight guarantees: it succeeds exactly when the versions pass and the layout
   * directory exists or can be made, and then the directory exists; it only ever adds
   * that directory; every error is the version error or the creation error.  An empty
   * layout path passes without anything being created, as `create_dir_all("")` does.
   */
  lemma PreflightedOutcome(w: World, layoutDir: Path, versions: Result<Unit, string>)
    ensures var (w', r) := Preflighted(w, layoutDir, versions);
      && (versions.Err? ==> w' == w && r == versions)
      && (r.Ok? <==> versions.Ok? && (layoutDir == "" || IsDirectory(w, layoutDir) || layoutDir !in w.faults))
      && (r.Ok? && layoutDir != "" ==> IsDirectory(w', layoutDir))
      && (layoutDir == "" ==> w'.dirs == w.dirs)
      && (versions.Ok? && r.Err? ==> r.error == CreateDirFailed + w.faults[layoutDir])
      && w'.files == w.files && w'.links == w.links && w'.status == w.status
      && w.dirs <= w'.dirs <= w.dirs + {layoutDir}
      && w'.trace == if versions.Err? || IsDirectory(w, layoutDir) then w.trace else w.trace + [CreateDirAll(layoutDir)]
  {
    var (w', r) := Preflighted(w, layoutDir, versions);
    if versions.Ok? && layoutDir != "" && !IsDirectory(w, layoutDir) && layoutDir !in w.faults {
      assert layoutDir in w'.dirs && Under(layoutDir, layoutDir);
    }
  }
}
