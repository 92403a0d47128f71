/**
 * Process and file helpers of the cache program: the exit status of a child process,
 * the fixed arguments every `nix` call gets, the content fingerprint of the watched
 * files, and the split of the command line.
 */
module Util {
  import opened Wrappers

  newtype byte = x: int | 0 <= x < 0x100
  newtype i32 = x: int | -0x8000_0000 <= x < 0x8000_0000
  newtype i64 = x: int | -0x8000_0000_0000_0000 <= x < 0x8000_0000_0000_0000

  type Path = string

  /** Success, or a failure with the exit code (-1 when there is none or the spawn failed). */
  datatype ExitStatus = Success | Failure(code: i32)

  /** `run_process(name, args)`: the exit status and the captured stdout of a child process. */
  type ProcessRunner = (string, seq<string>) -> (ExitStatus, string)

  const NixFixedArgs: seq<string> := ["--extra-experimental-features", "nix-command flakes"]

  /** The argument vector of `nix(args)`: the two fixed flags, then `args` appended one by one. */
  method NixArgv(args: seq<string>) returns (nixArgs: seq<string>)
    ensures |nixArgs| == |args| + 2
    ensures nixArgs[0] == "--extra-experimental-features" && nixArgs[1] == "nix-command flakes"
    ensures nixArgs[2..] == args
  {
    nixArgs := ["--extra-experimental-features", "nix-command flakes"];
    for i := 0 to |args|
      invariant nixArgs == NixFixedArgs + args[..i]
    {
      nixArgs := nixArgs + [args[i]];
    }
    assert args[..|args|] == args;
  }

  /** `nix(args)`: runs the program `nix` with the fixed flags followed by `args`. */
  method Nix(args: seq<string>, runProcess: ProcessRunner) returns (status: ExitStatus, stdout: string)
    ensures (status, stdout) == runProcess("nix", NixFixedArgs + args)
  {
    var argv := NixArgv(args);
    assert argv == NixFixedArgs + args;
    var output := runProcess("nix", argv);
    status, stdout := output.0, output.1;
  }

  // ---------------------------------------------------------------------------
  // hash_files
  // ---------------------------------------------------------------------------

  /**
   * The files the fingerprint can see: a path is in the map iff it exists, and maps to
   * the outcome of reading it (its bytes, or the text of the read error).
   */
  type FileContents = map<Path, Result<seq<byte>, string>>

  /** The existing paths among `paths`, in order, repeats kept. */
  function Existing(paths: seq<Path>, fs: FileContents): seq<Path>
  {
    if |paths| == 0 then []
    else
      var init := Existing(paths[..|paths| - 1], fs);
      if paths[|paths| - 1] in fs then init + [paths[|paths| - 1]] else init
  }

  /** Feeding the files to the hasher in order; the first unreadable one stops it. */
  function ReadAll(paths: seq<Path>, fs: FileContents): Result<seq<byte>, string>
    requires forall p | p in paths :: p in fs
  {
    if |paths| == 0 then Ok([])
    else
      var last := paths[|paths| - 1];
      match ReadAll(paths[..|paths| - 1], fs)
      case Err(e) => Err(e)
      case Ok(fed) =>
        match fs[last]
        case Ok(content) => Ok(fed + content)
        case Err(e) => Err("Failed to read file " + last + ": " + e)
  }

  lemma {:induction false} ExistingExists(paths: seq<Path>, fs: FileContents)
    ensures forall p | p in Existing(paths, fs) :: p in fs && p in paths
  {
    if |paths| > 0 {
      ExistingExists(paths[..|paths| - 1], fs);
      assert forall p | p in paths[..|paths| - 1] :: p in paths;
    }
  }

  /** What `hash_files` returns, stated over the existing files. */
  function HashFilesSpec(paths: seq<Path>, fs: FileContents, sha1Hex: seq<byte> -> string): Result<string, string>
  {
    var files := Existing(paths, fs);
    if |files| == 0 then Err("No files found to hash")
    else
      ExistingExists(paths, fs);
      match ReadAll(files, fs)
      case Err(e) => Err(e)
      case Ok(fed) => Ok(sha1Hex(fed))
  }

  lemma {:induction false} ReadAllStaysFailed(a: seq<Path>, b: seq<Path>, fs: FileContents)
    requires forall p | p in a + b :: p in fs
    requires ReadAll(a, fs).Err?
    ensures ReadAll(a + b, fs) == ReadAll(a, fs)
  {
    if |b| > 0 {
      var b' := b[..|b| - 1];
      assert (a + b)[..|a + b| - 1] == a + b';
      assert forall p | p in a + b' :: p in a + b;
      ReadAllStaysFailed(a, b', fs);
      assert ReadAll((a + b)[..|a + b| - 1], fs).Err?;
    } else {
      assert a + b == a;
    }
  }

  /**
   * `hash_files`: collect the existing paths (reporting the others), fail when none is
   * left, then feed each file's bytes to one SHA-1 hasher in order, stopping at the first
   * read failure; the hex digest is `sha1Hex` of everything fed.
   */
  method HashFiles(filenames: seq<Path>, fs: FileContents, sha1Hex: seq<byte> -> string)
    returns (r: Result<string, string>)
    ensures r == HashFilesSpec(filenames, fs, sha1Hex)
  {
    var filesToHash: seq<Path> := [];
    for i := 0 to |filenames|
      invariant filesToHash == Existing(filenames[..i], fs)
    {
      assert filenames[..i + 1][..i] == filenames[..i];
      if filenames[i] in fs {
        filesToHash := filesToHash + [filenames[i]];
      }
    }
    assert filenames[..|filenames|] == filenames;
    if |filesToHash| == 0 {
      return Err("No files found to hash");
    }
    ExistingExists(filenames, fs);
    var fed: seq<byte> := [];
    for i := 0 to |filesToHash|
      invariant ReadAll(filesToHash[..i], fs) == Ok(fed)
    {
      var f := filesToHash[i];
      assert filesToHash[..i + 1][..i] == filesToHash[..i];
      match fs[f]
      case Ok(content) =>
        fed := fed + content;
      case Err(e) =>
        ReadAllStaysFailed(filesToHash[..i + 1], filesToHash[i + 1..], fs);
        assert filesToHash[..i + 1] + filesToHash[i + 1..] == filesToHash;
        return Err("Failed to read file " + f + ": " + e);
    }
    assert filesToHash[..|filesToHash|] == filesToHash;
    r := Ok(sha1Hex(fed));
  }

  /** The bytes of the files in order, a repeated path counted each time. */
  function Concat(paths: seq<Path>, fs: FileContents): seq<byte>
    requires forall p | p in paths :: p in fs && fs[p].Ok?
  {
    if |paths| == 0 then [] else fs[paths[0]].value + Concat(paths[1..], fs)
  }

  lemma {:induction false} ConcatSnoc(paths: seq<Path>, fs: FileContents)
    requires |paths| > 0
    requires forall p | p in paths :: p in fs && fs[p].Ok?
    ensures Concat(paths, fs) == Concat(paths[..|paths| - 1], fs) + fs[paths[|paths| - 1]].value
  {
    if |paths| > 1 {
      ConcatSnoc(paths[1..], fs);
      assert paths[1..][..|paths[1..]| - 1] == paths[..|paths| - 1][1..];
    }
  }

  lemma {:induction false} ReadAllConcat(paths: seq<Path>, fs: FileContents)
    requires forall p | p in paths :: p in fs && fs[p].Ok?
    ensures ReadAll(paths, fs) == Ok(Concat(paths, fs))
  {
    if |paths| > 0 {
      assert forall p | p in paths[..|paths| - 1] :: p in paths;
      ReadAllConcat(paths[..|paths| - 1], fs);
      ConcatSnoc(paths, fs);
    }
  }

  /** Fingerprinting fails with "No files found to hash" exactly when no input path exists. */
  lemma {:induction false} HashFilesNoFiles(paths: seq<Path>, fs: FileContents, sha1Hex: seq<byte> -> string)
    ensures HashFilesSpec(paths, fs, sha1Hex) == Err("No files found to hash")
            <==> forall p | p in paths :: p !in fs
  {
    ExistingEmpty(paths, fs);
    var files := Existing(paths, fs);
    if |files| > 0 {
      ExistingExists(paths, fs);
      match ReadAll(files, fs)
      case Ok(_) =>
      case Err(_) =>
        ReadAllErrorNamesFile(files, fs);
        var p, e :| p in files && ReadAll(files, fs).error == "Failed to read file " + p + ": " + e;
        assert ReadAll(files, fs).error[0] == 'F';
    }
  }

  lemma {:induction false} ExistingEmpty(paths: seq<Path>, fs: FileContents)
    ensures Existing(paths, fs) == [] <==> forall p | p in paths :: p !in fs
  {
    if |paths| > 0 {
      ExistingEmpty(paths[..|paths| - 1], fs);
      assert paths == paths[..|paths| - 1] + [paths[|paths| - 1]];
    }
  }

  lemma {:induction false} ReadAllErrorNamesFile(paths: seq<Path>, fs: FileContents)
    requires forall p | p in paths :: p in fs
    requires ReadAll(paths, fs).Err?
    ensures exists p, e | p in paths :: ReadAll(paths, fs).error == "Failed to read file " + p + ": " + e
  {
    var last := paths[|paths| - 1];
    assert forall p | p in paths[..|paths| - 1] :: p in paths;
    if ReadAll(paths[..|paths| - 1], fs).Err? {
      ReadAllErrorNamesFile(paths[..|paths| - 1], fs);
    } else {
      assert last in paths;
    }
  }

  lemma {:induction false} ExistingAppend(a: seq<Path>, b: seq<Path>, fs: FileContents)
    ensures Existing(a + b, fs) == Existing(a, fs) + Existing(b, fs)
  {
    if |b| == 0 {
      assert a + b == a;
    } else {
      var b' := b[..|b| - 1];
      assert (a + b)[..|a + b| - 1] == a + b';
      ExistingAppend(a, b', fs);
    }
  }

  /** A missing path anywhere in the input changes nothing about the fingerprint. */
  lemma HashFilesSkipsMissing(a: seq<Path>, missing: Path, b: seq<Path>, fs: FileContents,
                              sha1Hex: seq<byte> -> string)
    requires missing !in fs
    ensures HashFilesSpec(a + [missing] + b, fs, sha1Hex) == HashFilesSpec(a + b, fs, sha1Hex)
  {
    ExistingAppend(a + [missing], b, fs);
    ExistingAppend(a, [missing], fs);
    ExistingAppend(a, b, fs);
    assert Existing([missing], fs) == [];
  }

  /**
   * When some path exists and every existing one is readable, the fingerprint is the hash
   * of the contents of the existing files concatenated in input order.
   */
  lemma HashFilesDigest(paths: seq<Path>, fs: FileContents, sha1Hex: seq<byte> -> string)
    requires exists p | p in paths :: p in fs
    requires forall p | p in paths && p in fs :: fs[p].Ok?
    ensures forall p | p in Existing(paths, fs) :: p in fs && fs[p].Ok?
    ensures HashFilesSpec(paths, fs, sha1Hex) == Ok(sha1Hex(Concat(Existing(paths, fs), fs)))
  {
    ExistingExists(paths, fs);
    ExistingEmpty(paths, fs);
    ReadAllConcat(Existing(paths, fs), fs);
  }

  /** Hashing the same readable file twice hashes its contents twice over. */
  lemma HashFilesTwice(f: Path, fs: FileContents, sha1Hex: seq<byte> -> string)
    requires f in fs && fs[f].Ok?
    ensures HashFilesSpec([f, f], fs, sha1Hex) == Ok(sha1Hex(fs[f].value + fs[f].value))
  {
    HashFilesDigest([f, f], fs, sha1Hex);
    assert Existing([f], fs) == [f] by {
      assert [f][..0] == [];
    }
    assert Existing([f, f], fs) == [f, f] by {
      assert [f, f][..1] == [f];
    }
    assert [f, f][1..] == [f];
    assert Concat([f], fs) == fs[f].value by {
      assert [f][1..] == [];
    }
  }

  /**
   * A read failure ends the fingerprint with an error naming the first unreadable existing
   * file and no digest, whatever follows it.
   */
  lemma HashFilesReadFailure(paths: seq<Path>, fs: FileContents, sha1Hex: seq<byte> -> string, i: nat)
    requires i < |Existing(paths, fs)|
    requires var files := Existing(paths, fs);
             files[i] in fs && fs[files[i]].Err? &&
             forall j | 0 <= j < i :: files[j] in fs && fs[files[j]].Ok?
    ensures var files := Existing(paths, fs);
            HashFilesSpec(paths, fs, sha1Hex) == Err("Failed to read file " + files[i] + ": " + fs[files[i]].error)
  {
    var files := Existing(paths, fs);
    ExistingExists(paths, fs);
    var head := files[..i];
    assert forall p | p in head :: p in fs && fs[p].Ok?;
    ReadAllConcat(head, fs);
    assert files[..i + 1][..i] == head;
    ReadAllStaysFailed(files[..i + 1], files[i + 1..], fs);
    assert files[..i + 1] + files[i + 1..] == files;
  }

  // ---------------------------------------------------------------------------
  // get_args
  // ---------------------------------------------------------------------------

  /**
   * `get_args`: with at least three arguments, the layout directory, the flake specifier
   * and the rest; the program name is dropped and nothing else is lost.
   */
  function GetArgs(argv: seq<string>): (r: Result<(string, string, seq<string>), Unit>)
    ensures r.Ok? <==> |argv| >= 3
    ensures r.Ok? ==> argv == [argv[0], r.value.0, r.value.1] + r.value.2
  {
    if |argv| >= 3 then Ok((argv[1], argv[2], argv[3..])) else Err(Unit)
  }
}
