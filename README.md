# envoluntary, modelled in Dafny

envoluntary is a direnv companion for nix flakes. At each shell prompt it computes which
environment variables to reset or set for the current directory. It also evaluates a
flake's development environment once and caches it under a *layout directory*. The cache
is keyed by a SHA-1 fingerprint of the watched files. The evaluated profile and every
flake input are pinned as nix GC roots, so the garbage collector keeps them.

This project models that logic and proves what each piece promises. There is one Dafny
module per source file:

- `EnvHooks` (env-hooks/src/lib.rs) — the environment-diff engine:
  - the stale-entry diff and the reset plan;
  - the ordered, de-duplicating merge of delimited values such as `PATH`;
  - the table of ignored variables;
  - the parser for the NUL-separated dump that `env -0` writes;
  - the exit-status check.
- `DirectoryState` (env-hooks/tests/state.rs) — the typestate protocol that takes a
  directory from "current dir" to "rc files matched" to "marker read" to one of three
  terminal operations. The repository's three workflow tests pin down its happy paths. The
  implementation of that protocol is not part of this model, so its error arms are this
  model's choice: `GetCurrentDir` and `MatchRcs` pass an error on, and a failed reset in
  `ResetAndSetNewEnvStateVar` skips the set.
- `Versions` (src/cache/versions.rs) — version ordering, the "new enough" check, the
  priority-ordered preflight decision and the outcome of `--version` probing.
- `Util` (src/util.rs) — argument splitting, the `nix` command line, and the file
  fingerprint `hash_files`.
- `Watches` (src/watches.rs) — the extant-watch filter, the store-prefix strip, and the
  pre-order walk over `nix flake archive --json` output.
- `Cache` (src/cache.rs) — `clean_old_gcroots`, `add_gcroot`, `freshen_cache`,
  `print_cur_cache` and `preflight`.
- `Driver` (src/main.rs) — the argument → preflight → watches → fingerprint chain and the
  cache-hit decision.
- `Wrappers`, `Seqs` and `Text` are helpers:
  - `Result`/`Option`;
  - first index of an element in a sequence;
  - Rust's `split`, `split_once` and `join` on strings, with their round trips.

## How effects are modelled

- **Processes.** Running a process (`run_process`, and so every `nix` call) is a function
  parameter `runProcess: (program, args) -> (ExitStatus, stdout)`. Its answers are inputs
  to the model. `Util.Nix` proves which command line it receives.
- **SHA-1.** The hash is an uninterpreted function parameter `sha1Hex: seq<byte> -> string`.
- **Watched files.** Their existence and contents are a map parameter
  (`Util.FileContents`). A path that is present exists, and its value is the contents or
  the read error.
- **The host.** The filesystem, process and streams that `src/cache.rs` and `src/main.rs`
  act on are a `Cache.World` value. Every step takes a `World` and returns the next one.
  Its fields:
  - `files`: regular files and their text;
  - `links`: the symlinks `nix build --out-link` makes, each with its target;
  - `dirs`: directories;
  - `faults`: the io error the host reports for a write or directory creation at a path;
  - `trace`: every effect in order (spawn, remove-dir, create-dir, write, remove-file,
    stdout, stderr);
  - `status`: running, exited with a code, or panicked.
- **Spec functions and methods.** Each step is a specification function on `World`, such
  as `Cache.Freshened`, and a method that performs it step by step and is proved equal to
  it, such as `Cache.FreshenCache`. The lemmas about the specification functions state the
  ordering and failure properties.
- **Typestate.** The protocol states are one datatype, and each transition requires its
  source state. Callbacks are function parameters. The flags the repository's tests record
  with `Cell`/`RefCell` become a `calls` log in the `Run` result.
- **Integers and strings.** `i32` and `i64` are range-restricted newtypes. Strings are
  `seq<char>`, so lengths and slices count characters. `get_path`'s `len() > 11` and
  `pth[11..]` (src/watches.rs:44-45) count bytes. The two agree on ASCII paths, and nix
  store paths are ASCII.

## Model

| member | source | states |
|---|---|---|
| EnvHooks.GetOldEnvVarsToBeUpdated | env-hooks/src/lib.rs:20-29 | the result is a submap of the old variables: a key is in it iff it is in both maps with different values, and its value is the old one |
| EnvHooks.EnvVarsStateFromEnvVars | env-hooks/src/lib.rs:40-45 | same keys, every value wrapped as `Some(value)`, no `None` anywhere |
| EnvHooks.GetEnvVarsReset | env-hooks/src/lib.rs:47-61 | keys are exactly tracked ∪ {marker}; the marker maps to `None` even when it is tracked; a tracked key maps to `Some(old)` when it had an old value, else `None` |
| EnvHooks.SimplifiedExitOk | env-hooks/src/lib.rs:94-102 | `Ok` iff the exit code is 0 (a missing code counts as -1, so it fails); the error reads "process exited unsuccessfully: " plus the status |
| EnvHooks.CollectRecords | env-hooks/src/lib.rs:133-135 | definition: records folded in order into a map, split at their first `=`, records without `=` dropped; its properties are `CollectRecordsKeys` and `CollectRecordsLastWins` |
| EnvHooks.ParseEnvDump | env-hooks/src/lib.rs:131-135 | definition: split at NUL, then `CollectRecords`; `ParseEnvDumpRoundTrip` proves it reads back what `env -0` writes |
| EnvHooks.RecordKey | env-hooks/src/lib.rs:133 | definition: the text before a record's first `=`, or nothing when it has none; `CollectRecordsKeys` and `CollectRecordsLastWins` are stated with it |
| EnvHooks.CollectRecordsKeys | env-hooks/src/lib.rs:131-135 | a key is in the parsed map iff some record has an `=` and that key before its first `=`; records without `=` are dropped |
| EnvHooks.CollectRecordsLastWins | env-hooks/src/lib.rs:131-135 | a record's value survives when no later record has the same key, so the later of two duplicates wins |
| EnvHooks.CollectDumpRecords | env-hooks/src/lib.rs:131-135 | collecting `key=value` records gives the map of the entries, later entries overriding earlier ones |
| EnvHooks.DumpRecordsHaveNoNul | env-hooks/src/lib.rs:131-133 | records built from NUL-free names and values contain no NUL |
| EnvHooks.ParseEnvDumpRoundTrip | env-hooks/src/lib.rs:131-135 | parsing the NUL-terminated dump `env -0` writes gives back the map of the entries (keys without `=` or NUL, values without NUL) |
| EnvHooks.GetEnvVarsFromBash | env-hooks/src/lib.rs:123-137 | `Ok` iff bash exits 0 and the dump file is read; the value is the NUL-dump parse; a bash that does not exit 0 fails at duct's checked `wait()` with duct's error, passed on unchanged; after a clean exit, an unreadable dump file gives its read error unchanged |
| EnvHooks.Dedup | env-hooks/src/lib.rs:163-165 | the `IndexSet` collection has no duplicates and holds exactly the elements of its input |
| EnvHooks.DedupAppend | env-hooks/src/lib.rs:160-165 | the de-duplication of `a + b` starts with that of `a`; every later element comes from `b` and is not in `a` |
| EnvHooks.IndexOfInPrefix | env-hooks/src/lib.rs:163 | an element's first position inside a prefix is its first position in the whole sequence |
| EnvHooks.DedupKeepsFirstOccurrences | env-hooks/src/lib.rs:163-165 | the de-duplicated elements appear in the order of their first occurrences in the input |
| EnvHooks.MergeDelimitedValues | env-hooks/src/lib.rs:154-167 | definition: the new value's tokens, then the old value's, collected in first-seen order without repeats and joined; what the result holds is stated by `MergeDelimitedValuesTokens` |
| EnvHooks.MergeDelimitedValuesTokens | env-hooks/src/lib.rs:154-167 | re-splitting the merged value gives the de-duplicated new tokens followed by old tokens: no duplicates, every input token present, the new value's tokens first, the rest only from the old value |
| EnvHooks.MergeDelimitedEnvVar | env-hooks/src/lib.rs:140-152 | only `new[env_var]` can change, and only when the variable is in both maps, where it becomes the merged value; otherwise the new map is unchanged |
| EnvHooks.StartsWithAny | env-hooks/src/lib.rs:191-195 | true iff the key starts with one of the prefixes |
| EnvHooks.IgnoredEnvVarKey | env-hooks/src/lib.rs:169-197 | true iff the key starts with `__fish` or `BASH_FUNC_`, or is one of the eleven listed names |
| EnvHooks.RemoveIgnoredEnvVars | env-hooks/src/lib.rs:199-206 | exactly the ignored keys are removed, and every other key keeps its value |
| Text.Split | env-hooks/src/lib.rs:131-133 | `split(d)` gives at least one token, no token contains `d`, and tokens contain only characters of the input |
| Text.SplitOnce | env-hooks/src/lib.rs:133 | `split_once(d)` is `None` iff `d` does not occur; otherwise the input is `before + d + after` with no `d` before |
| Text.SplitOnceOfJoined | env-hooks/src/lib.rs:133 | splitting `key + "=" + value` once at `=` gives back key and value when the key has no `=` |
| Text.JoinSplit | env-hooks/src/lib.rs:160-166 | joining the tokens of a split with the same delimiter restores the string |
| Text.SplitJoin | env-hooks/src/lib.rs:160-166 | splitting a join of delimiter-free tokens gives back the tokens |
| DirectoryState.GetCurrentDir | env-hooks/tests/state.rs:17 | a readable current directory starts the protocol in the first state; an error propagates |
| DirectoryState.MatchRcs | env-hooks/tests/state.rs:18-21 | a resolver error propagates; an empty rc list gives `NoRcs`; a non-empty list gives `Rcs` with that list; the protocol advances one stage |
| DirectoryState.NoRcsGetEnvStateVar | env-hooks/tests/state.rs:22 | `NoRcs` with the marker set gives `ReadyForReset` holding its value; an unset marker gives nothing |
| DirectoryState.RcsGetEnvStateVar | env-hooks/tests/state.rs:53-55 | `Rcs` with the marker unset gives `NoEnvStateVar`; with it set, `EnvStateVar` holding its value; the rc list is carried along |
| DirectoryState.ResetEnvVars | env-hooks/tests/state.rs:24-34 | `apply` is called once, with exactly the marker's value, and its result is returned |
| DirectoryState.SetNewEnvStateVar | env-hooks/tests/state.rs:57-68 | `apply` is called once, with exactly the matched rc list in order, and its result is returned |
| DirectoryState.ResetAndSetNewEnvStateVar | env-hooks/tests/state.rs:92-114 | `reset` runs first with (rcs, marker value); a `reset` error is returned without calling `set`; otherwise `set` gets `reset`'s output unchanged and its result is returned |
| DirectoryState.WorkflowNoRcsFoundResetsExistingState | env-hooks/tests/state.rs:9-39 | the first test's run: no rc files and a set marker lead to `ReadyForReset` and one `apply` with the marker's value, returning `Ok` |
| DirectoryState.WorkflowRcsFoundNewEnvironmentSetsInitialState | env-hooks/tests/state.rs:41-69 | the second test's run: rc files and no marker lead to `NoEnvStateVar` and one `apply` with the rc list, returning `Ok` |
| DirectoryState.WorkflowRcsFoundExistingEnvironmentResetsAndUpdatesState | env-hooks/tests/state.rs:71-119 | the third test's run: rc files and a set marker lead to `EnvStateVar` with both; `reset` runs with (rcs, marker value), then `set` with exactly `reset`'s output, and the result is `Ok` |
| Versions.Cmp | src/cache/versions.rs:49-58 | `Less` iff lexicographically smaller on (major, minor, point), `Equal` iff identical, `Greater` iff lexicographically larger |
| Versions.CmpAntisymmetric | src/cache/versions.rs:128-174 | swapping the arguments swaps `Less` and `Greater` and keeps `Equal` |
| Versions.CmpTransitive | src/cache/versions.rs:49-58 | `<=` on versions is transitive |
| Versions.AtLeast | src/cache/versions.rs:97 | definition: `cur >= needed` as "`Cmp` is not `Less`"; `IsNewEnough` states it as equal-or-lexicographically-greater |
| Versions.IsNewEnough | src/cache/versions.rs:96-98 | an error passes through unchanged; otherwise `Ok(cur >= needed)`, with equal counting as new enough |
| Versions.PreflightDecision | src/cache/versions.rs:112-119 | not in direnv is always "Not in direnv!"; `Ok` iff in direnv and both checks are `Ok(true)`; otherwise the first arm wins, in the order direnv too old, nix too old, direnv error, nix error |
| Versions.PreflightVersions | src/cache/versions.rs:31-120 | `Ok` iff in direnv, both versions were read, nix ≥ 2.10.0 and direnv ≥ 2.21.3 |
| Versions.ExtractVersionNumber | src/cache/versions.rs:61-94 | a failed run or empty stdout gives "Failed executing '<cmd>'"; `Ok` iff the pattern matched and all three groups parsed, with those numbers |
| Util.NixArgv | src/util.rs:37-38 | the argument list is the two fixed flags followed by the caller's arguments |
| Util.Nix | src/util.rs:36-40 | runs `nix` with `["--extra-experimental-features", "nix-command flakes"] ++ args` and returns what the run returned |
| Util.Existing | src/util.rs:60-72 | definition: the paths that exist, in order, repeats kept; `ExistingExists`, `ExistingEmpty` and `ExistingAppend` state its properties |
| Util.ReadAll | src/util.rs:78-89 | definition: the existing files read in order, stopping at the first failure with "Failed to read file <path>: <error>"; `ReadAllConcat`, `ReadAllStaysFailed` and `ReadAllErrorNamesFile` state its properties |
| Util.ExistingExists | src/util.rs:60-72 | the files kept for hashing exist and come from the input |
| Util.ExistingEmpty | src/util.rs:60-76 | no file is kept iff no input path exists |
| Util.ExistingAppend | src/util.rs:60-72 | the existence filter works piecewise, so it keeps input order |
| Util.ReadAllStaysFailed | src/util.rs:78-88 | once a read fails, later files do not change the outcome (early return) |
| Util.ConcatSnoc | src/util.rs:78-80 | the hashed bytes are the previous files' bytes followed by the last file's |
| Util.ReadAllConcat | src/util.rs:78-80 | when every read succeeds, the hasher is fed the concatenation of contents in order |
| Util.ReadAllErrorNamesFile | src/util.rs:81-86 | a read failure's error is "Failed to read file <path>: <error>" for one of the files |
| Util.HashFilesSpec | src/util.rs:56-93 | definition: keep the existing paths, fail on none, read them in order stopping at the first error, hash the concatenation; its properties are `HashFilesNoFiles`, `HashFilesSkipsMissing`, `HashFilesDigest`, `HashFilesTwice` and `HashFilesReadFailure` |
| Util.HashFiles | src/util.rs:56-93 | the loops compute the specification: filter existing files, fail on none, read in order with early return, hash the concatenation |
| Util.HashFilesNoFiles | src/util.rs:74-76 | "No files found to hash" iff no input path exists |
| Util.HashFilesSkipsMissing | src/util.rs:60-72 | a nonexistent path anywhere in the input changes nothing |
| Util.HashFilesDigest | src/util.rs:78-92 | with all reads succeeding, the result is the hash of the existing files' contents concatenated in input order |
| Util.HashFilesTwice | src/util.rs:153-163 | a path listed twice contributes its contents twice |
| Util.HashFilesReadFailure | src/util.rs:79-87 | the first unreadable existing file makes the result its read error, with no digest |
| Util.GetArgs | src/util.rs:95-105 | succeeds iff there are at least three arguments, and then argv is exactly `[argv[0], layout, flake] + rest` |
| Watches.ExtantOnly | src/watches.rs:38-40 | keeps exactly the watches whose file exists |
| Watches.ExtantOnlyAppend | src/watches.rs:39 | the filter works piecewise, so the kept watches keep their order |
| Watches.ExtantOnlyKeepsExtant | src/watches.rs:39 | a list of existing watches passes unchanged, so filtering twice is filtering once |
| Watches.ExtantOnlySkipsMissing | src/watches.rs:39 | a watch whose file does not exist leaves the result as if it were absent |
| Watches.GetExtant | src/watches.rs:38-40 | an error from reading the watches passes through; otherwise the filtered list |
| Watches.Get | src/watches.rs:43 | looking a key up in a non-object gives nothing; a found value is a strict part of the document |
| Watches.Find | src/watches.rs:43 | a found value belongs to a member with that key; nothing found means no member has the key |
| Watches.GetPath | src/watches.rs:42-50 | `None` iff "path" is missing or not a string; a path longer than 11 loses its first 11 characters; a shorter one is kept whole |
| Watches.OwnPath | src/watches.rs:55-57 | definition: the node's stripped path as a one-element list, or nothing; `PathsOf` starts with it |
| Watches.PathsOf | src/watches.rs:52-67 | definition of the pre-order walk: the node's own stripped path, then its inputs' paths; `PathsOfCount` gives its length |
| Watches.InputsPaths | src/watches.rs:59-64 | definition: the inputs' subtree paths concatenated in member order; `InputsPathsCons` and `InputsPathsCount` state its shape and length |
| Watches.PathsOfCount | src/watches.rs:52-67 | the walk emits exactly one path per tree node whose "path" is a string, no more and no fewer, where `PathNodes` counts those nodes independently of the walk |
| Watches.InputsPathsCount | src/watches.rs:59-64 | the inputs contribute exactly as many paths as their subtrees hold nodes with a string "path" |
| Watches.GetPathsFromDoc | src/watches.rs:52-67 | the walk returns the pre-order path list: the node's own path, then each input subtree's paths in member order |
| Watches.ExtendWithInputsPaths | src/watches.rs:58-64 | the loop appends every input's subtree paths, in order |
| Watches.PathsOfInputs | src/watches.rs:55-64 | a node with an "inputs" object contributes its own path followed by its inputs' paths |
| Watches.PathsOfLeaf | src/watches.rs:55-64 | a node whose "inputs" is missing or not an object contributes only its own path, at most one |
| Watches.InputsPathsCons | src/watches.rs:60-63 | the first input's subtree comes before all later inputs' paths |
| Watches.InputsPathsSingle | src/watches.rs:60-63 | a single input contributes exactly its subtree's paths |
| Watches.PathsOfNode | src/watches.rs:52-67 | a node with a long "path" and an "inputs" object yields its stripped path, then its inputs' paths |
| Watches.PathsOfNestedInputs | src/watches.rs:102-127 | the repository's nested test document yields `["bbbbb", "ccccc", "ddddd"]` |
| Watches.InputPaths | src/watches.rs:69-85 | definition of `get_input_paths`'s result and diagnostic; `GetInputPaths` states its three cases |
| Watches.GetInputPaths | src/watches.rs:69-85 | a failed `nix flake archive --json` or unparsable output gives no paths and its diagnostic; otherwise the pre-order paths of the document |
| Cache.IsFile | src/util.rs:42-47 | definition: the host holds a file or a GC root at the path; a root counts because the metadata call follows the link to the profile it keeps |
| Cache.IsDirectory | src/util.rs:49-54 | definition: a directory was created at the path or below it; the empty path is never a directory |
| Cache.RemoveDirAllIn | src/cache.rs:25 | definition: every file, link and directory at or below the directory goes, and the removal is logged; the empty path has nothing below it; `Cleaned` states the result |
| Cache.CreateDirAllResult | src/cache.rs:97-98 | definition: the host's fault for the path, if any, else `Ok`; the empty path always succeeds |
| Cache.CreateDirAllIn | src/cache.rs:97 | definition: the directory is added unless the host faults it or the path is empty, and the call is logged |
| Cache.WriteFileIn | src/cache.rs:13-15 | definition: the file gets the content unless the host faults the path, and the write is logged |
| Cache.RemoveFileIn | src/cache.rs:64 | definition: the file or link at the path is gone, and the removal is logged |
| Cache.ReadFileIn | src/cache.rs:9-11 | definition: the file's content, or a not-found error |
| Cache.CurCachePrinted | src/cache.rs:17-22 | only the log changes: the `.rc` text goes to stdout, or "Failed to read profile: " plus the error to stderr |
| Cache.PrintCurCache | src/cache.rs:17-22 | performs `CurCachePrinted` |
| Cache.Cleaned | src/cache.rs:24-28 | nothing at or below the layout directory survives except the fresh `<layout>/flake-inputs/`; everything outside is untouched; for a non-empty layout path the inputs directory exists afterwards iff its creation does not fail; a failure to create it panics with the `expect` message; an empty layout path has nothing under it, so nothing is removed |
| Cache.CleanOldGcroots | src/cache.rs:24-28 | performs `Cleaned`: remove the layout directory, then create the inputs directory |
| Cache.GcrootResult | src/cache.rs:30-35 | `Ok` iff `nix build --out-link <symlink> <store path>` succeeds; otherwise "Failed to run `nix build`!" |
| Cache.WithGcroot | src/cache.rs:30-35 | definition: the `nix build` spawn is logged, and a successful build adds the link, recorded with the installable as its target |
| Cache.AddGcroot | src/cache.rs:30-35 | the spawn is logged, a successful build leaves the symlink recorded with the installable as its target, and the result is `GcrootResult` |
| Cache.Freshened | src/cache.rs:37-88 | definition of the whole of `freshen_cache`: clean, evaluate into the temporary profile, and on success `Profiled`; its outcomes are stated by `FreshenEvalFailure`, `FreshenWriteFailure`, `FreshenGcrootFailure` and `FreshenSuccess` |
| Cache.Profiled | src/cache.rs:56-81 | definition of the success arm: write the `.rc`, exit 1 on a write or root failure, else `ProfileRooted`, the input loop and the print |
| Cache.ProfileRooted | src/cache.rs:57-66 | definition: the `.rc` write, the profile root, the temporary profile's removal and the `nix flake archive` query with its diagnostic; `ProfileRootedState` states the state it leaves |
| Cache.InputRoot | src/cache.rs:69-73 | definition: one input's `nix build` to `<layout>/flake-inputs/<input>`, and the error line when it fails; `InputRootsLog` and `InputRootsLinks` state its effect over the loop |
| Cache.FreshenCache | src/cache.rs:37-88 | performs `Freshened`: clean, evaluate, write the `.rc`, root the profile, remove the temporary profile, root every input, print |
| Cache.ProfileAndRoot | src/cache.rs:56-81 | performs the success arm of `freshen_cache` (`Profiled`), including the loop over the flake inputs |
| Cache.Decimal | src/cache.rs:39 | `process::id()` as `format!` writes it: non-empty, digits only, no leading zero, and read back as a number the digits give the pid |
| Cache.TmpProfile | src/cache.rs:39 | definition: `<layout>flake-tmp-profile.<pid>`, with no `/` between; `TmpProfileBesideLayout` and `CachePathsDistinct` state where it lies |
| Cache.ProfilePath | src/cache.rs:52 | definition: `<layout>/flake-profile-<hash>` |
| Cache.ProfileRc | src/cache.rs:53 | definition: the profile path plus `.rc` |
| Cache.TmpProfileBesideLayout | src/cache.rs:39 | the temporary profile `<layout>flake-tmp-profile.<pid>` lies outside the layout directory, because there is no `/` separator |
| Cache.CachePathsDistinct | src/cache.rs:39-70 | the temporary profile, the `.rc` file, the profile root and every input root are different paths |
| Cache.InputRootsFrame | src/cache.rs:68-74 | the input loop changes no file, directory or status and only appends to the log |
| Cache.InputRoots | src/cache.rs:68-74 | definition: one root attempt per input, in order; `InputRootsEach` states what the loop does |
| Cache.AttemptsInOrderSnoc | src/cache.rs:68-74 | appending an input appends its attempt's effects at the end, so the first-input-first log agrees with the loop |
| Cache.InputRootsLog | src/cache.rs:68-74 | the loop's log grows by exactly the attempts in input order: each is its `nix build` spawn, followed by "Failed creating flake-input gcroot: Failed to run `nix build`!" when that build fails |
| Cache.InputRootsSpawns | src/cache.rs:68-73 | every input's `nix build` of `/nix/store/<input>` to `<layout>/flake-inputs/<input>` is in the log |
| Cache.InputRootsLinks | src/cache.rs:69-73 | each input whose build succeeds has its link pointing at `/nix/store/<input>`; every link not under an input's name is as it was before |
| Cache.InputRootsEach | src/cache.rs:68-74 | the log grows by exactly the attempts in input order, each a `nix build` of `/nix/store/<input>` to `<layout>/flake-inputs/<input>` followed by the error line when it fails; a failure does not stop the loop; each successful input's link points at its store path; no other link changes |
| Cache.FreshenEvalFailure | src/cache.rs:55-86 | an evaluation failure exits 1 after "Failed evaluating flake", with the log exactly clean, evaluate, error; there is no `.rc` file and no profile root, except that under an empty layout path whatever sat at those paths stays |
| Cache.FreshenWriteFailure | src/cache.rs:57-60 | a failed `.rc` write exits 1 after "Failed to write profile: <error>", before any GC root is attempted; there is no `.rc` file and no profile root (under an empty layout path, older ones stay) |
| Cache.FreshenGcrootFailure | src/cache.rs:57-80 | a failed profile root exits 1 with the `.rc` file already written; the write precedes the `nix build` in the log; there is no profile root (under an empty layout path, an older one stays) |
| Cache.FreshenSuccess | src/cache.rs:52-75 | on success `<layout>/flake-profile-<hash>.rc` holds the evaluation output; `<layout>/flake-profile-<hash>` is a GC root made from the temporary profile (recorded with that installable as its target), and the temporary profile itself is removed; every input was attempted; the process still runs; the log begins clean, evaluate, write, root, remove, archive; it ends with the cached text on stdout |
| Cache.ProfileRootedState | src/cache.rs:57-66 | after write, root and removal, the `.rc` file and the profile root exist and the temporary profile does not; the four effects appear in that order |
| Cache.InputRootsKeepProfile | src/cache.rs:66-75 | the input loop and the final print keep the `.rc` file and profile root, do not bring back the temporary profile, attempt every input and end with the `.rc` text on stdout |
| Cache.Preflighted | src/cache.rs:90-103 | definition of `preflight` given the version outcome; `PreflightedOutcome` states its cases |
| Cache.Preflight | src/cache.rs:90-103 | performs `Preflighted` on the outcome of the version checks |
| Cache.PreflightedOutcome | src/cache.rs:90-103 | a version error comes back unchanged and nothing is created; otherwise `Ok` iff the layout path is empty, or the directory exists or can be created, after which a non-empty one exists; a creation error reads "Failed to create directory: <error>"; only that directory can be added, and its creation is the only possible effect |
| Driver.WatchPaths | src/main.rs:19-22 | the paths of the watches, one per watch, in order |
| Driver.AllOlder | src/main.rs:46-48 | true iff no watch's modification time is after the `.rc` file's; equal counts as fresh |
| Driver.CacheDecision | src/main.rs:35-64 | serve iff the `.rc` file and the profile root both exist and no watch is newer; a pre-epoch time panics; everything else rebuilds |
| Driver.MainOutcome | src/main.rs:15-82 | an empty argv panics on `args[0]`; one or two arguments print the usage line, exit 1 and touch nothing |
| Driver.Run | src/main.rs:12-84 | performs `MainOutcome`, step by step |
| Driver.Cached | src/main.rs:24-64 | definition: fingerprint failure exits 1, else the `CacheDecision` picks serve, rebuild or the time panic; `CacheHitOrFreshen` and `EarlyFailureExits` state its outcomes |
| Driver.ServeOrFreshen | src/main.rs:24-64 | performs the fingerprint and the cache decision (`Cached`) |
| Driver.EarlyFailureMessage | src/main.rs:16-74 | a preflight, watch or fingerprint error ends `main` as preflight left the world, plus one error line and exit code 1 |
| Driver.EarlyFailureExits | src/main.rs:16-74 | a preflight, watch or fingerprint error exits 1 before any cache decision; files and roots are unchanged; the only effects are creating the layout directory and printing the error |
| Driver.CacheHitOrFreshen | src/main.rs:24-64 | once preflight, the watch list and the fingerprint succeed, fresh means the cached text is printed and stale means `freshen_cache` runs with the fingerprint of the extant watches |
| Driver.MissingWatchIgnored | src/main.rs:17-48 | a watch whose file does not exist changes nothing, because the fingerprint and the staleness test use the same extant list |

## Quirks of the code

- The cache files are `<layout>/flake-profile-<hash>` and
  `<layout>/flake-profile-<hash>.rc` (src/cache.rs:52-53).
- `clean_old_gcroots` removes the whole layout directory, including every older `.rc` file
  and profile root (src/cache.rs:25).
- The `.rc` file is written before the profile root is attempted (src/cache.rs:57-62). A
  failed root therefore leaves a fresh `.rc` file without a profile root, and the next run
  rebuilds because the root is missing.
- An empty argument vector panics on `args[0]` (src/main.rs:79). The model records that as
  a panic.
- An empty layout path (`argv[1] == ""`) is accepted by `get_args`. Preflight then succeeds
  without creating anything, because `create_dir_all("")` returns `Ok`. The clean removes
  nothing, because `remove_dir_all("")` fails and the error is ignored. The cache files
  then sit at the filesystem root, as `/flake-profile-<hash>`.

## Left out

- Process spawning and output capture (`run_process`, src/util.rs:14-33): a function
  parameter. The `--version` probes of `preflight_versions` happen before the modelled
  trace starts, and their outcomes are inputs.
- direnv `show_dump` and the `DIRENV_WATCHES` lookup (src/watches.rs:18-36): the watch list
  arrives already parsed, as a `Result`.
- The bash invocation in `get_env_vars_from_bash`: temp file, quoting of the command, and
  `BashSource::to_command_string` (env-hooks/src/lib.rs:67-85, 105-122). Its exit code and
  dump-file contents are inputs.
- GetEnvVarsFromBash: duct's `wait()` is checked, so a bash that does not exit 0 fails at
  `handle.wait()?` (env-hooks/src/lib.rs:123) before `simplified_exit_ok` runs. The
  "Bash command to retrieve env vars failed" message (env-hooks/src/lib.rs:124-127) is
  therefore unreachable. duct's own error text is an input, `waitError`, and is not modelled.
- `get_env_vars_from_current_process` (env-hooks/src/lib.rs:63-65): it only reads the process
  environment.
- The `state` module's implementation is not part of this model. The typestate follows the
  tests, state.rs:1-119. The error arms of `GetCurrentDir`, `MatchRcs` and
  `ResetAndSetNewEnvStateVar` are not fixed by those tests.
- The SHA-1 algorithm and its hex encoding: an uninterpreted function, so the digests in the
  repository's tests are not reproduced.
- The regex in `extract_version_number`: its captures, each parsed as `i32` or failing, are
  an input function.
- serde JSON parsing: documents arrive as a `Json` value, and `parseJson` stands in for the
  parser. With duplicate keys, `Watches.Get` takes the first member. serde's map behaviour
  for duplicates is not modelled. The parser is taken to list each object's members in the order
  the parsed map iterates them, which is the order `get_paths_from_doc` visits the inputs in.
- `in_direnv` reads the process environment, so it is a boolean input.
- `SystemTime`: the `.rc` modification time arrives as whole seconds. A negative value means
  before the epoch, and `duration_since` then panics. The metadata `expect`s cannot fail
  right after `is_file` succeeded, so they are not modelled.
- Driver.CacheDecision: the `as_secs() as i64` cast never wraps, because the time is an
  `i64` of seconds to begin with. Unix keeps file times in that range.
- Panic messages carry only the `expect` text. The `Debug` form of the io error that Rust
  appends is not modelled.
- `hash_files`'s "Cannot find file … (cwd: …)" message for a missing path
  (src/util.rs:64-70): it needs the process's current directory. The model skips the path
  silently.
- The unused `_paths` parameter of `get_paths_from_doc`.
- Cache.IsDirectory counts a directory as existing when one was created at or below it.
  The empty path names nothing. Permissions, symlinked directories and path normalisation
  (`.`, `..`, duplicate or trailing `/`) are not modelled.
- Cache.WithGcroot records a GC root's target as the installable passed to `nix build`. For
  the profile root that is the temporary profile's path. nix itself resolves that path and
  links the store path behind it. The model therefore does not show that the root keeps the
  evaluated environment alive after the temporary profile is removed.
- `nix print-dev-env --profile` creating the temporary profile is nix's own effect. The model
  records only the spawn, and `remove_file` removes whatever the host holds at that path.
- The fork-based tests of `in_direnv` (src/cache/versions.rs:206-242) and the
  `run_process` tests: they exercise the host, not the logic.
- Concurrency: two runs racing on one layout directory. The code does nothing to prevent it.
