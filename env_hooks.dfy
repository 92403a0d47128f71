/**
 * The environment-diff engine of the shell hook library: which variables a new
 * configuration overwrites, the plan that resets them, list-shaped variables merged
 * token by token, the table of variables never tracked, and the parser for the
 * NUL-separated environment dump that bash writes with `env -0`.
 */
module EnvHooks {
  import opened Wrappers
  import opened Seqs
  import opened Text

  /** Ordered map from variable name to value (a BTreeMap in the library). */
  type EnvVars = map<string, string>

  /** Variable name to optional value; `None` means "unset this variable". */
  type EnvVarsState = map<string, Option<string>>

  // ---------------------------------------------------------------------------
  // Stale entries and the reset plan
  // ---------------------------------------------------------------------------

  /**
   * The entries of `oldVars` that `newVars` will overwrite with a different value,
   * kept with their old values.  Folds over the old entries, inserting each one
   * whose key `newVars` holds with another value.
   */
  method GetOldEnvVarsToBeUpdated(oldVars: EnvVars, newVars: EnvVars) returns (stale: EnvVars)
    ensures stale.Keys <= oldVars.Keys
    ensures forall k :: k in stale <==> k in oldVars && k in newVars && newVars[k] != oldVars[k]
    ensures forall k | k in stale :: stale[k] == oldVars[k]
  {
    stale := map[];
    var todo := oldVars.Keys;
    while todo != {}
      invariant todo <= oldVars.Keys
      invariant forall k :: k in stale <==> k in oldVars && k !in todo && k in newVars && newVars[k] != oldVars[k]
      invariant forall k | k in stale :: stale[k] == oldVars[k]
      decreases todo
    {
      var key :| key in todo;
      var value := oldVars[key];
      if key in newVars && newVars[key] != value {
        stale := stale[key := value];
      }
      todo := todo - {key};
    }
  }

  /** Every variable becomes "set to its value": the conversion EnvVars -> EnvVarsState. */
  function EnvVarsStateFromEnvVars(envVars: EnvVars): (state: EnvVarsState)
    ensures state.Keys == envVars.Keys
    ensures forall k | k in state :: state[k] == Some(envVars[k])
    ensures None !in state.Values
  {
    map k | k in envVars :: Some(envVars[k])
  }

  /**
   * The reset plan: every tracked key is restored to its recorded old value, or unset
   * if it has none; the marker key is unset last, so it is unset even when tracked.
   * Consumes `oldVarsThatWereUpdated` entry by entry, as the library's fold does.
   */
  method GetEnvVarsReset(oldVarsThatWereUpdated: EnvVars, tracked: set<string>, envStateVarKey: string)
    returns (plan: EnvVarsState)
    ensures plan.Keys == tracked + {envStateVarKey}
    ensures plan[envStateVarKey] == None
    ensures forall k | k in tracked && k != envStateVarKey ::
      plan[k] == if k in oldVarsThatWereUpdated then Some(oldVarsThatWereUpdated[k]) else None
  {
    var remaining := oldVarsThatWereUpdated;
    var todo := tracked;
    plan := map[];
    while todo != {}
      invariant todo <= tracked
      invariant plan.Keys == tracked - todo
      invariant forall k | k in plan ::
        plan[k] == if k in oldVarsThatWereUpdated then Some(oldVarsThatWereUpdated[k]) else None
      invariant forall k | k in todo ::
        (k in remaining <==> k in oldVarsThatWereUpdated) &&
        (k in remaining ==> remaining[k] == oldVarsThatWereUpdated[k])
      decreases todo
    {
      var key :| key in todo;
      var value := if key in remaining then Some(remaining[key]) else None;
      remaining := remaining - {key};
      plan := plan[key := value];
      todo := todo - {key};
    }
    plan := plan[envStateVarKey := None];
  }

  // ---------------------------------------------------------------------------
  // Exit status and the bash environment dump
  // ---------------------------------------------------------------------------

  /**
   * `simplified_exit_ok`: an exit code of 0 is success; any other code, and a process
   * without a code (killed by a signal, read as -1), is a failure.
   */
  function SimplifiedExitOk(code: Option<int>, statusText: string): (r: Result<Unit, string>)
    ensures r.Ok? <==> code == Some(0)
    ensures r.Err? ==> r.error == "process exited unsuccessfully: " + statusText
  {
    var c := match code case Some(n) => n case None => -1;
    if c != 0 then Err("process exited unsuccessfully: " + statusText) else Ok(Unit)
  }

  const NUL: char := 0 as char

  /** The variable name of one `key=value` record: the text before its first `=`. */
  function RecordKey(record: string): Option<string>
  {
    match SplitOnce(record, '=')
    case Some(kv) => Some(kv.0)
    case None => None
  }

  /** Collects records in order into a map; records with no `=` are dropped, later ones win. */
  function CollectRecords(records: seq<string>): EnvVars
  {
    if |records| == 0 then map[]
    else
      var vars := CollectRecords(records[..|records| - 1]);
      match SplitOnce(records[|records| - 1], '=')
      case Some(kv) => vars[kv.0 := kv.1]
      case None => vars
  }

  /** The parse of the `env -0` dump: split at NUL, split each record at its first `=`. */
  function ParseEnvDump(dump: string): EnvVars
  {
    CollectRecords(Split(dump, NUL))
  }

  /** A name is defined by the dump iff some record carries it before its first `=`. */
  lemma {:induction false} CollectRecordsKeys(records: seq<string>, k: string)
    ensures k in CollectRecords(records) <==> exists i | 0 <= i < |records| :: RecordKey(records[i]) == Some(k)
  {
    if |records| > 0 {
      var n := |records| - 1;
      var init := records[..n];
      CollectRecordsKeys(init, k);
      assert forall i | 0 <= i < n :: init[i] == records[i];
      if RecordKey(records[n]) == Some(k) {
        assert k in CollectRecords(records);
      } else {
        assert k in CollectRecords(records) <==> k in CollectRecords(init);
        if k in CollectRecords(init) {
          var i :| 0 <= i < n && RecordKey(init[i]) == Some(k);
          assert RecordKey(records[i]) == Some(k);
        }
      }
    }
  }

  /** The value of a name is the one in its last record: a later duplicate overwrites. */
  lemma {:induction false} CollectRecordsLastWins(records: seq<string>, i: nat, k: string, v: string)
    requires i < |records|
    requires SplitOnce(records[i], '=') == Some((k, v))
    requires forall j | i < j < |records| :: RecordKey(records[j]) != Some(k)
    ensures k in CollectRecords(records) && CollectRecords(records)[k] == v
  {
    var init := records[..|records| - 1];
    if i < |records| - 1 {
      forall j | i < j < |init| ensures RecordKey(init[j]) != Some(k) {
        assert init[j] == records[j];
      }
      CollectRecordsLastWins(init, i, k, v);
      assert RecordKey(records[|records| - 1]) != Some(k);
    }
  }

  /** The records `env -0` writes for an environment, one `key=value` each, in order. */
  function DumpRecords(entries: seq<(string, string)>): seq<string>
  {
    if |entries| == 0 then []
    else DumpRecords(entries[..|entries| - 1]) + [entries[|entries| - 1].0 + "=" + entries[|entries| - 1].1]
  }

  /** The whole dump: every record followed by a NUL. */
  function EnvDump(entries: seq<(string, string)>): string
  {
    Join(DumpRecords(entries) + [""], NUL)
  }

  /** The environment the entries describe, a later entry overriding an earlier one. */
  function EntriesToMap(entries: seq<(string, string)>): EnvVars
  {
    if |entries| == 0 then map[]
    else EntriesToMap(entries[..|entries| - 1])[entries[|entries| - 1].0 := entries[|entries| - 1].1]
  }

  lemma {:induction false} CollectDumpRecords(entries: seq<(string, string)>)
    requires forall e | e in entries :: '=' !in e.0
    ensures CollectRecords(DumpRecords(entries)) == EntriesToMap(entries)
  {
    if |entries| > 0 {
      var n := |entries| - 1;
      var init := entries[..n];
      var e := entries[n];
      assert forall x | x in init :: x in entries;
      CollectDumpRecords(init);
      var recs := DumpRecords(entries);
      var last := e.0 + "=" + e.1;
      assert recs == DumpRecords(init) + [last];
      assert recs[..|recs| - 1] == DumpRecords(init);
      assert last == e.0 + ['='] + e.1;
      SplitOnceOfJoined(e.0, '=', e.1);
      assert SplitOnce(recs[|recs| - 1], '=') == Some((e.0, e.1));
    }
  }

  lemma {:induction false} DumpRecordsHaveNoNul(entries: seq<(string, string)>)
    requires forall e | e in entries :: NUL !in e.0 && NUL !in e.1
    ensures forall r | r in DumpRecords(entries) :: NUL !in r
  {
    if |entries| > 0 {
      var n := |entries| - 1;
      assert forall x | x in entries[..n] :: x in entries;
      DumpRecordsHaveNoNul(entries[..n]);
      var last := entries[n].0 + "=" + entries[n].1;
      assert forall c | c in last :: c in entries[n].0 || c == '=' || c in entries[n].1;
    }
  }

  /**
   * Parsing what `env -0` writes gives the environment back, for names without `=` or NUL
   * and values without NUL (values may contain `=`).
   */
  lemma ParseEnvDumpRoundTrip(entries: seq<(string, string)>)
    requires forall e | e in entries :: '=' !in e.0 && NUL !in e.0 && NUL !in e.1
    ensures ParseEnvDump(EnvDump(entries)) == EntriesToMap(entries)
  {
    var recs := DumpRecords(entries);
    CollectDumpRecords(entries);
    DumpRecordsHaveNoNul(entries);
    SplitJoin(recs + [""], NUL);
    assert (recs + [""])[..|recs|] == recs;
  }

  /**
   * `get_env_vars_from_bash` once bash has run. duct's `wait()` is checked: a bash that does
   * not exit 0 fails there, with duct's own message `waitError`, which `?` passes on. The
   * `simplified_exit_ok` test that follows only sees code 0, which `SimplifiedExitOk` accepts,
   * so its "Bash command to retrieve env vars failed" wrapping never applies. After that, an
   * unreadable dump file is an error, otherwise the result is the parsed dump.
   */
  function GetEnvVarsFromBash(exitCode: Option<int>, waitError: string, dumpFile: Result<string, string>)
    : (r: Result<EnvVars, string>)
    ensures r.Ok? <==> exitCode == Some(0) && dumpFile.Ok?
    ensures r.Ok? ==> r.value == ParseEnvDump(dumpFile.value)
    ensures exitCode != Some(0) ==> r == Err(waitError)
    ensures exitCode == Some(0) && dumpFile.Err? ==> r == Err(dumpFile.error)
  {
    if exitCode != Some(0) then Err(waitError)
    else
      match dumpFile
      case Err(e) => Err(e)
      case Ok(contents) => Ok(ParseEnvDump(contents))
  }

  // ---------------------------------------------------------------------------
  // Delimited-list merging
  // ---------------------------------------------------------------------------

  /** Collecting into an IndexSet: the distinct elements, each at its first occurrence. */
  function Dedup<T(==)>(s: seq<T>): (r: seq<T>)
    ensures NoDuplicates(r)
    ensures forall x | x in r :: x in s
    ensures forall x | x in s :: x in r
  {
    if |s| == 0 then []
    else
      var r := Dedup(s[..|s| - 1]);
      assert forall x | x in s[..|s| - 1] :: x in s;
      assert s == s[..|s| - 1] + [s[|s| - 1]];
      if s[|s| - 1] in r then r else r + [s[|s| - 1]]
  }

  /** The distinct elements of `a` come first, unchanged; the rest come from `b` only. */
  lemma {:induction false} DedupAppend<T>(a: seq<T>, b: seq<T>)
    ensures |Dedup(a)| <= |Dedup(a + b)|
    ensures Dedup(a + b)[..|Dedup(a)|] == Dedup(a)
    ensures forall i | |Dedup(a)| <= i < |Dedup(a + b)| :: Dedup(a + b)[i] in b && Dedup(a + b)[i] !in a
  {
    if |b| == 0 {
      assert a + b == a;
    } else {
      var b' := b[..|b| - 1];
      DedupAppend(a, b');
      assert (a + b)[..|a + b| - 1] == a + b';
      assert forall x | x in b' :: x in b;
    }
  }

  lemma IndexOfInPrefix<T>(s: seq<T>, n: nat, x: T)
    requires n <= |s| && x in s[..n]
    ensures IndexOf(s, x) == IndexOf(s[..n], x)
  {
    var i := IndexOf(s[..n], x);
    assert s[..n][..i] == s[..i];
    IndexOfUnique(s, x, i);
  }

  /** Dedup keeps first occurrences: its order is the order in which elements first appear. */
  lemma {:induction false} DedupKeepsFirstOccurrences<T>(s: seq<T>, i: nat, j: nat)
    requires i < j < |Dedup(s)|
    ensures IndexOf(s, Dedup(s)[i]) < IndexOf(s, Dedup(s)[j])
  {
    var n := |s| - 1;
    var init := s[..n];
    var r := Dedup(init);
    assert s == init + [s[n]];
    if j < |r| {
      DedupKeepsFirstOccurrences(init, i, j);
      IndexOfInPrefix(s, n, r[i]);
      IndexOfInPrefix(s, n, r[j]);
    } else {
      IndexOfInPrefix(s, n, r[i]);
      IndexOfUnique(s, s[n], n);
    }
  }

  /** `merge_delimited_values`: new's tokens, then old's, de-duplicated, joined. */
  function MergeDelimitedValues(splitDelimiter: char, joinDelimiter: char, oldValue: string, newValue: string): string
  {
    Join(Dedup(Split(newValue, splitDelimiter) + Split(oldValue, splitDelimiter)), joinDelimiter)
  }

  /**
   * Read back at the join delimiter, the merged value holds every token of both inputs,
   * none twice; new's distinct tokens come first in their order, then the tokens only old has.
   * (Reading back needs the join delimiter to occur in no token.)
   */
  lemma MergeDelimitedValuesTokens(splitDelimiter: char, joinDelimiter: char, oldValue: string, newValue: string)
    requires joinDelimiter == splitDelimiter || (joinDelimiter !in oldValue && joinDelimiter !in newValue)
    ensures var tokens := Split(MergeDelimitedValues(splitDelimiter, joinDelimiter, oldValue, newValue), joinDelimiter);
            var newTokens := Split(newValue, splitDelimiter);
            var oldTokens := Split(oldValue, splitDelimiter);
            && tokens == Dedup(newTokens + oldTokens)
            && NoDuplicates(tokens)
            && (forall t :: t in tokens <==> t in newTokens || t in oldTokens)
            && |Dedup(newTokens)| <= |tokens|
            && tokens[..|Dedup(newTokens)|] == Dedup(newTokens)
            && (forall i | |Dedup(newTokens)| <= i < |tokens| :: tokens[i] in oldTokens && tokens[i] !in newTokens)
  {
    var newTokens := Split(newValue, splitDelimiter);
    var oldTokens := Split(oldValue, splitDelimiter);
    var merged := Dedup(newTokens + oldTokens);
    assert newTokens[0] in merged;
    forall t | t in merged ensures joinDelimiter !in t {
      assert t in newTokens || t in oldTokens;
    }
    SplitJoin(merged, joinDelimiter);
    DedupAppend(newTokens, oldTokens);
  }

  /**
   * `merge_delimited_env_var`: when both maps hold `envVar`, the new map's value becomes
   * the merge of old and new; `newVars` is otherwise returned unchanged.
   */
  method MergeDelimitedEnvVar(envVar: string, splitDelimiter: char, joinDelimiter: char,
                              oldVars: EnvVars, newVars: EnvVars) returns (merged: EnvVars)
    ensures merged.Keys == newVars.Keys
    ensures forall k | k in newVars && k != envVar :: merged[k] == newVars[k]
    ensures envVar in oldVars && envVar in newVars ==>
      merged[envVar] == MergeDelimitedValues(splitDelimiter, joinDelimiter, oldVars[envVar], newVars[envVar])
    ensures envVar !in oldVars || envVar !in newVars ==> merged == newVars
  {
    merged := newVars;
    if envVar in oldVars && envVar in newVars {
      var newValue := MergeDelimitedValues(splitDelimiter, joinDelimiter, oldVars[envVar], newVars[envVar]);
      merged := merged[envVar := newValue];
    }
  }

  // ---------------------------------------------------------------------------
  // Ignored variables
  // ---------------------------------------------------------------------------

  const IgnoredEnvVarPrefixes: seq<string> := ["__fish", "BASH_FUNC_"]

  const IgnoredEnvVarKeys: set<string> := {
    "DIRENV_CONFIG", "DIRENV_BASH", "DIRENV_IN_ENVRC", "COMP_WORDBREAKS", "PS1",
    "OLDPWD", "PWD", "SHELL", "SHELLOPTS", "SHLVL", "_"
  }

  /** The prefix loop of `ignored_env_var_key`: does `key` start with one of `prefixes`? */
  function StartsWithAny(key: string, prefixes: seq<string>): (found: bool)
    ensures found <==> exists i | 0 <= i < |prefixes| :: StartsWith(key, prefixes[i])
  {
    if |prefixes| == 0 then false
    else if StartsWith(key, prefixes[0]) then true
    else
      var found := StartsWithAny(key, prefixes[1..]);
      assert forall i | 0 < i < |prefixes| :: prefixes[i] == prefixes[1..][i - 1];
      found
  }

  /** A variable is ignored iff it has one of the two prefixes or is one of eleven names. */
  function IgnoredEnvVarKey(key: string): (ignored: bool)
    ensures ignored <==>
      || StartsWith(key, "__fish") || StartsWith(key, "BASH_FUNC_")
      || key == "DIRENV_CONFIG" || key == "DIRENV_BASH" || key == "DIRENV_IN_ENVRC"
      || key == "COMP_WORDBREAKS" || key == "PS1" || key == "OLDPWD" || key == "PWD"
      || key == "SHELL" || key == "SHELLOPTS" || key == "SHLVL" || key == "_"
  {
    var prefixes := IgnoredEnvVarPrefixes;
    assert prefixes[1..][1..] == [];
    assert StartsWithAny(key, prefixes) == (StartsWith(key, "__fish") || StartsWith(key, "BASH_FUNC_"));
    StartsWithAny(key, prefixes) || key in IgnoredEnvVarKeys
  }

  /** `remove_ignored_env_vars`: removes exactly the ignored keys, one key at a time. */
  method RemoveIgnoredEnvVars(envVars: EnvVars) returns (kept: EnvVars)
    ensures forall k :: k in kept <==> k in envVars && !IgnoredEnvVarKey(k)
    ensures forall k | k in kept :: kept[k] == envVars[k]
  {
    kept := envVars;
    var keys := envVars.Keys;
    while keys != {}
      invariant keys <= envVars.Keys
      invariant forall k :: k in kept <==> k in envVars && (k in keys || !IgnoredEnvVarKey(k))
      invariant forall k | k in kept :: kept[k] == envVars[k]
      decreases keys
    {
      var key :| key in keys;
      if IgnoredEnvVarKey(key) {
        kept := kept - {key};
      }
      keys := keys - {key};
    }
  }
}
