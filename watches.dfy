/**
 * The files direnv watches, and the store paths of a flake's inputs read from the JSON
 * that `nix flake archive --json` prints.  JSON arrives already parsed.
 */
module Watches {
  import opened Wrappers
  import opened Util

  /** One watched file; `extant` is the dump's `exists` flag, `modtime` in seconds. */
  datatype Watch = Watch(extant: bool, modtime: i64, path: Path)

  /** A JSON value; an object keeps its members in iteration order. */
  datatype Json =
    | JNull
    | JBool(b: bool)
    | JNumber(n: int)
    | JString(s: string)
    | JArray(items: seq<Json>)
    | JObject(members: seq<Member>)

  datatype Member = Member(key: string, value: Json)

  /** Length of the `/nix/store/` prefix that `get_path` strips. */
  const StorePrefixLength: nat := 11

  /** `get_extant`'s filter: the watched files that exist, in their order. */
  function ExtantOnly(watches: seq<Watch>): (r: seq<Watch>)
    ensures forall w | w in r :: w in watches && w.extant
    ensures forall w | w in watches && w.extant :: w in r
    ensures |r| <= |watches|
  {
    if |watches| == 0 then []
    else
      var rest := ExtantOnly(watches[1..]);
      assert forall w | w in watches[1..] :: w in watches;
      assert watches == [watches[0]] + watches[1..];
      (if watches[0].extant then [watches[0]] else []) + rest
  }

  /** The filter works piecewise, so it keeps the relative order of the watches it keeps. */
  lemma {:induction false} ExtantOnlyAppend(a: seq<Watch>, b: seq<Watch>)
    ensures ExtantOnly(a + b) == ExtantOnly(a) + ExtantOnly(b)
  {
    if |a| > 0 {
      ExtantOnlyAppend(a[1..], b);
      assert (a + b)[1..] == a[1..] + b;
    } else {
      assert a + b == b;
    }
  }

  /** A list of extant watches passes the filter unchanged, so filtering twice changes nothing. */
  lemma {:induction false} ExtantOnlyKeepsExtant(watches: seq<Watch>)
    requires forall w | w in watches :: w.extant
    ensures ExtantOnly(watches) == watches
    ensures ExtantOnly(ExtantOnly(watches)) == ExtantOnly(watches)
  {
    if |watches| > 0 {
      assert watches[0] in watches;
      assert forall w | w in watches[1..] :: w in watches;
      ExtantOnlyKeepsExtant(watches[1..]);
      assert watches == [watches[0]] + watches[1..];
    }
  }

  /** A watch whose file does not exist leaves the filtered list as if it were not there. */
  lemma ExtantOnlySkipsMissing(before: seq<Watch>, missing: Watch, after: seq<Watch>)
    requires !missing.extant
    ensures ExtantOnly(before + [missing] + after) == ExtantOnly(before + after)
  {
    assert [missing][1..] == [];
    assert ExtantOnly([missing]) == [];
    calc {
      ExtantOnly(before + [missing] + after);
      { ExtantOnlyAppend(before + [missing], after); }
      ExtantOnly(before + [missing]) + ExtantOnly(after);
      { ExtantOnlyAppend(before, [missing]); }
      ExtantOnly(before) + ExtantOnly(after);
      { ExtantOnlyAppend(before, after); }
      ExtantOnly(before + after);
    }
  }

  /** `get_extant`: a failure to read the watches passes through; otherwise the filter. */
  function GetExtant(watches: Result<seq<Watch>, string>): (r: Result<seq<Watch>, string>)
    ensures watches.Err? ==> r == Err(watches.error)
    ensures watches.Ok? ==> r.Ok? && r.value == ExtantOnly(watches.value)
  {
    match watches
    case Ok(ws) => Ok(ExtantOnly(ws))
    case Err(e) => Err(e)
  }

  /** `Value::get(key)`: the member of an object with this key; nothing for other values. */
  function Get(doc: Json, key: string): (r: Option<Json>)
    ensures r.Some? ==> r.value < doc
    ensures !doc.JObject? ==> r.None?
  {
    match doc
    case JObject(members) => Find(members, key)
    case _ => None
  }

  function Find(members: seq<Member>, key: string): (r: Option<Json>)
    ensures r.Some? ==> exists i | 0 <= i < |members| :: members[i].key == key && r.value == members[i].value
    ensures r.None? ==> forall i | 0 <= i < |members| :: members[i].key != key
  {
    if |members| == 0 then None
    else if members[0].key == key then Some(members[0].value)
    else
      var r := Find(members[1..], key);
      assert forall i | 1 <= i < |members| :: members[i] == members[1..][i - 1];
      r
  }

  /**
   * `get_path`: the string under "path" without its first eleven characters; a path of
   * eleven or fewer is kept whole; no "path", or one that is not a string, gives nothing.
   */
  function GetPath(doc: Json): (r: Option<string>)
    ensures r.None? <==> !(Get(doc, "path").Some? && Get(doc, "path").value.JString?)
    ensures r.Some? ==>
      var p := Get(doc, "path").value.s;
      && (|p| > StorePrefixLength ==> |p| == StorePrefixLength + |r.value| && p[StorePrefixLength..] == r.value)
      && (|p| <= StorePrefixLength ==> r.value == p)
  {
    match Get(doc, "path")
    case Some(JString(p)) => Some(if |p| > StorePrefixLength then p[StorePrefixLength..] else p)
    case _ => None
  }

  /** The node's own contribution: its stripped path, if it has one. */
  function OwnPath(doc: Json): seq<string>
  {
    match GetPath(doc)
    case Some(p) => [p]
    case None => []
  }

  /** Pre-order: the node's own path, then every input subtree's paths in member order. */
  function PathsOf(doc: Json): (r: seq<string>)
    decreases doc
  {
    OwnPath(doc) +
    match Get(doc, "inputs")
    case Some(JObject(inputs)) => InputsPaths(inputs)
    case _ => []
  }

  function InputsPaths(inputs: seq<Member>): seq<string>
    decreases inputs
  {
    if |inputs| == 0 then []
    else InputsPaths(inputs[..|inputs| - 1]) + PathsOf(inputs[|inputs| - 1].value)
  }

  /**
   * `get_paths_from_doc`: pushes the node's own path, then walks the "inputs" object,
   * extending the result with each input's paths.
   */
  method GetPathsFromDoc(doc: Json) returns (result: seq<string>)
    ensures result == PathsOf(doc)
    decreases doc, 1
  {
    result := [];
    var p := GetPath(doc);
    if p.Some? {
      result := result + [p.value];
    }
    assert result == OwnPath(doc);
    var inputsDoc := Get(doc, "inputs");
    if inputsDoc.Some? && inputsDoc.value.JObject? {
      var inputs := inputsDoc.value.members;
      result := ExtendWithInputsPaths(result, inputs);
      PathsOfInputs(doc, inputs);
    } else {
      PathsOfLeaf(doc);
    }
  }

  /** The `for` loop of `get_paths_from_doc`: extends `result` with each input's paths in order. */
  method ExtendWithInputsPaths(result0: seq<string>, inputs: seq<Member>) returns (result: seq<string>)
    ensures result == result0 + InputsPaths(inputs)
    decreases inputs, 0
  {
    result := result0;
    for i := 0 to |inputs|
      invariant result == result0 + InputsPaths(inputs[..i])
    {
      assert inputs[i] in inputs;
      var subPaths := GetPathsFromDoc(inputs[i].value);
      assert inputs[..i + 1][..i] == inputs[..i];
      result := result + subPaths;
    }
    assert inputs[..|inputs|] == inputs;
  }

  lemma PathsOfInputs(doc: Json, inputs: seq<Member>)
    requires Get(doc, "inputs") == Some(JObject(inputs))
    ensures PathsOf(doc) == OwnPath(doc) + InputsPaths(inputs)
  {
  }

  /** A node without an "inputs" object contributes only its own path. */
  lemma PathsOfLeaf(doc: Json)
    requires !(Get(doc, "inputs").Some? && Get(doc, "inputs").value.JObject?)
    ensures PathsOf(doc) == OwnPath(doc)
    ensures |PathsOf(doc)| <= 1
  {
  }

  /** The first input's subtree comes before the paths of all the inputs after it. */
  lemma {:induction false} InputsPathsCons(first: Member, rest: seq<Member>)
    ensures InputsPaths([first] + rest) == PathsOf(first.value) + InputsPaths(rest)
    decreases |rest|
  {
    if |rest| == 0 {
      assert [first] + rest == [first];
      assert [first][..0] == [];
    } else {
      var all := [first] + rest;
      var init := rest[..|rest| - 1];
      assert all[..|all| - 1] == [first] + init;
      InputsPathsCons(first, init);
    }
  }

  /** A node shaped like the ones nix emits: a "path" member followed by an "inputs" object. */
  lemma PathsOfNode(path: string, inputs: seq<Member>)
    requires |path| > StorePrefixLength
    ensures PathsOf(JObject([Member("path", JString(path)), Member("inputs", JObject(inputs))]))
            == [path[StorePrefixLength..]] + InputsPaths(inputs)
  {
    var members := [Member("path", JString(path)), Member("inputs", JObject(inputs))];
    var doc := JObject(members);
    assert "path" != "inputs";
    assert members[1..] == [Member("inputs", JObject(inputs))];
    assert Find(members[1..][1..], "inputs") == None;
    assert Find(members[1..], "inputs") == Some(JObject(inputs));
    assert Get(doc, "path") == Some(JString(path));
    assert Get(doc, "inputs") == Some(JObject(inputs));
    PathsOfInputs(doc, inputs);
  }

  /** A single input contributes exactly its subtree's paths. */
  lemma InputsPathsSingle(m: Member)
    ensures InputsPaths([m]) == PathsOf(m.value)
  {
    InputsPathsCons(m, []);
    assert [m] + [] == [m];
  }

  /** The tree of the repository's unit test comes out as its three stripped paths, in pre-order. */
  lemma PathsOfNestedInputs()
    ensures
      var bar := JObject([Member("path", JString("aaaaaaaaaaaddddd")), Member("inputs", JObject([]))]);
      var foo := JObject([Member("path", JString("aaaaaaaaaaaccccc")), Member("inputs", JObject([Member("bar", bar)]))]);
      var doc := JObject([Member("path", JString("aaaaaaaaaaabbbbb")), Member("inputs", JObject([Member("foo", foo)]))]);
      PathsOf(doc) == ["bbbbb", "ccccc", "ddddd"]
  {
    var bar := JObject([Member("path", JString("aaaaaaaaaaaddddd")), Member("inputs", JObject([]))]);
    var foo := JObject([Member("path", JString("aaaaaaaaaaaccccc")), Member("inputs", JObject([Member("bar", bar)]))]);
    PathsOfNode("aaaaaaaaaaaddddd", []);
    assert "aaaaaaaaaaaddddd"[StorePrefixLength..] == "ddddd";
    InputsPathsSingle(Member("bar", bar));
    PathsOfNode("aaaaaaaaaaaccccc", [Member("bar", bar)]);
    assert "aaaaaaaaaaaccccc"[StorePrefixLength..] == "ccccc";
    InputsPathsSingle(Member("foo", foo));
    PathsOfNode("aaaaaaaaaaabbbbb", [Member("foo", foo)]);
    assert "aaaaaaaaaaabbbbb"[StorePrefixLength..] == "bbbbb";
  }

  /**
   * How many nodes of the tree carry a string "path": the node itself, and recursively the
   * values of its "inputs" object, counted from the first input on.
   */
  function PathNodes(doc: Json): nat
    decreases doc
  {
    (if Get(doc, "path").Some? && Get(doc, "path").value.JString? then 1 else 0) +
    match Get(doc, "inputs")
    case Some(JObject(inputs)) => InputsNodes(inputs)
    case _ => 0
  }

  function InputsNodes(inputs: seq<Member>): nat
    decreases inputs
  {
    if |inputs| == 0 then 0
    else PathNodes(inputs[0].value) + InputsNodes(inputs[1..])
  }

  /** The walk emits exactly one path per node whose "path" is a string, and no other. */
  lemma {:induction false} PathsOfCount(doc: Json)
    ensures |PathsOf(doc)| == PathNodes(doc)
    decreases doc, 1
  {
    assert |OwnPath(doc)| == if Get(doc, "path").Some? && Get(doc, "path").value.JString? then 1 else 0;
    match Get(doc, "inputs")
    case Some(JObject(inputs)) =>
      PathsOfInputs(doc, inputs);
      InputsPathsCount(inputs);
    case _ =>
  }

  lemma {:induction false} InputsPathsCount(inputs: seq<Member>)
    ensures |InputsPaths(inputs)| == InputsNodes(inputs)
    decreases inputs, 0
  {
    if |inputs| > 0 {
      assert inputs == [inputs[0]] + inputs[1..];
      InputsPathsCons(inputs[0], inputs[1..]);
      PathsOfCount(inputs[0].value);
      InputsPathsCount(inputs[1..]);
    }
  }

  /** The arguments `get_input_paths` gives `nix` after the fixed ones. */
  const FlakeArchiveArgs: seq<string> := ["flake", "archive", "--json", "--no-write-lock-file"]

  const ArchiveRunFailed := "Failed to run `nix flake archive --json`. Ignoring flake inputs."
  const ArchiveParseFailed := "Failed to parse output of `nix flake archive --json`. Ignoring flake inputs."

  /** What `get_input_paths` yields: the paths, and the diagnostic it prints instead, if any. */
  function InputPaths(runProcess: ProcessRunner, parseJson: string -> Option<Json>): (seq<string>, Option<string>)
  {
    var (status, output) := runProcess("nix", NixFixedArgs + FlakeArchiveArgs);
    if status != Success then ([], Some(ArchiveRunFailed))
    else if parseJson(output).None? then ([], Some(ArchiveParseFailed))
    else (PathsOf(parseJson(output).value), None)
  }

  /**
   * `get_input_paths`: the flake's input paths; when `nix flake archive` fails or its
   * output is not JSON, a diagnostic and no paths.
   */
  method GetInputPaths(runProcess: ProcessRunner, parseJson: string -> Option<Json>)
    returns (paths: seq<string>, diagnostic: Option<string>)
    ensures (paths, diagnostic) == InputPaths(runProcess, parseJson)
    ensures var (status, output) := runProcess("nix", NixFixedArgs + FlakeArchiveArgs);
      && (status != Success ==> paths == [] && diagnostic == Some(ArchiveRunFailed))
      && (status == Success && parseJson(output).None? ==> paths == [] && diagnostic == Some(ArchiveParseFailed))
      && (status == Success && parseJson(output).Some? ==> paths == PathsOf(parseJson(output).value) && diagnostic == None)
  {
    var status, output := Nix(FlakeArchiveArgs, runProcess);
    if status == Success {
      match parseJson(output)
      case Some(json) =>
        paths := GetPathsFromDoc(json);
        diagnostic := None;
      case None =>
        paths := [];
        diagnostic := Some(ArchiveParseFailed);
    } else {
      paths := [];
      diagnostic := Some(ArchiveRunFailed);
    }
  }
}
