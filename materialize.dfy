/**
 * Writing a batch of parameters to files: the specification of the resulting
 * file map and path list, what it implies, and the write loop itself.
 *
 * The batch functions take the key-to-path derivation as a parameter `path`,
 * so that their properties hold whatever the derivation; the export always
 * passes `PathFor`.
 */
module Materialize {
  import opened Naming
  import opened Paths
  import opened Ssm
  import opened Fs

  /** One whole-file write: the content replaces whatever the path held. */
  datatype Write = Write(path: string, content: string)

  /** The writes a batch performs: one per parameter, in order. */
  function Writes(ps: seq<Parameter>, path: string -> string): (ws: seq<Write>)
    ensures |ws| == |ps|
    ensures forall i :: 0 <= i < |ps| ==> ws[i] == Write(path(ps[i].name), ps[i].value)
  {
    if ps == [] then [] else
      var last := ps[|ps| - 1];
      Writes(ps[..|ps| - 1], path) + [Write(path(last.name), last.value)]
  }

  /** The path list the loop returns: one path per parameter, in order. */
  function OutputPaths(ps: seq<Parameter>, path: string -> string): (r: seq<string>)
    ensures |r| == |ps|
    ensures forall i :: 0 <= i < |ps| ==> r[i] == path(ps[i].name)
  {
    if ps == [] then [] else OutputPaths(ps[..|ps| - 1], path) + [path(ps[|ps| - 1].name)]
  }

  /** Extending the processed prefix by one parameter appends one path and one write. */
  lemma {:induction false} PrefixStep(ps: seq<Parameter>, path: string -> string, i: nat)
    requires i < |ps|
    ensures OutputPaths(ps[..i + 1], path) == OutputPaths(ps[..i], path) + [path(ps[i].name)]
    ensures Writes(ps[..i + 1], path) == Writes(ps[..i], path) + [Write(path(ps[i].name), ps[i].value)]
  {
    assert ps[..i + 1][..i] == ps[..i];
  }

  /** Some write of `ws` goes to path `p`. */
  predicate Targets(ws: seq<Write>, p: string) {
    exists i :: 0 <= i < |ws| && ws[i].path == p
  }

  /** The file map after performing `ws` on `files`, first to last. */
  function Apply(files: map<string, string>, ws: seq<Write>): map<string, string> {
    if ws == [] then
      files
    else
      var last := ws[|ws| - 1];
      Apply(files, ws[..|ws| - 1])[last.path := last.content]
  }

  /** The index of the last write to `p`: the one whose content survives. */
  function LastWriter(ws: seq<Write>, p: string): (i: nat)
    requires Targets(ws, p)
    ensures i < |ws| && ws[i].path == p
    ensures forall j :: i < j < |ws| ==> ws[j].path != p
  {
    var n := |ws| - 1;
    if ws[n].path == p then n
    else
      assert Targets(ws[..n], p) by {
        var i :| 0 <= i < |ws| && ws[i].path == p;
        assert ws[..n][i].path == p;
      }
      LastWriter(ws[..n], p)
  }

  /**
   * What a sequence of writes does to one path: a written path holds the
   * content of its last write, every other path is as it was.
   */
  lemma {:induction false} ApplyAt(files: map<string, string>, ws: seq<Write>, p: string)
    ensures p in Apply(files, ws) <==> p in files || Targets(ws, p)
    ensures Targets(ws, p) ==> Apply(files, ws)[p] == ws[LastWriter(ws, p)].content
    ensures !Targets(ws, p) && p in files ==> Apply(files, ws)[p] == files[p]
  {
    if ws != [] {
      var n := |ws| - 1;
      ApplyAt(files, ws[..n], p);
      if Targets(ws[..n], p) {
        var i :| 0 <= i < n && ws[..n][i].path == p;
        assert ws[i].path == p;
      }
      if Targets(ws, p) && ws[n].path != p {
        var i :| 0 <= i < |ws| && ws[i].path == p;
        assert ws[..n][i].path == p;
      }
    }
  }

  /** The file map after writing each parameter's value to its path, first to last. */
  function Materialized(files: map<string, string>, ps: seq<Parameter>, path: string -> string): map<string, string> {
    Apply(files, Writes(ps, path))
  }

  /** A path is written by the batch exactly when it is among the returned paths. */
  lemma {:induction false} TargetsOutputPaths(ps: seq<Parameter>, path: string -> string, p: string)
    ensures Targets(Writes(ps, path), p) <==> p in OutputPaths(ps, path)
  {
    var ws := Writes(ps, path);
    if p in OutputPaths(ps, path) {
      var i :| 0 <= i < |ps| && OutputPaths(ps, path)[i] == p;
      assert ws[i].path == p;
    }
  }

  /**
   * Files whose path is not among the returned paths are left exactly as
   * they were, and none appears or disappears.
   */
  lemma {:induction false} Untouched(files: map<string, string>, ps: seq<Parameter>, path: string -> string, p: string)
    requires p !in OutputPaths(ps, path)
    ensures p in Materialized(files, ps, path) <==> p in files
    ensures p in files ==> Materialized(files, ps, path)[p] == files[p]
  {
    TargetsOutputPaths(ps, path, p);
    ApplyAt(files, Writes(ps, path), p);
  }

  /** `Untouched`, for every path at once. */
  lemma {:induction false} UntouchedAll(files: map<string, string>, ps: seq<Parameter>, path: string -> string)
    ensures forall p :: p !in OutputPaths(ps, path) ==> (p in Materialized(files, ps, path) <==> p in files)
    ensures forall p :: p !in OutputPaths(ps, path) && p in files ==> Materialized(files, ps, path)[p] == files[p]
  {
    forall p | p !in OutputPaths(ps, path)
      ensures p in Materialized(files, ps, path) <==> p in files
      ensures p in files ==> Materialized(files, ps, path)[p] == files[p]
    {
      Untouched(files, ps, path, p);
    }
  }

  /**
   * A file holds the value of the last parameter whose name derives to its
   * path: if no later parameter derives to parameter `j`'s path, that path
   * holds `j`'s value. (`LastWriter` gives such a `j` for every returned path.)
   */
  lemma {:induction false} LastWriteWins(files: map<string, string>, ps: seq<Parameter>, path: string -> string, j: nat)
    requires j < |ps|
    requires forall k :: j < k < |ps| ==> path(ps[k].name) != path(ps[j].name)
    ensures path(ps[j].name) in Materialized(files, ps, path)
    ensures Materialized(files, ps, path)[path(ps[j].name)] == ps[j].value
  {
    var ws := Writes(ps, path);
    var p := path(ps[j].name);
    assert ws[j].path == p;
    ApplyAt(files, ws, p);
    var w := LastWriter(ws, p);
    assert j <= w;
    assert w == j;
  }

  /**
   * When no two parameters share a path, each returned path holds exactly
   * the value of the parameter it was derived from.
   */
  lemma {:induction false} DistinctPathsRoundTrip(files: map<string, string>, ps: seq<Parameter>, path: string -> string, i: nat)
    requires i < |ps|
    requires forall j, k :: 0 <= j < k < |ps| ==> path(ps[j].name) != path(ps[k].name)
    ensures OutputPaths(ps, path)[i] in Materialized(files, ps, path)
    ensures Materialized(files, ps, path)[OutputPaths(ps, path)[i]] == ps[i].value
  {
    LastWriteWins(files, ps, path, i);
  }

  /**
   * With the export's own derivation: when no two parameters share a file
   * name, each file holds exactly the value of the parameter it came from.
   */
  lemma {:induction false} DistinctNamesRoundTrip(files: map<string, string>, ps: seq<Parameter>, i: nat)
    requires i < |ps|
    requires forall j, k :: 0 <= j < k < |ps| ==> FileName(ps[j].name) != FileName(ps[k].name)
    ensures OutputPaths(ps, PathFor)[i] in Materialized(files, ps, PathFor)
    ensures Materialized(files, ps, PathFor)[OutputPaths(ps, PathFor)[i]] == ps[i].value
  {
    forall j, k | 0 <= j < k < |ps|
      ensures PathFor(ps[j].name) != PathFor(ps[k].name)
    {
      PathForInjective(ps[j].name, ps[k].name);
    }
    DistinctPathsRoundTrip(files, ps, PathFor, i);
  }

  /** Running the same batch again leaves the file map as the first run left it. */
  lemma {:induction false} RerunIdempotent(files: map<string, string>, ps: seq<Parameter>, path: string -> string)
    ensures Materialized(Materialized(files, ps, path), ps, path) == Materialized(files, ps, path)
  {
    var ws := Writes(ps, path);
    var once := Apply(files, ws);
    var twice := Apply(once, ws);
    forall p ensures p in twice <==> p in once {
      ApplyAt(files, ws, p);
      ApplyAt(once, ws, p);
    }
    forall p | p in once ensures twice[p] == once[p] {
      ApplyAt(files, ws, p);
      ApplyAt(once, ws, p);
    }
  }

  /**
   * `writeResponseToFile`: make sure the output directory exists, write every
   * parameter's value to its path in order, and return the paths written.
   */
  method WriteResponseToFile(fs: FileSystem, response: Response) returns (outputFiles: seq<string>)
    modifies fs
    ensures outputFiles == OutputPaths(ParameterList(response), PathFor)
    ensures fs.dirs == if old(fs.Exists(OutputsDir)) then old(fs.dirs) else old(fs.dirs) + {OutputsDir}
    ensures fs.Exists(OutputsDir)
    ensures old(fs.files).Keys <= fs.files.Keys
    ensures fs.files == Materialized(old(fs.files), ParameterList(response), PathFor)
    ensures forall p :: p !in outputFiles ==> (p in fs.files <==> p in old(fs.files))
    ensures forall p :: p !in outputFiles && p in old(fs.files) ==> fs.files[p] == old(fs.files)[p]
  {
    if !fs.Exists(OutputsDir) {
      fs.MakeDirectory(OutputsDir);
    }
    ghost var dirs := fs.dirs;
    var parameters := ParameterList(response);
    outputFiles := [];
    for i := 0 to |parameters|
      invariant outputFiles == OutputPaths(parameters[..i], PathFor)
      invariant fs.files == Apply(old(fs.files), Writes(parameters[..i], PathFor))
      invariant fs.dirs == dirs
      invariant old(fs.files).Keys <= fs.files.Keys
    {
      var param := parameters[i];
      var fileName := FileName(param.name);
      var outputFilePath := Format(OutputsDir, fileName, Extension);
      PathForIsFormat(param.name);
      fs.WriteFile(outputFilePath, param.value);
      outputFiles := outputFiles + [outputFilePath];
      PrefixStep(parameters, PathFor, i);
    }
    assert parameters[..|parameters|] == parameters;
    UntouchedAll(old(fs.files), parameters, PathFor);
  }
}
