/** Where the file for a parameter is written: `./data/<file name>.json`. */
module Paths {
  import opened Naming

  /** The fixed output directory of the export. */
  const OutputsDir: string := "./data"
  /** The fixed extension, applied whatever the content is. */
  const Extension: string := ".json"
  const PathSeparator: char := '/'
  /** `OutputsDir` followed by the separator `Format` puts after it. */
  const Prefix: string := "./data/"

  /**
   * Node's `path.format({dir, name, ext})` for a path object with no `root` and
   * no `base`: the name and extension, behind the directory and one separator
   * when there is a directory.
   */
  function Format(dir: string, name: string, ext: string): string {
    if dir == [] then name + ext else dir + [PathSeparator] + name + ext
  }

  /** The output path of the parameter called `key`. */
  function PathFor(key: string): string {
    Format(OutputsDir, FileName(key), Extension)
  }

  /** `PathFor` is the formatting of the derived file name in the output directory. */
  lemma {:induction false} PathForIsFormat(key: string)
    ensures PathFor(key) == Format(OutputsDir, FileName(key), Extension)
  {
  }

  /** An output path is the prefix, the file name and the extension, whatever the content. */
  lemma {:induction false} PathShape(key: string)
    ensures PathFor(key) == Prefix + FileName(key) + Extension
  {
  }

  /** The file name recovered from an output path. */
  function NameOfPath(p: string): string
    requires |p| >= |Prefix| + |Extension|
  {
    p[|Prefix|..|p| - |Extension|]
  }

  /** Reading the file name back out of the path gives the derived name. */
  lemma {:induction false} NameOfPathRoundTrip(key: string)
    ensures |PathFor(key)| == |Prefix| + |FileName(key)| + |Extension|
    ensures NameOfPath(PathFor(key)) == FileName(key)
  {
    var name := FileName(key);
    PathShape(key);
    assert (Prefix + name + Extension)[|Prefix|..|Prefix| + |name|] == name;
  }

  /**
   * Every output file sits directly inside the output directory: the only
   * separators in a path are the two in its `./data/` prefix.
   */
  lemma {:induction false} PathIsFlat(key: string)
    ensures forall k :: 0 <= k < |PathFor(key)| ==> (PathFor(key)[k] == PathSeparator <==> k == 1 || k == 6)
  {
    var name := FileName(key);
    var p := Prefix + name + Extension;
    PathShape(key);
    forall k | 0 <= k < |p|
      ensures p[k] == PathSeparator <==> k == 1 || k == 6
    {
      if k < |Prefix| {
        assert p[k] == Prefix[k];
      } else if k < |Prefix| + |name| {
        assert p[k] == name[k - |Prefix|];
      } else {
        assert p[k] == Extension[k - |Prefix| - |name|];
      }
    }
  }

  /** Two parameters share an output path exactly when they share a file name. */
  lemma {:induction false} PathForInjective(a: string, b: string)
    ensures PathFor(a) == PathFor(b) <==> FileName(a) == FileName(b)
  {
    if PathFor(a) == PathFor(b) {
      NameOfPathRoundTrip(a);
      NameOfPathRoundTrip(b);
    }
  }
}
