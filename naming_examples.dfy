/** Worked cases of the file-name derivation, including keys that collide. */
module NamingExamples {
  import opened Naming

  lemma {:induction false} ExampleLeadingSeparator()
    ensures FileName("/a/b/c") == "a-b-c"
  {
    TrimUnique("/a/b/c", "a/b/c", 1);
  }
  lemma {:induction false} ExampleTrailingSeparator()
    ensures FileName("a/b/") == "a-b"
  {
    TrimUnique("a/b/", "a/b", 0);
  }
  lemma {:induction false} ExampleDoubledSeparator()
    ensures FileName("a//b") == "a--b"
  {
    TrimUnique("a//b", "a//b", 0);
  }
  lemma {:induction false} ExampleFlatKey()
    ensures FileName("singleKey") == "singleKey"
  {
    FileNameOfFlat("singleKey");
  }

  /** A key made only of separators, the empty key included, gives the empty name. */
  lemma {:induction false} ExampleOnlySeparators(s: string)
    requires forall k :: 0 <= k < |s| ==> s[k] == Separator
    ensures FileName(s) == ""
  {
    TrimUnique(s, [], |s|);
  }

  lemma {:induction false} FileNameCollisions()
    ensures FileName("/a/b") == FileName("a/b/") == FileName("a-b") == "a-b"
  {
    TrimUnique("/a/b", "a/b", 1);
    ExampleTrailingSeparator();
    FileNameOfFlat("a-b");
  }
}
