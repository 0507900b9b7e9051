/**
 * File discovery (CtDumpMojo.fetchFiles): the class files under the source
 * directory matched by any include pattern, collected into one set.
 */
module Discovery {

  /** An include pattern, handed to the file filter as a regular expression. */
  type Pattern = string

  /** A file, identified as Java's `File` is in a hash set: by its path. */
  type File = string

  /** The default value of the `includes` parameter. */
  const DefaultIncludes: seq<Pattern> := ["*.class"]

  /**
   * The files found for `includes`: the union of the files that the directory
   * listing returns for each pattern, added in the order of the patterns.
   * `listFiles(dir, p)` stands for the recursive listing of `dir` filtered by `p`.
   */
  function Discovered(sourceDirectory: string, includes: seq<Pattern>,
                      listFiles: (string, Pattern) -> set<File>): set<File>
  {
    if includes == [] then {}
    else Discovered(sourceDirectory, includes[..|includes| - 1], listFiles)
         + listFiles(sourceDirectory, includes[|includes| - 1])
  }

  /** A file is found exactly when some include pattern matches it. */
  lemma {:induction false} DiscoveredMembers(sourceDirectory: string, includes: seq<Pattern>,
                                             listFiles: (string, Pattern) -> set<File>, f: File)
    ensures f in Discovered(sourceDirectory, includes, listFiles)
        <==> exists p :: p in includes && f in listFiles(sourceDirectory, p)
    decreases |includes|
  {
    if includes != [] {
      var init, last := includes[..|includes| - 1], includes[|includes| - 1];
      DiscoveredMembers(sourceDirectory, init, listFiles, f);
      assert includes == init + [last];
      if f in listFiles(sourceDirectory, last) {
        assert last in includes;
      }
      if exists p :: p in includes && f in listFiles(sourceDirectory, p) {
        var p :| p in includes && f in listFiles(sourceDirectory, p);
        if p != last {
          assert p in init;
        }
      }
    }
  }

  /**
   * The found set depends only on which patterns are given: not on their order
   * and not on repetitions.
   */
  lemma DiscoveredOrderFree(sourceDirectory: string, includes: seq<Pattern>, others: seq<Pattern>,
                            listFiles: (string, Pattern) -> set<File>)
    requires forall p :: p in includes <==> p in others
    ensures Discovered(sourceDirectory, includes, listFiles) == Discovered(sourceDirectory, others, listFiles)
  {
    forall f
      ensures f in Discovered(sourceDirectory, includes, listFiles)
          <==> f in Discovered(sourceDirectory, others, listFiles)
    {
      DiscoveredMembers(sourceDirectory, includes, listFiles, f);
      DiscoveredMembers(sourceDirectory, others, listFiles, f);
    }
  }

  /** Nothing is found exactly when no include pattern matches any file. */
  lemma DiscoveredEmpty(sourceDirectory: string, includes: seq<Pattern>,
                        listFiles: (string, Pattern) -> set<File>)
    ensures Discovered(sourceDirectory, includes, listFiles) == {}
        <==> forall p :: p in includes ==> listFiles(sourceDirectory, p) == {}
  {
    if Discovered(sourceDirectory, includes, listFiles) != {} {
      var f :| f in Discovered(sourceDirectory, includes, listFiles);
      DiscoveredMembers(sourceDirectory, includes, listFiles, f);
    } else {
      forall p | p in includes ensures listFiles(sourceDirectory, p) == {} {
        if listFiles(sourceDirectory, p) != {} {
          var f :| f in listFiles(sourceDirectory, p);
          DiscoveredMembers(sourceDirectory, includes, listFiles, f);
        }
      }
    }
  }

  /** With the default includes, the found files are those listed for `*.class`. */
  lemma DiscoveredDefault(sourceDirectory: string, listFiles: (string, Pattern) -> set<File>)
    ensures Discovered(sourceDirectory, DefaultIncludes, listFiles) == listFiles(sourceDirectory, "*.class")
  {
    assert DefaultIncludes[..0] == [];
  }

  /**
   * `fetchFiles`: adds the listing for each include pattern in turn to one
   * set of found files.
   */
  method FetchFiles(sourceDirectory: string, includes: seq<Pattern>,
                    listFiles: (string, Pattern) -> set<File>) returns (foundFiles: set<File>)
    ensures foundFiles == Discovered(sourceDirectory, includes, listFiles)
    ensures forall f :: f in foundFiles <==> exists p :: p in includes && f in listFiles(sourceDirectory, p)
  {
    foundFiles := {};
    for i := 0 to |includes|
      invariant foundFiles == Discovered(sourceDirectory, includes[..i], listFiles)
    {
      assert includes[..i + 1][..i] == includes[..i];
      foundFiles := foundFiles + listFiles(sourceDirectory, includes[i]);
    }
    assert includes[..|includes|] == includes;
    forall f ensures f in foundFiles <==> exists p :: p in includes && f in listFiles(sourceDirectory, p) {
      DiscoveredMembers(sourceDirectory, includes, listFiles, f);
    }
  }
}
