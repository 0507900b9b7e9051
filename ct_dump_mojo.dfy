/**
 * The `ctdump` goal (CtDumpMojo.execute and writeClass): discover the class
 * files, register the source directory with the class pool, then for each file
 * derive its class name, look the class up and write its document, stopping at
 * the first failure.
 *
 * The libraries the goal calls (directory listing, canonical paths, the class
 * pool, directory creation, the JSON serialiser) are oracles bundled in `Env`;
 * the calls the goal makes to them are recorded in order in a `Run`.
 */
module CtDumpMojo {
  import opened Wrappers
  import opened ClassNames
  import opened OutputPaths
  import opened Discovery

  /** The goal's parameters. */
  datatype Mojo = Mojo(outputDirectory: string, includes: seq<Pattern>, sourceDirectory: string)

  /** The outcome of every library call the goal makes. */
  datatype Env = Env(
    // FileUtils.listFiles(dir, new RegexFileFilter(pattern), TrueFileFilter.INSTANCE)
    listFiles: (string, Pattern) -> set<File>,
    // the canonical paths of a file and of its parent directory; None: an IOException
    canonicalPaths: File -> Option<(string, string)>,
    // ClassPool.insertClassPath(dir); false: a NotFoundException
    insertClassPath: string -> bool,
    // ClassPool.get(name); false: a NotFoundException
    get: string -> bool,
    // FileUtils.forceMkdir on the parent of the target; false: an IOException
    forceMkdir: string -> bool,
    // ObjectMapper.writeValue to the target; false: any exception
    writeValue: string -> bool)

  /** A call with an effect on the class pool or the file system, in the order made. */
  datatype Call =
    | InsertClassPath(dir: string)
    | Get(className: string)
    | ForceMkdir(target: string)
    | WriteValue(target: string)

  /** Why a run stops. */
  datatype Failure =
    | NoMatchedFiles                                    // "No matched files to process"
    | CouldNotAddClasspath(dir: string)                 // "Could not add classpath ..."
    | BadFile(file: File)                               // "Bad file"
    | NameOutOfRange(file: File)                        // substring throws (unchecked)
    | ClassNotFound(file: File, className: string)      // "Failed to class file ..."
    | CouldNotCreateDirectory(target: string, className: string) // "Couldn't create directory ..."
    | CouldNotOutput(className: string)                 // "Couldn't output CtClass ..."

  /** The calls made, the documents written, and the failure that stopped the run, if any. */
  datatype Run = Run(calls: seq<Call>, written: seq<string>, failure: Option<Failure>)

  /** Every `WriteValue` directly follows a successful `ForceMkdir` of the same target. */
  predicate WritesFollowMkdir(env: Env, calls: seq<Call>)
  {
    forall j :: 0 <= j < |calls| && calls[j].WriteValue? ==>
      0 < j && calls[j - 1] == ForceMkdir(calls[j].target) && env.forceMkdir(calls[j].target)
  }

  /**
   * `fetchClassnameFromFile`: the class name of a discovered file, from its
   * canonical path and its parent directory's canonical path.
   */
  function FetchClassnameFromFile(env: Env, file: File): (r: Result<string, Failure>)
    ensures r.Err? ==> r.error == BadFile(file) || r.error == NameOutOfRange(file)
    ensures r.Err? && r.error == BadFile(file) <==> env.canonicalPaths(file).None?
    ensures r.Ok? <==> (env.canonicalPaths(file).Some? &&
      |env.canonicalPaths(file).value.1| + ClassTrim <= |env.canonicalPaths(file).value.0|)
    ensures r.Ok? ==> Some(r.value) == ClassNameOf(env.canonicalPaths(file).value.0, env.canonicalPaths(file).value.1)
  {
    match env.canonicalPaths(file)
    case None => Err(BadFile(file))
    case Some((fullPath, parentPath)) =>
      match ClassNameOf(fullPath, parentPath)
      case None => Err(NameOutOfRange(file))
      case Some(name) => Ok(name)
  }

  /**
   * `writeClass`: create the target's directory, then serialise the class to
   * the target; each failure ends the step.
   */
  function WriteClass(outputDirectory: string, env: Env, klassName: string): (r: Run)
    ensures var target := OutputPath(outputDirectory, klassName);
      && r.calls == [ForceMkdir(target)] + (if env.forceMkdir(target) then [WriteValue(target)] else [])
      && (r.failure.None? <==> env.forceMkdir(target) && env.writeValue(target))
      && (r.failure.Some? ==>
            r.failure.value == (if env.forceMkdir(target) then CouldNotOutput(klassName)
                                else CouldNotCreateDirectory(target, klassName)))
      && r.written == (if r.failure.None? then [target] else [])
    ensures WritesFollowMkdir(env, r.calls)
  {
    var target := OutputPath(outputDirectory, klassName);
    if !env.forceMkdir(target) then
      Run([ForceMkdir(target)], [], Some(CouldNotCreateDirectory(target, klassName)))
    else if !env.writeValue(target) then
      Run([ForceMkdir(target), WriteValue(target)], [], Some(CouldNotOutput(klassName)))
    else
      Run([ForceMkdir(target), WriteValue(target)], [target], None)
  }

  /**
   * The body of the loop over the discovered files: name the file, look the
   * class up, write it.
   */
  function ProcessFile(m: Mojo, env: Env, file: File): (r: Run)
    ensures r.failure.None? <==>
      var n := FetchClassnameFromFile(env, file);
      && n.Ok?
      && env.get(n.value)
      && env.forceMkdir(OutputPath(m.outputDirectory, n.value))
      && env.writeValue(OutputPath(m.outputDirectory, n.value))
    ensures FetchClassnameFromFile(env, file).Err? ==>
      r == Run([], [], Some(FetchClassnameFromFile(env, file).error))
    ensures FetchClassnameFromFile(env, file).Ok? ==>
      var n := FetchClassnameFromFile(env, file).value;
      if !env.get(n) then r == Run([Get(n)], [], Some(ClassNotFound(file, n)))
      else
        var w := WriteClass(m.outputDirectory, env, n);
        r == Run([Get(n)] + w.calls, w.written, w.failure)
    ensures r.failure.Some? ==> r.written == []
    ensures r.failure.None? ==>
      r.written == [OutputPath(m.outputDirectory, FetchClassnameFromFile(env, file).value)]
    ensures r.calls != [] ==> r.calls[0].Get?
    ensures WritesFollowMkdir(env, r.calls)
  {
    match FetchClassnameFromFile(env, file)
    case Err(e) => Run([], [], Some(e))
    case Ok(klassName) =>
      if !env.get(klassName) then
        Run([Get(klassName)], [], Some(ClassNotFound(file, klassName)))
      else
        var w := WriteClass(m.outputDirectory, env, klassName);
        Run([Get(klassName)] + w.calls, w.written, w.failure)
  }

  /**
   * Processing `files` in order, stopping at the first file whose step fails.
   */
  function RunFiles(m: Mojo, env: Env, files: seq<File>): Run
    decreases |files|
  {
    if files == [] then Run([], [], None)
    else
      var r := RunFiles(m, env, files[..|files| - 1]);
      if r.failure.Some? then r
      else
        var s := ProcessFile(m, env, files[|files| - 1]);
        Run(r.calls + s.calls, r.written + s.written, s.failure)
  }

  /** Processing one more file: nothing happens after a failure, otherwise its step is appended. */
  lemma RunFilesSnoc(m: Mojo, env: Env, files: seq<File>, file: File)
    ensures RunFiles(m, env, files + [file]) ==
      var r := RunFiles(m, env, files);
      if r.failure.Some? then r
      else
        var s := ProcessFile(m, env, file);
        Run(r.calls + s.calls, r.written + s.written, s.failure)
  {
    assert (files + [file])[..|files|] == files;
  }

  /**
   * A run over `files` succeeds exactly when every file's step succeeds, and
   * then it writes one document per file, in order.
   */
  lemma {:induction false} RunFilesSucceeds(m: Mojo, env: Env, files: seq<File>)
    ensures RunFiles(m, env, files).failure.None?
        <==> forall i :: 0 <= i < |files| ==> ProcessFile(m, env, files[i]).failure.None?
    ensures RunFiles(m, env, files).failure.None? ==>
      && |RunFiles(m, env, files).written| == |files|
      && forall i :: 0 <= i < |files| ==>
           ProcessFile(m, env, files[i]).written == [RunFiles(m, env, files).written[i]]
    decreases |files|
  {
    if files != [] {
      var init, last := files[..|files| - 1], files[|files| - 1];
      RunFilesSucceeds(m, env, init);
      assert files == init + [last];
      RunFilesSnoc(m, env, init, last);
      var r, s := RunFiles(m, env, init), ProcessFile(m, env, last);
      var all := RunFiles(m, env, files);
      if r.failure.Some? {
        var i :| 0 <= i < |init| && ProcessFile(m, env, init[i]).failure.Some?;
        assert init[i] == files[i];
      } else {
        assert all == Run(r.calls + s.calls, r.written + s.written, s.failure);
        forall i | 0 <= i < |files|
          ensures ProcessFile(m, env, files[i]).failure.None? <==>
                  (i < |init| ==> ProcessFile(m, env, init[i]).failure.None?) &&
                  (i == |init| ==> s.failure.None?)
        {
          if i < |init| { assert init[i] == files[i]; }
        }
        if all.failure.None? {
          forall i | 0 <= i < |files|
            ensures ProcessFile(m, env, files[i]).written == [all.written[i]]
          {
            if i < |init| {
              assert init[i] == files[i];
              assert all.written[i] == r.written[i];
            } else {
              assert all.written[i] == s.written[0];
            }
          }
        }
      }
    }
  }

  /** Once a run over a prefix has failed, the files after it change nothing. */
  lemma {:induction false} RunFilesStops(m: Mojo, env: Env, files: seq<File>, k: nat)
    requires k <= |files|
    requires RunFiles(m, env, files[..k]).failure.Some?
    ensures RunFiles(m, env, files) == RunFiles(m, env, files[..k])
    decreases |files|
  {
    if k < |files| {
      var init := files[..|files| - 1];
      assert init[..k] == files[..k];
      RunFilesStops(m, env, init, k);
    } else {
      assert files[..k] == files;
    }
  }

  /**
   * Fail-fast: when file `k` is the first whose step fails, the run ends with
   * that failure, has written one path for each file before it, and nothing
   * about any later file happens.
   */
  lemma RunFilesFailFast(m: Mojo, env: Env, files: seq<File>, k: nat)
    requires k < |files|
    requires forall i :: 0 <= i < k ==> ProcessFile(m, env, files[i]).failure.None?
    requires ProcessFile(m, env, files[k]).failure.Some?
    ensures RunFiles(m, env, files) == RunFiles(m, env, files[..k + 1])
    ensures RunFiles(m, env, files).failure == ProcessFile(m, env, files[k]).failure
    ensures RunFiles(m, env, files).written == RunFiles(m, env, files[..k]).written
    ensures |RunFiles(m, env, files).written| == k
  {
    var before := files[..k];
    assert forall i :: 0 <= i < k ==> before[i] == files[i];
    RunFilesSucceeds(m, env, before);
    assert files[..k + 1] == before + [files[k]];
    FirstFailure(m, env, before, files[k]);
    RunFilesStops(m, env, files, k + 1);
  }

  /**
   * The paths written by a run that failed at file `k` are, in order, those
   * of the files before `k`.
   */
  lemma RunFilesFailFastWritten(m: Mojo, env: Env, files: seq<File>, k: nat)
    requires k < |files|
    requires forall i :: 0 <= i < k ==> ProcessFile(m, env, files[i]).failure.None?
    requires ProcessFile(m, env, files[k]).failure.Some?
    ensures |RunFiles(m, env, files).written| == k
    ensures forall i :: 0 <= i < k ==>
      ProcessFile(m, env, files[i]).written == [RunFiles(m, env, files).written[i]]
  {
    RunFilesFailFast(m, env, files, k);
    var before := files[..k];
    RunFilesSucceeds(m, env, before);
    forall i | 0 <= i < k
      ensures ProcessFile(m, env, files[i]).written == [RunFiles(m, env, files).written[i]]
    {
      assert before[i] == files[i];
    }
  }

  /** A failing step after a successful run ends the run with the step's failure and no new write. */
  lemma FirstFailure(m: Mojo, env: Env, before: seq<File>, file: File)
    requires RunFiles(m, env, before).failure.None?
    requires ProcessFile(m, env, file).failure.Some?
    ensures RunFiles(m, env, before + [file]).failure == ProcessFile(m, env, file).failure
    ensures RunFiles(m, env, before + [file]).written == RunFiles(m, env, before).written
  {
    RunFilesSnoc(m, env, before, file);
  }

  /** Gluing two call logs keeps the write-after-mkdir order when the second does not start with a write. */
  lemma WritesFollowMkdirAppend(env: Env, a: seq<Call>, b: seq<Call>)
    requires WritesFollowMkdir(env, a) && WritesFollowMkdir(env, b)
    requires b != [] ==> !b[0].WriteValue?
    ensures WritesFollowMkdir(env, a + b)
  {
    var c := a + b;
    forall j | 0 <= j < |c| && c[j].WriteValue?
      ensures 0 < j && c[j - 1] == ForceMkdir(c[j].target) && env.forceMkdir(c[j].target)
    {
      if j >= |a| {
        assert c[j] == b[j - |a|];
      } else {
        assert c[j] == a[j];
      }
    }
  }

  /**
   * Serialisation is never attempted for a target whose directory creation
   * failed: in the whole run every write follows a successful mkdir of its target.
   */
  lemma {:induction false} RunFilesWritesFollowMkdir(m: Mojo, env: Env, files: seq<File>)
    ensures WritesFollowMkdir(env, RunFiles(m, env, files).calls)
    decreases |files|
  {
    if files != [] {
      RunFilesWritesFollowMkdir(m, env, files[..|files| - 1]);
      var r := RunFiles(m, env, files[..|files| - 1]);
      if r.failure.None? {
        WritesFollowMkdirAppend(env, r.calls, ProcessFile(m, env, files[|files| - 1]).calls);
      }
    }
  }

  /** No file occurs twice in `files`. */
  predicate Distinct(files: seq<File>)
  {
    forall i, j :: 0 <= i < j < |files| ==> files[i] != files[j]
  }

  /** A sequence without repetitions has as many elements as the set of its elements. */
  lemma {:induction false} DistinctCardinality(files: seq<File>)
    requires Distinct(files)
    ensures |set f | f in files| == |files|
    decreases |files|
  {
    if files != [] {
      var init, last := files[..|files| - 1], files[|files| - 1];
      assert Distinct(init);
      DistinctCardinality(init);
      assert files == init + [last];
      assert (set f | f in files) == (set f | f in init) + {last};
      assert last !in (set f | f in init);
    }
  }

  /**
   * A successful run over distinct files that are exactly the `found` ones
   * writes one document per found file.
   */
  lemma CoveringRunWritesAll(m: Mojo, env: Env, visited: seq<File>, found: set<File>)
    requires Distinct(visited)
    requires forall f :: f in visited <==> f in found
    requires RunFiles(m, env, visited).failure.None?
    ensures |RunFiles(m, env, visited).written| == |found|
  {
    RunFilesSucceeds(m, env, visited);
    assert (set f | f in visited) == found;
    DistinctCardinality(visited);
  }

  /** Visiting one more file keeps the loop's account of the run. */
  lemma VisitNext(m: Mojo, env: Env, visited: seq<File>, run: Run, file: File)
    requires run == RunFiles(m, env, visited) && run.failure.None?
    ensures var step := ProcessFile(m, env, file);
      var next := Run(run.calls + step.calls, run.written + step.written, step.failure);
      && next == RunFiles(m, env, visited + [file])
      && RunFiles(m, env, (visited + [file])[..|visited + [file]| - 1]).failure.None?
  {
    RunFilesSnoc(m, env, visited, file);
    assert (visited + [file])[..|visited|] == visited;
  }

  /** The files discovered for the goal's parameters. */
  function Found(m: Mojo, env: Env): set<File>
  {
    Discovered(m.sourceDirectory, m.includes, env.listFiles)
  }

  /** A run that registered the source directory and then went through the files. */
  function AfterRegistration(m: Mojo, r: Run): Run
  {
    Run([InsertClassPath(m.sourceDirectory)] + r.calls, r.written, r.failure)
  }

  /**
   * The loop of `execute` over the discovered class files: visits them in an
   * unspecified order (`visited`), each at most once, and stops after the
   * first file whose step fails. When no step fails, every file is visited
   * and one document per file is written.
   */
  method RetrieveClasses(m: Mojo, env: Env, classFiles: set<File>) returns (run: Run, visited: seq<File>)
    ensures Distinct(visited) && forall f :: f in visited ==> f in classFiles
    ensures run == RunFiles(m, env, visited)
    ensures run.failure.None? ==>
      (forall f :: f in classFiles ==> f in visited) && |run.written| == |classFiles|
    ensures run.failure.Some? ==>
      visited != [] && RunFiles(m, env, visited[..|visited| - 1]).failure.None?
  {
    run := Run([], [], None);
    visited := [];
    var remaining := classFiles;
    while remaining != {} && run.failure.None?
      invariant remaining <= classFiles
      invariant forall f :: f in visited <==> f in classFiles && f !in remaining
      invariant Distinct(visited)
      invariant run == RunFiles(m, env, visited)
      invariant run.failure.Some? ==> visited != [] && RunFiles(m, env, visited[..|visited| - 1]).failure.None?
      decreases |remaining|
    {
      var classFile :| classFile in remaining;
      var step := ProcessFile(m, env, classFile);
      VisitNext(m, env, visited, run, classFile);
      run := Run(run.calls + step.calls, run.written + step.written, step.failure);
      visited := visited + [classFile];
      remaining := remaining - {classFile};
    }
    if run.failure.None? {
      CoveringRunWritesAll(m, env, visited, classFiles);
    }
  }

  /**
   * `execute`: fails with NoMatchedFiles when nothing is discovered, before any
   * call; fails with CouldNotAddClasspath when registration fails, before any
   * class is looked up; otherwise registers the source directory and runs the
   * loop over the discovered files.
   */
  method Execute(m: Mojo, env: Env) returns (r: Run, visited: seq<File>)
    ensures Found(m, env) == {} ==> r == Run([], [], Some(NoMatchedFiles)) && visited == []
    ensures Found(m, env) != {} && !env.insertClassPath(m.sourceDirectory) ==>
      && r == Run([InsertClassPath(m.sourceDirectory)], [], Some(CouldNotAddClasspath(m.sourceDirectory)))
      && visited == []
    ensures Found(m, env) != {} && env.insertClassPath(m.sourceDirectory) ==>
      Distinct(visited) && forall f :: f in visited ==> f in Found(m, env)
    ensures Found(m, env) != {} && env.insertClassPath(m.sourceDirectory) ==>
      r == AfterRegistration(m, RunFiles(m, env, visited))
    ensures Found(m, env) != {} && r.failure.None? ==>
      (forall f :: f in Found(m, env) ==> f in visited) && |r.written| == |Found(m, env)|
    ensures Found(m, env) != {} && env.insertClassPath(m.sourceDirectory) && r.failure.Some? ==>
      visited != [] && RunFiles(m, env, visited[..|visited| - 1]).failure.None?
  {
    var classFiles := FetchFiles(m.sourceDirectory, m.includes, env.listFiles);
    if |classFiles| == 0 {
      return Run([], [], Some(NoMatchedFiles)), [];
    }
    if !env.insertClassPath(m.sourceDirectory) {
      return Run([InsertClassPath(m.sourceDirectory)], [], Some(CouldNotAddClasspath(m.sourceDirectory))), [];
    }
    var run;
    run, visited := RetrieveClasses(m, env, classFiles);
    r := AfterRegistration(m, run);
  }

  /**
   * Two classes with the same simple name in different package directories
   * get the same class name, and so the same output path.
   */
  lemma SameSimpleNameSameTarget(outputDirectory: string, parentA: string, parentB: string, simple: string)
    requires '.' !in simple
    ensures ClassNameOf(parentA + "/" + simple + ClassExtension, parentA)
         == ClassNameOf(parentB + "/" + simple + ClassExtension, parentB)
         == Some("/" + simple)
    ensures OutputPath(outputDirectory, "/" + simple) == outputDirectory + "/" + simple + CtSuffix
  {
    ClassNameOfChild(parentA, simple);
    ClassNameOfChild(parentB, simple);
    var p := OutputPath(outputDirectory, "/" + simple);
    var expected := outputDirectory + "/" + simple + CtSuffix;
    forall i | 0 <= i < |p| ensures p[i] == expected[i] {
      if i < |outputDirectory| {
        assert p[i] == p[..|outputDirectory|][i];
      } else if i >= |p| - |CtSuffix| {
        assert p[i] == p[|p| - |CtSuffix|..][i - (|p| - |CtSuffix|)];
      } else {
        var k := i - |outputDirectory|;
        assert ("/" + simple)[k] == expected[i];
        if k > 0 {
          assert ("/" + simple)[k] == simple[k - 1];
        }
      }
    }
  }

  /**
   * A successful run over two class files with the same simple name in two
   * package directories writes both classes to the same path: the second
   * write replaces the first document.
   */
  lemma SameSimpleNameOverwrites(m: Mojo, env: Env, fileA: File, fileB: File,
                                 parentA: string, parentB: string, simple: string)
    requires env.canonicalPaths(fileA) == Some((parentA + "/" + simple + ClassExtension, parentA))
    requires env.canonicalPaths(fileB) == Some((parentB + "/" + simple + ClassExtension, parentB))
    requires RunFiles(m, env, [fileA, fileB]).failure.None?
    ensures |RunFiles(m, env, [fileA, fileB]).written| == 2
    ensures RunFiles(m, env, [fileA, fileB]).written[0] == RunFiles(m, env, [fileA, fileB]).written[1]
    ensures RunFiles(m, env, [fileA, fileB]).written[0] == OutputPath(m.outputDirectory, "/" + simple)
  {
    var files := [fileA, fileB];
    RunFilesSucceeds(m, env, files);
    ClassNameOfChild(parentA, simple);
    ClassNameOfChild(parentB, simple);
    assert files[0] == fileA && files[1] == fileB;
  }
}
