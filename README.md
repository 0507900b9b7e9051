# alclassicist `ctdump` goal — a Dafny model

This project models the core of the `ctdump` Maven goal of alclassicist
(`CtDumpMojo`). The goal finds the compiled class files under a source
directory. It derives a class name from each file's path and looks the class
up in a Javassist class pool. It then writes the class as JSON to
`outputDirectory + name.replace(".", "/") + ".ct.json"`. The first failure
aborts the whole goal.

The model has five modules:

- `Wrappers`: the `Option` and `Result` datatypes.
- `ClassNames`: the class-name derivation (`fetchClassnameFromFile`) as a pure
  function on two canonical path strings, with the constant `classTrim`
  (`|".class"|`, that is 6).
- `OutputPaths`: the output-path expression of `writeClass` as a pure
  function, with the constant `ctSuffix` (`".ct.json"`).
- `Discovery`: `fetchFiles` as a method with a loop that adds each include
  pattern's matches to one set. It is proved equal to a union function.
- `CtDumpMojo`: `execute` as a method (`Execute`), with its loop as a second
  method (`RetrieveClasses`). The loop goes over the discovered set in an
  unspecified order, as iteration over a `HashSet` does. The loop body
  (`ProcessFile`) and `writeClass` (`WriteClass`) are functions. The loop is
  proved equal to `RunFiles`, a fail-fast fold over the visited files, and the
  lemmas about `RunFiles` state the fail-fast properties.

Every library call is an oracle held in the datatype `Env`:

- the directory listing with its regular-expression filter;
- `getCanonicalPath` of a file and of its parent;
- `ClassPool.insertClassPath` and `ClassPool.get`;
- `FileUtils.forceMkdir`;
- `ObjectMapper.writeValue`.

A run records, in order, every call it makes that affects the class pool or
the file system. It also records the paths it wrote and the failure that
stopped it, if any.

The derived name is not a dotted name relative to the source directory. The
code cuts off the canonical path of the file's *parent directory* and the
".class" extension. So `/root/com/acme/Widget.class` yields `/Widget`, with a
leading separator and no package (`WidgetClassName`, `ClassNameOfChild`). Two
classes with the same simple name in different packages therefore get the same
name and the same output path (`SameSimpleNameSameTarget`), and a run over both
writes that path twice (`SameSimpleNameOverwrites`). Taking the name back to
its file holds only relative to that parent (`ClassNameRoundTrip`,
`ClassNameOfInverse`). The output path still determines a derived name
(`OutputPathRecoversDerivedName`, `OutputPathInjectiveOnDerivedNames`).

## Model

| member | source | states |
|---|---|---|
| `ClassNames.ClassNameOf` | src/main/java/com/voodoowarez/alclassicist/CtDumpMojo.java:125-127 | defined exactly when the parent path is at most the full path's length minus 6; the name has length `|full| - |parent| - 6`; the full path is its first `|parent|` characters, then the name, then its last 6 characters |
| `ClassNames.ClassNameOfInverse` | src/main/java/com/voodoowarez/alclassicist/CtDumpMojo.java:127 | deriving the name of `parent + n + ".class"` against `parent` gives back `n` |
| `ClassNames.ClassNameRoundTrip` | src/main/java/com/voodoowarez/alclassicist/CtDumpMojo.java:125-127 | for a path that starts with its parent's path and ends in ".class", `parent + name + ".class"` rebuilds the path |
| `ClassNames.ClassNameOfChild` | src/main/java/com/voodoowarez/alclassicist/CtDumpMojo.java:125-127 | a file `simple.class` directly in `parent` is named `"/" + simple`: only the parent directory is stripped, and a separator remains |
| `ClassNames.WidgetClassName` | src/main/java/com/voodoowarez/alclassicist/CtDumpMojo.java:125-127 | `/root/com/acme/Widget.class` is named `/Widget`, not `com.acme.Widget` |
| `OutputPaths.ReplaceChar` | src/main/java/com/voodoowarez/alclassicist/CtDumpMojo.java:135 | `String.replace` with one-character target and replacement: the same length, and every `from` becomes `to` while every other character stays |
| `OutputPaths.ReplaceCharRemovesAll` | src/main/java/com/voodoowarez/alclassicist/CtDumpMojo.java:135 | no `from` is left after the replacement |
| `OutputPaths.OutputPath` | src/main/java/com/voodoowarez/alclassicist/CtDumpMojo.java:134-135 | the path starts with the output directory and ends with ".ct.json"; its length is `|outputDirectory| + |name| + 8`; its middle is the name with each '.' turned into '/', and it holds no '.' |
| `OutputPaths.OutputPathRecoversName` | src/main/java/com/voodoowarez/alclassicist/CtDumpMojo.java:135 | for a name without '/', turning '/' back into '.' in the middle of the path gives back the name |
| `OutputPaths.OutputPathInjective` | src/main/java/com/voodoowarez/alclassicist/CtDumpMojo.java:135 | two names without '/' that get the same output path are the same name |
| `OutputPaths.OutputPathRecoversDerivedName` | src/main/java/com/voodoowarez/alclassicist/CtDumpMojo.java:135 | for a derived name `"/" + simple` with no '/' in `simple`, the path holds a '/' right after the output directory, and turning '/' back into '.' in the next `|simple|` characters gives back `simple` |
| `OutputPaths.OutputPathInjectiveOnDerivedNames` | src/main/java/com/voodoowarez/alclassicist/CtDumpMojo.java:135 | two derived names `"/" + a` and `"/" + b` with no '/' in `a` or `b` that get the same output path are the same name |
| `OutputPaths.OutputPathOfQualifiedName` | src/main/java/com/voodoowarez/alclassicist/CtDumpMojo.java:134-135 | `pkg.sub.Simple` is written to `<outputDirectory>pkg/sub/Simple.ct.json`, one directory level per dot |
| `Discovery.DiscoveredMembers` | src/main/java/com/voodoowarez/alclassicist/CtDumpMojo.java:113-120 | a file is discovered exactly when some include pattern's listing holds it |
| `Discovery.DiscoveredOrderFree` | src/main/java/com/voodoowarez/alclassicist/CtDumpMojo.java:115-119 | the discovered set depends only on which patterns are given, not on their order or on repeats |
| `Discovery.DiscoveredEmpty` | src/main/java/com/voodoowarez/alclassicist/CtDumpMojo.java:113-120 | nothing is discovered exactly when every include pattern lists no file |
| `Discovery.DiscoveredDefault` | src/main/java/com/voodoowarez/alclassicist/CtDumpMojo.java:63 | with the default includes, the discovered set is exactly the listing for the single pattern `*.class` |
| `Discovery.FetchFiles` | src/main/java/com/voodoowarez/alclassicist/CtDumpMojo.java:112-121 | the loop's set is the union of the per-pattern listings: a file is in it exactly when some pattern lists it |
| `CtDumpMojo.FetchClassnameFromFile` | src/main/java/com/voodoowarez/alclassicist/CtDumpMojo.java:123-131 | fails with "Bad file" exactly when a canonical path cannot be had; fails with the substring error exactly when the parent path is too long; otherwise gives the derived name |
| `CtDumpMojo.WriteClass` | src/main/java/com/voodoowarez/alclassicist/CtDumpMojo.java:133-147 | the calls are the directory creation for the target, then the serialisation to the target only if the creation succeeded; succeeds exactly when both succeed, and then writes exactly the target; a failed creation gives "Couldn't create directory" with the target and name, a failed serialisation "Couldn't output CtClass" with the name, and neither writes anything |
| `CtDumpMojo.ProcessFile` | src/main/java/com/voodoowarez/alclassicist/CtDumpMojo.java:100-109 | a file's step succeeds exactly when its name is derived, the class is found, and the directory creation and serialisation for that name's output path succeed; a failed derivation gives its failure with no call; a failed lookup gives "Failed to class file" after the one lookup call; otherwise the calls are the lookup followed by `WriteClass`'s calls, with its failure; a successful step writes exactly the output path of the name, a failed one nothing |
| `CtDumpMojo.RunFilesSucceeds` | src/main/java/com/voodoowarez/alclassicist/CtDumpMojo.java:99-109 | a run succeeds exactly when every file's step succeeds, and then it makes one write per file, to that file's output path, in order; the paths written may repeat |
| `CtDumpMojo.RunFilesStops` | src/main/java/com/voodoowarez/alclassicist/CtDumpMojo.java:99-109 | once a prefix of the files has failed, the later files change nothing |
| `CtDumpMojo.RunFilesFailFast` | src/main/java/com/voodoowarez/alclassicist/CtDumpMojo.java:99-109 | when file k is the first to fail, the run ends with its failure and is the run over the first k+1 files, so no later file is touched; it has made exactly k writes, those of the run over the files before k |
| `CtDumpMojo.RunFilesFailFastWritten` | src/main/java/com/voodoowarez/alclassicist/CtDumpMojo.java:99-109 | when file k is the first to fail, the run's i-th write, for each i below k, is the write of file i's step |
| `CtDumpMojo.RunFilesWritesFollowMkdir` | src/main/java/com/voodoowarez/alclassicist/CtDumpMojo.java:137-146 | every serialisation in a run directly follows a successful directory creation for the same target |
| `CtDumpMojo.CoveringRunWritesAll` | src/main/java/com/voodoowarez/alclassicist/CtDumpMojo.java:99-109 | a successful run over each discovered file once makes as many writes as files were discovered; the paths written may repeat |
| `CtDumpMojo.RetrieveClasses` | src/main/java/com/voodoowarez/alclassicist/CtDumpMojo.java:99-109 | the loop visits discovered files only, each at most once, in an unspecified order; its run is the fail-fast run over the visited files and stops right after the first failing file; when nothing fails it has visited every file and made one write per file; the paths written may repeat |
| `CtDumpMojo.Execute` | src/main/java/com/voodoowarez/alclassicist/CtDumpMojo.java:84-110 | no discovered files: fails with "No matched files" before any call; registration fails: fails after that one call, before any lookup; otherwise the run is the registration followed by the loop's run; on success every discovered file was visited once and one write per file made; the paths written may repeat |
| `CtDumpMojo.SameSimpleNameSameTarget` | src/main/java/com/voodoowarez/alclassicist/CtDumpMojo.java:125-135 | classes with the same simple name in two package directories get the same name `"/" + simple` and the same output path, directly in the output directory |
| `CtDumpMojo.SameSimpleNameOverwrites` | src/main/java/com/voodoowarez/alclassicist/CtDumpMojo.java:100-109 | a successful run over two files `pA/X.class` and `pB/X.class` makes two writes to the same path, the output path of the name `/X`, so the second overwrites the first |

## Left out

- Directory listing and regular-expression matching (`FileUtils.listFiles`, `RegexFileFilter`) are an oracle. An exception the library throws is not modelled. That covers a source directory that does not exist, and a pattern the Java regex engine rejects (which may include the default `*.class`).
- Canonical path resolution (`getCanonicalPath`) is an oracle giving both strings, or an `IOException`. A file without a parent (`getParentFile` returning null) is not modelled; every listed file has one.
- The Javassist `ClassPool` is a process-wide singleton that keeps every class path inserted and caches classes. The model keeps only each call's success or `NotFoundException`. The class-path list that grows across runs and the cache are not modelled.
- `CtDumpMojo.WriteClass`: the document's path uses `CtClass.getName()`. The model takes it to be the name the class was looked up by.
- `FileUtils.forceMkdir` is an oracle keyed by the target path. Taking the target's parent directory happens inside it.
- Jackson serialisation is an oracle keyed by the target path. What the document holds, and any partial file left by a failed write, are not modelled.
- Maven parameter wiring, default values and the text of exception messages are left out. Each `Failure` carries the file, class name or path its message names.
- `CtDumpMojo.FetchClassnameFromFile`: a too-long parent path makes Java throw an unchecked `StringIndexOutOfBoundsException`. It escapes `execute` instead of being wrapped. The model reports it as the failure `NameOutOfRange`, stopping the run like the others.
- `CtDumpMojo.Execute`: the goal returns nothing. The model returns the run, with the paths written and the visiting order, so that its effects can be stated.
- Java's `length()` and `substring` count UTF-16 code units. The model counts characters of a Dafny string, so a path holding characters outside the Basic Multilingual Plane is cut at a different place than Java would cut it.
- `new File(pathedName)` (CtDumpMojo.java:136) normalises the path, for example by collapsing a doubled separator or dropping a trailing one. The model keeps the string as built, so two strings that name the same file are two targets.
- Canonical paths use the platform's separator. `ClassNameOfChild`, `SameSimpleNameSameTarget` and `SameSimpleNameOverwrites` take it to be '/', as on Unix-like systems; on Windows the derived name starts with a backslash instead.
- Concurrency: the goal is single-threaded and so is the model.
