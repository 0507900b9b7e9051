/**
 * The output path of a class's document (the first two statements of
 * CtDumpMojo.writeClass, with the constant ctSuffix).
 */
module OutputPaths {

  /** `ctSuffix`: the extension of every written document. */
  const CtSuffix: string := ".ct.json"

  /**
   * Java's `String.replace` with one-character target and replacement: every
   * occurrence of `from` becomes `to`, every other character stays.
   */
  function ReplaceChar(s: string, from: char, to: char): (r: string)
    ensures |r| == |s|
    ensures forall i :: 0 <= i < |s| ==> r[i] == (if s[i] == from then to else s[i])
  {
    if s == [] then [] else [if s[0] == from then to else s[0]] + ReplaceChar(s[1..], from, to)
  }

  /** After the replacement no `from` is left, as long as `to` differs from it. */
  lemma ReplaceCharRemovesAll(s: string, from: char, to: char)
    requires from != to
    ensures from !in ReplaceChar(s, from, to)
  {
  }

  /** Replacing back restores the string when it held no `to` to begin with. */
  lemma ReplaceCharUndo(s: string, from: char, to: char)
    requires to !in s
    ensures ReplaceChar(ReplaceChar(s, from, to), to, from) == s
  {
    var r := ReplaceChar(ReplaceChar(s, from, to), to, from);
    assert |r| == |s|;
    forall i | 0 <= i < |s| ensures r[i] == s[i] {
      assert s[i] != to;
    }
  }

  /**
   * `outputDirectory + klassName.replace(".", "/") + ctSuffix`: the path the
   * document of class `klassName` is written to.
   */
  function OutputPath(outputDirectory: string, klassName: string): (p: string)
    ensures |p| == |outputDirectory| + |klassName| + |CtSuffix|
    ensures p[..|outputDirectory|] == outputDirectory
    ensures p[|p| - |CtSuffix|..] == CtSuffix
    ensures forall i :: 0 <= i < |klassName| ==>
      p[|outputDirectory| + i] == (if klassName[i] == '.' then '/' else klassName[i])
    ensures '.' !in p[|outputDirectory|..|p| - |CtSuffix|]
  {
    var middle := ReplaceChar(klassName, '.', '/');
    ReplaceCharRemovesAll(klassName, '.', '/');
    var p := outputDirectory + middle + CtSuffix;
    assert p[|outputDirectory|..|p| - |CtSuffix|] == middle;
    p
  }

  /**
   * The class name can be read back out of the middle of its output path, for
   * every name without a '/'.
   */
  lemma OutputPathRecoversName(outputDirectory: string, klassName: string)
    requires '/' !in klassName
    ensures var p := OutputPath(outputDirectory, klassName);
      ReplaceChar(p[|outputDirectory|..|outputDirectory| + |klassName|], '/', '.') == klassName
  {
    var p := OutputPath(outputDirectory, klassName);
    assert p[|outputDirectory|..|outputDirectory| + |klassName|] == ReplaceChar(klassName, '.', '/');
    ReplaceCharUndo(klassName, '.', '/');
  }

  /** Two different classes without '/' in their names never share an output path. */
  lemma OutputPathInjective(outputDirectory: string, a: string, b: string)
    requires '/' !in a && '/' !in b
    requires OutputPath(outputDirectory, a) == OutputPath(outputDirectory, b)
    ensures a == b
  {
    OutputPathRecoversName(outputDirectory, a);
    OutputPathRecoversName(outputDirectory, b);
  }

  /**
   * The names derived from class file paths have the shape `"/" + simple`.
   * For those, `simple` can be read back out of the output path after its
   * leading separator, as long as `simple` holds no '/'.
   */
  lemma OutputPathRecoversDerivedName(outputDirectory: string, simple: string)
    requires '/' !in simple
    ensures var p := OutputPath(outputDirectory, "/" + simple);
      && p[|outputDirectory|] == '/'
      && ReplaceChar(p[|outputDirectory| + 1..|outputDirectory| + 1 + |simple|], '/', '.') == simple
  {
    var p := OutputPath(outputDirectory, "/" + simple);
    var name := "/" + simple;
    assert name[0] == '/';
    var mid := p[|outputDirectory| + 1..|outputDirectory| + 1 + |simple|];
    forall i | 0 <= i < |simple| ensures mid[i] == ReplaceChar(simple, '.', '/')[i] {
      assert name[i + 1] == simple[i];
    }
    assert mid == ReplaceChar(simple, '.', '/');
    ReplaceCharUndo(simple, '.', '/');
  }

  /**
   * Two derived names `"/" + a` and `"/" + b`, with no '/' in `a` or `b`, that
   * share an output path are the same name.
   */
  lemma OutputPathInjectiveOnDerivedNames(outputDirectory: string, a: string, b: string)
    requires '/' !in a && '/' !in b
    requires OutputPath(outputDirectory, "/" + a) == OutputPath(outputDirectory, "/" + b)
    ensures a == b
  {
    OutputPathRecoversDerivedName(outputDirectory, a);
    OutputPathRecoversDerivedName(outputDirectory, b);
  }

  /**
   * One directory level per dot: the class `pkg.sub.Simple` is written to
   * `<outputDirectory>pkg/sub/Simple.ct.json`.
   */
  lemma OutputPathOfQualifiedName(outputDirectory: string, pkg: string, sub: string, simple: string)
    requires '.' !in pkg && '.' !in sub && '.' !in simple
    ensures OutputPath(outputDirectory, pkg + "." + sub + "." + simple)
         == outputDirectory + pkg + "/" + sub + "/" + simple + CtSuffix
  {
    var name := pkg + "." + sub + "." + simple;
    var p := OutputPath(outputDirectory, name);
    var expected := outputDirectory + pkg + "/" + sub + "/" + simple + CtSuffix;
    assert |p| == |expected|;
    forall i | 0 <= i < |p| ensures p[i] == expected[i] {
      if i < |outputDirectory| {
        assert p[i] == p[..|outputDirectory|][i];
      } else if i >= |p| - |CtSuffix| {
        assert p[i] == p[|p| - |CtSuffix|..][i - (|p| - |CtSuffix|)];
      } else {
        var k := i - |outputDirectory|;
        assert k < |name|;
      }
    }
  }
}
