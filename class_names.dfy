/**
 * Class-name derivation from a class file's canonical path
 * (CtDumpMojo.fetchClassnameFromFile, with the constant classTrim).
 */
module ClassNames {
  import opened Wrappers

  /** The extension of a compiled class file. */
  const ClassExtension: string := ".class"

  /** `classTrim`: how many characters are cut off the end of a class file's path. */
  const ClassTrim: nat := |ClassExtension|

  /**
   * The class name the mojo derives from the canonical path of a file and the
   * canonical path of the file's parent directory: the parent's path is cut off
   * the front and `ClassTrim` characters off the end. None where Java's
   * `substring` throws, i.e. when the end index falls before the begin index.
   */
  function ClassNameOf(fullPath: string, parentPath: string): (r: Option<string>)
    ensures r.Some? <==> |parentPath| + ClassTrim <= |fullPath|
    ensures r.Some? ==> |r.value| == |fullPath| - |parentPath| - ClassTrim
    ensures r.Some? ==>
      fullPath == fullPath[..|parentPath|] + r.value + fullPath[|fullPath| - ClassTrim..]
  {
    if |parentPath| + ClassTrim <= |fullPath| then
      Some(fullPath[|parentPath|..|fullPath| - ClassTrim])
    else
      None
  }

  /**
   * Decoding a path built from the parent path, a name and the extension gives
   * back that name.
   */
  lemma ClassNameOfInverse(parentPath: string, name: string)
    ensures ClassNameOf(parentPath + name + ClassExtension, parentPath) == Some(name)
  {
    var full := parentPath + name + ClassExtension;
    assert full[|parentPath|..|full| - ClassTrim] == name;
  }

  /**
   * Re-adding the parent path and the extension to the derived name gives back
   * the canonical path, for every path that lies under its parent and ends in
   * the class extension.
   */
  lemma ClassNameRoundTrip(fullPath: string, parentPath: string)
    requires |parentPath| + ClassTrim <= |fullPath|
    requires fullPath[..|parentPath|] == parentPath
    requires fullPath[|fullPath| - ClassTrim..] == ClassExtension
    ensures ClassNameOf(fullPath, parentPath).Some?
    ensures parentPath + ClassNameOf(fullPath, parentPath).value + ClassExtension == fullPath
  {
  }

  /**
   * Only the parent directory is stripped: a file `simple.class` directly
   * inside `parentPath` gets a separator followed by its simple name, whatever
   * the package directories above it are.
   */
  lemma ClassNameOfChild(parentPath: string, simple: string)
    ensures ClassNameOf(parentPath + "/" + simple + ClassExtension, parentPath) == Some("/" + simple)
  {
    assert parentPath + "/" + simple == parentPath + ("/" + simple);
    ClassNameOfInverse(parentPath, "/" + simple);
  }

  /** The class `com.acme.Widget` under the source root `/root` is named `/Widget`. */
  lemma WidgetClassName()
    ensures ClassNameOf("/root/com/acme/Widget.class", "/root/com/acme") == Some("/Widget")
    ensures ClassNameOf("/root/com/acme/Widget.class", "/root/com/acme") != Some("com.acme.Widget")
  {
    assert "/root/com/acme/Widget.class" == "/root/com/acme" + "/" + "Widget" + ClassExtension;
    ClassNameOfChild("/root/com/acme", "Widget");
    assert "/" + "Widget" == "/Widget";
  }
}
