/** A file picked in the browser, as the create page uses it: its name, its declared
    content type and its size. The bytes themselves never matter to the pipeline. */
module Files {

  datatype File = File(name: string, mime: string, size: nat)

  /** `name.split(".").pop()`: the text after the last dot, or the whole name when it
      has no dot. */
  function Extension(name: string): string
  {
    if name == [] then []
    else if name[|name| - 1] == '.' then []
    else Extension(name[..|name| - 1]) + [name[|name| - 1]]
  }

  /** The extension holds no dot, ends the name, and is either the whole name or
      preceded by a dot. */
  lemma {:induction false} ExtensionIsLastSegment(name: string)
    ensures '.' !in Extension(name)
    ensures |Extension(name)| <= |name| && Extension(name) == name[|name| - |Extension(name)|..]
    ensures |Extension(name)| < |name| ==> name[|name| - |Extension(name)| - 1] == '.'
  {
    if name != [] && name[|name| - 1] != '.' {
      var init := name[..|name| - 1];
      ExtensionIsLastSegment(init);
      var e := Extension(init);
      assert Extension(name) == e + [name[|name| - 1]];
      assert init[|init| - |e|..] + [name[|name| - 1]] == name[|name| - |e| - 1..];
      if |e| < |init| {
        assert name[|name| - |e| - 2] == init[|init| - |e| - 1];
      }
    }
  }

  /** The contract of Extension pins its result down: any dot-free suffix that is the
      whole name or follows a dot is the extension. */
  lemma {:induction false} ExtensionUnique(name: string, e: string)
    requires '.' !in e
    requires |e| <= |name| && e == name[|name| - |e|..]
    requires |e| < |name| ==> name[|name| - |e| - 1] == '.'
    ensures e == Extension(name)
    decreases |name|
  {
    if name != [] && name[|name| - 1] != '.' {
      var init := name[..|name| - 1];
      assert |e| > 0;
      var e' := e[..|e| - 1];
      assert e' == init[|init| - |e'|..];
      if |e'| < |init| {
        assert init[|init| - |e'| - 1] == name[|name| - |e| - 1];
      }
      ExtensionUnique(init, e');
      assert e == e' + [name[|name| - 1]];
    }
  }

  /** A name without a dot is its own extension; otherwise the extension is what
      follows the last dot. */
  lemma ExtensionExamples()
    ensures Extension("clip.final.mp4") == "mp4"
    ensures Extension("photo") == "photo"
    ensures Extension("archive.") == ""
  {
    ExtensionUnique("clip.final.mp4", "mp4");
    ExtensionUnique("photo", "photo");
    ExtensionUnique("archive.", "");
  }
}
