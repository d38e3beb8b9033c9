/** os.path.splitext as the POSIX flavour of Python defines it, used by both frame tools to
    derive an output name from the uploaded file's name. */
module Paths {

  /** str.rfind for one character: the last index holding c, or -1. */
  function RFind(s: string, c: char): (i: int)
    ensures -1 <= i < |s|
    ensures i >= 0 ==> s[i] == c
  {
    if s == [] then -1
    else if s[|s| - 1] == c then |s| - 1
    else RFind(s[..|s| - 1], c)
  }

  lemma {:induction false} RFindIsLast(s: string, c: char, j: int)
    requires RFind(s, c) < j < |s|
    ensures s[j] != c
  {
    if s != [] && s[|s| - 1] != c && j < |s| - 1 {
      RFindIsLast(s[..|s| - 1], c, j);
    }
  }

  predicate AllDots(s: string)
  {
    forall i :: 0 <= i < |s| ==> s[i] == '.'
  }

  /** The root's last component (after index sep) is not made of dots alone. */
  predicate HasNamedStem(root: string, sep: int)
  {
    -1 <= sep < |root| && !AllDots(root[sep + 1..])
  }

  /** A '.' followed by characters that are neither '.' nor '/'. */
  predicate IsExtension(s: string)
  {
    |s| > 0 && s[0] == '.' && forall i :: 1 <= i < |s| ==> s[i] != '.' && s[i] != '/'
  }

  /** os.path.splitext(p) == (root, ext): ext runs from the last '.' of the last path
      component, unless that component holds nothing but dots before it (".bashrc"). */
  function SplitExt(p: string): (r: (string, string))
    ensures r.0 + r.1 == p
    ensures r.1 == [] || IsExtension(r.1)
  {
    var sepIndex := RFind(p, '/');
    var dotIndex := RFind(p, '.');
    if dotIndex > sepIndex && !AllDots(p[sepIndex + 1..dotIndex]) then
      var ext := p[dotIndex..];
      assert IsExtension(ext) by {
        forall j | 0 <= j < |ext|
          ensures ext[j] == p[dotIndex + j] && (j > 0 ==> ext[j] != '.') && ext[j] != '/'
        {
          if j > 0 { RFindIsLast(p, '.', dotIndex + j); }
          RFindIsLast(p, '/', dotIndex + j);
        }
      }
      (p[..dotIndex], ext)
    else
      (p, [])
  }

  /** An extension is split off only when the last component has a name before its last
      dot: ".bashrc" and "dir/..." keep theirs. */
  lemma SplitExtKeepsStem(p: string)
    ensures SplitExt(p).1 != [] ==> HasNamedStem(SplitExt(p).0, RFind(p, '/'))
  {
    var sepIndex := RFind(p, '/');
    var dotIndex := RFind(p, '.');
    if SplitExt(p).1 != [] {
      assert p[..dotIndex][sepIndex + 1..] == p[sepIndex + 1..dotIndex];
    }
  }

  /** Characters after the last c do not move it. */
  lemma {:induction false} RFindSkips(a: string, b: string, c: char)
    requires forall i :: 0 <= i < |b| ==> b[i] != c
    ensures RFind(a + b, c) == RFind(a, c)
    decreases |b|
  {
    if b == [] {
      assert a + b == a;
    } else {
      var n := |b| - 1;
      var ab := a + b;
      assert ab[|ab| - 1] == b[n] != c;
      assert ab[..|ab| - 1] == a + b[..n];
      RFindSkips(a, b[..n], c);
    }
  }

  /** The converse of SplitExtKeepsStem: a root whose last component has a name, followed by
      an extension, splits into exactly that root and extension. */
  lemma SplitExtComplete(root: string, ext: string)
    requires IsExtension(ext) && HasNamedStem(root, RFind(root, '/'))
    ensures SplitExt(root + ext) == (root, ext)
  {
    var p := root + ext;
    var sep := RFind(root, '/');
    ExtensionMarks(root, ext);
    assert p[sep + 1..|root|] == root[sep + 1..];
    SplitExtAt(p, sep, |root|);
    assert p[..|root|] == root && p[|root|..] == ext;
  }

  /** After an extension, the last '/' is the root's and the last '.' is the extension's. */
  lemma ExtensionMarks(root: string, ext: string)
    requires IsExtension(ext)
    ensures RFind(root + ext, '/') == RFind(root, '/') && RFind(root + ext, '.') == |root|
  {
    var q := root + ['.'];
    var tail := ext[1..];
    assert root + ext == q + tail;
    assert q[..|q| - 1] == root;
    assert RFind(q, '.') == |root|;
    RFindSkips(q, tail, '.');
    RFindSkips(q, tail, '/');
    RFindSkips(root, ['.'], '/');
  }

  /** With the last '/' at sep and the last '.' after it, past a name, the split is at the dot. */
  lemma SplitExtAt(p: string, sep: int, dot: int)
    requires RFind(p, '/') == sep && RFind(p, '.') == dot && sep < dot
    requires !AllDots(p[sep + 1..dot])
    ensures SplitExt(p) == (p[..dot], p[dot..])
  {
  }

  /** "clip.mp4" splits into "clip" and ".mp4". */
  lemma SplitExtExample()
    ensures SplitExt("clip.mp4") == ("clip", ".mp4")
  {
    RFindSkips("", "clip", '/');
    assert "clip"[0] != '.';
    assert "clip" + ".mp4" == "clip.mp4";
    SplitExtComplete("clip", ".mp4");
  }
}
