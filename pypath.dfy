/** The POSIX `os.path` functions the backend uses: `basename`, `splitext`
    and two-argument `join`, with `/` as separator and `.` as extension mark. */
module PyPath {
  import PyText

  /** `os.path.basename(p)`: everything after the last `/`. */
  function Basename(p: string): string {
    p[PyText.RFind(p, '/') + 1..]
  }

  /** The base name is the part of the path after its last `/`: a suffix of
      the path with no `/` in it, either the whole path or preceded by `/`. */
  lemma BasenameIsLastComponent(p: string)
    ensures var r := Basename(p);
      && '/' !in r && |r| <= |p| && r == p[|p| - |r|..]
      && (r == p || p[|p| - |r| - 1] == '/')
  {
  }

  /** True when `s` consists of dots only (vacuously for ""). */
  predicate AllDots(s: string) {
    forall i :: 0 <= i < |s| ==> s[i] == '.'
  }

  /** `os.path.splitext(p)`: the extension starts at the last dot of the last
      path component, provided that dot is preceded in the component by some
      character other than a dot; otherwise the extension is empty. */
  function Splitext(p: string): (r: (string, string))
    ensures r.0 + r.1 == p
  {
    var sepIndex := PyText.RFind(p, '/');
    var dotIndex := PyText.RFind(p, '.');
    if dotIndex > sepIndex && !AllDots(p[sepIndex + 1..dotIndex]) then
      (p[..dotIndex], p[dotIndex..])
    else
      (p, "")
  }

  /** The extension is empty or a dot followed by neither a dot nor a `/`. */
  lemma SplitextExtensionShape(p: string)
    ensures var ext := Splitext(p).1;
      ext == "" || (ext[0] == '.' && '.' !in ext[1..] && '/' !in ext)
  {
    var sepIndex := PyText.RFind(p, '/');
    var dotIndex := PyText.RFind(p, '.');
    var ext := Splitext(p).1;
    if ext != "" {
      assert ext == p[dotIndex..];
      forall k | 0 <= k < |ext| ensures ext[k] != '/' && (k > 0 ==> ext[k] != '.') {
        assert ext[k] == p[dotIndex + k];
      }
    }
  }

  /** A dot in the last component with something other than dots before
      it: what `splitext` looks for. */
  predicate HasExtensionDot(base: string) {
    exists i :: 0 < i < |base| && base[i] == '.' && !AllDots(base[..i])
  }

  /** Leading dots do not count: the extension is non-empty exactly when the
      last path component has a dot at some position `i > 0` with something
      other than dots before it. */
  lemma SplitextNonEmpty(p: string)
    ensures Splitext(p).1 != "" <==> HasExtensionDot(Basename(p))
  {
    assert Basename(p) == p[PyText.RFind(p, '/') + 1..];
    if Splitext(p).1 != "" {
      SplitextFindsDot(p);
    }
    if HasExtensionDot(Basename(p)) {
      SplitextUsesDot(p);
    }
  }

  lemma SplitextFindsDot(p: string)
    requires Splitext(p).1 != ""
    ensures HasExtensionDot(p[PyText.RFind(p, '/') + 1..])
  {
    var sepIndex := PyText.RFind(p, '/');
    var dotIndex := PyText.RFind(p, '.');
    var off := sepIndex + 1;
    var base := p[off..];
    assert dotIndex > sepIndex && !AllDots(p[off..dotIndex]);
    var i := dotIndex - off;
    assert base[..i] == p[off..dotIndex];
    assert base[i] == p[dotIndex];
  }

  lemma SplitextUsesDot(p: string)
    requires HasExtensionDot(p[PyText.RFind(p, '/') + 1..])
    ensures Splitext(p).1 != ""
  {
    var sepIndex := PyText.RFind(p, '/');
    var dotIndex := PyText.RFind(p, '.');
    var off := sepIndex + 1;
    var base := p[off..];
    var i :| 0 < i < |base| && base[i] == '.' && !AllDots(base[..i]);
    assert p[off + i] == '.';
    assert dotIndex >= off + i;
    NotAllDotsWiden(p, off, i, dotIndex);
  }

  lemma NotAllDotsWiden(p: string, off: int, i: int, end: int)
    requires 0 <= off <= off + i <= end <= |p|
    requires !AllDots(p[off..][..i])
    ensures !AllDots(p[off..end])
  {
    var k :| 0 <= k < i && p[off..][..i][k] != '.';
    assert p[off..end][k] == p[off..][..i][k];
  }

  lemma AllDotsLower(s: string)
    ensures AllDots(PyText.Lower(s)) <==> AllDots(s)
  {
    assert forall i :: 0 <= i < |s| ==> (PyText.Lower(s)[i] == '.' <==> s[i] == '.');
  }

  /** Lower-casing moves neither the last `/`, nor the last `.`, nor changes
      whether the dots before it are all dots. */
  lemma SplitextLowerIndices(p: string)
    ensures var l := PyText.Lower(p);
      && PyText.RFind(l, '/') == PyText.RFind(p, '/')
      && PyText.RFind(l, '.') == PyText.RFind(p, '.')
      && (PyText.RFind(p, '.') > PyText.RFind(p, '/') ==>
            (AllDots(l[PyText.RFind(p, '/') + 1..PyText.RFind(p, '.')])
             <==> AllDots(p[PyText.RFind(p, '/') + 1..PyText.RFind(p, '.')])))
  {
    PyText.RFindLower(p, '/');
    PyText.RFindLower(p, '.');
    var sepIndex := PyText.RFind(p, '/');
    var dotIndex := PyText.RFind(p, '.');
    if dotIndex > sepIndex {
      LowerSlice(p, sepIndex + 1, dotIndex);
      AllDotsLower(p[sepIndex + 1..dotIndex]);
    }
  }

  lemma LowerSlice(p: string, i: int, j: int)
    requires 0 <= i <= j <= |p|
    ensures PyText.Lower(p)[i..j] == PyText.Lower(p[i..j])
  {
  }

  /** Lower-casing a path lower-cases its extension. */
  lemma SplitextLowerExt(p: string)
    ensures Splitext(PyText.Lower(p)).1 == PyText.Lower(Splitext(p).1)
  {
    SplitextLower(p);
  }

  /** Lower-casing a path lower-cases the part before its extension. */
  lemma SplitextLowerRoot(p: string)
    ensures Splitext(PyText.Lower(p)).0 == PyText.Lower(Splitext(p).0)
  {
    SplitextLower(p);
  }

  lemma SplitextLower(p: string)
    ensures Splitext(PyText.Lower(p)) == (PyText.Lower(Splitext(p).0), PyText.Lower(Splitext(p).1))
  {
    var l := PyText.Lower(p);
    SplitextLowerIndices(p);
    var sepIndex := PyText.RFind(p, '/');
    var dotIndex := PyText.RFind(p, '.');
    if dotIndex > sepIndex && !AllDots(p[sepIndex + 1..dotIndex]) {
      SplitextAt(p, sepIndex, dotIndex);
      SplitextAt(l, sepIndex, dotIndex);
      LowerSplit(p, dotIndex);
    } else {
      SplitextNone(p, sepIndex, dotIndex);
      SplitextNone(l, sepIndex, dotIndex);
      assert PyText.Lower("") == "";
    }
  }

  lemma LowerSplit(p: string, i: int)
    requires 0 <= i <= |p|
    ensures PyText.Lower(p)[..i] == PyText.Lower(p[..i]) && PyText.Lower(p)[i..] == PyText.Lower(p[i..])
  {
  }

  /** `splitext` when the last dot does not start an extension. */
  lemma SplitextNone(p: string, sep: int, dot: int)
    requires PyText.RFind(p, '/') == sep && PyText.RFind(p, '.') == dot
    requires !(sep < dot && !AllDots(p[sep + 1..dot]))
    ensures Splitext(p) == (p, "")
  {
  }

  /** `os.path.join(a, b)`: `b` alone if it is absolute, `a + b` if `a` is
      empty or ends with `/`, and `a + "/" + b` otherwise. */
  function Join(a: string, b: string): string {
    if |b| > 0 && b[0] == '/' then b
    else if a == "" || a[|a| - 1] == '/' then a + b
    else a + "/" + b
  }

  /** The base name of a joined path is the name that was joined. */
  lemma BasenameJoin(dir: string, name: string)
    requires name != "" && '/' !in name
    ensures Basename(Join(dir, name)) == name
  {
    var j := Join(dir, name);
    var off := |j| - |name|;
    assert j[off..] == name;
    assert forall k :: off <= k < |j| ==> j[k] == name[k - off];
    assert off == 0 || j[off - 1] == '/';
    var r := PyText.RFind(j, '/');
    assert r == off - 1;
  }

  /** Joining a file name onto a directory keeps the directory as a prefix. */
  lemma JoinPrefix(dir: string, name: string)
    requires |name| > 0 && name[0] != '/'
    ensures dir <= Join(dir, name) && Join(dir, name)[|Join(dir, name)| - |name|..] == name
  {
  }

  /** What `join` puts in front of a relative name: the directory, with a
      `/` added unless it is empty or already ends with one. */
  function DirPrefix(dir: string): (pre: string)
    ensures pre == "" || pre[|pre| - 1] == '/'
  {
    if dir == "" || dir[|dir| - 1] == '/' then dir else dir + "/"
  }

  lemma JoinShape(dir: string, name: string)
    requires |name| > 0 && name[0] != '/'
    ensures Join(dir, name) == DirPrefix(dir) + name
  {
  }

  /** Splitting `dir/stem.ext` gives back `dir/stem` and `.ext` when the stem
      is a file name that is not all dots and the extension has no dot. */
  lemma SplitextJoin(dir: string, stem: string, ext: string)
    requires '/' !in stem && !AllDots(stem) && '/' !in ext && '.' !in ext
    ensures Splitext(Join(dir, stem + "." + ext)) == (Join(dir, stem), "." + ext)
  {
    assert stem != "" && stem[0] != '/';
    var pre := DirPrefix(dir);
    var name := stem + "." + ext;
    JoinShape(dir, name);
    JoinShape(dir, stem);
    JoinedIndices(pre, stem, ext);
    var p := pre + stem + "." + ext;
    assert pre + name == p;
    SplitextAt(p, |pre| - 1, |pre| + |stem|);
  }

  /** `splitext` at a known last separator and last dot. */
  lemma SplitextAt(p: string, sep: int, dot: int)
    requires PyText.RFind(p, '/') == sep && PyText.RFind(p, '.') == dot
    requires sep < dot && !AllDots(p[sep + 1..dot])
    ensures Splitext(p) == (p[..dot], p[dot..])
  {
  }

  lemma JoinedIndices(pre: string, stem: string, ext: string)
    requires pre == "" || pre[|pre| - 1] == '/'
    requires '/' !in stem && '/' !in ext && '.' !in ext
    ensures var p, d := pre + stem + "." + ext, |pre| + |stem|;
      PyText.RFind(p, '/') == |pre| - 1 && PyText.RFind(p, '.') == d
      && p[|pre|..d] == stem && p[..d] == pre + stem && p[d..] == "." + ext
  {
    var p := pre + stem + "." + ext;
    var d := |pre| + |stem|;
    assert forall k :: 0 <= k < |stem| ==> p[|pre| + k] == stem[k];
    assert p[d] == '.';
    assert forall k :: d < k < |p| ==> p[k] == ext[k - d - 1];
    PyText.RFindIs(p, '/', |pre| - 1);
    PyText.RFindIs(p, '.', d);
    assert p[|pre|..d] == stem;
    assert p[..d] == pre + stem;
    assert p[d..] == "." + ext;
  }
}
