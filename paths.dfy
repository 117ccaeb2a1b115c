/**
 * The part of Python's `os.path` that report processing relies on, with POSIX semantics:
 * `/` separates components and `.` introduces an extension.
 */
module PosixPath {

  /** `s.rfind(c)`: the index of the last occurrence of `c` in `s`, or -1 when there is none. */
  function RFind(s: string, c: char): (r: int)
    ensures -1 <= r < |s|
    ensures r >= 0 ==> s[r] == c
    ensures forall j :: r < j < |s| ==> s[j] != c
  {
    if s == [] then -1
    else if s[|s| - 1] == c then |s| - 1
    else RFind(s[..|s| - 1], c)
  }

  /** An extension as `splitext` returns it: a dot followed by anything but dots and separators. */
  predicate IsExtension(ext: string)
  {
    |ext| > 0 && ext[0] == '.' && forall j :: 1 <= j < |ext| ==> ext[j] != '.' && ext[j] != '/'
  }

  /** The final component of `root` has a character other than a dot (leading dots are not a stem). */
  predicate HasStem(root: string)
  {
    exists j :: RFind(root, '/') < j < |root| && root[j] != '.'
  }

  /**
   * `os.path.splitext(p)`: the extension starts at the last dot, provided that dot lies in the
   * final component and some character before it in that component is not a dot; otherwise
   * the extension is empty.
   */
  function SplitExt(p: string): (r: (string, string))
    ensures r.0 + r.1 == p
    ensures r.1 != "" ==> IsExtension(r.1) && HasStem(r.0)
  {
    var sep := RFind(p, '/');
    var dot := RFind(p, '.');
    if sep < dot && exists j :: sep < j < dot && p[j] != '.' then
      assert RFind(p[..dot], '/') == sep by { RFindOfPrefix(p[..dot], p[dot..], '/'); }
      (p[..dot], p[dot..])
    else
      (p, "")
  }

  /** Appending text without `c` does not move the last occurrence of `c`. */
  lemma RFindOfPrefix(s: string, t: string, c: char)
    requires forall j :: 0 <= j < |t| ==> t[j] != c
    ensures RFind(s + t, c) == RFind(s, c)
  {
    var r, q := RFind(s + t, c), RFind(s, c);
    assert forall j :: |s| <= j < |s + t| ==> (s + t)[j] == t[j - |s|];
    if q >= 0 {
      assert (s + t)[q] == c;
    }
    if r >= 0 && r < |s| {
      assert s[r] == c;
    }
  }

  /** `splitext` splits a stem and an extension back apart: the two are its unique split. */
  lemma SplitExtOfStem(stem: string, ext: string)
    requires HasStem(stem) && IsExtension(ext)
    ensures SplitExt(stem + ext) == (stem, ext)
  {
    var p := stem + ext;
    var dot := RFind(p, '.');
    assert p[|stem|] == '.';
    assert forall j :: |stem| < j < |p| ==> p[j] == ext[j - |stem|];
    assert dot == |stem|;
    RFindOfPrefix(stem, ext[1..], '/');
    assert p == stem + ['.'] + ext[1..];
    RFindOfPrefix(stem + ['.'], ext[1..], '/');
    RFindOfPrefix(stem, ['.'], '/');
    var sep := RFind(p, '/');
    assert sep == RFind(stem, '/');
    var j :| RFind(stem, '/') < j < |stem| && stem[j] != '.';
    assert sep < j < dot && p[j] != '.';
    assert p[..dot] == stem && p[dot..] == ext;
  }
}
