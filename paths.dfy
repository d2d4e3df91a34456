/** The parts of POSIX path handling the program relies on: `os.path.join`,
    `os.path.dirname`, `os.path.basename` and `os.path.splitext` (posixpath), and
    `Path(p).parent` and `Path(p).suffix` (pathlib), over '/'-separated strings. */
module Paths {
  import opened Common

  /** `os.path.basename`: everything after the last '/'. */
  function Basename(p: string): (r: string)
    ensures '/' !in r
    ensures EndsWith(p, r)
    ensures '/' !in p ==> r == p
  {
    p[RFind(p, '/') + 1..]
  }

  /** `str.rstrip(c)`. */
  function RStrip(s: string, c: char): (r: string)
    ensures |r| <= |s| && r == s[..|r|]
    ensures r == [] || r[|r| - 1] != c
    ensures forall k :: |r| <= k < |s| ==> s[k] == c
  {
    if s == [] || s[|s| - 1] != c then s else RStrip(s[..|s| - 1], c)
  }

  /** `os.path.dirname`: the text up to the last '/', with trailing slashes removed
      unless it consists of slashes only. */
  function Dirname(p: string): (r: string)
    ensures StartsWith(p, r)
    ensures '/' !in p ==> r == ""
    ensures '/' in p ==> r != ""
    ensures forall k :: |r| <= k < |p| - |Basename(p)| ==> p[k] == '/'
  {
    var head := p[..RFind(p, '/') + 1];
    if head != [] && exists k :: 0 <= k < |head| && head[k] != '/' then RStrip(head, '/') else head
  }

  /** `os.path.join(a, b)`: an absolute `b` replaces `a`; otherwise a '/' is inserted
      unless `a` is empty or already ends with one. */
  function Join(a: string, b: string): (r: string)
    ensures EndsWith(r, b)
    ensures StartsWith(b, "/") ==> r == b
  {
    if StartsWith(b, "/") then b
    else if a == [] || a[|a| - 1] == '/' then a + b
    else a + "/" + b
  }

  /** True when some character of `p[from..to]` is not a dot. */
  predicate HasNonDot(p: string, from: int, to: int)
    requires 0 <= from <= to <= |p|
  {
    exists k :: from <= k < to && p[k] != '.'
  }

  /** `os.path.splitext`: the extension runs from the last dot of the last component
      to the end, provided that dot is preceded in the component by something other
      than dots; otherwise the extension is empty. */
  function SplitExt(p: string): (r: (string, string))
    ensures r.0 + r.1 == p
    ensures r.1 == "" || (r.1[0] == '.' && '/' !in r.1 && '.' !in r.1[1..])
  {
    var sep := RFind(p, '/');
    var dot := RFind(p, '.');
    if dot > sep && HasNonDot(p, sep + 1, dot) then
      assert p[..dot] + p[dot..] == p;
      (p[..dot], p[dot..])
    else (p, "")
  }

  /** `str(Path(p).parent)` for a normalised path (no repeated or trailing slash). */
  function Parent(p: string): (r: string)
    ensures r != ""
    ensures '/' !in p ==> r == "."
    ensures RFind(p, '/') == 0 ==> r == "/" && r + Basename(p) == p
    ensures RFind(p, '/') > 0 ==> r + "/" + Basename(p) == p
  {
    var i := RFind(p, '/');
    if i < 0 then "." else if i == 0 then "/" else p[..i]
  }

  /** `Path(p).suffix` for a normalised path: from the last dot of the final
      component, unless that dot starts or ends the name. */
  function Suffix(p: string): (r: string)
    ensures r == "" || (|r| >= 2 && r[0] == '.' && '.' !in r[1..] && '/' !in r)
    ensures EndsWith(p, r)
    ensures EndsWith(Basename(p), r)
    ensures r != "" <==> 0 < RFind(Basename(p), '.') < |Basename(p)| - 1
  {
    var name := Basename(p);
    var i := RFind(name, '.');
    if 0 < i < |name| - 1 then name[i..] else ""
  }
}
