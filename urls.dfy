/** The base path of the catalog URL and the resolution of relative URLs against it. */
module Urls {

  /** String.lastIndexOf(char): the last position holding c, or -1. */
  function LastIndexOf(s: string, c: char): (r: int)
    ensures -1 <= r < |s|
    ensures r >= 0 ==> s[r] == c
    ensures forall i :: r < i < |s| ==> s[i] != c
  {
    if |s| == 0 then -1
    else if s[|s| - 1] == c then |s| - 1
    else LastIndexOf(s[..|s| - 1], c)
  }

  /** The URL up to and including its last '/', or "" when it has none. */
  function BasePath(url: string): (base: string)
    ensures base <= url
    ensures base == [] <==> '/' !in url
    ensures base != [] ==> base[|base| - 1] == '/'
    ensures forall i :: |base| <= i < |url| ==> url[i] != '/'
  {
    url[..LastIndexOf(url, '/') + 1]
  }

  /** When the last c of `p` ends it and `q` holds no c, the base path of p + q is p. */
  lemma BasePathOfSplit(p: string, q: string)
    requires |p| > 0 && p[|p| - 1] == '/' && '/' !in q
    ensures BasePath(p + q) == p
  {
    var s := p + q;
    var r := LastIndexOf(s, '/');
    assert s[|p| - 1] == '/';
    assert r == |p| - 1;
    assert s[..|p|] == p;
  }

  /** String.startsWith("http"). */
  predicate IsAbsolute(u: string) {
    "http" <= u
  }

  /** A URL that does not start with "http" is prefixed with the base path. */
  function Resolve(basePath: string, u: string): string {
    if IsAbsolute(u) then u else basePath + u
  }

  /** Against an absolute base every resolved URL is absolute, and resolving again changes nothing. */
  lemma ResolveAbsoluteBase(basePath: string, u: string)
    requires IsAbsolute(basePath)
    ensures IsAbsolute(Resolve(basePath, u))
    ensures Resolve(basePath, Resolve(basePath, u)) == Resolve(basePath, u)
  {
    if !IsAbsolute(u) {
      assert (basePath + u)[..4] == basePath[..4];
    }
  }
}
