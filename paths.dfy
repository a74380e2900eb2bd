/** The two functions of Node's posix `path` module the plugin loader relies on. */
module Paths {

  /** The index of the last occurrence of `c` in `s`, or -1 when `c` does not occur. */
  function LastIndexOf(s: string, c: char): (r: int)
    ensures -1 <= r < |s|
    ensures 0 <= r ==> s[r] == c
    ensures forall k :: r < k < |s| ==> s[k] != c
  {
    if s == [] then -1
    else if s[|s| - 1] == c then |s| - 1
    else LastIndexOf(s[..|s| - 1], c)
  }

  /** `path.basename`: everything after the last '/' (paths here carry no trailing separator). */
  function Basename(p: string): (r: string)
    ensures |r| <= |p| && r == p[|p| - |r|..]
    ensures forall k :: 0 <= k < |r| ==> r[k] != '/'
    ensures |r| < |p| ==> p[|p| - |r| - 1] == '/'
  {
    p[LastIndexOf(p, '/') + 1..]
  }

  /**
   * `path.extname`: the basename's suffix from its last '.', or "" when the
   * basename has no '.', starts with its only leading dot, or is "..".
   */
  function Extname(p: string): (r: string)
    ensures r == "" || r[0] == '.'
    ensures forall k :: 0 < k < |r| ==> r[k] != '.'
    ensures var b := Basename(p); |r| <= |b| && r == b[|b| - |r|..]
  {
    Extension(Basename(p))
  }

  /** The extension part of a basename `b`. */
  function Extension(b: string): (r: string)
    ensures r == "" || r[0] == '.'
    ensures forall k :: 0 < k < |r| ==> r[k] != '.'
    ensures |r| <= |b| && r == b[|b| - |r|..]
  {
    var j := LastIndexOf(b, '.');
    if j <= 0 || b == ".." then "" else b[j..]
  }

  /** `path.basename(f).startsWith(".")`. */
  predicate IsHidden(p: string)
  {
    var b := Basename(p);
    |b| > 0 && b[0] == '.'
  }

  /**
   * For a basename that does not start with '.', the extension is ".js"
   * exactly when the name ends in ".js".
   */
  lemma JsExtensionOfBase(b: string)
    requires |b| == 0 || b[0] != '.'
    ensures Extension(b) == ".js" <==> |b| >= 3 && b[|b| - 3..] == ".js"
  {
    var j := LastIndexOf(b, '.');
    if |b| >= 3 && b[|b| - 3..] == ".js" {
      assert b[|b| - 3] == '.' && b[|b| - 2] == 'j' && b[|b| - 1] == 's';
      assert j == |b| - 3;
    }
  }

  /** For a file that is not hidden, `path.extname(f) === ".js"` exactly when its name ends in ".js". */
  lemma JsExtension(p: string)
    requires !IsHidden(p)
    ensures var b := Basename(p);
      Extname(p) == ".js" <==> |b| >= 3 && b[|b| - 3..] == ".js"
  {
    JsExtensionOfBase(Basename(p));
  }
}
