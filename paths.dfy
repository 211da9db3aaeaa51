/** POSIX path helpers. */
module Paths {

  /** `os.path.basename`: everything after the last `/`. */
  function Basename(p: string): string
  {
    if |p| == 0 || p[|p| - 1] == '/' then ""
    else Basename(p[..|p| - 1]) + [p[|p| - 1]]
  }

  /** The basename is the longest suffix of the path without a `/`. */
  lemma {:induction false} BasenameIsLastComponent(p: string)
    ensures '/' !in Basename(p)
    ensures |Basename(p)| <= |p| && p[|p| - |Basename(p)|..] == Basename(p)
    ensures |Basename(p)| < |p| ==> p[|p| - |Basename(p)| - 1] == '/'
  {
    if |p| > 0 && p[|p| - 1] != '/' {
      var q := p[..|p| - 1];
      var c := p[|p| - 1];
      var b := Basename(q);
      BasenameIsLastComponent(q);
      assert p == q + [c];
      assert Basename(p) == b + [c];
      var start := |q| - |b|;
      assert |p| - |Basename(p)| == start;
      assert p[start..] == q[start..] + [c];
      if start > 0 {
        assert p[start - 1] == q[start - 1];
      }
    }
  }
}
