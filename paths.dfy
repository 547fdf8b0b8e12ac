/**
 * The two POSIX path helpers the servers rely on: `os.path.join` with two
 * arguments and `os.path.basename`. Neither normalises its input, so neither
 * confines a joined path to its first argument.
 */
module Paths {

  predicate IsAbsolute(p: string) {
    |p| > 0 && p[0] == '/'
  }

  /**
   * `os.path.join(a, b)`: an absolute `b` replaces `a`; otherwise `b` is
   * appended, with a separator unless `a` is empty or already ends in one.
   */
  function Join(a: string, b: string): (r: string)
    ensures |b| <= |r| && r[|r| - |b|..] == b
    ensures IsAbsolute(b) ==> r == b
    ensures !IsAbsolute(b) ==> |a| <= |r| && r[..|a|] == a
    ensures !IsAbsolute(b) && a != [] && a[|a| - 1] != '/' ==> r == a + "/" + b
    ensures !IsAbsolute(b) && (a == [] || a[|a| - 1] == '/') ==> r == a + b
  {
    if IsAbsolute(b) then b
    else if a == [] || a[|a| - 1] == '/' then a + b
    else a + "/" + b
  }

  /** `os.path.basename(p)`: everything after the last `/`. */
  function Basename(p: string): (r: string)
    ensures '/' !in r
    ensures |r| <= |p| && p[|p| - |r|..] == r
    ensures |r| < |p| ==> p[|p| - |r| - 1] == '/'
  {
    if p == [] then []
    else if p[|p| - 1] == '/' then []
    else Basename(p[..|p| - 1]) + [p[|p| - 1]]
  }

  /** One more character either extends the basename or, for `/`, empties it. */
  lemma BasenameSnoc(p: string, c: char)
    ensures c == '/' ==> Basename(p + [c]) == []
    ensures c != '/' ==> Basename(p + [c]) == Basename(p) + [c]
  {
    assert (p + [c])[..|p|] == p;
  }

  /** The basename of a concatenation is decided by the last `/` in it. */
  lemma {:induction false} BasenameAppend(x: string, y: string)
    ensures '/' in y ==> Basename(x + y) == Basename(y)
    ensures '/' !in y ==> Basename(x + y) == Basename(x) + y
  {
    if y == [] {
      assert x + y == x;
    } else {
      var n := |y| - 1;
      var init, c := y[..n], y[n];
      assert y == init + [c];
      assert x + y == (x + init) + [c];
      BasenameSnoc(x + init, c);
      BasenameSnoc(init, c);
      if c != '/' {
        BasenameAppend(x, init);
        assert '/' in y <==> '/' in init;
      }
    }
  }

  /** Joining never changes the final segment of the second argument. */
  lemma BasenameOfJoin(a: string, b: string)
    ensures Basename(Join(a, b)) == Basename(b)
  {
    if !IsAbsolute(b) {
      var prefix := if a == [] || a[|a| - 1] == '/' then a else a + "/";
      assert Join(a, b) == prefix + b;
      BasenameAppend(prefix, b);
      if '/' !in b && prefix != [] {
        assert prefix[|prefix| - 1] == '/';
      }
    }
  }

  /** An absolute second argument escapes the first: there is no confinement. */
  lemma JoinEscapesBase()
    ensures Join("/srv/private", "/etc/passwd") == "/etc/passwd"
    ensures Join("/srv/private", "../secret") == "/srv/private/../secret"
  {
  }
}
