/**
 * The two path helpers of the site-configuration reducer and their
 * composition, the normalisation applied to `pathPrefix` and `assetPath`.
 * Paths are JavaScript strings, modelled as `seq<char>`.
 */
module Paths {

  predicate StartsWithSlash(path: string) {
    |path| > 0 && path[0] == '/'
  }

  predicate EndsWithSlash(path: string) {
    |path| > 0 && path[|path| - 1] == '/'
  }

  predicate EndsWithDoubleSlash(path: string) {
    |path| >= 2 && path[|path| - 2] == '/' && path[|path| - 1] == '/'
  }

  /** A path in canonical form: leading slash, no trailing slash. */
  predicate IsNormalized(path: string) {
    StartsWithSlash(path) && !EndsWithSlash(path)
  }

  /** Prepends `/` unless the path already starts with one. */
  function EnsureStartsWithSlash(path: string): (r: string)
    ensures StartsWithSlash(r)
    ensures |path| <= |r| <= |path| + 1 && r[|r| - |path|..] == path
    ensures r == path <==> StartsWithSlash(path)
  {
    if !StartsWithSlash(path) then "/" + path else path
  }

  /** Drops exactly one trailing `/`, if there is one. */
  function EnsureEndsWithNoSlash(path: string): (r: string)
    ensures |path| - 1 <= |r| <= |path| && r == path[..|r|]
    ensures r == path <==> !EndsWithSlash(path)
  {
    if EndsWithSlash(path) then path[..|path| - 1] else path
  }

  /**
   * The start check first, then the end strip, as the reducer applies them.
   * The result is empty or starts with `/`.
   */
  function NormalizePath(path: string): (r: string)
    ensures r == "" || StartsWithSlash(r)
  {
    EnsureEndsWithNoSlash(EnsureStartsWithSlash(path))
  }

  /** Only the empty path and the lone `/` normalise to the empty string. */
  lemma NormalizeToEmpty(path: string)
    ensures NormalizePath(path) == "" <==> path == "" || path == "/"
  {
    var s := EnsureStartsWithSlash(path);
    var r := EnsureEndsWithNoSlash(s);
    if path == "" {
      assert s == "/";
      assert r == s[..0];
    } else if path == "/" {
      assert s == path;
      assert r == s[..0];
    } else {
      assert |path| == 1 && path[0] == '/' ==> path == "/";
      assert |s| >= 2;
      assert |r| >= 1;
    }
  }

  /**
   * Any other path comes out with a leading slash, and it keeps a trailing
   * slash exactly when the input ended with two, since only one is stripped.
   */
  lemma NormalizeShape(path: string)
    requires path != "" && path != "/"
    ensures StartsWithSlash(NormalizePath(path))
    ensures EndsWithSlash(NormalizePath(path)) <==> EndsWithDoubleSlash(path)
  {
    NormalizeToEmpty(path);
    var s := EnsureStartsWithSlash(path);
    var r := NormalizePath(path);
    assert r == s[..|r|];
    assert r[0] == s[0];
    if StartsWithSlash(path) {
      assert s == path;
    } else {
      assert s == "/" + path;
      assert s[|s| - 1] == path[|path| - 1];
      if |path| >= 2 {
        assert s[|s| - 2] == path[|path| - 2];
      } else {
        assert s[|s| - 2] == '/' && path[|path| - 1] != '/';
      }
    }
  }

  /** A path is left unchanged exactly when it is empty or already canonical. */
  lemma NormalizeFixedPoints(path: string)
    ensures NormalizePath(path) == path <==> path == "" || IsNormalized(path)
  {
  }

  /**
   * Normalising twice gives the same as normalising once exactly when the
   * input does not end with two slashes.
   */
  lemma NormalizeIdempotentIff(path: string)
    ensures NormalizePath(NormalizePath(path)) == NormalizePath(path)
            <==> !EndsWithDoubleSlash(path)
  {
    var r := NormalizePath(path);
    NormalizeToEmpty(path);
    NormalizeFixedPoints(r);
    if path == "" || path == "/" {
      assert r == "";
    } else {
      NormalizeShape(path);
    }
  }

  /** `foo`, `foo/` and `/foo/` all become `/foo`, for any bare segment. */
  lemma NormalizeBareSegment(segment: string)
    requires segment != "" && !StartsWithSlash(segment) && !EndsWithSlash(segment)
    ensures NormalizePath(segment) == "/" + segment
    ensures NormalizePath(segment + "/") == "/" + segment
    ensures NormalizePath("/" + segment + "/") == "/" + segment
  {
    var slashed := segment + "/";
    assert slashed[0] == segment[0];
    assert EnsureStartsWithSlash(slashed) == "/" + slashed;
    assert ("/" + slashed)[..|"/" + slashed| - 1] == "/" + segment;
    var both := "/" + segment + "/";
    assert both == "/" + slashed;
    assert EnsureStartsWithSlash(both) == both;
  }

  /** `foo/`, `/foo/` and `foo` all become `/foo`, which stays as it is. */
  lemma NormalizeFooExamples()
    ensures NormalizePath("foo/") == "/foo"
    ensures NormalizePath("/foo/") == "/foo"
    ensures NormalizePath("foo") == "/foo"
    ensures NormalizePath("/foo") == "/foo"
  {
    assert "/foo" == "/" + "foo";
    assert "foo/" == "foo" + "/";
    assert "/foo/" == "/" + "foo" + "/";
    NormalizeBareSegment("foo");
    NormalizeFixedPoints("/foo");
  }

  /** Only one trailing slash goes per pass: `a//` becomes `/a/`, then `/a`. */
  lemma NormalizeSingleStripExample()
    ensures EnsureEndsWithNoSlash("a//") == "a/"
    ensures NormalizePath("a//") == "/a/" && NormalizePath("/a/") == "/a"
  {
    assert "a//"[..2] == "a/";
    assert EnsureStartsWithSlash("a//") == "/a//";
    assert "/a//"[..3] == "/a/";
    assert "/a/"[..2] == "/a";
  }
}
