/**
 * The image path resolver `getImageUrl`, which the gallery, the room modal, the hero and
 * the room card each define identically: keep the text after the last '/' of a stored path
 * (`split('/').pop()`) and place it under the static asset directory.
 */
module ImageUrl {

  type ImagePath = string

  /** The fixed asset directory every resolved locator starts with. */
  const AssetBase: string := "/src/assets/"

  /** True when `r` ends `p`. */
  predicate IsSuffix(r: string, p: string) {
    |r| <= |p| && r == p[|p| - |r|..]
  }

  /**
   * The last element of `p.split('/')`: the longest suffix of `p` that holds no '/'.
   * It is all of `p` when `p` has no '/', and otherwise starts right after the last '/'.
   */
  function LastSegment(p: string): (r: string)
    ensures '/' !in r
    ensures IsSuffix(r, p)
    ensures r == p || p[|p| - |r| - 1] == '/'
  {
    if p == [] then []
    else if p[|p| - 1] == '/' then []
    else LastSegment(p[..|p| - 1]) + [p[|p| - 1]]
  }

  /** `getImageUrl(p)`: the asset directory followed by the last segment of `p`. */
  function Resolve(p: ImagePath): (r: string)
    ensures |r| >= |AssetBase| && r[..|AssetBase|] == AssetBase
    ensures '/' !in r[|AssetBase|..]
    ensures IsSuffix(r[|AssetBase|..], p)
    ensures r[|AssetBase|..] == LastSegment(p)
  {
    AssetBase + LastSegment(p)
  }

  /** `getImageUrl` applied to every element, as the thumbnail lists do with `images.map`. */
  function ResolveAll(images: seq<ImagePath>): (r: seq<string>)
    ensures |r| == |images|
    ensures forall k :: 0 <= k < |images| ==> r[k] == Resolve(images[k])
  {
    seq(|images|, k requires 0 <= k < |images| => Resolve(images[k]))
  }

  /** The three properties of LastSegment's contract determine its result. */
  lemma LastSegmentUnique(p: string, r: string)
    requires '/' !in r && IsSuffix(r, p)
    requires r == p || p[|p| - |r| - 1] == '/'
    ensures r == LastSegment(p)
  {
  }

  /** A path without '/' is its own last segment, and only such a path is. */
  lemma LastSegmentWhole(p: string)
    ensures LastSegment(p) == p <==> '/' !in p
  {
    if '/' !in p {
      LastSegmentUnique(p, p);
    }
  }

  /** Resolving an already resolved locator changes nothing. */
  lemma ResolveIdempotent(p: ImagePath)
    ensures Resolve(Resolve(p)) == Resolve(p)
  {
    var f := LastSegment(p);
    var u := AssetBase + f;
    assert u[|u| - |f|..] == f;
    assert f != u;
    assert u[|u| - |f| - 1] == '/';
    LastSegmentUnique(u, f);
  }

  /** Paths that differ only in their directories resolve to the same locator. */
  lemma ResolveIgnoresDirectory(dir: string, name: string)
    requires '/' !in name
    ensures Resolve(dir + "/" + name) == AssetBase + name
  {
    var p := dir + "/" + name;
    assert p[|p| - |name|..] == name;
    assert p[|p| - |name| - 1] == '/';
    LastSegmentUnique(p, name);
  }
}
