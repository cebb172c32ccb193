/** Absolute, already-canonical paths as sequences of components. */
module Paths {

  /** `[]` is `/`; `["home", "ann"]` is `/home/ann`. */
  type Path = seq<string>

  /** `PurePath.parents`: every proper ancestor, nearest first, ending at `/`. */
  function Parents(p: Path): (r: seq<Path>)
    ensures |r| == |p|
    ensures forall i :: 0 <= i < |r| ==> r[i] == p[..|p| - 1 - i]
    decreases |p|
  {
    if p == [] then [] else [p[..|p| - 1]] + Parents(p[..|p| - 1])
  }

  /** `p.parent` (the root is its own parent). */
  function Parent(p: Path): (r: Path)
    ensures p != [] ==> p == r + [p[|p| - 1]]
    ensures p == [] ==> r == []
  {
    if p == [] then [] else p[..|p| - 1]
  }

  /** `str(p)`: `/` for the root, otherwise `/` before every component. */
  function Render(p: Path): (s: string)
    ensures |s| > 0 && s[0] == '/'
  {
    if p == [] then "/" else RenderComponents(p)
  }

  function RenderComponents(p: Path): string
    decreases |p|
  {
    if p == [] then "" else "/" + p[0] + RenderComponents(p[1..])
  }
}
