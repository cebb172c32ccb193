/** The upward search for the Dockerfile (`getDockerfile`), bounded by the
    build root. */
module Discovery {
  import opened Paths

  const DockerfileName: string := "Dockerfile"

  /** `dir / "Dockerfile"` */
  function Candidate(dir: Path): (p: Path)
    ensures |p| > 0 && p[|p| - 1] == DockerfileName && Parent(p) == dir
  {
    dir + [DockerfileName]
  }

  /** The directories the search visits: `(cwd / "foo").parents`, that is
      `cwd` itself and then each of its ancestors up to `/`. */
  function SearchChain(cwd: Path): (chain: seq<Path>)
    ensures |chain| == |cwd| + 1
    ensures forall i :: 0 <= i < |chain| ==> chain[i] == cwd[..|cwd| - i]
  {
    var chain := Parents(cwd + ["foo"]);
    assert forall n :: 0 <= n <= |cwd| ==> (cwd + ["foo"])[..n] == cwd[..n];
    chain
  }

  /** The search ends at `dir`: either its Dockerfile exists or it is the root. */
  predicate Stops(dir: Path, root: Path, existing: set<Path>)
  {
    Candidate(dir) in existing || dir == root
  }

  /** Reference definition of the search over a chain of directories:
      existence is tested before the comparison with the root, and the root's
      candidate is the fallback once the chain is exhausted. */
  function Discover(chain: seq<Path>, root: Path, existing: set<Path>): (r: Path)
    ensures r == Candidate(root) || exists i :: 0 <= i < |chain| && r == Candidate(chain[i])
    decreases |chain|
  {
    if chain == [] then Candidate(root)
    else if Candidate(chain[0]) in existing then Candidate(chain[0])
    else if chain[0] == root then Candidate(chain[0])
    else
      var r := Discover(chain[1..], root, existing);
      assert forall i :: 0 <= i < |chain| - 1 ==> chain[1..][i] == chain[i + 1];
      r
  }

  /** `getDockerfile(root)` with the current directory `cwd` and the set of
      files that exist (`resolve()` is the identity on canonical paths). */
  method GetDockerfile(cwd: Path, root: Path, existing: set<Path>) returns (r: Path)
    ensures r == Discover(SearchChain(cwd), root, existing)
    ensures |r| > 0 && r[|r| - 1] == DockerfileName
  {
    var parents := Parents(cwd + ["foo"]);
    assert parents == SearchChain(cwd);
    for i := 0 to |parents|
      invariant Discover(parents[i..], root, existing) == Discover(parents, root, existing)
    {
      var parent := parents[i];
      assert parents[i..][1..] == parents[i + 1..];
      var candidate := parent + [DockerfileName];
      if candidate in existing {
        return candidate;
      }
      if parent == root {
        return candidate;
      }
    }
    return root + [DockerfileName];
  }

  /** The first directory of the chain at which the search stops decides the
      result. */
  lemma {:induction false} DiscoverFirstStop(chain: seq<Path>, root: Path, existing: set<Path>, i: nat)
    requires i < |chain| && Stops(chain[i], root, existing)
    requires forall j :: 0 <= j < i ==> !Stops(chain[j], root, existing)
    ensures Discover(chain, root, existing) == Candidate(chain[i])
    decreases i
  {
    if i > 0 {
      assert !Stops(chain[0], root, existing);
      assert forall j :: 0 <= j < i - 1 ==> chain[1..][j] == chain[j + 1];
      DiscoverFirstStop(chain[1..], root, existing, i - 1);
    }
  }

  /** A chain on which the search never stops falls back to the root. */
  lemma {:induction false} DiscoverNoStop(chain: seq<Path>, root: Path, existing: set<Path>)
    requires forall j :: 0 <= j < |chain| ==> !Stops(chain[j], root, existing)
    ensures Discover(chain, root, existing) == Candidate(root)
    decreases |chain|
  {
    if chain != [] {
      assert !Stops(chain[0], root, existing);
      assert forall j :: 0 <= j < |chain| - 1 ==> chain[1..][j] == chain[j + 1];
      DiscoverNoStop(chain[1..], root, existing);
    }
  }

  /** Nothing beyond the root's position in the chain is examined: two sets
      of existing files that agree up to and including the root give the same
      result. */
  lemma {:induction false} DiscoverIgnoresBeyondRoot(chain: seq<Path>, root: Path, e1: set<Path>, e2: set<Path>, k: nat)
    requires k < |chain| && chain[k] == root
    requires forall j :: 0 <= j <= k ==> (Candidate(chain[j]) in e1 <==> Candidate(chain[j]) in e2)
    ensures Discover(chain, root, e1) == Discover(chain, root, e2)
    decreases k
  {
    assert Candidate(chain[0]) in e1 <==> Candidate(chain[0]) in e2;
    if k > 0 && Candidate(chain[0]) !in e1 && chain[0] != root {
      assert forall j :: 0 <= j <= k - 1 ==> chain[1..][j] == chain[j + 1];
      DiscoverIgnoresBeyondRoot(chain[1..], root, e1, e2, k - 1);
    }
  }

  /** Nearest Dockerfile wins: a Dockerfile at level `k` of the current
      directory (`cwd[..k]`) is returned when no nearer directory holds one
      and no nearer directory is the root; `k` may be the root's own level,
      since existence is tested first. */
  lemma NearestDockerfileWins(cwd: Path, root: Path, existing: set<Path>, k: nat)
    requires k <= |cwd| && Candidate(cwd[..k]) in existing
    requires forall m :: k < m <= |cwd| ==> Candidate(cwd[..m]) !in existing && cwd[..m] != root
    ensures Discover(SearchChain(cwd), root, existing) == Candidate(cwd[..k])
    ensures Discover(SearchChain(cwd), root, existing) in existing
  {
    var chain := SearchChain(cwd);
    var i := |cwd| - k;
    forall j | 0 <= j < i ensures !Stops(chain[j], root, existing) {
      assert chain[j] == cwd[..|cwd| - j];
    }
    DiscoverFirstStop(chain, root, existing, i);
  }

  /** Bounded by the root: when the root is `cwd` or one of its ancestors and
      no Dockerfile exists from `cwd` up to and including the root, the result
      is the root's (absent) candidate. */
  lemma BoundedByRoot(cwd: Path, root: Path, existing: set<Path>, k: nat)
    requires k <= |cwd| && cwd[..k] == root
    requires forall m :: k <= m <= |cwd| ==> Candidate(cwd[..m]) !in existing
    ensures Discover(SearchChain(cwd), root, existing) == Candidate(root)
    ensures Discover(SearchChain(cwd), root, existing) !in existing
  {
    var chain := SearchChain(cwd);
    var i := |cwd| - k;
    forall j | 0 <= j < i ensures !Stops(chain[j], root, existing) {
      assert chain[j] == cwd[..|cwd| - j];
      assert |chain[j]| != |root|;
    }
    DiscoverFirstStop(chain, root, existing, i);
  }

  /** Directories strictly above the root do not influence the result. */
  lemma AboveRootNotExamined(cwd: Path, root: Path, e1: set<Path>, e2: set<Path>, k: nat)
    requires k <= |cwd| && cwd[..k] == root
    requires forall m :: k <= m <= |cwd| ==> (Candidate(cwd[..m]) in e1 <==> Candidate(cwd[..m]) in e2)
    ensures Discover(SearchChain(cwd), root, e1) == Discover(SearchChain(cwd), root, e2)
  {
    var chain := SearchChain(cwd);
    forall j | 0 <= j <= |cwd| - k
      ensures Candidate(chain[j]) in e1 <==> Candidate(chain[j]) in e2
    {
      assert chain[j] == cwd[..|cwd| - j];
    }
    DiscoverIgnoresBeyondRoot(chain, root, e1, e2, |cwd| - k);
  }

  /** When the root is not `cwd` nor any of its ancestors and no Dockerfile
      exists on the way up to `/`, the search still ends and falls back to the
      root's candidate. */
  lemma RootNotAncestorFallsBack(cwd: Path, root: Path, existing: set<Path>)
    requires forall m :: 0 <= m <= |cwd| ==> cwd[..m] != root
    requires forall m :: 0 <= m <= |cwd| ==> Candidate(cwd[..m]) !in existing
    ensures Discover(SearchChain(cwd), root, existing) == Candidate(root)
  {
    var chain := SearchChain(cwd);
    forall j | 0 <= j < |chain| ensures !Stops(chain[j], root, existing) {
      assert chain[j] == cwd[..|cwd| - j];
    }
    DiscoverNoStop(chain, root, existing);
  }
}
