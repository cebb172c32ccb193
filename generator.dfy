/** What `createDockerfile` does to the filesystem: remove the file if it is
    there, then write the fixed template to it. */
module Generator {
  import opened Paths
  import Template

  /** The filesystem after regenerating the Dockerfile at `p`. */
  function Regenerated(files: map<Path, string>, p: Path): (r: map<Path, string>)
    ensures p in r && r[p] == Template.DockerfileTemplate
    ensures forall q :: q != p ==> (q in r <==> q in files)
    ensures forall q :: q != p && q in files ==> r[q] == files[q]
  {
    (files - {p})[p := Template.DockerfileTemplate]
  }

  /** Whatever `p` held before, or whether it existed at all, makes no
      difference to the result. */
  lemma RegeneratedForgetsOldContent(files: map<Path, string>, p: Path, old_content: string)
    ensures Regenerated(files[p := old_content], p) == Regenerated(files - {p}, p)
    ensures Regenerated(files, p) == Regenerated(files - {p}, p)
  {
  }

  /** Regenerating twice leaves the same filesystem as regenerating once. */
  lemma RegeneratedIdempotent(files: map<Path, string>, p: Path)
    ensures Regenerated(Regenerated(files, p), p) == Regenerated(files, p)
  {
  }
}
