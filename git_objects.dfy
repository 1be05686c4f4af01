/**
 * The environment the git content provider works against: a repository as seen
 * through go-git (commit and tag objects, references, config) and through the
 * git command line (`show-ref`), with the failures those calls may report.
 */
module GitObjects {
  import opened Wrappers
  import opened Strings

  /** Outcome of a library lookup: found, go-git's "not found" sentinel, or any other error. */
  datatype Lookup<T> = Found(value: T) | NotFound | Failed(cause: string)

  /** The message of go-git's plumbing.ErrObjectNotFound. */
  const ObjectNotFound := "object not found"

  /** The file whose presence in a commit's tree means the commit has submodules. */
  const GitModulesFile := ".gitmodules"

  /** A commit object: its parent hashes in order, the paths of its tree, and a tree read failure. */
  datatype Commit = Commit(parents: seq<string>, files: set<string>, treeFault: Option<string>)

  /** A reference: its full name (`refs/tags/v1`), the object it points at, and show-ref's HEAD flag. */
  datatype Ref = Ref(name: string, hash: string, isHead: bool)

  /** An annotated tag object. */
  datatype TagObject = TagObject(name: string)

  /** Failures reported by the library or the git command line, one per kind of call. */
  datatype Faults = Faults(
    open: Option<string>,           // git.PlainOpenWithOptions
    config: Option<string>,         // repository.Config
    commitIter: Option<string>,     // repository.CommitObjects / Next
    refIter: Option<string>,        // repository.References / Tags
    showRef: Option<string>,        // true_git.ShowRef
    objects: map<string, string>)   // reading the object with this hash fails

  datatype Repo = Repo(
    commits: map<string, Commit>,
    refs: seq<Ref>,
    tags: map<string, TagObject>,
    remotes: map<string, seq<string>>,
    faults: Faults)

  /** Which commit of an operation a validation error is about. */
  datatype Side = From | To | Target

  /** The errors of the git content provider, one constructor per message shape of the source. */
  datatype GitError =
    | CannotOpenRepo(path: string, cause: string)         // cannot open repo `%s`: %s
    | CannotAccessConfig(cause: string)                   // cannot access repo config: %s
    | BadCommitHash(side: Side, hash: string)             // bad [`from`|`to`] commit hash `%s`: %s
    | BadCommit(side: Side, hash: string, cause: string)  // bad [`from`|`to`] commit `%s`: %s
    | CannotCreatePatch(from: string, to: string, cause: string)
    | CannotCreateArchive(commit: string, cause: string)
    | CannotOpenPatchFile(file: nat, cause: string)       // cannot open file %s: %s
    | CannotClosePatchFile(file: nat, cause: string)      // error creating patch file %s: %s
    | CannotOpenArchiveFile(cause: string)                // cannot open archive file: %s
    | CannotCloseArchiveFile(file: nat, cause: string)    // unable to close file %s: %s
    | Raw(cause: string)                                  // a callee's error returned unchanged

  predicate IsHexDigit(c: char) {
    '0' <= c <= '9' || 'a' <= c <= 'f' || 'A' <= c <= 'F'
  }

  /** A well-formed object id: forty hexadecimal digits. */
  predicate IsHash(s: string) {
    |s| == 40 && forall i :: 0 <= i < |s| ==> IsHexDigit(s[i])
  }

  /** repository.CommitObject(hash). */
  function CommitObject(repo: Repo, hash: string): Lookup<Commit> {
    if hash in repo.faults.objects then Failed(repo.faults.objects[hash])
    else if hash in repo.commits then Found(repo.commits[hash])
    else NotFound
  }

  /** repository.TagObject(hash): only annotated tags have a tag object. */
  function TagObjectOf(repo: Repo, hash: string): Lookup<TagObject> {
    if hash in repo.faults.objects then Failed(repo.faults.objects[hash])
    else if hash in repo.tags then Found(repo.tags[hash])
    else NotFound
  }

  /** commit.File(name): reading the tree first, then looking the path up in it. */
  function CommitFile(commit: Commit, name: string): Lookup<string> {
    if commit.treeFault.Some? then Failed(commit.treeFault.value)
    else if name in commit.files then Found(name)
    else NotFound
  }

  /**
   * Parsing a commit reference and loading its commit object, as every operation
   * does before using a commit: a malformed hash and a failed load are both errors
   * that name the side and the reference.
   */
  function ResolveCommit(repo: Repo, side: Side, hash: string): (r: Result<Commit, GitError>)
    ensures r.Ok? <==> IsHash(hash) && hash !in repo.faults.objects && hash in repo.commits
    ensures r.Ok? ==> r.value == repo.commits[hash]
    ensures !IsHash(hash) ==> r == Err(BadCommitHash(side, hash))
    ensures r.Err? && IsHash(hash) ==> r.error.BadCommit? && r.error.side == side && r.error.hash == hash
  {
    if !IsHash(hash) then Err(BadCommitHash(side, hash))
    else
      match CommitObject(repo, hash)
      case Found(c) => Ok(c)
      case NotFound => Err(BadCommit(side, hash, ObjectNotFound))
      case Failed(e) => Err(BadCommit(side, hash, e))
  }

  /**
   * HasSubmodulesInCommit: a missing `.gitmodules` means no submodules, its presence
   * means submodules, and any other failure to read the tree is an error.
   */
  function HasSubmodulesInCommit(commit: Commit): (r: Result<bool, GitError>)
    ensures r == Ok(true) <==> commit.treeFault.None? && GitModulesFile in commit.files
    ensures r == Ok(false) <==> commit.treeFault.None? && GitModulesFile !in commit.files
    ensures r.Err? <==> commit.treeFault.Some?
  {
    match CommitFile(commit, GitModulesFile)
    case Found(_) => Ok(true)
    case NotFound => Ok(false)
    case Failed(e) => Err(Raw(e))
  }
}
