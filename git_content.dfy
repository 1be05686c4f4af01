/**
 * Patch and archive creation (createPatch, createArchive in pkg/git_repo/base.go):
 * look the result up in the shared git data cache first, and only on a miss
 * validate the commits, pick the plain or the submodule-aware routine, write the
 * result into a fresh temporary file and register it in the cache.
 */
module GitContent {
  import opened Wrappers
  import opened GitObjects

  datatype PatchOptions = PatchOptions(
    basePath: string, includePaths: seq<string>, excludePaths: seq<string>,
    fromCommit: string, toCommit: string, withEntireFileContext: bool, withBinary: bool)

  datatype ArchiveOptions = ArchiveOptions(
    basePath: string, includePaths: seq<string>, excludePaths: seq<string>, commit: string)

  /** The path matcher built from base path and include/exclude lists; `greedy` matches directories eagerly. */
  datatype GitMappingPathMatcher = GitMappingPathMatcher(
    basePath: string, includePaths: seq<string>, excludePaths: seq<string>, greedy: bool)

  /** Options handed to the patch routines of the git command-line layer. */
  datatype TruePatchOptions = TruePatchOptions(
    fromCommit: string, toCommit: string, pathMatcher: GitMappingPathMatcher,
    withEntireFileContext: bool, withBinary: bool)

  /** Options handed to the archive routines of the git command-line layer. */
  datatype TrueArchiveOptions = TrueArchiveOptions(commit: string, pathMatcher: GitMappingPathMatcher)

  datatype PatchDescriptor = PatchDescriptor(paths: seq<string>, binaryPaths: seq<string>)
  datatype ArchiveDescriptor = ArchiveDescriptor(isEmpty: bool)

  /** A cached patch or archive: the temporary file it was written to and the routine's descriptor. */
  datatype Patch = Patch(file: nat, descriptor: PatchDescriptor)
  datatype Archive = Archive(file: nat, descriptor: ArchiveDescriptor)

  /** The plain and the submodule-aware routines, as functions of the options they are given. */
  datatype PatchRoutines = PatchRoutines(
    plain: TruePatchOptions -> Result<PatchDescriptor, string>,
    withSubmodules: TruePatchOptions -> Result<PatchDescriptor, string>)

  datatype ArchiveRoutines = ArchiveRoutines(
    plain: TrueArchiveOptions -> Result<ArchiveDescriptor, string>,
    withSubmodules: TrueArchiveOptions -> Result<ArchiveDescriptor, string>)

  /** Failures of the cache lookup and of registering a new entry. */
  datatype CacheIo = CacheIo(get: Option<string>, put: Option<string>)

  /** Failures of creating, opening and closing the temporary file. */
  datatype TmpFileIo = TmpFileIo(create: Option<string>, open: Option<string>, close: Option<string>)

  /**
   * The shared git data cache: patches and archives keyed by (repository id,
   * options), and the number of temporary files handed out so far.
   */
  class GitDataManager {
    var patches: map<(string, PatchOptions), Patch>
    var archives: map<(string, ArchiveOptions), Archive>
    var tmpFiles: nat

    constructor ()
      ensures patches == map[] && archives == map[] && tmpFiles == 0
    {
      patches := map[];
      archives := map[];
      tmpFiles := 0;
    }

    /** GetPatchFile: the cached patch for the key, none on a miss, or the lookup's error. */
    method GetPatchFile(repoID: string, opts: PatchOptions, fault: Option<string>)
      returns (r: Result<Option<Patch>, GitError>)
      ensures fault.Some? ==> r == Err(Raw(fault.value))
      ensures fault.None? && (repoID, opts) in patches ==> r == Ok(Some(patches[(repoID, opts)]))
      ensures fault.None? && (repoID, opts) !in patches ==> r == Ok(None)
    {
      if fault.Some? {
        return Err(Raw(fault.value));
      }
      if (repoID, opts) in patches {
        return Ok(Some(patches[(repoID, opts)]));
      }
      return Ok(None);
    }

    /** GetArchiveFile: the cached archive for the key, none on a miss, or the lookup's error. */
    method GetArchiveFile(repoID: string, opts: ArchiveOptions, fault: Option<string>)
      returns (r: Result<Option<Archive>, GitError>)
      ensures fault.Some? ==> r == Err(Raw(fault.value))
      ensures fault.None? && (repoID, opts) in archives ==> r == Ok(Some(archives[(repoID, opts)]))
      ensures fault.None? && (repoID, opts) !in archives ==> r == Ok(None)
    {
      if fault.Some? {
        return Err(Raw(fault.value));
      }
      if (repoID, opts) in archives {
        return Ok(Some(archives[(repoID, opts)]));
      }
      return Ok(None);
    }

    /** NewTmpFile: hands out a new temporary file. */
    method NewTmpFile(fault: Option<string>) returns (r: Result<nat, GitError>)
      modifies this`tmpFiles
      ensures fault.Some? ==> r == Err(Raw(fault.value)) && tmpFiles == old(tmpFiles)
      ensures fault.None? ==> r == Ok(old(tmpFiles)) && tmpFiles == old(tmpFiles) + 1
    {
      if fault.Some? {
        return Err(Raw(fault.value));
      }
      r := Ok(tmpFiles);
      tmpFiles := tmpFiles + 1;
    }

    /** CreatePatchFile: publishes the temporary file under the key. */
    method CreatePatchFile(repoID: string, opts: PatchOptions, tmp: nat, desc: PatchDescriptor, fault: Option<string>)
      returns (r: Result<Patch, GitError>)
      modifies this`patches
      ensures fault.Some? ==> r == Err(Raw(fault.value)) && patches == old(patches)
      ensures fault.None? ==> r == Ok(Patch(tmp, desc)) && patches == old(patches)[(repoID, opts) := Patch(tmp, desc)]
    {
      if fault.Some? {
        return Err(Raw(fault.value));
      }
      patches := patches[(repoID, opts) := Patch(tmp, desc)];
      return Ok(Patch(tmp, desc));
    }

    /** CreateArchiveFile: publishes the temporary file under the key. */
    method CreateArchiveFile(repoID: string, opts: ArchiveOptions, tmp: nat, desc: ArchiveDescriptor, fault: Option<string>)
      returns (r: Result<Archive, GitError>)
      modifies this`archives
      ensures fault.Some? ==> r == Err(Raw(fault.value)) && archives == old(archives)
      ensures fault.None? ==> r == Ok(Archive(tmp, desc)) && archives == old(archives)[(repoID, opts) := Archive(tmp, desc)]
    {
      if fault.Some? {
        return Err(Raw(fault.value));
      }
      archives := archives[(repoID, opts) := Archive(tmp, desc)];
      return Ok(Archive(tmp, desc));
    }
  }

  // ---------------------------------------------------------------------------
  // Validation

  /**
   * The validation of createPatch: open the repository, then the `from` hash and
   * commit, then the `to` hash and commit, then look for submodules in `to`.
   * The result tells whether the submodule-aware routine is needed.
   */
  function PatchPlan(repo: Repo, repoPath: string, opts: PatchOptions): (r: Result<bool, GitError>)
    ensures repo.faults.open.Some? ==> r == Err(CannotOpenRepo(repoPath, repo.faults.open.value))
    ensures repo.faults.open.None? && ResolveCommit(repo, From, opts.fromCommit).Err? ==>
      r == Err(ResolveCommit(repo, From, opts.fromCommit).error)
    ensures (repo.faults.open.None? && ResolveCommit(repo, From, opts.fromCommit).Ok? &&
             ResolveCommit(repo, To, opts.toCommit).Err?) ==>
      r == Err(ResolveCommit(repo, To, opts.toCommit).error)
    ensures r.Ok? <==>
      repo.faults.open.None? && ResolveCommit(repo, From, opts.fromCommit).Ok? &&
      ResolveCommit(repo, To, opts.toCommit).Ok? && repo.commits[opts.toCommit].treeFault.None?
    ensures r.Ok? ==> (r.value <==> GitModulesFile in repo.commits[opts.toCommit].files)
  {
    if repo.faults.open.Some? then Err(CannotOpenRepo(repoPath, repo.faults.open.value))
    else
      match ResolveCommit(repo, From, opts.fromCommit)
      case Err(e) => Err(e)
      case Ok(_) =>
        match ResolveCommit(repo, To, opts.toCommit)
        case Err(e) => Err(e)
        case Ok(toCommit) => HasSubmodulesInCommit(toCommit)
  }

  /**
   * The validation shared by createArchive and withWorkTree: open the repository,
   * check the hash, load the commit, look for submodules in it.
   */
  function CommitPlan(repo: Repo, repoPath: string, commit: string): (r: Result<bool, GitError>)
    ensures repo.faults.open.Some? ==> r == Err(CannotOpenRepo(repoPath, repo.faults.open.value))
    ensures repo.faults.open.None? && ResolveCommit(repo, Target, commit).Err? ==>
      r == Err(ResolveCommit(repo, Target, commit).error)
    ensures r.Ok? <==>
      repo.faults.open.None? && ResolveCommit(repo, Target, commit).Ok? && repo.commits[commit].treeFault.None?
    ensures r.Ok? ==> (r.value <==> GitModulesFile in repo.commits[commit].files)
  {
    if repo.faults.open.Some? then Err(CannotOpenRepo(repoPath, repo.faults.open.value))
    else
      match ResolveCommit(repo, Target, commit)
      case Err(e) => Err(e)
      case Ok(c) => HasSubmodulesInCommit(c)
  }

  /** `to` has `.gitmodules`: the patch needs the submodule-aware routine, whatever `from` holds. */
  lemma SubmodulesAddedInTarget(repo: Repo, repoPath: string, opts: PatchOptions)
    requires repo.faults.open.None? && opts.fromCommit in repo.commits && opts.toCommit in repo.commits
    requires IsHash(opts.fromCommit) && IsHash(opts.toCommit)
    requires opts.fromCommit !in repo.faults.objects && opts.toCommit !in repo.faults.objects
    requires repo.commits[opts.toCommit].treeFault.None?
    requires GitModulesFile in repo.commits[opts.toCommit].files
    ensures PatchPlan(repo, repoPath, opts) == Ok(true)
  {
  }

  // ---------------------------------------------------------------------------
  // Generation

  function TruePatchOptionsOf(opts: PatchOptions): TruePatchOptions {
    TruePatchOptions(
      opts.fromCommit, opts.toCommit,
      GitMappingPathMatcher(opts.basePath, opts.includePaths, opts.excludePaths, false),
      opts.withEntireFileContext, opts.withBinary)
  }

  function TrueArchiveOptionsOf(opts: ArchiveOptions): TrueArchiveOptions {
    TrueArchiveOptions(opts.commit, GitMappingPathMatcher(opts.basePath, opts.includePaths, opts.excludePaths, true))
  }

  /** What the routine createPatch selects produces: submodule-aware exactly when `to` has submodules. */
  function GeneratePatch(routines: PatchRoutines, hasSubmodules: bool, opts: PatchOptions): Result<PatchDescriptor, string> {
    if hasSubmodules then routines.withSubmodules(TruePatchOptionsOf(opts)) else routines.plain(TruePatchOptionsOf(opts))
  }

  /** What the routine createArchive selects produces: submodule-aware exactly when the commit has submodules. */
  function GenerateArchive(routines: ArchiveRoutines, hasSubmodules: bool, opts: ArchiveOptions): Result<ArchiveDescriptor, string> {
    if hasSubmodules then routines.withSubmodules(TrueArchiveOptionsOf(opts)) else routines.plain(TrueArchiveOptionsOf(opts))
  }

  /**
   * createPatch. A cache hit is returned as is and a cache error fails, both
   * without touching the repository; a miss validates `from` then `to`, creates a
   * temporary file only once both passed, runs the selected routine and registers
   * its result under the same key.
   */
  method CreatePatch(
    cache: GitDataManager, repo: Repo, repoPath: string, repoID: string, opts: PatchOptions,
    cacheIo: CacheIo, fileIo: TmpFileIo, routines: PatchRoutines)
    returns (r: Result<Patch, GitError>)
    modifies cache
    ensures cache.archives == old(cache.archives)
    ensures cacheIo.get.Some? ==> r == Err(Raw(cacheIo.get.value)) && unchanged(cache)
    ensures cacheIo.get.None? && (repoID, opts) in old(cache.patches) ==>
      r == Ok(old(cache.patches)[(repoID, opts)]) && unchanged(cache)
    ensures cacheIo.get.None? && (repoID, opts) !in old(cache.patches) && PatchPlan(repo, repoPath, opts).Err? ==>
      r == Err(PatchPlan(repo, repoPath, opts).error) && unchanged(cache)
    ensures cacheIo.get.None? && (repoID, opts) !in old(cache.patches) && PatchPlan(repo, repoPath, opts).Ok? ==>
      var gen := GeneratePatch(routines, PatchPlan(repo, repoPath, opts).value, opts);
      && (fileIo.create.Some? ==> r == Err(Raw(fileIo.create.value)) && unchanged(cache))
      && (fileIo.create.None? ==> cache.tmpFiles == old(cache.tmpFiles) + 1)
      && (fileIo.create.None? && fileIo.open.Some? ==> r == Err(CannotOpenPatchFile(old(cache.tmpFiles), fileIo.open.value)))
      && (fileIo.create.None? && fileIo.open.None? && gen.Err? ==>
            r == Err(CannotCreatePatch(opts.fromCommit, opts.toCommit, gen.error)))
      && (fileIo.create.None? && fileIo.open.None? && gen.Ok? && fileIo.close.Some? ==>
            r == Err(CannotClosePatchFile(old(cache.tmpFiles), fileIo.close.value)))
      && (fileIo.create.None? && fileIo.open.None? && gen.Ok? && fileIo.close.None? && cacheIo.put.Some? ==>
            r == Err(Raw(cacheIo.put.value)))
      && (r.Ok? <==> fileIo.create.None? && fileIo.open.None? && gen.Ok? && fileIo.close.None? && cacheIo.put.None?)
      && (r.Ok? ==> r.value == Patch(old(cache.tmpFiles), gen.value) &&
                    cache.patches == old(cache.patches)[(repoID, opts) := r.value])
      && (r.Err? ==> cache.patches == old(cache.patches))
  {
    var cached := cache.GetPatchFile(repoID, opts, cacheIo.get);
    if cached.Err? {
      return Err(cached.error);
    } else if cached.value.Some? {
      return Ok(cached.value.value);
    }

    if repo.faults.open.Some? {
      return Err(CannotOpenRepo(repoPath, repo.faults.open.value));
    }
    var from := ResolveCommit(repo, From, opts.fromCommit);
    if from.Err? {
      return Err(from.error);
    }
    var to := ResolveCommit(repo, To, opts.toCommit);
    if to.Err? {
      return Err(to.error);
    }
    var hasSubmodules := HasSubmodulesInCommit(to.value);
    if hasSubmodules.Err? {
      return Err(hasSubmodules.error);
    }

    var tmpFile := cache.NewTmpFile(fileIo.create);
    if tmpFile.Err? {
      return Err(tmpFile.error);
    }
    if fileIo.open.Some? {
      return Err(CannotOpenPatchFile(tmpFile.value, fileIo.open.value));
    }

    var desc: Result<PatchDescriptor, string>;
    if hasSubmodules.value {
      desc := routines.withSubmodules(TruePatchOptionsOf(opts));
    } else {
      desc := routines.plain(TruePatchOptionsOf(opts));
    }
    if desc.Err? {
      return Err(CannotCreatePatch(opts.fromCommit, opts.toCommit, desc.error));
    }

    if fileIo.close.Some? {
      return Err(CannotClosePatchFile(tmpFile.value, fileIo.close.value));
    }

    r := cache.CreatePatchFile(repoID, opts, tmpFile.value, desc.value, cacheIo.put);
  }

  /**
   * createArchive: the same cache-then-compute flow for one commit's filtered
   * tree, with a greedy path matcher.
   */
  method CreateArchive(
    cache: GitDataManager, repo: Repo, repoPath: string, repoID: string, opts: ArchiveOptions,
    cacheIo: CacheIo, fileIo: TmpFileIo, routines: ArchiveRoutines)
    returns (r: Result<Archive, GitError>)
    modifies cache
    ensures cache.patches == old(cache.patches)
    ensures cacheIo.get.Some? ==> r == Err(Raw(cacheIo.get.value)) && unchanged(cache)
    ensures cacheIo.get.None? && (repoID, opts) in old(cache.archives) ==>
      r == Ok(old(cache.archives)[(repoID, opts)]) && unchanged(cache)
    ensures cacheIo.get.None? && (repoID, opts) !in old(cache.archives) && CommitPlan(repo, repoPath, opts.commit).Err? ==>
      r == Err(CommitPlan(repo, repoPath, opts.commit).error) && unchanged(cache)
    ensures cacheIo.get.None? && (repoID, opts) !in old(cache.archives) && CommitPlan(repo, repoPath, opts.commit).Ok? ==>
      var gen := GenerateArchive(routines, CommitPlan(repo, repoPath, opts.commit).value, opts);
      && (fileIo.create.Some? ==> r == Err(Raw(fileIo.create.value)) && unchanged(cache))
      && (fileIo.create.None? ==> cache.tmpFiles == old(cache.tmpFiles) + 1)
      && (fileIo.create.None? && fileIo.open.Some? ==> r == Err(CannotOpenArchiveFile(fileIo.open.value)))
      && (fileIo.create.None? && fileIo.open.None? && gen.Err? ==>
            r == Err(CannotCreateArchive(opts.commit, gen.error)))
      && (fileIo.create.None? && fileIo.open.None? && gen.Ok? && fileIo.close.Some? ==>
            r == Err(CannotCloseArchiveFile(old(cache.tmpFiles), fileIo.close.value)))
      && (fileIo.create.None? && fileIo.open.None? && gen.Ok? && fileIo.close.None? && cacheIo.put.Some? ==>
            r == Err(Raw(cacheIo.put.value)))
      && (r.Ok? <==> fileIo.create.None? && fileIo.open.None? && gen.Ok? && fileIo.close.None? && cacheIo.put.None?)
      && (r.Ok? ==> r.value == Archive(old(cache.tmpFiles), gen.value) &&
                    cache.archives == old(cache.archives)[(repoID, opts) := r.value])
      && (r.Err? ==> cache.archives == old(cache.archives))
  {
    var cached := cache.GetArchiveFile(repoID, opts, cacheIo.get);
    if cached.Err? {
      return Err(cached.error);
    } else if cached.value.Some? {
      return Ok(cached.value.value);
    }

    if repo.faults.open.Some? {
      return Err(CannotOpenRepo(repoPath, repo.faults.open.value));
    }
    var commit := ResolveCommit(repo, Target, opts.commit);
    if commit.Err? {
      return Err(commit.error);
    }
    var hasSubmodules := HasSubmodulesInCommit(commit.value);
    if hasSubmodules.Err? {
      return Err(hasSubmodules.error);
    }

    var tmpPath := cache.NewTmpFile(fileIo.create);
    if tmpPath.Err? {
      return Err(tmpPath.error);
    }
    if fileIo.open.Some? {
      return Err(CannotOpenArchiveFile(fileIo.open.value));
    }

    var desc: Result<ArchiveDescriptor, string>;
    if hasSubmodules.value {
      desc := routines.withSubmodules(TrueArchiveOptionsOf(opts));
    } else {
      desc := routines.plain(TrueArchiveOptionsOf(opts));
    }
    if desc.Err? {
      return Err(CannotCreateArchive(opts.commit, desc.error));
    }

    if fileIo.close.Some? {
      return Err(CannotCloseArchiveFile(tmpPath.value, fileIo.close.value));
    }

    r := cache.CreateArchiveFile(repoID, opts, tmpPath.value, desc.value, cacheIo.put);
  }
}
