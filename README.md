# werf build core, modelled in Dafny

This project models three parts of werf, the Git-based build and deploy tool:

- **The Git content provider** of `pkg/git_repo/base.go`. It reads a repository through go-git and the git command line. Its operations are:
  - the origin URL, emptiness, the HEAD commit;
  - merge-commit parents, commit existence;
  - tag and remote-branch listings;
  - cached patch and archive creation;
  - the submodule probe, and the validation done before a worktree is prepared;
  - the per-path checksum fold over an ls-tree listing.
- **The stage image** of `pkg/container_runtime/stage_image.go`. It is built either by running a container and committing it under a cross-process lock, or by an attached Dockerfile builder. It is then tagged, pulled, pushed, imported and exported with the docker command line.
- **The artifact-import stage** of `pkg/build/stage/artifact_import_after_install.go`. It is created only when some artifact is imported after the `install` stage.

## How the model works

A repository is a value, `GitObjects.Repo`. It holds:

- commits, references, tag objects and remotes;
- a `Faults` record saying which library or command-line call fails, and with what message.

Routines the code calls but that are not modelled are parameters: true_git's patch and archive routines, and ls-tree's listing, sub-listing and checksum. So are I/O outcomes: the data-manager cache, the temporary file, docker, and the lock.

Go's "return the first error" loops are modelled with `Folds.MapAbort`, an ordered map that stops at the first failure. The loops of `TagsList` and `ChecksumWithLsTree` are proved against it; the other loops (`GetHeadCommit`, `GetMergeCommitParents`, `RemoteBranchesList`) are proved against their own contracts or listing functions.

The SHA-256 hasher of the checksum is modelled as the sequence of strings written to it.

`StageImage` is a class. Its fields are the build image, the Dockerfile builder, the lock flag, the build container, the inspect data, the local image names, and `log`, the ordered list of lock, container and docker operations performed. Every method states its new `log`, so ordering, cleanup and "nothing else happens" are part of the contracts.

The modules:

- `Wrappers`: Option and Result.
- `Strings`: HasPrefix and TrimPrefix.
- `Folds`: the first-error walk.
- `GitObjects`: the repository, and commit resolution.
- `GitRepo`: queries.
- `GitContent`: patches, archives and the data-manager cache.
- `GitChecksum`: the checksum fold.
- `ContainerRuntime`: the stage image.
- `Stage`: the artifact-import stage.

## Model

| member | source | states |
|---|---|---|
| Folds.MapAbortFirstError | pkg/git_repo/base.go:339-355 | a ForEach walk fails exactly when some element's callback fails, and it then returns the error of the first failing element, with every earlier element succeeding |
| Folds.MapAbortOkElements | pkg/git_repo/base.go:339-355 | a walk that succeeds yields, position by position, the value the callback gave each element |
| Folds.MapAbortPrefixErr | pkg/git_repo/base.go:339-355 | once a prefix of the walk failed, nothing after it changes the result |
| GitObjects.ResolveCommit | pkg/git_repo/base.go:111-129 | a reference resolves iff it is a 40-hex-digit hash whose commit object loads; a malformed hash and a failed load give distinct errors naming the side (`from`, `to` or the target) and the reference |
| GitObjects.HasSubmodulesInCommit | pkg/git_repo/base.go:182-191 | true iff `.gitmodules` is in the commit's tree, false iff the tree is readable and lacks it, and an error (never false) iff reading the tree fails |
| GitRepo.RemoteOriginUrl | pkg/git_repo/base.go:37-53 | open and config failures are reported in that order; with no `origin` remote the URL is empty with no error, otherwise it is the first URL of the origin remote |
| GitRepo.IsEmpty | pkg/git_repo/base.go:55-74 | succeeds iff the repository opens and the commit iterator works, and is then true iff the repository has no commit |
| GitRepo.GetHeadCommit | pkg/git_repo/base.go:76-89 | a show-ref failure is returned; otherwise the commit of the first ref flagged HEAD, or the empty string with no error when none is |
| GitRepo.GetMergeCommitParents | pkg/git_repo/base.go:214-235 | after opening and resolving the commit, the parent hashes in the same order and of the same number as the commit object's |
| GitRepo.IsCommitExists | pkg/git_repo/base.go:307-326 | a malformed hash is an error; true iff the commit loads; false iff the object is reported not found; any other load failure is an error, not false |
| GitRepo.TagRefs | pkg/git_repo/base.go:333-336 | the tag iterator yields only `refs/tags/` references, never more than there are refs |
| GitRepo.TagRefsMembership | pkg/git_repo/base.go:333-336 | a reference is iterated as a tag iff it is one of the references and is under `refs/tags/`: none is missing and none is invented |
| GitRepo.TagRefsAppend | pkg/git_repo/base.go:333-336 | the tag iteration keeps reference order: it distributes over concatenation of reference lists |
| GitRepo.TagName | pkg/git_repo/base.go:341-352 | an annotated tag contributes its tag object's name, a lightweight tag its ref name without `refs/tags/`, and any other lookup failure is an error |
| GitRepo.TagsList | pkg/git_repo/base.go:328-359 | open and iterator failures are reported; otherwise the result is the first-error walk of the tag names over the tag refs |
| GitRepo.TagsListEntries | pkg/git_repo/base.go:339-358 | a successful listing has one name per tag ref, in ref order, each being that ref's tag name |
| GitRepo.TagsListFirstError | pkg/git_repo/base.go:339-355 | a failed listing returns the error of the first tag whose object lookup failed other than by not-found |
| GitRepo.AnnotatedAndLightweightTags | pkg/git_repo/base.go:341-349 | an annotated `v1` and a lightweight `v2` are listed as `["v1", "v2"]` |
| GitRepo.RemoteBranchesList | pkg/git_repo/base.go:361-390 | open and iterator failures are reported; otherwise the remote branch names of the refs, in ref order |
| GitRepo.RemoteBranchesMembership | pkg/git_repo/base.go:375-384 | a name is listed iff some ref is `refs/remotes/origin/` followed by it and it is not `HEAD` |
| GitRepo.RemoteBranchesAppend | pkg/git_repo/base.go:375-386 | the listing keeps ref order: the listing of two ref lists joined is the two listings joined |
| GitContent.GitDataManager.GetPatchFile | pkg/git_repo/base.go:100-104 | the cached patch for (repository id, options), none on a miss, or the lookup's error |
| GitContent.GitDataManager.GetArchiveFile | pkg/git_repo/base.go:238-242 | the cached archive for (repository id, options), none on a miss, or the lookup's error |
| GitContent.GitDataManager.NewTmpFile | pkg/git_repo/base.go:264-267 | a fresh temporary file is handed out, and none on failure |
| GitContent.GitDataManager.CreatePatchFile | pkg/git_repo/base.go:174-179 | a published patch is stored under its key and returned; on failure the cache is unchanged |
| GitContent.GitDataManager.CreateArchiveFile | pkg/git_repo/base.go:300-304 | a published archive is stored under its key and returned; on failure the cache is unchanged |
| GitContent.PatchPlan | pkg/git_repo/base.go:106-134 | open, `from` hash and commit, and `to` hash and commit are checked in that order, the first failure being the error; on success the result says whether `to` has `.gitmodules` |
| GitContent.CommitPlan | pkg/git_repo/base.go:462-479 | open, hash and commit are checked in that order before any worktree; on success the result says whether the commit has `.gitmodules` |
| GitContent.SubmodulesAddedInTarget | pkg/git_repo/base.go:126-134 | submodules are detected in the `to` commit, whatever the `from` commit holds |
| GitContent.CreatePatch | pkg/git_repo/base.go:99-180 | a cache error or hit returns at once with the cache unchanged; a validation failure creates no temporary file; otherwise it generates with the submodule-aware routine iff `to` has `.gitmodules`, and succeeds iff file, generation, close and publication all succeed, in which case the patch is cached under its key |
| GitContent.CreateArchive | pkg/git_repo/base.go:237-305 | the same for archives, with the greedy path matcher and the target commit's submodules |
| GitChecksum.ChecksumWithLsTree | pkg/git_repo/base.go:392-460 | validation, worktree and main-listing failures are reported; otherwise the result is the per-path fold: each path's non-empty sub-listing checksum is written to the hash, the others are recorded as matching nothing, and the first sub-listing error aborts |
| GitChecksum.EveryPathOneWay | pkg/git_repo/base.go:441-447 | every path goes exactly one way: hash entries and no-match paths together number the paths |
| GitChecksum.WrittenAreNonEmpty | pkg/git_repo/base.go:431-447 | the hash receives exactly the non-empty checksums, never an empty string |
| GitChecksum.NoMatchMembership | pkg/git_repo/base.go:441-447 | a path is reported as matching nothing iff its sub-listing had an empty checksum |
| GitChecksum.NoMatchIsSubsequence | pkg/git_repo/base.go:420-447 | the no-match paths keep the configured order |
| GitChecksum.HashInputIsSubsequence | pkg/git_repo/base.go:420-447 | the hash input is an order-preserving subsequence of the per-path checksums |
| GitChecksum.WrittenAppend | pkg/git_repo/base.go:441-447 | the hash input of consecutive paths is their hash inputs one after the other, so every non-empty checksum is written once per path, in path order |
| GitChecksum.NoMatchAppend | pkg/git_repo/base.go:441-447 | the no-match list of consecutive paths is their no-match lists one after the other, so every empty-checksum path is listed once per occurrence, in path order |
| GitChecksum.SinglePath | pkg/git_repo/base.go:431-447 | one path contributes its checksum to the hash iff it is non-empty, and itself to the no-match list iff its checksum is empty |
| GitChecksum.ChecksumAccountsForEveryPath | pkg/git_repo/base.go:420-456 | a computed checksum accounts for every path, keeps path order in the no-match list, writes nothing empty, and each position's checksum is that path's own |
| ContainerRuntime.StageImage.constructor | pkg/container_runtime/stage_image.go:25-31 | a new stage image has no build image, no builder, no container, no inspect data and the lock free |
| ContainerRuntime.StageImage.GetID | pkg/container_runtime/stage_image.go:45-51 | the committed image once there is one, otherwise the stages-storage image id |
| ContainerRuntime.StageImage.GetBuiltId | pkg/container_runtime/stage_image.go:177-183 | the builder's id or error when a builder is attached, otherwise the committed image |
| ContainerRuntime.StageImage.Build | pkg/container_runtime/stage_image.go:53-123 | with a builder, only the builder runs; a failed lock runs nothing; otherwise the log is lock, run, the steps, unlock, on every path; a successful run commits, removes and inspects in order, a failure stopping the rest, and only full success stores inspect data and stages-storage info; a run error from inside the container is introspected (before-error taking precedence, after-error committing first), then the container is removed and the run error returned, any failure there being returned as an introspection failure; any other run error is returned with no removal |
| ContainerRuntime.StageImage.FinishRun | pkg/container_runtime/stage_image.go:105-120 | commit, removal and inspection in that order, each failure stopping the rest |
| ContainerRuntime.StageImage.HandleRunFailure | pkg/container_runtime/stage_image.go:77-103 | the introspection precedence, the removal, and which error is returned |
| ContainerRuntime.StageImage.RunContainer | pkg/container_runtime/stage_image.go:77 | the run creates the build container and its error is reported |
| ContainerRuntime.StageImage.RemoveContainer | pkg/container_runtime/stage_image.go:109-111 | the container is gone iff the removal succeeds |
| ContainerRuntime.StageImage.Commit | pkg/container_runtime/stage_image.go:125-134 | a successful commit makes the committed image the build image; a failed one changes nothing |
| ContainerRuntime.StageImage.Introspect | pkg/container_runtime/stage_image.go:136-142 | the session's error is returned |
| ContainerRuntime.StageImage.IntrospectBefore | pkg/container_runtime/stage_image.go:144-150 | the session's error is returned |
| ContainerRuntime.StageImage.TagBuiltImage | pkg/container_runtime/stage_image.go:185-191 | a built-id failure is returned with no tag; otherwise the built image is tagged with the stage's own name |
| ContainerRuntime.StageImage.Tag | pkg/container_runtime/stage_image.go:193-195 | the stage's image (GetID) gets the given name |
| ContainerRuntime.StageImage.Pull | pkg/container_runtime/stage_image.go:197-205 | the inspect data is dropped only when the pull succeeds |
| ContainerRuntime.StageImage.Push | pkg/container_runtime/stage_image.go:207-209 | pushes the stage's name and returns the push error |
| ContainerRuntime.StageImage.Import | pkg/container_runtime/stage_image.go:211-229 | pull, tag with the stage's name, rmi, in that order, the first failure stopping the rest |
| ContainerRuntime.StageImage.Export | pkg/container_runtime/stage_image.go:231-254 | a failed tag stops everything; once tagged, the push is followed by the untag whether or not the push succeeded, and the push's error is returned, an untag failure being only logged |
| ContainerRuntime.StageImage.DockerfileImageBuilder | pkg/container_runtime/stage_image.go:256-261 | the builder is created on first use and the same one is returned afterwards |
| Stage.AfterInstall | pkg/build/stage/artifact_import_after_install.go:6 | the selection asks for imports anchored after `install` |
| Stage.NewArtifactImportAfterInstallStage | pkg/build/stage/artifact_import_after_install.go:14-18 | the stage's base holds exactly the given imports |
| Stage.GenerateArtifactImportAfterInstallStage | pkg/build/stage/artifact_import_after_install.go:5-12 | no stage iff the selection is empty, otherwise a stage holding exactly the selection |
| Stage.GeneratedStageIsAfterInstall | pkg/build/stage/artifact_import_after_install.go:5-26 | the generated stage depends only on the imports selected after `install`, is never empty, and is named `after_install_artifact` |
| Stage.ArtifactImportAfterInstallStage.Name | pkg/build/stage/artifact_import_after_install.go:24-26 | every after-install artifact stage is named `after_install_artifact` |

## Left out

- Several base.go functions are not part of this model:
  - `createDetachedMergeCommit` only validates and delegates to true_git.
  - `HeadCommit`, `LatestBranchCommit` and `TagCommit` only panic "not implemented".
  - `String` and `GetName` are accessors.
- The internals of true_git (patch, archive, worktree), ls-tree and the Dockerfile builder are parameters: function values or outcomes. Their results are taken as given.
- The SHA-256 computation is not modelled. The hash is the sequence of strings written to it.
- Temporary file names and file contents are not modelled. A temporary file is a number handed out by the data manager.
- `newHash` is not part of this model. A well-formed commit reference is taken to be 40 hexadecimal digits.
- Error messages are structured values, with one constructor per message and the message's arguments (a temporary file is named by its number). The formatted text is not modelled. A callee's error returned unchanged is `Raw` or `Docker`.
- `getMergeCommitParents` opens `gitDir` and words its errors without backquotes. The model reports those errors with the same constructors as the other operations.
- Cancellation contexts, logging, the `WERF_DEBUG_DOCKER_RUN_COMMAND` debug output, docker retry policies, interactive introspection sessions and the cross-process semantics of shluz locks are not modelled. The lock is a held flag plus `Lock`/`Unlock` entries in the log.
- `ContainerRuntime.StageImage.Build`: a failed run is taken to leave the build container in place. Whether docker created it is not modelled.
- `GitRepo.RemoteOriginUrl` requires a configured `origin` to have at least one URL. The code indexes `URLs[0]` and would panic otherwise.
- `ContainerRuntime.StageImage.GetBuiltId` requires a builder or a committed image. The code dereferences a nil build image otherwise.
- `ContainerRuntime.StageImage.GetID`, `Tag` and `Export` require a committed image or stages-storage info. The code dereferences nil otherwise.
- `ContainerRuntime.StageImage.Import` takes the imported image's stages-storage id as a parameter, `importedId`.
- `ContainerRuntime.StageImage.TagBuiltImage` takes a `name` argument and ignores it, as the code does.
- `Stage.GenerateArtifactImportAfterInstallStage` takes the import selection `getImports` as a function parameter. How imports are matched to anchors is not modelled.
- The other `StageImage` accessors (`Inspect`, `BuilderContainer`, `Container`, `MustResetInspect`, `GetInspect`, `MustGetBuiltId`) are not modelled. They only read fields or delegate to the base image.
