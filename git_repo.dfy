/**
 * The listing and decision operations of the git repository base
 * (pkg/git_repo/base.go): origin URL, emptiness, HEAD commit, commit existence,
 * merge-commit parents, tag and remote-branch listings.
 */
module GitRepo {
  import opened Wrappers
  import opened GitObjects
  import opened Strings
  import opened Folds

  const OriginRemote := "origin"
  const TagRefPrefix := "refs/tags/"
  const RemoteBranchPrefix := "refs/remotes/origin/"
  const RemoteHeadName := "HEAD"

  // ---------------------------------------------------------------------------
  // Decisions

  /**
   * remoteOriginUrl: the first URL of the `origin` remote, or "" when there is no
   * such remote, which is not an error. The source indexes the URL list without a
   * check, so a configured origin must carry at least one URL.
   */
  function RemoteOriginUrl(repo: Repo, repoPath: string): (r: Result<string, GitError>)
    requires OriginRemote in repo.remotes ==> |repo.remotes[OriginRemote]| > 0
    ensures repo.faults.open.Some? ==> r == Err(CannotOpenRepo(repoPath, repo.faults.open.value))
    ensures repo.faults.open.None? && repo.faults.config.Some? ==>
      r == Err(CannotAccessConfig(repo.faults.config.value))
    ensures r.Ok? <==> repo.faults.open.None? && repo.faults.config.None?
    ensures r.Ok? && OriginRemote !in repo.remotes ==> r.value == ""
    ensures r.Ok? && OriginRemote in repo.remotes ==> r.value == repo.remotes[OriginRemote][0]
  {
    if repo.faults.open.Some? then Err(CannotOpenRepo(repoPath, repo.faults.open.value))
    else if repo.faults.config.Some? then Err(CannotAccessConfig(repo.faults.config.value))
    else if OriginRemote in repo.remotes then Ok(repo.remotes[OriginRemote][0])
    else Ok("")
  }

  /** isEmpty: true exactly when the object store holds no commit at all. */
  function IsEmpty(repo: Repo, repoPath: string): (r: Result<bool, GitError>)
    ensures repo.faults.open.Some? ==> r == Err(CannotOpenRepo(repoPath, repo.faults.open.value))
    ensures r.Ok? <==> repo.faults.open.None? && repo.faults.commitIter.None?
    ensures r.Ok? ==> (r.value <==> forall h :: h !in repo.commits)
  {
    if repo.faults.open.Some? then Err(CannotOpenRepo(repoPath, repo.faults.open.value))
    else if repo.faults.commitIter.Some? then Err(Raw(repo.faults.commitIter.value))
    else if repo.commits == map[] then Ok(true)
    else
      assert exists h :: h in repo.commits;
      Ok(false)
  }

  /**
   * isCommitExists: a missing object is `false` without error, a loaded commit is
   * `true`, and a malformed hash or any other load failure is an error.
   */
  function IsCommitExists(repo: Repo, repoPath: string, commit: string): (r: Result<bool, GitError>)
    ensures repo.faults.open.Some? ==> r == Err(CannotOpenRepo(repoPath, repo.faults.open.value))
    ensures repo.faults.open.None? && !IsHash(commit) ==> r == Err(BadCommitHash(Target, commit))
    ensures r == Ok(true) <==>
      repo.faults.open.None? && IsHash(commit) && commit !in repo.faults.objects && commit in repo.commits
    ensures r == Ok(false) <==>
      repo.faults.open.None? && IsHash(commit) && commit !in repo.faults.objects && commit !in repo.commits
  {
    if repo.faults.open.Some? then Err(CannotOpenRepo(repoPath, repo.faults.open.value))
    else if !IsHash(commit) then Err(BadCommitHash(Target, commit))
    else
      match CommitObject(repo, commit)
      case Found(_) => Ok(true)
      case NotFound => Ok(false)
      case Failed(e) => Err(BadCommit(Target, commit, e))
  }

  // ---------------------------------------------------------------------------
  // HEAD and merge parents

  /** `i` is the first reference show-ref flags as HEAD. */
  predicate IsFirstHead(refs: seq<Ref>, i: int) {
    0 <= i < |refs| && refs[i].isHead && forall j :: 0 <= j < i ==> !refs[j].isHead
  }

  /**
   * getHeadCommit: the commit of the first reference flagged HEAD; when there is
   * none, the empty string and no error.
   */
  method GetHeadCommit(repo: Repo) returns (r: Result<string, GitError>)
    ensures repo.faults.showRef.Some? ==> r == Err(Raw(repo.faults.showRef.value))
    ensures repo.faults.showRef.None? ==> r.Ok?
    ensures r.Ok? ==>
      (exists i :: IsFirstHead(repo.refs, i) && r.value == repo.refs[i].hash) ||
      (r.value == "" && forall i :: 0 <= i < |repo.refs| ==> !repo.refs[i].isHead)
  {
    if repo.faults.showRef.Some? {
      return Err(Raw(repo.faults.showRef.value));
    }
    var refs := repo.refs;
    var i := 0;
    while i < |refs|
      invariant 0 <= i <= |refs|
      invariant forall j :: 0 <= j < i ==> !refs[j].isHead
    {
      if refs[i].isHead {
        assert IsFirstHead(refs, i);
        return Ok(refs[i].hash);
      }
      i := i + 1;
    }
    return Ok("");
  }

  /** getMergeCommitParents: the commit's parent hashes, same number and same order. */
  method GetMergeCommitParents(repo: Repo, gitDir: string, commit: string) returns (r: Result<seq<string>, GitError>)
    ensures repo.faults.open.Some? ==> r == Err(CannotOpenRepo(gitDir, repo.faults.open.value))
    ensures repo.faults.open.None? && ResolveCommit(repo, Target, commit).Err? ==>
      r == Err(ResolveCommit(repo, Target, commit).error)
    ensures r.Ok? <==> repo.faults.open.None? && ResolveCommit(repo, Target, commit).Ok?
    ensures r.Ok? ==>
      |r.value| == |repo.commits[commit].parents| &&
      forall i :: 0 <= i < |r.value| ==> r.value[i] == repo.commits[commit].parents[i]
  {
    if repo.faults.open.Some? {
      return Err(CannotOpenRepo(gitDir, repo.faults.open.value));
    }
    var resolved := ResolveCommit(repo, Target, commit);
    if resolved.Err? {
      return Err(resolved.error);
    }
    var parents := resolved.value.parents;
    var res: seq<string> := [];
    var i := 0;
    while i < |parents|
      invariant 0 <= i <= |parents|
      invariant |res| == i
      invariant forall j :: 0 <= j < i ==> res[j] == parents[j]
    {
      res := res + [parents[i]];
      i := i + 1;
    }
    return Ok(res);
  }

  // ---------------------------------------------------------------------------
  // Tags

  predicate IsTagRef(ref: Ref) {
    HasPrefix(ref.name, TagRefPrefix)
  }

  /** repository.Tags(): the tag references, in reference order. */
  function TagRefs(refs: seq<Ref>): (r: seq<Ref>)
    ensures forall i :: 0 <= i < |r| ==> IsTagRef(r[i])
    ensures |r| <= |refs|
  {
    if refs == [] then []
    else TagRefs(refs[..|refs| - 1]) + (if IsTagRef(refs[|refs| - 1]) then [refs[|refs| - 1]] else [])
  }

  /** A reference is iterated as a tag exactly when it is one of the references and a tag reference. */
  lemma {:induction false} TagRefsMembership(refs: seq<Ref>, ref: Ref)
    ensures ref in TagRefs(refs) <==> ref in refs && IsTagRef(ref)
  {
    if refs != [] {
      var init := refs[..|refs| - 1];
      TagRefsMembership(init, ref);
      assert refs == init + [refs[|refs| - 1]];
    }
  }

  /** The tag iteration preserves reference order: it distributes over concatenation of reference lists. */
  lemma {:induction false} TagRefsAppend(a: seq<Ref>, b: seq<Ref>)
    ensures TagRefs(a + b) == TagRefs(a) + TagRefs(b)
  {
    if b == [] {
      assert a + b == a;
    } else {
      var init := b[..|b| - 1];
      TagRefsAppend(a, init);
      assert (a + b)[..|a + b| - 1] == a + init;
      assert (a + b)[|a + b| - 1] == b[|b| - 1];
    }
  }

  /**
   * The entry tagsList emits for one tag reference: an annotated tag's own name;
   * for a lightweight tag (no tag object) the reference name without `refs/tags/`;
   * any other failure aborts with that error.
   */
  function TagName(repo: Repo, ref: Ref): (r: Result<string, GitError>)
    ensures ref.hash in repo.faults.objects ==> r == Err(Raw(repo.faults.objects[ref.hash]))
    ensures ref.hash !in repo.faults.objects && ref.hash in repo.tags ==> r == Ok(repo.tags[ref.hash].name)
    ensures ref.hash !in repo.faults.objects && ref.hash !in repo.tags ==>
      r == Ok(TrimPrefix(ref.name, TagRefPrefix))
  {
    match TagObjectOf(repo, ref.hash)
    case Found(obj) => Ok(obj.name)
    case NotFound => Ok(TrimPrefix(ref.name, TagRefPrefix))
    case Failed(e) => Err(Raw(e))
  }

  function TagNameIn(repo: Repo): Ref -> Result<string, GitError> {
    ref => TagName(repo, ref)
  }

  /** tagsList: one entry per tag reference, in order; the first lookup failure aborts. */
  method TagsList(repo: Repo, repoPath: string) returns (r: Result<seq<string>, GitError>)
    ensures repo.faults.open.Some? ==> r == Err(CannotOpenRepo(repoPath, repo.faults.open.value))
    ensures repo.faults.open.None? && repo.faults.refIter.Some? ==> r == Err(Raw(repo.faults.refIter.value))
    ensures repo.faults.open.None? && repo.faults.refIter.None? ==>
      r == MapAbort(TagRefs(repo.refs), TagNameIn(repo))
  {
    if repo.faults.open.Some? {
      return Err(CannotOpenRepo(repoPath, repo.faults.open.value));
    }
    if repo.faults.refIter.Some? {
      return Err(Raw(repo.faults.refIter.value));
    }
    var tags := TagRefs(repo.refs);
    var res: seq<string> := [];
    var i := 0;
    while i < |tags|
      invariant 0 <= i <= |tags|
      invariant MapAbort(tags[..i], TagNameIn(repo)) == Ok(res)
    {
      MapAbortStep(tags, TagNameIn(repo), i);
      var ref := tags[i];
      match TagObjectOf(repo, ref.hash) {
        case Found(obj) =>
          res := res + [obj.name];
        case NotFound =>
          res := res + [TrimPrefix(ref.name, TagRefPrefix)];
        case Failed(e) =>
          MapAbortPrefixErr(tags, TagNameIn(repo), i + 1);
          return Err(Raw(e));
      }
      i := i + 1;
    }
    assert tags[..i] == tags;
    return Ok(res);
  }

  /**
   * What a successful tag listing holds: as many entries as tag references, each
   * the annotated tag's name or, for a lightweight tag, the trimmed reference name.
   */
  lemma TagsListEntries(repo: Repo, names: seq<string>)
    requires MapAbort(TagRefs(repo.refs), TagNameIn(repo)) == Ok(names)
    ensures |names| == |TagRefs(repo.refs)|
    ensures forall i :: 0 <= i < |names| ==>
      var ref := TagRefs(repo.refs)[i];
      ref.hash !in repo.faults.objects &&
      names[i] == (if ref.hash in repo.tags then repo.tags[ref.hash].name else TrimPrefix(ref.name, TagRefPrefix))
  {
    MapAbortOkElements(TagRefs(repo.refs), TagNameIn(repo));
  }

  /** A failed tag listing fails with the error of the first tag reference whose lookup failed. */
  lemma TagsListFirstError(repo: Repo)
    requires MapAbort(TagRefs(repo.refs), TagNameIn(repo)).Err?
    ensures exists i :: (0 <= i < |TagRefs(repo.refs)| &&
      TagRefs(repo.refs)[i].hash in repo.faults.objects &&
      MapAbort(TagRefs(repo.refs), TagNameIn(repo)).error == Raw(repo.faults.objects[TagRefs(repo.refs)[i].hash]) &&
      forall j :: 0 <= j < i ==> TagRefs(repo.refs)[j].hash !in repo.faults.objects)
  {
    var tags := TagRefs(repo.refs);
    MapAbortFirstError(tags, TagNameIn(repo));
    var i :| 0 <= i < |tags| && TagName(repo, tags[i]) == Err(MapAbort(tags, TagNameIn(repo)).error) &&
      forall j :: 0 <= j < i ==> TagName(repo, tags[j]).Ok?;
    assert tags[i].hash in repo.faults.objects;
  }

  /** One annotated tag `v1` and one lightweight tag `v2` list as exactly ["v1", "v2"]. */
  lemma AnnotatedAndLightweightTags(repo: Repo, tagObject: string, commit: string)
    requires repo.refs == [Ref("refs/tags/v1", tagObject, false), Ref("refs/tags/v2", commit, false)]
    requires repo.tags == map[tagObject := TagObject("v1")] && commit != tagObject
    requires repo.faults.objects == map[]
    ensures MapAbort(TagRefs(repo.refs), TagNameIn(repo)) == Ok(["v1", "v2"])
  {
    var refs := repo.refs;
    assert IsTagRef(refs[0]) by {
      assert refs[0].name[..|TagRefPrefix|] == TagRefPrefix;
    }
    assert IsTagRef(refs[1]) by {
      assert refs[1].name[..|TagRefPrefix|] == TagRefPrefix;
    }
    assert refs[..1] == [refs[0]];
    assert TagRefs(refs) == refs by {
      assert [refs[0]][..0] == [];
      assert TagRefs(refs[..1]) == [refs[0]];
    }
    assert TagName(repo, refs[0]) == Ok("v1");
    assert TagName(repo, refs[1]) == Ok("v2") by {
      assert refs[1].name[|TagRefPrefix|..] == "v2";
    }
    var f := TagNameIn(repo);
    assert f(refs[0]) == Ok("v1") && f(refs[1]) == Ok("v2");
    assert refs[..0] == [];
    assert MapAbort(refs[..0], f) == Ok([]);
    assert [] + ["v1"] == ["v1"] && ["v1"] + ["v2"] == ["v1", "v2"];
    MapAbortStep(refs, f, 0);
    assert MapAbort(refs[..1], f) == Ok(["v1"]);
    MapAbortStep(refs, f, 1);
    assert refs[..2] == refs;
  }

  // ---------------------------------------------------------------------------
  // Remote branches

  /** The branch a reference names under `refs/remotes/origin/`, if it is one other than HEAD. */
  function RemoteBranchOf(ref: Ref): seq<string> {
    if HasPrefix(ref.name, RemoteBranchPrefix) && TrimPrefix(ref.name, RemoteBranchPrefix) != RemoteHeadName
    then [TrimPrefix(ref.name, RemoteBranchPrefix)]
    else []
  }

  /** The remote branch names of `refs`, in reference order. */
  function RemoteBranches(refs: seq<Ref>): seq<string> {
    if refs == [] then [] else RemoteBranches(refs[..|refs| - 1]) + RemoteBranchOf(refs[|refs| - 1])
  }

  /** remoteBranchesList: the origin's remote branches, in reference order. */
  method RemoteBranchesList(repo: Repo, repoPath: string) returns (r: Result<seq<string>, GitError>)
    ensures repo.faults.open.Some? ==> r == Err(CannotOpenRepo(repoPath, repo.faults.open.value))
    ensures repo.faults.open.None? && repo.faults.refIter.Some? ==> r == Err(Raw(repo.faults.refIter.value))
    ensures repo.faults.open.None? && repo.faults.refIter.None? ==> r == Ok(RemoteBranches(repo.refs))
  {
    if repo.faults.open.Some? {
      return Err(CannotOpenRepo(repoPath, repo.faults.open.value));
    }
    if repo.faults.refIter.Some? {
      return Err(Raw(repo.faults.refIter.value));
    }
    var refs := repo.refs;
    var res: seq<string> := [];
    var i := 0;
    while i < |refs|
      invariant 0 <= i <= |refs|
      invariant res == RemoteBranches(refs[..i])
    {
      assert refs[..i + 1][..i] == refs[..i];
      var refName := refs[i].name;
      if HasPrefix(refName, RemoteBranchPrefix) {
        var value := TrimPrefix(refName, RemoteBranchPrefix);
        if value != RemoteHeadName {
          res := res + [value];
        }
      }
      i := i + 1;
    }
    assert refs[..i] == refs;
    return Ok(res);
  }

  /**
   * A name is listed exactly when some reference is `refs/remotes/origin/<name>`
   * and the name is not HEAD.
   */
  lemma {:induction false} RemoteBranchesMembership(refs: seq<Ref>, b: string)
    ensures b in RemoteBranches(refs) <==>
      b != RemoteHeadName && exists i :: 0 <= i < |refs| && refs[i].name == RemoteBranchPrefix + b
  {
    if refs != [] {
      var init, last := refs[..|refs| - 1], refs[|refs| - 1];
      RemoteBranchesMembership(init, b);
      var p := RemoteBranchPrefix;
      assert (p + b)[..|p|] == p && (p + b)[|p|..] == b;
      if b in RemoteBranchOf(last) {
        assert last.name == p + b;
        assert refs[|refs| - 1].name == p + b;
      }
      if b != RemoteHeadName && last.name == p + b {
        assert b in RemoteBranchOf(last);
      }
      if exists i :: 0 <= i < |refs| && refs[i].name == p + b {
        var i :| 0 <= i < |refs| && refs[i].name == p + b;
        if i < |refs| - 1 {
          assert init[i].name == p + b;
        }
      }
      if exists i :: 0 <= i < |init| && init[i].name == p + b {
        var i :| 0 <= i < |init| && init[i].name == p + b;
        assert refs[i].name == p + b;
      }
    }
  }

  /** The listing preserves reference order: it distributes over concatenation of reference lists. */
  lemma {:induction false} RemoteBranchesAppend(a: seq<Ref>, b: seq<Ref>)
    ensures RemoteBranches(a + b) == RemoteBranches(a) + RemoteBranches(b)
  {
    if b == [] {
      assert a + b == a;
    } else {
      var init := b[..|b| - 1];
      RemoteBranchesAppend(a, init);
      assert (a + b)[..|a + b| - 1] == a + init;
      assert (a + b)[|a + b| - 1] == b[|b| - 1];
    }
  }
}
