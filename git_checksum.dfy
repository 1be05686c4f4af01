/**
 * checksumWithLsTree (pkg/git_repo/base.go): inside a worktree of the commit,
 * list the tree through the configured path matcher, then for every extra path
 * take its sub-listing and either feed its checksum into the running hash or
 * record the path as matching nothing.
 *
 * The hash is modelled as the sequence of strings written to it; the ls-tree
 * listing, its sub-listings and their checksums are parameters.
 */
module GitChecksum {
  import opened Wrappers
  import opened GitObjects
  import opened GitContent
  import opened Folds

  datatype ChecksumOptions = ChecksumOptions(
    basePath: string, includePaths: seq<string>, excludePaths: seq<string>,
    commit: string, paths: seq<string>)

  datatype LsTreeEntry = LsTreeEntry(mode: string, objectHash: string, path: string)

  /** An ls-tree result; it is empty when it lists no entry. */
  datatype LsTree = LsTree(entries: seq<LsTreeEntry>)

  /** path_matcher.NewSimplePathMatcher(basePath, paths, greedy). */
  datatype SimplePathMatcher = SimplePathMatcher(basePath: string, paths: seq<string>, greedy: bool)

  /** The checksum descriptor: what was written to the hash, and the paths that matched nothing. */
  datatype Checksum = Checksum(hashInput: seq<string>, noMatchPaths: seq<string>)

  /** The worktree and ls-tree layer the checksum is computed with. */
  datatype LsTreeEnv = LsTreeEnv(
    checkout: Option<string>,                                      // the worktree cannot be prepared
    reopen: Option<string>,                                        // opening the prepared worktree fails
    list: (string, GitMappingPathMatcher) -> Result<LsTree, string>, // the main listing of a commit
    subList: (LsTree, SimplePathMatcher) -> Result<LsTree, string>,  // a sub-listing of a listing
    checksum: LsTree -> string)                                    // the checksum of a listing

  /** The string one extra path contributes: its sub-listing's checksum, or "" when the sub-listing is empty. */
  function PathChecksum(env: LsTreeEnv, main: LsTree, basePath: string, path: string): Result<string, GitError> {
    match env.subList(main, SimplePathMatcher(basePath, [path], false))
    case Err(e) => Err(Raw(e))
    case Ok(sub) => Ok(if sub.entries == [] then "" else env.checksum(sub))
  }

  function PathChecksumIn(env: LsTreeEnv, main: LsTree, basePath: string): string -> Result<string, GitError> {
    path => PathChecksum(env, main, basePath, path)
  }

  /** What reaches the hash: the non-empty per-path checksums, in order. */
  function Written(checksums: seq<string>): seq<string> {
    if checksums == [] then []
    else
      var last := checksums[|checksums| - 1];
      Written(checksums[..|checksums| - 1]) + (if last != "" then [last] else [])
  }

  /** The paths whose checksum is empty, in order. */
  function NoMatch(paths: seq<string>, checksums: seq<string>): seq<string>
    requires |paths| == |checksums|
  {
    if paths == [] then []
    else
      var n := |paths| - 1;
      NoMatch(paths[..n], checksums[..n]) + (if checksums[n] == "" then [paths[n]] else [])
  }

  /** The checksum the worktree body produces from the main listing. */
  function ChecksumOf(env: LsTreeEnv, main: LsTree, opts: ChecksumOptions): Result<Checksum, GitError> {
    match MapAbort(opts.paths, PathChecksumIn(env, main, opts.basePath))
    case Err(e) => Err(e)
    case Ok(checksums) => Ok(Checksum(Written(checksums), NoMatch(opts.paths, checksums)))
  }

  function MainMatcher(opts: ChecksumOptions): GitMappingPathMatcher {
    GitMappingPathMatcher(opts.basePath, opts.includePaths, opts.excludePaths, false)
  }

  /**
   * checksumWithLsTree: the validation prefix of withWorkTree, the worktree, the
   * main listing, then the per-path fold. Any error yields no checksum.
   */
  method ChecksumWithLsTree(repo: Repo, repoPath: string, opts: ChecksumOptions, env: LsTreeEnv)
    returns (r: Result<Checksum, GitError>)
    ensures CommitPlan(repo, repoPath, opts.commit).Err? ==> r == Err(CommitPlan(repo, repoPath, opts.commit).error)
    ensures CommitPlan(repo, repoPath, opts.commit).Ok? && env.checkout.Some? ==> r == Err(Raw(env.checkout.value))
    ensures CommitPlan(repo, repoPath, opts.commit).Ok? && env.checkout.None? && env.reopen.Some? ==>
      r == Err(Raw(env.reopen.value))
    ensures CommitPlan(repo, repoPath, opts.commit).Ok? && env.checkout.None? && env.reopen.None? ==>
      match env.list(opts.commit, MainMatcher(opts))
      case Err(e) => r == Err(Raw(e))
      case Ok(main) => r == ChecksumOf(env, main, opts)
  {
    var noMatchPaths: seq<string> := [];
    var hash: seq<string> := [];

    // withWorkTree: validate the commit before preparing the worktree.
    var plan := CommitPlan(repo, repoPath, opts.commit);
    if plan.Err? {
      return Err(plan.error);
    }
    if env.checkout.Some? {
      return Err(Raw(env.checkout.value));
    }

    // The body, run in the prepared worktree.
    if env.reopen.Some? {
      return Err(Raw(env.reopen.value));
    }
    var mainLsTree := env.list(opts.commit, MainMatcher(opts));
    if mainLsTree.Err? {
      return Err(Raw(mainLsTree.error));
    }
    var main := mainLsTree.value;
    ghost var step := PathChecksumIn(env, main, opts.basePath);
    ghost var checksums: seq<string> := [];
    var paths := opts.paths;
    var i := 0;
    while i < |paths|
      invariant 0 <= i <= |paths|
      invariant MapAbort(paths[..i], step) == Ok(checksums)
      invariant hash == Written(checksums)
      invariant noMatchPaths == NoMatch(paths[..i], checksums)
    {
      MapAbortStep(paths, step, i);
      var p := paths[i];
      var pathLsTree := env.subList(main, SimplePathMatcher(opts.basePath, [p], false));
      if pathLsTree.Err? {
        MapAbortPrefixErr(paths, step, i + 1);
        return Err(Raw(pathLsTree.error));
      }

      var pathChecksum := "";
      if pathLsTree.value.entries != [] {
        pathChecksum := env.checksum(pathLsTree.value);
      }

      if pathChecksum != "" {
        hash := hash + [pathChecksum];
      } else {
        noMatchPaths := noMatchPaths + [p];
      }
      assert (checksums + [pathChecksum])[..|checksums|] == checksums;
      assert paths[..i + 1][..i] == paths[..i];
      checksums := checksums + [pathChecksum];
      i := i + 1;
    }
    assert paths[..i] == paths;
    return Ok(Checksum(hash, noMatchPaths));
  }

  // ---------------------------------------------------------------------------
  // Properties of the fold

  /** Every path goes one way: its checksum to the hash, or the path to the no-match list. */
  lemma {:induction false} EveryPathOneWay(paths: seq<string>, checksums: seq<string>)
    requires |paths| == |checksums|
    ensures |Written(checksums)| + |NoMatch(paths, checksums)| == |paths|
  {
    if paths != [] {
      EveryPathOneWay(paths[..|paths| - 1], checksums[..|checksums| - 1]);
    }
  }

  /** Nothing empty reaches the hash, and a checksum reaches it only if some path produced it. */
  lemma {:induction false} WrittenAreNonEmpty(checksums: seq<string>)
    ensures forall c :: c in Written(checksums) <==> c in checksums && c != ""
  {
    if checksums != [] {
      var init := checksums[..|checksums| - 1];
      WrittenAreNonEmpty(init);
      assert checksums == init + [checksums[|checksums| - 1]];
    }
  }

  /** A path is reported as matching nothing exactly when some occurrence of it had an empty checksum. */
  lemma {:induction false} NoMatchMembership(paths: seq<string>, checksums: seq<string>, p: string)
    requires |paths| == |checksums|
    ensures p in NoMatch(paths, checksums) <==> exists i :: 0 <= i < |paths| && paths[i] == p && checksums[i] == ""
  {
    if paths != [] {
      var n := |paths| - 1;
      NoMatchMembership(paths[..n], checksums[..n], p);
      if exists i :: 0 <= i < |paths| && paths[i] == p && checksums[i] == "" {
        var i :| 0 <= i < |paths| && paths[i] == p && checksums[i] == "";
        if i < n {
          assert paths[..n][i] == p && checksums[..n][i] == "";
        }
      }
    }
  }

  /** The hash input of consecutive path groups is their hash inputs one after the other. */
  lemma {:induction false} WrittenAppend(a: seq<string>, b: seq<string>)
    ensures Written(a + b) == Written(a) + Written(b)
  {
    if b == [] {
      assert a + b == a;
    } else {
      var init := b[..|b| - 1];
      WrittenAppend(a, init);
      assert (a + b)[..|a + b| - 1] == a + init;
      assert (a + b)[|a + b| - 1] == b[|b| - 1];
    }
  }

  /** The no-match list of consecutive path groups is their no-match lists one after the other. */
  lemma {:induction false} NoMatchAppend(pa: seq<string>, ca: seq<string>, pb: seq<string>, cb: seq<string>)
    requires |pa| == |ca| && |pb| == |cb|
    ensures NoMatch(pa + pb, ca + cb) == NoMatch(pa, ca) + NoMatch(pb, cb)
  {
    if pb == [] {
      assert pa + pb == pa && ca + cb == ca;
    } else {
      var n := |pb| - 1;
      NoMatchAppend(pa, ca, pb[..n], cb[..n]);
      assert (pa + pb)[..|pa + pb| - 1] == pa + pb[..n];
      assert (ca + cb)[..|ca + cb| - 1] == ca + cb[..n];
      assert (pa + pb)[|pa + pb| - 1] == pb[n];
      assert (ca + cb)[|ca + cb| - 1] == cb[n];
    }
  }

  /**
   * One path's contribution: a non-empty checksum is written once and the path is
   * not listed; an empty one writes nothing and lists the path once.
   */
  lemma SinglePath(p: string, c: string)
    ensures Written([c]) == (if c != "" then [c] else [])
    ensures NoMatch([p], [c]) == (if c == "" then [p] else [])
  {
    assert [c][..0] == [] && [p][..0] == [];
  }

  /** `sub` keeps some of the elements of `s`, in their order. */
  predicate IsSubsequence(sub: seq<string>, s: seq<string>) {
    if sub == [] then true
    else if s == [] then false
    else
      var keepsLast := sub[|sub| - 1] == s[|s| - 1] && IsSubsequence(sub[..|sub| - 1], s[..|s| - 1]);
      keepsLast || IsSubsequence(sub, s[..|s| - 1])
  }

  /** The no-match paths are an order-preserving subsequence of the configured paths. */
  lemma {:induction false} NoMatchIsSubsequence(paths: seq<string>, checksums: seq<string>)
    requires |paths| == |checksums|
    ensures IsSubsequence(NoMatch(paths, checksums), paths)
  {
    if paths != [] {
      var n := |paths| - 1;
      NoMatchIsSubsequence(paths[..n], checksums[..n]);
      var init := NoMatch(paths[..n], checksums[..n]);
      if checksums[n] == "" {
        assert (init + [paths[n]])[..|init|] == init;
      } else {
        assert NoMatch(paths, checksums) == init;
      }
    }
  }

  /** The hash input is the per-path checksums, in path order, with the empty ones left out. */
  lemma {:induction false} HashInputIsSubsequence(checksums: seq<string>)
    ensures IsSubsequence(Written(checksums), checksums)
  {
    if checksums != [] {
      var n := |checksums| - 1;
      HashInputIsSubsequence(checksums[..n]);
      var init := Written(checksums[..n]);
      if checksums[n] != "" {
        assert (init + [checksums[n]])[..|init|] == init;
      } else {
        assert Written(checksums) == init;
      }
    }
  }

  /**
   * A computed checksum accounts for every configured path: the hash input and
   * the no-match list together have one entry per path, the no-match list is a
   * subsequence of the paths, and position by position each path's own checksum
   * decides where it went.
   */
  lemma ChecksumAccountsForEveryPath(env: LsTreeEnv, main: LsTree, opts: ChecksumOptions)
    requires ChecksumOf(env, main, opts).Ok?
    ensures var c := ChecksumOf(env, main, opts).value;
      |c.hashInput| + |c.noMatchPaths| == |opts.paths| &&
      IsSubsequence(c.noMatchPaths, opts.paths) &&
      forall s :: s in c.hashInput ==> s != ""
    ensures var checksums := MapAbort(opts.paths, PathChecksumIn(env, main, opts.basePath)).value;
      forall i :: 0 <= i < |opts.paths| ==> PathChecksum(env, main, opts.basePath, opts.paths[i]) == Ok(checksums[i])
  {
    var step := PathChecksumIn(env, main, opts.basePath);
    var checksums := MapAbort(opts.paths, step).value;
    EveryPathOneWay(opts.paths, checksums);
    NoMatchIsSubsequence(opts.paths, checksums);
    WrittenAreNonEmpty(checksums);
    MapAbortOkElements(opts.paths, step);
  }
}
