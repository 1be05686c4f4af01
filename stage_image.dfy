/**
 * The stage image of pkg/container_runtime/stage_image.go: an image built by
 * running a container from a base image under a cross-process container lock
 * and committing it, or by an attached Dockerfile builder, then tagged, pulled,
 * pushed, imported and exported through the docker command line.
 *
 * Every outcome of the lock, the container, the docker daemon and the docker
 * command line is a parameter; what the object does is recorded in `log`, the
 * ordered list of operations it performed.
 */
module ContainerRuntime {
  import opened Wrappers
  import opened Strings

  /** Run errors starting with this text come from the command inside the container. */
  const ContainerRunFailedPrefix := "container run failed"

  datatype BuildOptions = BuildOptions(introspectBeforeError: bool, introspectAfterError: bool)

  /** The part of the docker daemon's image inspect the model uses. */
  datatype ImageInspect = ImageInspect(id: string)

  /** image.NewInfoFromInspect(name, inspect): the stages-storage description of an image. */
  datatype ImageInfo = ImageInfo(name: string, id: string)

  datatype StageError =
    | LockFailed(lockName: string, lockError: string)  // failed to lock %s: %s
    | IntrospectFailed(failure: StageError)            // introspect error failed: %s
    | Docker(cause: string)                            // an error of the daemon, the CLI or the builder, unchanged

  /** The operations a stage image performs, in the order it performs them. */
  datatype Op =
    | Lock(lockName: string)
    | Unlock(lockName: string)
    | ContainerRun
    | ContainerCommit
    | ContainerRemove
    | ContainerIntrospectBefore
    | ContainerIntrospect
    | GetImageInspect(imageId: string)
    | CliTag(source: string, target: string)
    | CliPull(imageName: string)
    | CliPush(imageName: string)
    | CliRmi(imageName: string)
    | BuilderBuild

  /** The outcomes of the calls one Build makes. */
  datatype BuildEnv = BuildEnv(
    lock: Option<string>,                       // shluz.Lock
    run: Option<string>,                        // container.run
    introspect: Option<string>,                 // container.introspectBefore or container.introspect
    commit: Result<string, string>,             // container.commit: the built image id
    rm: Option<string>,                         // container.rm
    inspect: Result<ImageInspect, string>,      // GetImageInspect(builtId)
    builderBuild: Option<string>)               // DockerfileImageBuilder.Build

  /** A failed outcome as a stage error. */
  function DockerError(outcome: Option<string>): (r: Option<StageError>)
    ensures r.None? <==> outcome.None?
    ensures outcome.Some? ==> r == Some(Docker(outcome.value))
  {
    if outcome.Some? then Some(Docker(outcome.value)) else None
  }

  /** The builder of images described by a Dockerfile; its internals are not part of this model. */
  class DockerfileImageBuilder {
    constructor ()
    {
    }
  }

  class StageImage {
    const name: string
    const fromImage: StageImage?
    /** ContainerLockName of the image's build container. */
    const containerLockName: string

    /** The committed image, once a container was committed. */
    var buildImage: Option<string>
    var dockerfileImageBuilder: DockerfileImageBuilder?
    var lockHeld: bool
    var containerExists: bool
    /** The base image's inspect data, as SetInspect and UnsetInspect leave it. */
    var inspect: Option<ImageInspect>
    var stagesStorageImageInfo: Option<ImageInfo>
    /** The local image names this object's pulls and tags created and its rmi calls have not removed. */
    var tags: set<string>
    var log: seq<Op>

    /** Between calls the container lock is free. */
    ghost predicate Valid()
      reads this
    {
      !lockHeld
    }

    /** NewStageImage. */
    constructor (fromImage: StageImage?, name: string, containerLockName: string)
      ensures Valid()
      ensures this.fromImage == fromImage && this.name == name && this.containerLockName == containerLockName
      ensures buildImage == None && dockerfileImageBuilder == null
      ensures !containerExists && inspect == None && stagesStorageImageInfo == None
      ensures tags == {} && log == []
    {
      this.fromImage := fromImage;
      this.name := name;
      this.containerLockName := containerLockName;
      buildImage := None;
      dockerfileImageBuilder := null;
      lockHeld := false;
      containerExists := false;
      inspect := None;
      stagesStorageImageInfo := None;
      tags := {};
      log := [];
    }

    /** The operations of a build that took the lock: run, then `steps`, then the deferred unlock. */
    function Locked(steps: seq<Op>): seq<Op> {
      [Lock(containerLockName), ContainerRun] + steps + [Unlock(containerLockName)]
    }

    /**
     * The end of the run-failure branch: the container is removed, the log is
     * `expected`, and the run error is returned unless the removal fails.
     */
    ghost predicate RemovedAfterRunFailure(expected: seq<Op>, env: BuildEnv, err: Option<StageError>)
      requires env.run.Some?
      reads this
    {
      log == expected &&
      if env.rm.Some? then err == Some(IntrospectFailed(Docker(env.rm.value))) && containerExists
      else err == Some(Docker(env.run.value)) && !containerExists
    }

    /** GetID: the committed image once there is one, else the stages-storage image. */
    function GetID(): (id: string)
      requires buildImage.Some? || stagesStorageImageInfo.Some?
      reads this
      ensures buildImage.Some? ==> id == buildImage.value
      ensures buildImage.None? ==> id == stagesStorageImageInfo.value.id
    {
      if buildImage.Some? then buildImage.value else stagesStorageImageInfo.value.id
    }

    /**
     * GetBuiltId: the attached builder's answer (`builderBuiltId`) when there is a
     * builder, else the committed image.
     */
    function GetBuiltId(builderBuiltId: Result<string, string>): (r: Result<string, StageError>)
      requires dockerfileImageBuilder != null || buildImage.Some?
      reads this
      ensures dockerfileImageBuilder != null && builderBuiltId.Ok? ==> r == Ok(builderBuiltId.value)
      ensures dockerfileImageBuilder != null && builderBuiltId.Err? ==> r == Err(Docker(builderBuiltId.error))
      ensures dockerfileImageBuilder == null ==> r == Ok(buildImage.value)
    {
      if dockerfileImageBuilder != null then
        match builderBuiltId
        case Ok(id) => Ok(id)
        case Err(e) => Err(Docker(e))
      else Ok(buildImage.value)
    }

    /**
     * TagBuiltImage: tags the built image with the stage's own name. The source
     * takes a `name` argument and does not use it; so does the model.
     */
    method TagBuiltImage(name: string, builderBuiltId: Result<string, string>, tag: Option<string>)
      returns (err: Option<StageError>)
      requires dockerfileImageBuilder != null || buildImage.Some?
      modifies this`log, this`tags
      ensures GetBuiltId(builderBuiltId).Err? ==>
        err == Some(GetBuiltId(builderBuiltId).error) && log == old(log) && tags == old(tags)
      ensures GetBuiltId(builderBuiltId).Ok? ==>
        log == old(log) + [CliTag(GetBuiltId(builderBuiltId).value, this.name)] && err == DockerError(tag) &&
        tags == if tag.None? then old(tags) + {this.name} else old(tags)
    {
      var builtId := GetBuiltId(builderBuiltId);
      if builtId.Err? {
        return Some(builtId.error);
      }
      log := log + [CliTag(builtId.value, this.name)];
      if tag.None? {
        tags := tags + {this.name};
      }
      err := DockerError(tag);
    }

    /** Tag: gives the stage's image (GetID) a further name. */
    method Tag(name: string, tag: Option<string>) returns (err: Option<StageError>)
      requires buildImage.Some? || stagesStorageImageInfo.Some?
      modifies this`log, this`tags
      ensures log == old(log) + [CliTag(GetID(), name)]
      ensures err == DockerError(tag)
      ensures tags == if tag.None? then old(tags) + {name} else old(tags)
    {
      log := log + [CliTag(GetID(), name)];
      if tag.None? {
        tags := tags + {name};
      }
      err := DockerError(tag);
    }

    /** Pull: the inspect data is dropped only once the pull succeeded. */
    method Pull(pull: Option<string>) returns (err: Option<StageError>)
      modifies this`log, this`tags, this`inspect
      ensures log == old(log) + [CliPull(name)]
      ensures err == DockerError(pull)
      ensures pull.None? ==> inspect == None && tags == old(tags) + {name}
      ensures pull.Some? ==> inspect == old(inspect) && tags == old(tags)
    {
      log := log + [CliPull(name)];
      if pull.Some? {
        return Some(Docker(pull.value));
      }
      inspect := None;
      tags := tags + {name};
      err := None;
    }

    method Push(push: Option<string>) returns (err: Option<StageError>)
      modifies this`log
      ensures log == old(log) + [CliPush(name)]
      ensures err == DockerError(push)
    {
      log := log + [CliPush(name)];
      err := DockerError(push);
    }

    /**
     * Import: pulls the image `name`, tags its id (`importedId`, its stages-storage
     * id) with the stage's name, and removes `name`; the first failure stops the rest.
     */
    method Import(name: string, importedId: string, pull: Option<string>, tag: Option<string>, rmi: Option<string>)
      returns (err: Option<StageError>)
      modifies this`log, this`tags
      ensures pull.Some? ==>
        log == old(log) + [CliPull(name)] && err == Some(Docker(pull.value)) && tags == old(tags)
      ensures pull.None? && tag.Some? ==>
        log == old(log) + [CliPull(name), CliTag(importedId, this.name)] &&
        err == Some(Docker(tag.value)) && tags == old(tags) + {name}
      ensures pull.None? && tag.None? ==>
        log == old(log) + [CliPull(name), CliTag(importedId, this.name), CliRmi(name)] && err == DockerError(rmi) &&
        tags == if rmi.None? then (old(tags) + {name, this.name}) - {name} else old(tags) + {name, this.name}
    {
      log := log + [CliPull(name)];
      if pull.Some? {
        return Some(Docker(pull.value));
      }
      tags := tags + {name};

      log := log + [CliTag(importedId, this.name)];
      if tag.Some? {
        return Some(Docker(tag.value));
      }
      tags := tags + {this.name};

      log := log + [CliRmi(name)];
      if rmi.Some? {
        return Some(Docker(rmi.value));
      }
      tags := tags - {name};
      err := None;
    }

    /**
     * Export: tags the image as `name`, pushes `name`, and removes the temporary
     * name afterwards whether or not the push succeeded; a failed tag stops
     * everything, a failed removal is only logged, and the push's error is returned.
     */
    method Export(name: string, tag: Option<string>, push: Option<string>, rmi: Option<string>)
      returns (err: Option<StageError>)
      requires buildImage.Some? || stagesStorageImageInfo.Some?
      modifies this`log, this`tags
      ensures tag.Some? ==>
        log == old(log) + [CliTag(old(GetID()), name)] && err == Some(Docker(tag.value)) && tags == old(tags)
      ensures tag.None? ==>
        log == old(log) + [CliTag(old(GetID()), name), CliPush(name), CliRmi(name)] && err == DockerError(push) &&
        tags == if rmi.None? then old(tags) + {name} - {name} else old(tags) + {name}
    {
      err := Tag(name, tag);
      if err.Some? {
        return;
      }
      log := log + [CliPush(name)];
      err := DockerError(push);
      // The deferred untag, attempted on both outcomes of the push.
      log := log + [CliRmi(name)];
      if rmi.None? {
        tags := tags - {name};
      }
    }

    /** DockerfileImageBuilder: creates the builder on first use and returns the same one afterwards. */
    method DockerfileImageBuilder() returns (builder: DockerfileImageBuilder)
      modifies this`dockerfileImageBuilder
      ensures old(dockerfileImageBuilder) != null ==> builder == old(dockerfileImageBuilder)
      ensures old(dockerfileImageBuilder) == null ==> fresh(builder)
      ensures dockerfileImageBuilder == builder
    {
      if dockerfileImageBuilder == null {
        dockerfileImageBuilder := new DockerfileImageBuilder();
      }
      builder := dockerfileImageBuilder;
    }

    /** container.run: the run creates the build container. */
    method RunContainer(outcome: Option<string>) returns (err: Option<StageError>)
      modifies this`log, this`containerExists
      ensures log == old(log) + [ContainerRun] && containerExists
      ensures err == DockerError(outcome)
    {
      log := log + [ContainerRun];
      containerExists := true;
      err := DockerError(outcome);
    }

    /** container.rm: the container is gone only when the removal succeeds. */
    method RemoveContainer(outcome: Option<string>) returns (err: Option<StageError>)
      modifies this`log, this`containerExists
      ensures log == old(log) + [ContainerRemove]
      ensures containerExists == (old(containerExists) && outcome.Some?)
      ensures err == DockerError(outcome)
    {
      log := log + [ContainerRemove];
      if outcome.None? {
        containerExists := false;
      }
      err := DockerError(outcome);
    }

    /** Commit: a successful container commit makes its image the stage's build image. */
    method Commit(outcome: Result<string, string>) returns (err: Option<StageError>)
      modifies this`log, this`buildImage
      ensures log == old(log) + [ContainerCommit]
      ensures outcome.Ok? ==> buildImage == Some(outcome.value) && err == None
      ensures outcome.Err? ==> buildImage == old(buildImage) && err == Some(Docker(outcome.error))
    {
      log := log + [ContainerCommit];
      if outcome.Err? {
        return Some(Docker(outcome.error));
      }
      buildImage := Some(outcome.value);
      err := None;
    }

    /** Introspect: an interactive session in the committed image. */
    method Introspect(outcome: Option<string>) returns (err: Option<StageError>)
      modifies this`log
      ensures log == old(log) + [ContainerIntrospect]
      ensures err == DockerError(outcome)
    {
      log := log + [ContainerIntrospect];
      err := DockerError(outcome);
    }

    /** introspectBefore: an interactive session in the image the stage was built from. */
    method IntrospectBefore(outcome: Option<string>) returns (err: Option<StageError>)
      modifies this`log
      ensures log == old(log) + [ContainerIntrospectBefore]
      ensures err == DockerError(outcome)
    {
      log := log + [ContainerIntrospectBefore];
      err := DockerError(outcome);
    }

    /**
     * Build. An attached Dockerfile builder does the whole build. Otherwise the
     * container lock is taken, the container is run, and the lock is released on
     * every path once taken. A successful run is committed, the container removed,
     * and the built image inspected; each failure stops the later steps. A run
     * error from inside the container is introspected (before-error precedence
     * over after-error, which commits first), then the container is removed and
     * the run error returned; a failure there is returned as an introspection
     * failure instead. Any other run error is returned as it is.
     */
    method Build(options: BuildOptions, env: BuildEnv) returns (err: Option<StageError>)
      requires Valid()
      modifies this
      ensures Valid()
      ensures dockerfileImageBuilder == old(dockerfileImageBuilder) && tags == old(tags)
      ensures err.Some? ==> inspect == old(inspect) && stagesStorageImageInfo == old(stagesStorageImageInfo)
      // A Dockerfile builder: no lock and no container operation.
      ensures old(dockerfileImageBuilder) != null ==>
        log == old(log) + [BuilderBuild] && err == DockerError(env.builderBuild) &&
        buildImage == old(buildImage) && containerExists == old(containerExists) && inspect == old(inspect) &&
        stagesStorageImageInfo == old(stagesStorageImageInfo)
      // The lock cannot be taken: nothing runs.
      ensures old(dockerfileImageBuilder) == null && env.lock.Some? ==>
        log == old(log) && err == Some(LockFailed(containerLockName, env.lock.value)) &&
        buildImage == old(buildImage) && containerExists == old(containerExists)
      // A successful run: commit, remove, inspect.
      ensures old(dockerfileImageBuilder) == null && env.lock.None? && env.run.None? ==>
        match env.commit
        case Err(e) =>
          log == old(log) + Locked([ContainerCommit]) && err == Some(Docker(e)) &&
          buildImage == old(buildImage) && containerExists
        case Ok(id) =>
          buildImage == Some(id) &&
          if env.rm.Some? then
            log == old(log) + Locked([ContainerCommit, ContainerRemove]) &&
            err == Some(Docker(env.rm.value)) && containerExists
          else
            log == old(log) + Locked([ContainerCommit, ContainerRemove, GetImageInspect(id)]) &&
            !containerExists &&
            match env.inspect
            case Err(e) => err == Some(Docker(e))
            case Ok(insp) =>
              err == None && inspect == Some(insp) && stagesStorageImageInfo == Some(ImageInfo(name, insp.id))
      // A run error from outside the container: returned with no removal.
      ensures (old(dockerfileImageBuilder) == null && env.lock.None? && env.run.Some? &&
        !HasPrefix(env.run.value, ContainerRunFailedPrefix)) ==>
        log == old(log) + Locked([]) && err == Some(Docker(env.run.value)) &&
        buildImage == old(buildImage) && containerExists
      // A run error from inside the container, introspected before the run.
      ensures (old(dockerfileImageBuilder) == null && env.lock.None? && env.run.Some? &&
        HasPrefix(env.run.value, ContainerRunFailedPrefix) && options.introspectBeforeError) ==>
        buildImage == old(buildImage) &&
        if env.introspect.Some? then
          log == old(log) + Locked([ContainerIntrospectBefore]) &&
          err == Some(IntrospectFailed(Docker(env.introspect.value))) && containerExists
        else RemovedAfterRunFailure(old(log) + Locked([ContainerIntrospectBefore, ContainerRemove]), env, err)
      // ... introspected after the run, on the committed container.
      ensures (old(dockerfileImageBuilder) == null && env.lock.None? && env.run.Some? &&
        HasPrefix(env.run.value, ContainerRunFailedPrefix) &&
        !options.introspectBeforeError && options.introspectAfterError) ==>
        match env.commit
        case Err(e) =>
          log == old(log) + Locked([ContainerCommit]) &&
          err == Some(IntrospectFailed(Docker(e))) && buildImage == old(buildImage) && containerExists
        case Ok(id) =>
          buildImage == Some(id) &&
          if env.introspect.Some? then
            log == old(log) + Locked([ContainerCommit, ContainerIntrospect]) &&
            err == Some(IntrospectFailed(Docker(env.introspect.value))) && containerExists
          else RemovedAfterRunFailure(old(log) + Locked([ContainerCommit, ContainerIntrospect, ContainerRemove]), env, err)
      // ... not introspected.
      ensures (old(dockerfileImageBuilder) == null && env.lock.None? && env.run.Some? &&
        HasPrefix(env.run.value, ContainerRunFailedPrefix) &&
        !options.introspectBeforeError && !options.introspectAfterError) ==>
        buildImage == old(buildImage) && RemovedAfterRunFailure(old(log) + Locked([ContainerRemove]), env, err)
    {
      if dockerfileImageBuilder != null {
        log := log + [BuilderBuild];
        return DockerError(env.builderBuild);
      }

      if env.lock.Some? {
        return Some(LockFailed(containerLockName, env.lock.value));
      }
      lockHeld := true;
      log := log + [Lock(containerLockName)];

      // Every return of the source below runs the deferred unlock, so each one
      // leaves `err` set and falls through to it.
      err := RunContainer(env.run);
      if err.Some? {
        if HasPrefix(env.run.value, ContainerRunFailedPrefix) {
          err := HandleRunFailure(options, env);
        }
      } else {
        err := FinishRun(env);
      }

      lockHeld := false;
      log := log + [Unlock(containerLockName)];
    }

    /** Build after a successful run: commit, remove the container, inspect the built image; a failure stops the rest. */
    method FinishRun(env: BuildEnv) returns (err: Option<StageError>)
      requires dockerfileImageBuilder == null && containerExists
      modifies this`log, this`containerExists, this`buildImage, this`inspect, this`stagesStorageImageInfo
      ensures err.Some? ==> inspect == old(inspect) && stagesStorageImageInfo == old(stagesStorageImageInfo)
      ensures match env.commit
        case Err(e) =>
          log == old(log) + [ContainerCommit] && err == Some(Docker(e)) &&
          buildImage == old(buildImage) && containerExists
        case Ok(id) =>
          buildImage == Some(id) &&
          if env.rm.Some? then
            log == old(log) + [ContainerCommit, ContainerRemove] && err == Some(Docker(env.rm.value)) && containerExists
          else
            log == old(log) + [ContainerCommit, ContainerRemove, GetImageInspect(id)] && !containerExists &&
            match env.inspect
            case Err(e) => err == Some(Docker(e))
            case Ok(insp) =>
              err == None && inspect == Some(insp) && stagesStorageImageInfo == Some(ImageInfo(name, insp.id))
    {
      err := Commit(env.commit);
      if err.Some? {
        return;
      }
      err := RemoveContainer(env.rm);
      if err.Some? {
        return;
      }
      // GetBuiltId: with no builder attached, the committed image.
      var builtId := buildImage.value;
      log := log + [GetImageInspect(builtId)];
      if env.inspect.Err? {
        return Some(Docker(env.inspect.error));
      }
      inspect := Some(env.inspect.value);
      stagesStorageImageInfo := Some(ImageInfo(name, env.inspect.value.id));
    }

    /**
     * Build after a run error from inside the container: introspect as the options
     * say, remove the container, and return the run error; an introspection,
     * commit or removal failure is returned instead, and stops the rest.
     */
    method HandleRunFailure(options: BuildOptions, env: BuildEnv) returns (err: Option<StageError>)
      requires env.run.Some? && containerExists
      modifies this`log, this`containerExists, this`buildImage
      ensures options.introspectBeforeError ==>
        buildImage == old(buildImage) &&
        if env.introspect.Some? then
          log == old(log) + [ContainerIntrospectBefore] &&
          err == Some(IntrospectFailed(Docker(env.introspect.value))) && containerExists
        else RemovedAfterRunFailure(old(log) + [ContainerIntrospectBefore, ContainerRemove], env, err)
      ensures !options.introspectBeforeError && options.introspectAfterError ==>
        match env.commit
        case Err(e) =>
          log == old(log) + [ContainerCommit] &&
          err == Some(IntrospectFailed(Docker(e))) && buildImage == old(buildImage) && containerExists
        case Ok(id) =>
          buildImage == Some(id) &&
          if env.introspect.Some? then
            log == old(log) + [ContainerCommit, ContainerIntrospect] &&
            err == Some(IntrospectFailed(Docker(env.introspect.value))) && containerExists
          else RemovedAfterRunFailure(old(log) + [ContainerCommit, ContainerIntrospect, ContainerRemove], env, err)
      ensures !options.introspectBeforeError && !options.introspectAfterError ==>
        buildImage == old(buildImage) && RemovedAfterRunFailure(old(log) + [ContainerRemove], env, err)
    {
      if options.introspectBeforeError {
        var e := IntrospectBefore(env.introspect);
        if e.Some? {
          return Some(IntrospectFailed(e.value));
        }
      } else if options.introspectAfterError {
        var e := Commit(env.commit);
        if e.Some? {
          return Some(IntrospectFailed(e.value));
        }
        e := Introspect(env.introspect);
        if e.Some? {
          return Some(IntrospectFailed(e.value));
        }
      }
      var e := RemoveContainer(env.rm);
      if e.Some? {
        return Some(IntrospectFailed(e.value));
      }
      err := DockerError(env.run);
    }
  }
}
