/** `transform` and `rollback` as the objects and the straight-line code they are, run without a
    signal, and proved to be one of the machine's interleavings. */
module Transformer {
  import opened Options
  import opened Saga
  import opened SagaSafety
  import opened SagaTheorems
  import opened Paths
  import R = Reconcile
  import CM = ConfigMeaning
  import SM = SpecMeaning

  /** What is read of docker's config.v2.json: the part that is copied field by field, the image the
      container was created from, its id, and the cgroup parent. */
  datatype DockerConfig = DockerConfig(common: R.V2, image: string, imageID: string, cgroupParent: string)

  /** What is used of docker's hostconfig.json. */
  datatype HostConfig = HostConfig(oomScoreAdj: int, filesLimit: int, log: Option<R.LogConfig>, spec: R.Host)

  /** What is written to iSulad's config.v2.json. */
  datatype V2File = V2File(config: R.V2, imageID: string, baseFs: string)

  /** What the outside answers: to the call of each step, and to the undo of each index; the
      configurations it holds, and the path of the rootfs it generates for an image. */
  datatype Answers = Answers(
    ok: Step -> bool, odd: Step -> bool, undoOk: nat -> bool,
    docker: DockerConfig, host: HostConfig, rootFs: string -> string)

  /** The container's bundle directory. */
  function BasePath(tool: R.Tool, id: string): string { Join([tool.GetRuntimePath(), id]) }

  /** The configuration file that goes with `opts`. */
  function V2FileFor(tool: R.Tool, id: string, ans: Answers, opts: seq<R.V2Opt>): V2File {
    var v := R.Reconciled(ans.docker.common, BasePath(tool, id), opts);
    V2File(v, ans.docker.imageID, ans.rootFs(v.image))
  }

  /** The options that `transformV2Config` adds. */
  function DockerOptions(ans: Answers): seq<R.V2Opt> {
    [R.WithImage(ans.docker.image), R.WithCgroupParent(ans.docker.cgroupParent)]
  }

  /** All options of a transform, in the order in which they are applied. */
  function AllOptions(tool: R.Tool, id: string, ans: Answers): seq<R.V2Opt> {
    R.RequestedOptions(ans.host.oomScoreAdj, ans.host.filesLimit, ans.host.log, BasePath(tool, id),
                       ans.docker.image, ans.docker.cgroupParent)
  }

  /** config.v2.json holds what docker's files say: the numbers, the log and the image of the host and
      container configuration, and everything that does not depend on them. */
  predicate ConfigWritten(tool: R.Tool, id: string, ans: Answers, file: V2File) {
    && file.imageID == ans.docker.imageID
    && CM.OptionsWritten(ans.docker.common, file.config, ans.host.oomScoreAdj, ans.host.filesLimit, ans.host.log,
                         BasePath(tool, id), ans.docker.image)
    && CM.RestWritten(ans.docker.common, file.config, BasePath(tool, id))
  }

  /** The files agree with each other and with docker's: one rootfs, that of docker's image without its
      digest; the cgroup path of docker's cgroup parent; the annotations of config.v2.json, docker's own
      among them, and besides them those of the spec; and the entries of the spec's lists. */
  ghost predicate FilesAgree(tool: R.Tool, id: string, ans: Answers, file: V2File, was: R.SpecState, now: R.SpecState) {
    && ConfigWritten(tool, id, ans, file)
    && now.rootPath == file.baseFs == ans.rootFs(R.ImageRemoveSuffixDigest(ans.docker.image))
    && now.cgroupsPath == R.FinalCgroup(ans.docker.cgroupParent, ans.docker.common.id)
    && (forall k :: k in file.config.annotations ==>
          k in now.annotations && now.annotations[k] == file.config.annotations[k])
    && (forall k :: k in was.annotations && k !in file.config.annotations ==>
          k in now.annotations && now.annotations[k] == was.annotations[k])
    && (forall k :: k in ans.docker.common.annotations && k !in R.OPTION_KEYS && k != "rootfs.mount" ==>
          k in now.annotations && now.annotations[k] == ans.docker.common.annotations[k])
    && SM.EntriesWritten(tool, id, ans.host.spec, was, now)
  }

  /** The network files are copied from where docker's configuration has them to where the mounts of the
      spec read from. */
  predicate CopiesAgree(tool: R.Tool, id: string, ans: Answers, copies: seq<(string, string)>) {
    copies == [(ans.docker.common.net.hostname, SM.BundleFile(tool, id, ["hostname"])),
               (ans.docker.common.net.hosts, SM.BundleFile(tool, id, ["hosts"])),
               (ans.docker.common.net.resolv, SM.BundleFile(tool, id, ["resolv.conf"]))]
  }

  const NETWORK_FILES := [R.HOSTNAME, R.HOSTS, R.RESOLV]

  function NetworkCopies(tool: R.Tool, id: string, net: R.Network): (r: seq<(string, string)>)
    ensures |r| == 3
  {
    [(R.OriginNetworkFile(net, R.HOSTNAME), tool.GetNetworkFilePath(id, R.HOSTNAME)),
     (R.OriginNetworkFile(net, R.HOSTS), tool.GetNetworkFilePath(id, R.HOSTS)),
     (R.OriginNetworkFile(net, R.RESOLV), tool.GetNetworkFilePath(id, R.RESOLV))]
  }

  lemma CopyStep(tool: R.Tool, id: string, net: R.Network, idx: nat)
    requires idx < 3
    ensures var name := NETWORK_FILES[idx];
      NetworkCopies(tool, id, net)[..idx + 1]
        == NetworkCopies(tool, id, net)[..idx] + [(R.OriginNetworkFile(net, name), tool.GetNetworkFilePath(id, name))]
  {
  }

  lemma CopiesDoAgree(tool: R.Tool, id: string, ans: Answers)
    ensures CopiesAgree(tool, id, ans, NetworkCopies(
      tool, id, V2FileFor(tool, id, ans, AllOptions(tool, id, ans)).config.net))
  {
    ConfigIsWritten(tool, id, ans);
    SM.PathIs(tool, id, "hostname");
    SM.PathIs(tool, id, "hosts");
    SM.PathIs(tool, id, "resolv.conf");
  }

  lemma OptionsInOrder(tool: R.Tool, id: string, ans: Answers, opts: seq<R.V2Opt>)
    requires opts == R.HostOptions(ans.host.oomScoreAdj, ans.host.filesLimit)
      + [R.WithLogConfig(ans.host.log, BasePath(tool, id))]
    ensures opts + DockerOptions(ans) == AllOptions(tool, id, ans)
  {
  }

  lemma ConfigIsWritten(tool: R.Tool, id: string, ans: Answers)
    ensures ConfigWritten(tool, id, ans, V2FileFor(tool, id, ans, AllOptions(tool, id, ans)))
  {
    CM.RequestWritten(ans.docker.common, ans.host.oomScoreAdj, ans.host.filesLimit, ans.host.log, BasePath(tool, id),
                      ans.docker.image, ans.docker.cgroupParent);
  }

  /** The rewriting of both files makes them agree. */
  lemma FilesDoAgree(tool: R.Tool, id: string, ans: Answers, was: R.SpecState)
    ensures var file := V2FileFor(tool, id, ans, AllOptions(tool, id, ans));
      FilesAgree(tool, id, ans, file, was, R.Rewritten(was, file.config, file.baseFs, ans.host.spec))
  {
    var file := V2FileFor(tool, id, ans, AllOptions(tool, id, ans));
    ConfigIsWritten(tool, id, ans);
    R.AnnotationsAgree(was.annotations, file.config.annotations);
    PathsDoAgree(tool, id, ans, was.annotations);
    UserAnnotationsFlow(tool, id, ans, was.annotations);
    SM.EntriesAre(tool, id, ans.host.spec, file.config, file.baseFs, was);
  }

  lemma PathsDoAgree(tool: R.Tool, id: string, ans: Answers, oci: R.Annotations)
    ensures var file := V2FileFor(tool, id, ans, AllOptions(tool, id, ans));
      && file.baseFs == ans.rootFs(R.ImageRemoveSuffixDigest(ans.docker.image))
      && Join([R.OciAnnotations(oci, file.config.annotations)["cgroup.dir"], file.config.id])
        == R.FinalCgroup(ans.docker.cgroupParent, ans.docker.common.id)
  {
    var opts := AllOptions(tool, id, ans);
    R.OptionsKeepTheRest(ans.docker.common, opts);
    R.CgroupEndToEnd(ans.docker.common, ans.host.oomScoreAdj, ans.host.filesLimit, ans.host.log, BasePath(tool, id),
                     ans.docker.image, ans.docker.cgroupParent, oci);
    assert opts[|opts| - 2] == R.WithImage(ans.docker.image);
    R.ImageEndToEnd(ans.docker.common, opts, ans.docker.image);
  }

  lemma UserAnnotationsFlow(tool: R.Tool, id: string, ans: Answers, oci: R.Annotations)
    ensures var config := V2FileFor(tool, id, ans, AllOptions(tool, id, ans)).config;
      var annotations := R.OciAnnotations(oci, config.annotations);
      forall k :: k in ans.docker.common.annotations && k !in R.OPTION_KEYS && k != "rootfs.mount" ==>
        k in annotations && annotations[k] == ans.docker.common.annotations[k]
  {
    var v, opts := ans.docker.common, AllOptions(tool, id, ans);
    forall k | k in v.annotations && k !in R.OPTION_KEYS && k != "rootfs.mount"
      ensures var r := R.OciAnnotations(oci, R.Reconciled(v, BasePath(tool, id), opts).annotations);
        k in r && r[k] == v.annotations[k]
    {
      R.AnnotationsFlow(v, BasePath(tool, id), opts, oci, k);
    }
  }

  // ------------------------------------------------------------ where a run ends

  /** The call of a step fails: a pause may also say "already paused", and the bundle directory must not
      be there. Registrations do not fail. */
  predicate Bad(ans: Answers, bundle: bool, step: Step) {
    if step == PAUSE then !ans.ok(step) && !ans.odd(step)
    else if step == PREPARE_BUNDLE then !ans.ok(step) || bundle
    else !IsRegister(step) && !ans.ok(step)
  }

  /** Of the steps from `lo` to before `hi`, `err` is the first whose call fails, if one does. */
  ghost predicate Until(ans: Answers, bundle: bool, lo: nat, hi: nat, err: Option<Step>) {
    match err
    case None => forall k: Step :: lo <= k < hi ==> !Bad(ans, bundle, k)
    case Some(f) => lo <= f < hi && Bad(ans, bundle, f) && forall k: Step :: lo <= k < f ==> !Bad(ans, bundle, k)
  }

  lemma UntilOne(ans: Answers, bundle: bool, step: Step)
    ensures Bad(ans, bundle, step) ==> Until(ans, bundle, step, step + 1, Some(step))
    ensures !Bad(ans, bundle, step) ==> Until(ans, bundle, step, step + 1, None)
  {
  }

  lemma UntilBoth(ans: Answers, bundle: bool, lo: nat, mid: nat, hi: nat, err: Option<Step>)
    requires lo <= mid <= hi && Until(ans, bundle, lo, mid, None) && Until(ans, bundle, mid, hi, err)
    ensures Until(ans, bundle, lo, hi, err)
  {
  }

  lemma UntilMore(ans: Answers, bundle: bool, lo: nat, mid: nat, hi: nat, err: Option<Step>)
    requires lo <= mid <= hi && Until(ans, bundle, lo, mid, err) && err.Some?
    ensures Until(ans, bundle, lo, hi, err)
  {
  }

  class RollbackObj {
    var st: bool
    var closed: bool
    var rbFuncs: seq<Undo>
    var closeCh: Option<bool>
    var chClosed: bool

    constructor ()
      ensures Fields() == NEW_ROLLBACK
    {
      st, closed, rbFuncs, closeCh, chClosed := false, false, [], None, false;
    }

    /** The fields as the machine's record. */
    function Fields(): Rollback
      reads this
    {
      Rollback(st, closed, rbFuncs, closeCh, chClosed)
    }

    method Register(f: Undo)
      modifies this
      ensures Fields() == old(Fields()).(regs := old(rbFuncs) + [f])
    {
      rbFuncs := rbFuncs + [f];
    }

    /** Sends on the one-slot channel, which must not block, and closes it. */
    method Close()
      requires closeCh.None?
      modifies this
      ensures Fields() == old(Fields()).(slot := Some(true), chClosed := true)
    {
      closeCh := Some(true);
      chClosed := true;
    }
  }

  class Transformation {
    var world: World
    var retErr: bool
    var v2File: Option<V2File>  // config.v2.json, once it has been written
    var copies: seq<(string, string)>  // the network files copied, from where to where
    const tool: R.Tool
    const id: string
    const rb: RollbackObj
    ghost const before: World
    ghost var run: Run
    ghost var events: seq<Event>  // the interleaving taken so far

    /** The object is where the machine is after `events`, with a watcher that no signal has woken. */
    ghost predicate Valid()
      reads this, rb
    {
      && NoSignal(events) && run == Exec(false, before, events)
      && world == run.world && retErr == run.retErr && rb.Fields() == run.rb
      && (run.watch.Select? <==> !run.main.Idle?)
    }

    constructor (world: World, tool: R.Tool, id: string)
      ensures Valid() && fresh(rb) && before == world && run == Start(world)
      ensures this.tool == tool && this.id == id && v2File == None && copies == []
    {
      this.world, retErr, before := world, false, world;
      this.tool, this.id, v2File, copies := tool, id, None, [];
      rb := new RollbackObj();
      run, events := Start(world), [];
    }

    /** The machine takes the step the object has taken. */
    ghost method Follow(a: Act)
      requires NoSignal(events) && run == Exec(false, before, events)
      modifies this`run, this`events
      ensures NoSignal(events) && run == Exec(false, before, events)
      ensures run == Apply(false, false, old(run), a)
    {
      var e := Event(false, a);
      assert (events + [e])[..|events|] == events;
      events := events + [e];
      run := Apply(false, false, run, a);
    }

    /** `rb.wait()`. */
    method Begin()
      requires Valid() && run.main.Idle?
      modifies this`world, this`retErr, this`run, this`events, rb
      ensures Valid() && run.main == Work(PAUSE) && world == old(world)
    {
      Follow(Main(true, false));
    }

    /** A run that has failed or finished, up to its deferred function. */
    ghost predicate Left(failed: Option<Step>)
      reads this
    {
      run.main == (if retErr then Rolling(Load) else Sending) && run.failedAt == failed
    }

    /** `retErr = call(); if retErr != nil { return ... }` for the call of one step. */
    method Call(step: Step, ans: Answers) returns (good: bool)
      requires Valid() && run.main == Work(step) && !IsRegister(step)
      modifies this`world, this`retErr, this`run, this`events, rb
      ensures Valid()
      ensures good ==> if step == LCR_CREATE then Left(None) else run.main == Work(step + 1)
      ensures !good ==> Left(Some(step))
      ensures good <==> !Bad(ans, old(world.bundle), step)
      ensures good && step == PAUSE ==> world.bundle == old(world.bundle)
    {
      var ok, odd := ans.ok(step), ans.odd(step);
      if step == PAUSE && !ok && odd {
        AlreadyPaused();
        good := true;
      } else {
        good := ok && !(step == PREPARE_BUNDLE && world.bundle);
        if good { CallSucceeds(step, odd); } else { CallFails(step, ok, odd); }
      }
    }

    /** The same for a step after the bundle directory, in terms of the world before the run. */
    method Next(step: Step, ans: Answers) returns (good: bool)
      requires Valid() && run.main == Work(step) && !IsRegister(step) && step > PREPARE_BUNDLE
      modifies this`world, this`retErr, this`run, this`events, rb
      ensures Valid()
      ensures good ==> if step == LCR_CREATE then Left(None) else run.main == Work(step + 1)
      ensures !good ==> Left(Some(step))
      ensures Until(ans, before.bundle, step, step + 1, if good then None else Some(step))
    {
      good := Call(step, ans);
      UntilOne(ans, before.bundle, step);
    }

    /** A pause that fails with "already paused" is not fatal, but stays in `retErr` until the next call. */
    method AlreadyPaused()
      requires Valid() && run.main == Work(PAUSE)
      modifies this`world, this`retErr, this`run, this`events, rb
      ensures Valid() && run.main == Work(PAUSE + 1) && world.bundle == old(world.bundle)
    {
      ghost var s := run;
      world, retErr := world.(paused := true), true;
      Follow(Main(false, true));
      assert run == WorkStep(s, PAUSE, false, true);
    }

    method CallSucceeds(step: Step, ghost odd: bool)
      requires Valid() && run.main == Work(step) && !IsRegister(step)
      requires !(step == PREPARE_BUNDLE && world.bundle)
      modifies this`world, this`retErr, this`run, this`events, rb
      ensures Valid() && if step == LCR_CREATE then Left(None) else run.main == Work(step + 1)
      ensures step == PAUSE ==> world.bundle == old(world.bundle)
    {
      ghost var s := run;
      ExecInv(false, before, events);
      world := Acquire(world, step);
      if step != MARSHAL_OCI { retErr := false; }
      Follow(Main(true, odd));
      assert run == Succeed(s, step);
    }

    method CallFails(step: Step, ghost ok: bool, odd: bool)
      requires Valid() && run.main == Work(step) && !IsRegister(step)
      requires ok ==> step == PREPARE_BUNDLE && world.bundle
      requires !(step == PAUSE && odd)
      modifies this`world, this`retErr, this`run, this`events, rb
      ensures Valid() && Left(Some(step))
    {
      ghost var s := run;
      if step == PREPARE_SHM && odd { world := world.(bundle := true); }
      if step != MARSHAL_OCI { retErr := true; }  // the marshalling error is kept apart
      Follow(Main(ok, odd));
      assert run == Fail(s, step, odd);
    }

    method RegisterUndo(step: Step)
      requires Valid() && run.main == Work(step) && IsRegister(step)
      modifies this`world, this`retErr, this`run, this`events, rb
      ensures Valid() && run.main == Work(step + 1)
    {
      ghost var s := run;
      rb.Register(UndoOf(step));
      Follow(Main(true, false));
      assert run == WorkStep(s, step, true, false);
    }

    /** `transformV2Config`: load, rewrite, generate the rootfs of the rewritten image, save. */
    method TransformV2Config(ans: Answers, opts: seq<R.V2Opt>) returns (err: Option<Step>)
      requires Valid() && run.main == Work(LOAD_V2)
      modifies this`world, this`retErr, this`run, this`events, this`v2File, rb
      ensures Valid() && if err.None? then run.main == Work(REGISTER_ROOTFS) else Left(err)
      ensures Until(ans, before.bundle, LOAD_V2, REGISTER_ROOTFS, err)
      ensures v2File == if err.Some? then old(v2File)
        else Some(V2FileFor(tool, id, ans, opts + DockerOptions(ans)))
    {
      var good := Next(LOAD_V2, ans);
      if !good { return Some(LOAD_V2); }
      var config := new R.V2Config(ans.docker.common);
      config.Reconcile(BasePath(tool, id), opts + DockerOptions(ans));
      good := Next(GENERATE_ROOTFS, ans);
      if !good { return Some(GENERATE_ROOTFS); }
      var file := V2File(config.v, ans.docker.imageID, ans.rootFs(config.v.image));
      good := Next(SAVE_V2, ans);
      if !good { return Some(SAVE_V2); }
      v2File := Some(file);
      err := None;
    }

    /** Up to the host configuration, with the bundle directory registered. */
    method PrepareBundle(ans: Answers) returns (err: Option<Step>)
      requires Valid() && run.main == Work(PAUSE) && world.bundle == before.bundle
      modifies this`world, this`retErr, this`run, this`events, rb
      ensures Valid() && if err.None? then run.main == Work(LOAD_V2) else Left(err)
      ensures Until(ans, before.bundle, PAUSE, LOAD_V2, err)
    {
      var good := Call(PAUSE, ans);
      if !good { return Some(PAUSE); }
      good := Call(PREPARE_BUNDLE, ans);
      if !good { return Some(PREPARE_BUNDLE); }
      RegisterUndo(REGISTER_BUNDLE);
      good := Next(HOST_CONFIG, ans);
      err := if good then None else Some(HOST_CONFIG);
    }

    /** The rootfs and the shm, each registered. */
    method PrepareShm(ans: Answers) returns (err: Option<Step>)
      requires Valid() && run.main == Work(REGISTER_ROOTFS)
      modifies this`world, this`retErr, this`run, this`events, rb
      ensures Valid() && if err.None? then run.main == Work(COPY_HOSTNAME) else Left(err)
      ensures Until(ans, before.bundle, REGISTER_ROOTFS, COPY_HOSTNAME, err)
    {
      RegisterUndo(REGISTER_ROOTFS);
      var good := Next(PREPARE_SHM, ans);
      if !good { return Some(PREPARE_SHM); }
      RegisterUndo(REGISTER_SHM);
      err := None;
    }

    /** The first half of `transform`: everything up to the mounted and registered shm. */
    method Acquisitions(ans: Answers) returns (err: Option<Step>)
      requires Valid() && run.main == Work(PAUSE) && world.bundle == before.bundle
      modifies this`world, this`retErr, this`run, this`events, this`v2File, rb
      ensures Valid() && if err.None? then run.main == Work(COPY_HOSTNAME) else Left(err)
      ensures Until(ans, before.bundle, PAUSE, COPY_HOSTNAME, err)
      ensures err.None? ==> v2File == Some(V2FileFor(tool, id, ans, AllOptions(tool, id, ans)))
    {
      err := PrepareBundle(ans);
      if err.Some? {
        UntilMore(ans, before.bundle, PAUSE, LOAD_V2, COPY_HOSTNAME, err);
        return;
      }
      var opts := R.HostOptions(ans.host.oomScoreAdj, ans.host.filesLimit)
        + [R.WithLogConfig(ans.host.log, BasePath(tool, id))];
      OptionsInOrder(tool, id, ans, opts);
      err := TransformV2Config(ans, opts);
      UntilBoth(ans, before.bundle, PAUSE, LOAD_V2, REGISTER_ROOTFS, err);
      if err.Some? {
        UntilMore(ans, before.bundle, PAUSE, REGISTER_ROOTFS, COPY_HOSTNAME, err);
        return;
      }
      err := PrepareShm(ans);
      UntilBoth(ans, before.bundle, PAUSE, REGISTER_ROOTFS, COPY_HOSTNAME, err);
    }

    /** `transformOciConfig`: the loaded spec is rewritten after config.v2.json, and saved; the root it had
        before is where the read-write layer is copied from. */
    method TransformOciConfig(ans: Answers, file: V2File, spec: R.Spec) returns (good: bool, oldRoot: string)
      requires Valid() && run.main == Work(OCI_CONFIG) && spec.Valid()
      modifies this`world, this`retErr, this`run, this`events, rb, spec, spec.namespaces, spec.mounts, spec.devices
      ensures Valid() && if good then run.main == Work(RW_LAYER) else Left(Some(OCI_CONFIG))
      ensures Until(ans, before.bundle, OCI_CONFIG, RW_LAYER, if good then None else Some(OCI_CONFIG))
      ensures spec.Valid() && spec.State() ==
        if good then R.Rewritten(old(spec.State()), file.config, file.baseFs, ans.host.spec) else old(spec.State())
      ensures good ==> oldRoot == old(spec.rootPath)
    {
      oldRoot := "";
      good := Next(OCI_CONFIG, ans);
      if good { oldRoot := spec.rootPath; }
      if good { spec.Reconcile(file.config, file.baseFs, ans.host.spec); }
    }

    /** Copies hostname, hosts and resolv.conf from where they were to the bundle directory. */
    method CopyNetworkFiles(ans: Answers, file: V2File) returns (err: Option<Step>)
      requires Valid() && run.main == Work(COPY_HOSTNAME) && copies == []
      modifies this`world, this`retErr, this`run, this`events, this`copies, rb
      ensures Valid() && if err.None? then run.main == Work(OCI_CONFIG) else Left(err)
      ensures Until(ans, before.bundle, COPY_HOSTNAME, OCI_CONFIG, err)
      ensures err.None? ==> copies == NetworkCopies(tool, id, file.config.net)
      ensures err.Some? ==> copies == NetworkCopies(tool, id, file.config.net)[..err.value - COPY_HOSTNAME]
    {
      for idx := 0 to 3
        invariant Valid() && run.main == Work(COPY_HOSTNAME + idx)
        invariant Until(ans, before.bundle, COPY_HOSTNAME, COPY_HOSTNAME + idx, None)
        invariant copies == NetworkCopies(tool, id, file.config.net)[..idx]
      {
        var copied := Next(COPY_HOSTNAME + idx, ans);
        if !copied { return Some(COPY_HOSTNAME + idx); }
        CopyStep(tool, id, file.config.net, idx);
        var name := NETWORK_FILES[idx];
        copies := copies + [(R.OriginNetworkFile(file.config.net, name), tool.GetNetworkFilePath(id, name))];
      }
      err := None;
    }

    /** The read-write layer and the runtime. */
    method Finish(ans: Answers) returns (err: Option<Step>)
      requires Valid() && run.main == Work(RW_LAYER)
      modifies this`world, this`retErr, this`run, this`events, rb
      ensures Valid() && Left(err)
      ensures Until(ans, before.bundle, RW_LAYER, LCR_CREATE + 1, err)
    {
      var good := Next(RW_LAYER, ans);
      if !good { return Some(RW_LAYER); }
      good := Next(MARSHAL_OCI, ans);
      if !good { return Some(MARSHAL_OCI); }
      good := Next(LCR_CREATE, ans);
      err := if good then None else Some(LCR_CREATE);
    }

    /** The second half: network files, OCI spec, read-write layer, runtime. */
    method Copies(ans: Answers, file: V2File, spec: R.Spec) returns (err: Option<Step>)
      requires Valid() && run.main == Work(COPY_HOSTNAME) && spec.Valid() && copies == []
      modifies this`world, this`retErr, this`run, this`events, this`copies, rb
      modifies spec, spec.namespaces, spec.mounts, spec.devices
      ensures Valid() && Left(err)
      ensures err.None? ==> copies == NetworkCopies(tool, id, file.config.net)
      ensures Until(ans, before.bundle, COPY_HOSTNAME, LCR_CREATE + 1, err)
      ensures spec.Valid()
      ensures err.None? ==> spec.State() == R.Rewritten(old(spec.State()), file.config, file.baseFs, ans.host.spec)
    {
      ghost var was := spec.State();
      err := CopyNetworkFiles(ans, file);
      assert spec.State() == was;
      if err.Some? {
        UntilMore(ans, before.bundle, COPY_HOSTNAME, OCI_CONFIG, LCR_CREATE + 1, err);
        return;
      }
      err := SpecAndLayer(ans, file, spec);
      UntilBoth(ans, before.bundle, COPY_HOSTNAME, OCI_CONFIG, LCR_CREATE + 1, err);
    }

    /** The OCI spec and what comes after it. */
    method SpecAndLayer(ans: Answers, file: V2File, spec: R.Spec) returns (err: Option<Step>)
      requires Valid() && run.main == Work(OCI_CONFIG) && spec.Valid()
      modifies this`world, this`retErr, this`run, this`events, rb
      modifies spec, spec.namespaces, spec.mounts, spec.devices
      ensures Valid() && Left(err)
      ensures Until(ans, before.bundle, OCI_CONFIG, LCR_CREATE + 1, err)
      ensures spec.Valid()
      ensures err.None? ==> spec.State() == R.Rewritten(old(spec.State()), file.config, file.baseFs, ans.host.spec)
    {
      var good, oldRoot := TransformOciConfig(ans, file, spec);
      if !good { return Some(OCI_CONFIG); }
      ghost var now := spec.State();
      err := Finish(ans);
      assert spec.State() == now;
      UntilBoth(ans, before.bundle, OCI_CONFIG, RW_LAYER, LCR_CREATE + 1, err);
    }

    /** The body of `transform`, up to its deferred function. */
    method Body(ans: Answers, spec: R.Spec) returns (err: Option<Step>)
      requires Valid() && run.main == Work(PAUSE) && world.bundle == before.bundle && spec.Valid() && copies == []
      modifies this`world, this`retErr, this`run, this`events, this`v2File, this`copies, rb
      modifies spec, spec.namespaces, spec.mounts, spec.devices
      ensures Valid() && Left(err)
      ensures Until(ans, before.bundle, PAUSE, LCR_CREATE + 1, err)
      ensures spec.Valid()
      ensures err.None? ==>
        var file := V2FileFor(tool, id, ans, AllOptions(tool, id, ans));
        && v2File == Some(file) && copies == NetworkCopies(tool, id, file.config.net)
        && spec.State() == R.Rewritten(old(spec.State()), file.config, file.baseFs, ans.host.spec)
    {
      ghost var was := spec.State();
      err := Acquisitions(ans);
      assert spec.State() == was;
      if err.Some? {
        UntilMore(ans, before.bundle, PAUSE, COPY_HOSTNAME, LCR_CREATE + 1, err);
        return;
      }
      var file := v2File.value;
      err := Copies(ans, file, spec);
      UntilBoth(ans, before.bundle, PAUSE, COPY_HOSTNAME, LCR_CREATE + 1, err);
    }

    /** `rollback.run`. */
    method RunRollback(ans: Answers)
      requires Valid() && run.main == Rolling(Load)
      modifies this`world, this`retErr, this`run, this`events, rb
      ensures Valid() && run.main == Sending && run.failedAt == old(run.failedAt)
      ensures rb.rbFuncs == old(rb.rbFuncs)
      ensures UndosOk(ans) ==> run.undoFailed == old(run.undoFailed)
      ensures Consistent(before) && UndosOk(ans) ==> AllReleased(rb.rbFuncs, world)
    {
      RollStarts(before, events);
      if rb.closed || rb.st {
        LeaveRollback();
        if Consistent(before) { PassReleases(before, events); }
        return;
      }
      StoreExecuted();
      CallUndos(ans);
      LeaveRollback();
      if Consistent(before) && UndosOk(ans) { PassReleases(before, events); }
    }

    /** Calls the undos from the last registered to the first. */
    method CallUndos(ans: Answers)
      requires Valid() && run.main == Rolling(Saga.Call(|rb.rbFuncs|))
      modifies this`world, this`retErr, this`run, this`events, rb
      ensures Valid() && run.main == Rolling(Saga.Call(0)) && run.failedAt == old(run.failedAt)
      ensures rb.rbFuncs == old(rb.rbFuncs)
      ensures UndosOk(ans) ==> run.undoFailed == old(run.undoFailed)
    {
      ghost var funcs := rb.rbFuncs;
      for i := |rb.rbFuncs| downto 0
        invariant rb.rbFuncs == funcs && Valid()
        invariant run.main == Rolling(Saga.Call(i)) && run.failedAt == old(run.failedAt)
        invariant UndosOk(ans) ==> run.undoFailed == old(run.undoFailed)
      {
        CallUndo(i, ans);
      }
    }

    /** `run` returns. */
    ghost method LeaveRollback()
      requires Valid() && run.main.Rolling? && NextPc(false, run, run.main.pc).None?
      modifies this`run, this`events
      ensures Valid() && run.main == Sending && run.failedAt == old(run.failedAt)
      ensures run.undoFailed == old(run.undoFailed)
    {
      Follow(Main(true, false));
    }

    method StoreExecuted()
      requires Valid() && run.main == Rolling(Load) && !rb.closed && !rb.st
      modifies this`world, this`retErr, this`run, this`events, rb
      ensures Valid() && run.main == Rolling(Saga.Call(|rb.rbFuncs|)) && run.failedAt == old(run.failedAt)
      ensures rb.rbFuncs == old(rb.rbFuncs) && run.undoFailed == old(run.undoFailed)
    {
      ghost var s := run;
      rb.st := true;
      Follow(Main(true, false));
      assert run == MainRoll(false, s, Load, true);
    }

    method CallUndo(i: nat, ans: Answers)
      requires Valid() && run.main == Rolling(Saga.Call(i + 1)) && i < |rb.rbFuncs|
      modifies this`world, this`retErr, this`run, this`events, rb
      ensures Valid() && run.main == Rolling(Saga.Call(i)) && run.failedAt == old(run.failedAt)
      ensures rb.rbFuncs == old(rb.rbFuncs)
      ensures ans.undoOk(i) ==> run.undoFailed == old(run.undoFailed)
    {
      ghost var s := run;
      world := ApplyUndo(world, rb.rbFuncs[i], ans.undoOk(i));
      Follow(Main(ans.undoOk(i), false));
      assert run == MainRoll(false, s, Saga.Call(i + 1), ans.undoOk(i));
    }

    /** `transform`: which step fails, in terms of the answers; what is left behind, in terms of the world
        before; and the files a successful run has written. */
    method Transform(ans: Answers, spec: R.Spec) returns (err: Option<Step>)
      requires Valid() && run == Start(before) && Consistent(before) && spec.Valid() && copies == []
      modifies this`world, this`retErr, this`run, this`events, this`v2File, this`copies, rb
      modifies spec, spec.namespaces, spec.mounts, spec.devices
      ensures Valid() && run.main.Returned? && err == run.failedAt
      ensures Until(ans, before.bundle, PAUSE, LCR_CREATE + 1, err)
      ensures err.Some? && UndosOk(ans) ==> (SameResources(world, before) <==> !Window(err.value))
      ensures err.None? ==> world.bundle && world.rootfs && world.shm
      ensures before.bundle ==> world.bundle && err.Some?
      ensures world.paused == (before.paused || err != Some(PAUSE))
      ensures spec.Valid()
      ensures err.None? ==> v2File.Some? && FilesAgree(tool, id, ans, v2File.value, old(spec.State()), spec.State())
      ensures err.None? ==> CopiesAgree(tool, id, ans, copies)
    {
      err := Execute(ans, spec);
      FilesDoAgree(tool, id, ans, old(spec.State()));
      CopiesDoAgree(tool, id, ans);
    }

    /** All of it, with the files as the functions above compute them. */
    method Execute(ans: Answers, spec: R.Spec) returns (err: Option<Step>)
      requires Valid() && run == Start(before) && Consistent(before) && spec.Valid() && copies == []
      modifies this`world, this`retErr, this`run, this`events, this`v2File, this`copies, rb
      modifies spec, spec.namespaces, spec.mounts, spec.devices
      ensures Valid() && run.main.Returned? && err == run.failedAt
      ensures Until(ans, before.bundle, PAUSE, LCR_CREATE + 1, err)
      ensures err.Some? && UndosOk(ans) ==> (SameResources(world, before) <==> !Window(err.value))
      ensures err.None? ==> world.bundle && world.rootfs && world.shm
      ensures before.bundle ==> world.bundle && err.Some?
      ensures world.paused == (before.paused || err != Some(PAUSE))
      ensures spec.Valid()
      ensures err.None? ==>
        var file := V2FileFor(tool, id, ans, AllOptions(tool, id, ans));
        && v2File == Some(file) && copies == NetworkCopies(tool, id, file.config.net)
        && spec.State() == R.Rewritten(old(spec.State()), file.config, file.baseFs, ans.host.spec)
    {
      err := Undertake(ans, spec);
      ghost var now := spec.State();
      Deferred(ans, err);
      assert spec.State() == now;
      Promise(before, events);
    }

    /** `rb.wait()` and the body. */
    method Undertake(ans: Answers, spec: R.Spec) returns (err: Option<Step>)
      requires Valid() && run == Start(before) && spec.Valid() && copies == []
      modifies this`world, this`retErr, this`run, this`events, this`v2File, this`copies, rb
      modifies spec, spec.namespaces, spec.mounts, spec.devices
      ensures Valid() && Left(err)
      ensures Until(ans, before.bundle, PAUSE, LCR_CREATE + 1, err)
      ensures spec.Valid()
      ensures err.None? ==>
        var file := V2FileFor(tool, id, ans, AllOptions(tool, id, ans));
        && v2File == Some(file) && copies == NetworkCopies(tool, id, file.config.net)
        && spec.State() == R.Rewritten(old(spec.State()), file.config, file.baseFs, ans.host.spec)
    {
      ghost var was := spec.State();
      Begin();
      assert spec.State() == was;
      err := Body(ans, spec);
    }

    /** The deferred function: roll back after an error, then close. */
    method Deferred(ans: Answers, ghost err: Option<Step>)
      requires Valid() && Left(err)
      modifies this`world, this`retErr, this`run, this`events, rb
      ensures Valid() && run.main.Returned? && run.failedAt == err
      ensures UndosOk(ans) ==> !run.undoFailed
    {
      if retErr {
        RollStarts(before, events);
        RunRollback(ans);
      } else {
        NothingFailed(before, events);
      }
      CloseRollback();
    }

    /** `rb.close()`; the channel is always free to take the value. */
    method CloseRollback()
      requires Valid() && run.main == Sending
      modifies this`world, this`retErr, this`run, this`events, rb
      ensures Valid() && run.main.Returned? && run.failedAt == old(run.failedAt)
      ensures run.undoFailed == old(run.undoFailed)
    {
      ghost var s := run;
      ExecInv(false, before, events);
      rb.Close();
      Follow(Main(true, false));
      assert run == s.(rb := s.rb.(slot := Some(true)), main := Closing);
      Follow(Main(true, false));
    }
  }

  predicate AllReleased(us: seq<Undo>, w: World) { forall i :: 0 <= i < |us| ==> Released(us[i], w) }

  ghost predicate UndosOk(ans: Answers) { forall i: nat :: ans.undoOk(i) }

  /** A rollback starts with no undo failed and a stored error. */
  lemma RollStarts(w0: World, es: seq<Event>)
    requires NoSignal(es) && Exec(false, w0, es).main == Rolling(Load)
    ensures var s := Exec(false, w0, es);
      !s.undoFailed && s.failedAt.Some? && s.failedAt != Some(MARSHAL_OCI)
  {
    ExecInv(false, w0, es);
    ExecQuiet(false, w0, es);
  }

  lemma NothingFailed(w0: World, es: seq<Event>)
    requires NoSignal(es) && Exec(false, w0, es).main == Sending && !Exec(false, w0, es).retErr
    ensures !Exec(false, w0, es).undoFailed
  {
    ExecInv(false, w0, es);
    ExecQuiet(false, w0, es);
  }

  /** A rollback whose undos succeed has released everything registered. */
  lemma PassReleases(w0: World, es: seq<Event>)
    requires NoSignal(es) && Consistent(w0)
    ensures var s := Exec(false, w0, es);
      s.main == Sending && s.failedAt.Some? && s.failedAt != Some(MARSHAL_OCI) && !s.undoFailed ==>
        AllReleased(s.rb.regs, s.world)
  {
    ExecInv(false, w0, es);
    ExecQuiet(false, w0, es);
    MainPassReleases(false, w0, es);
  }

  /** What the machine promises of a run that has returned without a signal. */
  lemma Promise(w0: World, es: seq<Event>)
    requires Consistent(w0) && NoSignal(es) && Exec(false, w0, es).main.Returned?
    ensures var s := Exec(false, w0, es);
      && (s.failedAt.Some? && !s.undoFailed ==> (SameResources(s.world, w0) <==> !Window(s.failedAt.value)))
      && (s.failedAt.None? ==> s.world.bundle && s.world.rootfs && s.world.shm)
      && (w0.bundle ==> s.world.bundle && s.failedAt.Some?)
      && s.world.paused == (w0.paused || s.failedAt != Some(PAUSE))
  {
    AllOrNothing(false, w0, es);
    ExecInv(false, w0, es);
    if w0.bundle { NoForeignDeletion(false, w0, es); }
    ExecPaused(false, w0, es);
  }
}
