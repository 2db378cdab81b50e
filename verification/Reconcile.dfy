/** Rewriting the container's configuration (transform/docker/reconcile.go), and the paths that
    several functions must agree on (pkg/isulad/isulad.go). */
module Reconcile {
  import opened Paths
  import opened Options
  import Claims

  type Annotations = map<string, string>

  // ------------------------------------------------------------ the bundle directory

  /** The parts of the iSulad tool that name paths. */
  datatype Tool = Tool(graph: string, runtime: string) {
    function GetRuntimePath(): string { Join([graph, "engines", runtime]) }

    function GetNetworkFilePath(id: string, file: string): string { Join([GetRuntimePath(), id, file]) }
  }

  const HOSTNAME := "hostname"
  const HOSTS := "hosts"
  const RESOLV := "resolv.conf"

  // ------------------------------------------------------------ options of config.v2.json

  datatype LogConfig = LogConfig(driver: string, config: map<string, string>)

  datatype V2Opt =
    | WithImage(image: string)
    | WithCgroupParent(cgroupParent: string)
    | WithOomScoreAdj(oomScore: int)
    | WithFilesLimit(filesLimit: int)
    | WithLogConfig(cfg: Option<LogConfig>, basePath: string)

  /** The fields of config.v2.json that are rewritten. */
  datatype V2 = V2(
    id: string, name: string, image: string, imageType: string, annotations: Annotations,
    logDriver: string, logPath: string, net: Network, shmPath: string, paused: bool, running: bool)

  datatype Network = Network(
    hostname: string, hosts: string, resolv: string,
    originHostname: string, originHosts: string, originResolv: string)

  /** `GetOriginNetworkFile` of types/isulad_v2.go: where a network file was before. */
  function OriginNetworkFile(net: Network, name: string): string {
    if name == HOSTNAME then net.originHostname
    else if name == HOSTS then net.originHosts
    else if name == RESOLV then net.originResolv
    else ""
  }

  const LOG_JSON := "json-file"
  const LOG_SYSLOG := "syslog"
  const DEFAULT_CGROUP_DIR := "/isulad"

  function Digit(d: int): char
    requires 0 <= d < 10
  {
    "0123456789"[d]
  }

  function NatString(n: nat): string {
    if n < 10 then [Digit(n)] else NatString(n / 10) + [Digit(n % 10)]
  }

  /** `strconv.Itoa`. */
  function Itoa(n: int): string { if n < 0 then "-" + NatString(-n) else NatString(n) }

  predicate ImageChar(c: char) {
    'a' <= c <= 'z' || 'A' <= c <= 'Z' || '0' <= c <= '9' || c in "._-/:"
  }

  /** The longest leading run of characters allowed in an image name. */
  function ImageRemoveSuffixDigest(reference: string): (r: string)
    ensures r <= reference && forall c :: c in r ==> ImageChar(c)
    ensures |r| < |reference| ==> !ImageChar(reference[|r|])
  {
    if reference == "" || !ImageChar(reference[0]) then ""
    else [reference[0]] + ImageRemoveSuffixDigest(reference[1..])
  }

  function CgroupDir(cgroupParent: string, id: string): string {
    if HasPrefix(cgroupParent, "/docker/") || !HasSuffix(cgroupParent, "/" + id) then DEFAULT_CGROUP_DIR
    else TrimSuffix(cgroupParent, "/" + id)
  }

  function GetOr(m: map<string, string>, key: string, default: string): string {
    if key in m then m[key] else default
  }

  /** The annotations a log configuration sets. */
  function LogAnnotations(cfg: Option<LogConfig>, basePath: string): Annotations {
    if cfg.Some? && cfg.value.driver == LOG_JSON then
      map["log.console.driver" := LOG_JSON, "log.console.file" := Join([basePath, "console.log"]),
          "log.console.filerotate" := GetOr(cfg.value.config, "max-file", "7"),
          "log.console.filesize" := GetOr(cfg.value.config, "max-size", "30KB")]
    else if cfg.Some? && cfg.value.driver == LOG_SYSLOG then
      map["log.console.driver" := LOG_SYSLOG]
        + (if "tag" in cfg.value.config then map["log.console.tag" := cfg.value.config["tag"]] else map[])
        + (if "syslog-facility" in cfg.value.config
           then map["log.console.facility" := cfg.value.config["syslog-facility"]] else map[])
    else
      map["log.console.driver" := LOG_JSON, "log.console.file" := "none",
          "log.console.filerotate" := "7", "log.console.filesize" := "30KB"]
  }

  /** The annotations an option sets for the container `id`. */
  function Sets(o: V2Opt, id: string): Annotations {
    match o
    case WithImage(_) => map[]
    case WithCgroupParent(parent) => map["cgroup.dir" := CgroupDir(parent, id)]
    case WithOomScoreAdj(score) => map["proc.oom_score_adj" := Itoa(score)]
    case WithFilesLimit(limit) => map["files.limit" := Itoa(limit)]
    case WithLogConfig(cfg, basePath) => LogAnnotations(cfg, basePath)
  }

  /** The fields an option sets besides annotations. */
  function WithFields(v: V2, o: V2Opt): V2 {
    match o
    case WithImage(image) => v.(image := ImageRemoveSuffixDigest(image), imageType := "oci")
    case WithLogConfig(cfg, basePath) =>
      if cfg.Some? && cfg.value.driver == LOG_JSON then
        v.(logDriver := LOG_JSON, logPath := Join([basePath, "console.log"]))
      else if cfg.Some? && cfg.value.driver == LOG_SYSLOG then v.(logDriver := LOG_SYSLOG)
      else v.(logDriver := LOG_JSON, logPath := "none")
    case _ => v
  }

  /** The effect of one option. */
  function Applied(v: V2, o: V2Opt): V2 {
    WithFields(v, o).(annotations := v.annotations + Sets(o, v.id))
  }

  function AppliedAll(v: V2, opts: seq<V2Opt>): V2
    decreases |opts|
  {
    if opts == [] then v else AppliedAll(Applied(v, opts[0]), opts[1..])
  }

  predicate SameKind(a: V2Opt, b: V2Opt) {
    || (a.WithImage? && b.WithImage?) || (a.WithCgroupParent? && b.WithCgroupParent?)
    || (a.WithOomScoreAdj? && b.WithOomScoreAdj?) || (a.WithFilesLimit? && b.WithFilesLimit?)
    || (a.WithLogConfig? && b.WithLogConfig?)
  }

  // ------------------------------------------------------------ options commute

  lemma SetsApart(a: V2Opt, b: V2Opt, id: string)
    requires !SameKind(a, b)
    ensures Sets(a, id).Keys !! Sets(b, id).Keys
  {
  }

  lemma UnionCommutes(m: Annotations, a: Annotations, b: Annotations)
    requires a.Keys !! b.Keys
    ensures m + a + b == m + b + a
  {
  }

  /** Options of different kinds commute. */
  lemma OptionsCommute(v: V2, a: V2Opt, b: V2Opt)
    requires !SameKind(a, b)
    ensures Applied(Applied(v, a), b) == Applied(Applied(v, b), a)
  {
    SetsApart(a, b, v.id);
    UnionCommutes(v.annotations, Sets(a, v.id), Sets(b, v.id));
    FieldsCommute(v, a, b);
    AppliedTwice(v, a, b);
    AppliedTwice(v, b, a);
  }

  lemma FieldsCommute(v: V2, a: V2Opt, b: V2Opt)
    requires !SameKind(a, b)
    ensures WithFields(WithFields(v, a), b) == WithFields(WithFields(v, b), a)
  {
  }

  lemma FieldsAndAnnotations(v: V2, m: Annotations, o: V2Opt)
    ensures WithFields(v.(annotations := m), o) == WithFields(v, o).(annotations := m)
    ensures WithFields(v, o).id == v.id
  {
  }

  lemma AppliedTwice(v: V2, a: V2Opt, b: V2Opt)
    ensures Applied(Applied(v, a), b)
      == WithFields(WithFields(v, a), b).(annotations := v.annotations + Sets(a, v.id) + Sets(b, v.id))
  {
    FieldsAndAnnotations(v, v.annotations, a);
    FieldsAndAnnotations(WithFields(v, a), v.annotations + Sets(a, v.id), b);
  }

  predicate DistinctKinds(opts: seq<V2Opt>) {
    forall i, j :: 0 <= i < j < |opts| ==> !SameKind(opts[i], opts[j])
  }

  /** An option can be moved to the front. */
  lemma {:induction false} PullFront(v: V2, opts: seq<V2Opt>, i: nat)
    requires i < |opts| && DistinctKinds(opts)
    ensures AppliedAll(v, opts) == AppliedAll(Applied(v, opts[i]), opts[..i] + opts[i + 1..])
    decreases |opts|
  {
    if i == 0 {
      assert opts[..0] + opts[1..] == opts[1..];
    } else {
      PullFront(Applied(v, opts[0]), opts[1..], i - 1);
      OptionsCommute(v, opts[0], opts[i]);
      assert (opts[..i] + opts[i + 1..])[1..] == opts[1..][..i - 1] + opts[1..][i..];
    }
  }

  /** Applying options of distinct kinds in any order gives the same configuration. */
  lemma {:induction false} OptionsAnyOrder(v: V2, opts: seq<V2Opt>, opts': seq<V2Opt>)
    requires DistinctKinds(opts) && DistinctKinds(opts')
    requires multiset(opts) == multiset(opts')
    ensures AppliedAll(v, opts) == AppliedAll(v, opts')
    decreases |opts|
  {
    if opts == [] {
      assert |multiset(opts')| == |opts'| == 0;
    } else {
      var o := opts[0];
      assert o in multiset(opts');
      var i :| 0 <= i < |opts'| && opts'[i] == o;
      WithoutOne(opts, opts', i);
      PullFront(v, opts', i);
      OptionsAnyOrder(Applied(v, o), opts[1..], opts'[..i] + opts'[i + 1..]);
    }
  }

  lemma WithoutOne(opts: seq<V2Opt>, opts': seq<V2Opt>, i: nat)
    requires opts != [] && i < |opts'| && opts'[i] == opts[0] && multiset(opts) == multiset(opts')
    ensures multiset(opts[1..]) == multiset(opts'[..i] + opts'[i + 1..])
  {
    SplitFirst(opts);
    SplitOff(opts', i);
  }

  lemma SplitFirst(opts: seq<V2Opt>)
    requires opts != []
    ensures multiset(opts[1..]) == multiset(opts) - multiset{opts[0]}
  {
    assert opts == [opts[0]] + opts[1..];
  }

  lemma SplitOff(opts: seq<V2Opt>, i: nat)
    requires i < |opts|
    ensures multiset(opts[..i] + opts[i + 1..]) == multiset(opts) - multiset{opts[i]}
  {
    assert opts == opts[..i] + [opts[i]] + opts[i + 1..];
  }

  /** The annotation keys the tool writes. */
  const OPTION_KEYS: set<string> :=
    {"cgroup.dir", "proc.oom_score_adj", "files.limit", "log.console.driver", "log.console.file",
     "log.console.filerotate", "log.console.filesize", "log.console.tag", "log.console.facility"}

  /** `r` is `v` but for the tool's own annotation keys and the fields that options set. */
  ghost predicate SameRest(v: V2, r: V2) {
    && (forall k :: k !in OPTION_KEYS ==>
          (k in r.annotations <==> k in v.annotations)
          && (k in v.annotations ==> r.annotations[k] == v.annotations[k]))
    && v.annotations.Keys <= r.annotations.Keys
    && r.id == v.id && r.name == v.name && r.net == v.net && r.shmPath == v.shmPath
  }

  lemma OptionKeepsTheRest(v: V2, o: V2Opt)
    ensures SameRest(v, Applied(v, o))
  {
    assert Sets(o, v.id).Keys <= OPTION_KEYS;
  }

  lemma SameRestTrans(v: V2, w: V2, r: V2)
    requires SameRest(v, w) && SameRest(w, r)
    ensures SameRest(v, r)
  {
  }

  /** Options only touch their own keys, and leave identity, name, network files and state alone. */
  lemma {:induction false} OptionsKeepTheRest(v: V2, opts: seq<V2Opt>)
    ensures SameRest(v, AppliedAll(v, opts))
    decreases |opts|
  {
    if opts != [] {
      OptionKeepsTheRest(v, opts[0]);
      OptionsKeepTheRest(Applied(v, opts[0]), opts[1..]);
      SameRestTrans(v, Applied(v, opts[0]), AppliedAll(v, opts));
    }
  }

  // ------------------------------------------------------------ an option reaches the result

  /** `r` has the key exactly if `v` has it, with the same value. */
  predicate SameKey(v: V2, r: V2, k: string) {
    (k in r.annotations <==> k in v.annotations) && (k in v.annotations ==> r.annotations[k] == v.annotations[k])
  }

  lemma {:induction false} KeepsKey(v: V2, opts: seq<V2Opt>, k: string)
    requires forall i :: 0 <= i < |opts| ==> k !in Sets(opts[i], v.id)
    ensures SameKey(v, AppliedAll(v, opts), k)
    decreases |opts|
  {
    if opts != [] {
      FieldsAndAnnotations(v, v.annotations, opts[0]);
      KeepsKey(Applied(v, opts[0]), opts[1..], k);
    }
  }

  /** What an option sets is in the result, whatever options of other kinds are applied with it. */
  lemma {:induction false} OptionReaches(v: V2, opts: seq<V2Opt>, o: V2Opt, k: string)
    requires DistinctKinds(opts) && o in opts && k in Sets(o, v.id)
    ensures var r := AppliedAll(v, opts); k in r.annotations && r.annotations[k] == Sets(o, v.id)[k]
    decreases |opts|
  {
    FieldsAndAnnotations(v, v.annotations, opts[0]);
    var w := Applied(v, opts[0]);
    if opts[0] == o {
      forall i | 0 <= i < |opts| - 1 ensures k !in Sets(opts[1..][i], w.id) {
        SetsApart(o, opts[i + 1], v.id);
      }
      KeepsKey(w, opts[1..], k);
    } else {
      OptionReaches(w, opts[1..], o, k);
    }
  }

  /** `genV2OptsFromHostCfg`. */
  function HostOptions(oomScoreAdj: int, filesLimit: int): seq<V2Opt> {
    (if oomScoreAdj != 0 then [WithOomScoreAdj(oomScoreAdj)] else [])
      + (if filesLimit != 0 then [WithFilesLimit(filesLimit)] else [])
  }

  /** The options one transform passes: those of the host configuration, then log, image, cgroup. */
  function RequestedOptions(oomScoreAdj: int, filesLimit: int, log: Option<LogConfig>, basePath: string,
                            image: string, cgroupParent: string): seq<V2Opt> {
    HostOptions(oomScoreAdj, filesLimit)
      + [WithLogConfig(log, basePath), WithImage(image), WithCgroupParent(cgroupParent)]
  }

  // ------------------------------------------------------------ reconcileV2Config

  class V2Config {
    var v: V2

    constructor (v: V2)
      ensures this.v == v
    {
      this.v := v;
    }

    method ApplyOption(o: V2Opt)
      modifies this
      ensures v == Applied(old(v), o)
    {
      v := v.(annotations := v.annotations + Sets(o, v.id));
      match o
      case WithImage(image) =>
        v := v.(image := ImageRemoveSuffixDigest(image), imageType := "oci");
      case WithLogConfig(cfg, basePath) =>
        if cfg.Some? && cfg.value.driver == LOG_JSON {
          v := v.(logDriver := LOG_JSON, logPath := Join([basePath, "console.log"]));
        } else if cfg.Some? && cfg.value.driver == LOG_SYSLOG {
          v := v.(logDriver := LOG_SYSLOG);
        } else {
          v := v.(logDriver := LOG_JSON, logPath := "none");
        }
      case _ =>
    }

    /** Applies the options, then points the network files and the shm into the bundle directory. */
    method Reconcile(basePath: string, opts: seq<V2Opt>)
      modifies this
      ensures v == Reconciled(old(v), basePath, opts)
    {
      assert opts[0..] == opts;
      for i := 0 to |opts|
        invariant AppliedAll(v, opts[i..]) == AppliedAll(old(v), opts)
      {
        assert opts[i..][1..] == opts[i + 1..];
        ApplyOption(opts[i]);
      }
      v := v.(net := v.net.(originHosts := v.net.hosts));
      v := v.(net := v.net.(hosts := Join([basePath, HOSTS])));
      v := v.(net := v.net.(originHostname := v.net.hostname));
      v := v.(net := v.net.(hostname := Join([basePath, HOSTNAME])));
      v := v.(net := v.net.(originResolv := v.net.resolv));
      v := v.(net := v.net.(resolv := Join([basePath, RESOLV])));
      v := v.(shmPath := Join([basePath, "mounts", "shm"]));
      v := v.(annotations := v.annotations["rootfs.mount" := "/var/lib/isulad/mnt/rootfs"]);
      v := v.(paused := false, running := false);
      v := v.(name := TrimPrefix(v.name, "/"));
    }
  }

  function Reconciled(v: V2, basePath: string, opts: seq<V2Opt>): V2 {
    var o := AppliedAll(v, opts);
    o.(net := Network(Join([basePath, HOSTNAME]), Join([basePath, HOSTS]), Join([basePath, RESOLV]),
                      o.net.hostname, o.net.hosts, o.net.resolv),
       shmPath := Join([basePath, "mounts", "shm"]),
       annotations := o.annotations["rootfs.mount" := "/var/lib/isulad/mnt/rootfs"],
       paused := false, running := false, name := TrimPrefix(o.name, "/"))
  }

  // ------------------------------------------------------------ the OCI spec

  datatype OciMount = OciMount(destination: string, source: string, options: seq<string>)

  datatype Device = Device(path: string)

  datatype CgroupDevice =
    CgroupDevice(kind: string, allow: bool, major: Option<int>, minor: Option<int>, access: string)

  /** The new source of a mount whose destination is a file or directory the tool provides. */
  function MountSource(v: V2, destination: string): Option<string> {
    if destination == "/etc/hostname" then Some(v.net.hostname)
    else if destination == "/etc/resolv.conf" then Some(v.net.resolv)
    else if destination == "/etc/hosts" then Some(v.net.hosts)
    else if destination == "/dev/shm" then Some(v.shmPath)
    else None
  }

  function Remounted(v: V2, shmSize: int, m: OciMount): OciMount {
    var m' := if m.destination == "/dev/shm"
      then m.(options := m.options + ["mode=1777", "size=" + Itoa(shmSize)]) else m;
    if MountSource(v, m.destination).Some? then m'.(source := MountSource(v, m.destination).value) else m'
  }

  /** A namespace of the spec; the host configuration has a mode for three kinds of them. */
  datatype Namespace = Namespace(kind: string, path: string)

  datatype Modes = Modes(ipc: string, pid: string, network: string)

  /** `strings.SplitN(mode, ":", 2)`, None when there is no colon. */
  function SplitColon(mode: string): Option<(string, string)> {
    if mode == "" then None
    else if mode[0] == ':' then Some(("", mode[1..]))
    else
      match SplitColon(mode[1..])
      case None => None
      case Some((first, rest)) => Some(([mode[0]] + first, rest))
  }

  /** The container whose namespace is shared, if the mode names one. */
  function SharedContainer(mode: string): Option<string> {
    match SplitColon(mode)
    case Some((first, rest)) => if first == "container" && |rest| == Claims.CONTAINER_ID_LEN then Some(rest) else None
    case None => None
  }

  function ModeOf(kind: string, modes: Modes): Option<string> {
    if kind == "ipc" then Some(modes.ipc)
    else if kind == "pid" then Some(modes.pid)
    else if kind == "network" then Some(modes.network)
    else None
  }

  /** The namespace with its path replaced. */
  function Adapted(ns: Namespace, modes: Modes): Namespace {
    var mode := ModeOf(ns.kind, modes);
    var shared := if mode.Some? then SharedContainer(mode.value) else None;
    ns.(path := if shared.Some? then shared.value else "")
  }

  predicate Supported(d: Device) { ':' !in d.path }

  /** The devices whose path holds no colon, in their order. */
  function SupportedDevices(ds: seq<Device>): seq<Device> {
    if ds == [] then []
    else
      var last := ds[|ds| - 1];
      SupportedDevices(ds[..|ds| - 1]) + (if Supported(last) then [last] else [])
  }

  const MUST_DEVICES: seq<(int, int)> := [(5, 2), (136, -1)]

  predicate HasDevice(ds: seq<CgroupDevice>, dev: (int, int)) {
    exists i :: 0 <= i < |ds| && ds[i].major == Some(dev.0) && ds[i].minor == Some(dev.1)
  }

  function AddDevice(ds: seq<CgroupDevice>, dev: (int, int)): seq<CgroupDevice> {
    if HasDevice(ds, dev) then ds else ds + [CgroupDevice("c", true, Some(dev.0), Some(dev.1), "rwm")]
  }

  function AddDevices(ds: seq<CgroupDevice>, devs: seq<(int, int)>): seq<CgroupDevice> {
    if devs == [] then ds else AddDevice(AddDevices(ds, devs[..|devs| - 1]), devs[|devs| - 1])
  }

  /** What the host configuration says about the spec. */
  datatype Host = Host(modes: Modes, shmSize: int, privileged: bool)

  /** The parts of the spec that are rewritten. */
  datatype SpecState = SpecState(
    annotations: Annotations, rootPath: string, cgroupsPath: string, namespaces: seq<Namespace>,
    mounts: seq<OciMount>, devices: seq<Device>, cgroupDevices: seq<CgroupDevice>)

  function AdaptedAll(ns: seq<Namespace>, modes: Modes): (r: seq<Namespace>)
    ensures |r| == |ns| && forall i :: 0 <= i < |ns| ==> r[i] == Adapted(ns[i], modes)
  {
    seq(|ns|, i requires 0 <= i < |ns| => Adapted(ns[i], modes))
  }

  function RemountedAll(ms: seq<OciMount>, v: V2, shmSize: int): (r: seq<OciMount>)
    ensures |r| == |ms| && forall i :: 0 <= i < |ms| ==> r[i] == Remounted(v, shmSize, ms[i])
  {
    seq(|ms|, i requires 0 <= i < |ms| => Remounted(v, shmSize, ms[i]))
  }

  /** The spec after `reconcileOciConfig`. */
  function Rewritten(s: SpecState, v: V2, baseFs: string, host: Host): SpecState {
    var annotations := OciAnnotations(s.annotations, v.annotations);
    SpecState(
      annotations, baseFs, Join([annotations["cgroup.dir"], v.id]),
      AdaptedAll(s.namespaces, host.modes), RemountedAll(s.mounts, v, host.shmSize),
      SupportedDevices(s.devices),
      if host.privileged then s.cgroupDevices else AddDevices(s.cgroupDevices, MUST_DEVICES))
  }

  class Spec {
    var annotations: Annotations
    var rootPath: string
    var cgroupsPath: string
    var namespaces: array<Namespace>
    var mounts: array<OciMount>
    var devices: array<Device>
    var deviceCount: nat              // s.Linux.Devices is the slice of this length
    var cgroupDevices: seq<CgroupDevice>

    ghost predicate Valid()
      reads this
    {
      deviceCount <= devices.Length
    }

    function State(): SpecState
      requires Valid()
      reads this, namespaces, mounts, devices
    {
      SpecState(annotations, rootPath, cgroupsPath, namespaces[..], mounts[..], devices[..deviceCount], cgroupDevices)
    }

    constructor (annotations: Annotations, namespaces: array<Namespace>, mounts: array<OciMount>,
                 devices: array<Device>, cgroupDevices: seq<CgroupDevice>)
      ensures Valid() && this.annotations == annotations
      ensures this.namespaces == namespaces && this.mounts == mounts && this.devices == devices
      ensures deviceCount == devices.Length && this.cgroupDevices == cgroupDevices
    {
      this.annotations, this.cgroupDevices := annotations, cgroupDevices;
      this.namespaces, this.mounts, this.devices := namespaces, mounts, devices;
      rootPath, cgroupsPath, deviceCount := "", "", devices.Length;
    }

    /** Copies the annotations of config.v2.json, in whatever order the map yields them. */
    method CopyAnnotations(from: Annotations)
      modifies this`annotations
      ensures annotations == old(annotations) + from
    {
      var rest := from.Keys;
      while rest != {}
        invariant rest <= from.Keys
        invariant annotations == old(annotations) + (map k | k in from && k !in rest :: from[k])
      {
        var k :| k in rest;
        annotations := annotations[k := from[k]];
        rest := rest - {k};
      }
      assert (map k | k in from && k !in rest :: from[k]) == from;
    }

    /** Annotations, and the cgroup path that follows from them. */
    method SyncAnnotations(v: V2)
      modifies this`annotations, this`cgroupsPath
      ensures annotations == OciAnnotations(old(annotations), v.annotations)
      ensures cgroupsPath == Join([annotations["cgroup.dir"], v.id])
    {
      CopyAnnotations(v.annotations);
      if "cgroup.dir" !in annotations {
        annotations := annotations["cgroup.dir" := DEFAULT_CGROUP_DIR];
      }
      cgroupsPath := Join([annotations["cgroup.dir"], v.id]);
    }

    method RewriteNamespaces(modes: Modes)
      modifies namespaces
      ensures namespaces[..] == AdaptedAll(old(namespaces[..]), modes)
    {
      for idx := 0 to namespaces.Length
        invariant forall i :: 0 <= i < idx ==> namespaces[i] == Adapted(old(namespaces[i]), modes)
        invariant forall i :: idx <= i < namespaces.Length ==> namespaces[i] == old(namespaces[i])
      {
        namespaces[idx] := Adapted(namespaces[idx], modes);
      }
    }

    method RewriteMounts(v: V2, shmSize: int)
      modifies mounts
      ensures mounts[..] == RemountedAll(old(mounts[..]), v, shmSize)
    {
      for idx := 0 to mounts.Length
        invariant forall i :: 0 <= i < idx ==> mounts[i] == Remounted(v, shmSize, old(mounts[i]))
        invariant forall i :: idx <= i < mounts.Length ==> mounts[i] == old(mounts[i])
      {
        mounts[idx] := Remounted(v, shmSize, mounts[idx]);
      }
    }

    /** Removes the devices that lxc does not support, in place. */
    method CompactDevices()
      requires Valid()
      modifies this`deviceCount, devices
      ensures Valid() && devices[..deviceCount] == SupportedDevices(old(devices[..deviceCount]))
    {
      ghost var was := devices[..deviceCount];
      var end := 0;
      for idx := 0 to deviceCount
        invariant deviceCount == |was| && end <= idx
        invariant devices[..end] == SupportedDevices(was[..idx])
        invariant forall i :: idx <= i < deviceCount ==> devices[i] == was[i]
      {
        var device := devices[idx];
        assert was[..idx + 1][..idx] == was[..idx];
        if Supported(device) {
          devices[end] := device;
          end := end + 1;
        }
      }
      assert was[..deviceCount] == was;
      deviceCount := end;
    }

    method AddMustDevices()
      modifies this`cgroupDevices
      ensures cgroupDevices == AddDevices(old(cgroupDevices), MUST_DEVICES)
    {
      for i := 0 to |MUST_DEVICES|
        invariant cgroupDevices == AddDevices(old(cgroupDevices), MUST_DEVICES[..i])
      {
        assert MUST_DEVICES[..i + 1][..i] == MUST_DEVICES[..i];
        var dev := MUST_DEVICES[i];
        if !HasDevice(cgroupDevices, dev) {
          cgroupDevices := cgroupDevices + [CgroupDevice("c", true, Some(dev.0), Some(dev.1), "rwm")];
        }
      }
      assert MUST_DEVICES[..|MUST_DEVICES|] == MUST_DEVICES;
    }

    /** `reconcileOciConfig`. */
    method Reconcile(v: V2, baseFs: string, host: Host)
      requires Valid()
      modifies this, namespaces, mounts, devices
      ensures Valid() && namespaces == old(namespaces) && mounts == old(mounts) && devices == old(devices)
      ensures State() == Rewritten(old(State()), v, baseFs, host)
    {
      SyncAnnotations(v);
      rootPath := baseFs;
      RewriteNamespaces(host.modes);
      if !host.privileged {
        AddMustDevices();
      }
      RewriteMounts(v, host.shmSize);
      CompactDevices();
    }
  }

  function OciAnnotations(oci: Annotations, v2: Annotations): (r: Annotations)
    ensures "cgroup.dir" in r
  {
    var merged := oci + v2;
    if "cgroup.dir" in merged then merged else merged["cgroup.dir" := DEFAULT_CGROUP_DIR]
  }

  // ------------------------------------------------------------ what the rewritten files agree on

  /** The OCI annotations agree with config.v2.json on every key of the latter, and keep their own. */
  lemma AnnotationsAgree(oci: Annotations, v2: Annotations)
    ensures var r := OciAnnotations(oci, v2);
      && (forall k :: k in v2 ==> k in r && r[k] == v2[k])
      && (forall k :: k in oci && k !in v2 ==> k in r && r[k] == oci[k])
      && (forall k :: k in r ==> k in oci || k in v2 || k == "cgroup.dir")
      && ("cgroup.dir" !in oci && "cgroup.dir" !in v2 ==> r["cgroup.dir"] == "/isulad")
  {
  }

  /** Annotations outside the tool's keys reach the OCI spec unchanged, whatever the options. */
  lemma AnnotationsFlow(v: V2, basePath: string, opts: seq<V2Opt>, oci: Annotations, k: string)
    requires k in v.annotations && k !in OPTION_KEYS && k != "rootfs.mount"
    ensures var r := OciAnnotations(oci, Reconciled(v, basePath, opts).annotations);
      k in r && r[k] == v.annotations[k]
  {
    OptionsKeepTheRest(v, opts);
  }

  /** Each network file is copied to the place its mount reads from, and the old path is kept. */
  lemma NetworkFilesAgree(t: Tool, v: V2, id: string, opts: seq<V2Opt>)
    ensures var r := Reconciled(v, Join([t.GetRuntimePath(), id]), opts);
      && MountSource(r, "/etc/hostname") == Some(t.GetNetworkFilePath(id, HOSTNAME))
      && MountSource(r, "/etc/hosts") == Some(t.GetNetworkFilePath(id, HOSTS))
      && MountSource(r, "/etc/resolv.conf") == Some(t.GetNetworkFilePath(id, RESOLV))
      && r.net.originHostname == v.net.hostname && r.net.originHosts == v.net.hosts
      && r.net.originResolv == v.net.resolv
  {
    OptionsKeepTheRest(v, opts);
    forall f ensures Join([Join([t.GetRuntimePath(), id]), f]) == t.GetNetworkFilePath(id, f) {
      JoinNested([t.GetRuntimePath(), id], f);
      assert [t.GetRuntimePath(), id] + [f] == [t.GetRuntimePath(), id, f];
    }
  }

  /** The image that is written is the one of the option, whatever other options there are. */
  lemma {:induction false} ImageEndToEnd(v: V2, opts: seq<V2Opt>, image: string)
    requires DistinctKinds(opts) && WithImage(image) in opts
    ensures var r := AppliedAll(v, opts); r.image == ImageRemoveSuffixDigest(image) && r.imageType == "oci"
    decreases |opts|
  {
    var o := opts[0];
    if o == WithImage(image) {
      KeepsImage(Applied(v, o), opts[1..]);
    } else {
      ImageEndToEnd(Applied(v, o), opts[1..], image);
    }
  }

  lemma {:induction false} KeepsImage(v: V2, opts: seq<V2Opt>)
    requires forall i :: 0 <= i < |opts| ==> !opts[i].WithImage?
    ensures var r := AppliedAll(v, opts); r.image == v.image && r.imageType == v.imageType
    decreases |opts|
  {
    if opts != [] { KeepsImage(Applied(v, opts[0]), opts[1..]); }
  }

  // ------------------------------------------------------------ shared namespaces

  lemma {:induction false} SplitColonIff(mode: string, first: string, rest: string)
    ensures SplitColon(mode) == Some((first, rest)) <==> mode == first + ":" + rest && ':' !in first
  {
    if mode != "" && mode[0] != ':' {
      if first != "" {
        SplitColonIff(mode[1..], first[1..], rest);
        assert first == [first[0]] + first[1..] && mode == [mode[0]] + mode[1..];
        assert first + ":" + rest == [first[0]] + (first[1..] + ":" + rest);
      } else {
        assert (first + ":" + rest)[0] == ':';
      }
    } else if mode != "" {
      if first != "" && first + ":" + rest == mode { assert first[0] == mode[0]; }
      assert first == "" ==> (mode[1..] == rest <==> mode == first + ":" + rest);
    }
  }

  /** The mode of a namespace of one of the three kinds is `mode`. */
  predicate HasMode(ns: Namespace, modes: Modes, mode: string) {
    || (ns.kind == "ipc" && modes.ipc == mode)
    || (ns.kind == "pid" && modes.pid == mode)
    || (ns.kind == "network" && modes.network == mode)
  }

  /** A namespace points to another container exactly when the mode of its kind is that container's
      full id behind `container:`, and to nothing otherwise, whatever it pointed to before. */
  lemma SharedNamespaceIff(ns: Namespace, modes: Modes, id: string)
    requires |id| == 64
    ensures var r := Adapted(ns, modes);
      && (r.path == id <==> HasMode(ns, modes, "container:" + id))
      && (r.path == "" || (|r.path| == 64 && HasMode(ns, modes, "container:" + r.path)))
      && r.kind == ns.kind
  {
    var mode := ModeOf(ns.kind, modes);
    assert "container" + ":" == "container:";
    if mode.Some? {
      SplitColonIff(mode.value, "container", id);
      SplitColonIff(mode.value, "container", Adapted(ns, modes).path);
    }
  }

  // ------------------------------------------------------------ the cgroup path

  lemma CleanCanonical(p: string)
    requires Canonical(p)
    ensures Clean(p) == p
  {
    RenderItems(p);
    PushAllOfRender(Items(p));
  }

  lemma CanonicalChild(dir: seq<string>, id: string)
    requires AllProper(dir) && Proper(id)
    ensures Canonical(Render(dir + [id])) && Items(Render(dir + [id])) == dir + [id]
  {
    assert AllProper(dir + [id]);
    ItemsRender(dir + [id]);
  }

  lemma RenderChild(dir: seq<string>, id: string)
    requires dir != []
    ensures Render(dir + [id]) == Render(dir) + "/" + id
  {
    JoinPartsAppend(dir, id);
    SlashFirst(JoinParts(dir), id);
  }

  lemma SlashFirst(a: string, b: string)
    ensures "/" + (a + "/" + b) == "/" + a + "/" + b
  {
  }

  /** The cgroup path of the OCI spec for a docker cgroup parent. */
  function FinalCgroup(cgroupParent: string, id: string): string { Join([CgroupDir(cgroupParent, id), id]) }

  /** From the docker configuration to the OCI spec: the options a transform passes are of distinct
      kinds, and the cgroup path written is that of the docker cgroup parent. */
  lemma CgroupEndToEnd(v: V2, oom: int, files: int, log: Option<LogConfig>, basePath: string, image: string,
                       parent: string, oci: Annotations)
    ensures var opts := RequestedOptions(oom, files, log, basePath, image, parent);
      && DistinctKinds(opts)
      && Join([OciAnnotations(oci, Reconciled(v, basePath, opts).annotations)["cgroup.dir"], v.id])
        == FinalCgroup(parent, v.id)
  {
    var opts := RequestedOptions(oom, files, log, basePath, image, parent);
    assert opts[|opts| - 1] == WithCgroupParent(parent);
    OptionReaches(v, opts, WithCgroupParent(parent), "cgroup.dir");
  }

  /** A container's cgroup is kept exactly when it is of the form dir/ID with a directory other than
      the root and outside docker's own. */
  lemma CgroupKeptIff(parent: string, id: string)
    requires Canonical(parent) && Proper(id)
    ensures FinalCgroup(parent, id) == parent <==>
      HasSuffix(parent, "/" + id) && !HasPrefix(parent, "/docker/") && parent != "/" + id
    ensures HasPrefix(parent, "/docker/") || !HasSuffix(parent, "/" + id) ==> FinalCgroup(parent, id) == "/isulad/" + id
  {
    if HasPrefix(parent, "/docker/") || !HasSuffix(parent, "/" + id) {
      DefaultCgroup(id);
    } else if parent == "/" + id {
      RootCgroup(id);
      assert |parent| == |id| + 1;
    } else {
      BelowDirectory(parent, id);
    }
  }

  lemma BelowDirectory(parent: string, id: string)
    requires Canonical(parent) && Proper(id) && HasSuffix(parent, "/" + id) && !HasPrefix(parent, "/docker/")
    requires parent != "/" + id
    ensures FinalCgroup(parent, id) == parent
  {
    var dir := CgroupDir(parent, id);
    assert parent == dir + ("/" + id) == dir + "/" + id;
    assert dir != "";
    JoinTwo(dir, id);
    CleanCanonical(parent);
  }

  /** Directly below the root the cgroup is lost: what is written is a relative path. */
  lemma RootCgroup(id: string)
    requires Proper(id)
    ensures FinalCgroup("/" + id, id) == id
  {
    var p := "/" + id;
    assert HasSuffix(p, p) && TrimSuffix(p, p) == "";
    assert !HasPrefix(p, "/docker/") by {
      if |p| >= 8 { assert p[7] == id[6] && id[6] in id; }
    }
    JoinTwo("", id);
    CleanProper(id);
  }

  lemma JoinTwo(dir: string, id: string)
    ensures dir != "" ==> Join([dir, id]) == Clean(dir + "/" + id)
    ensures dir == "" && id != "" ==> Join([dir, id]) == Clean(id)
  {
    JoinPartsAppend([dir], id);
    assert [dir] + [id] == [dir, id] && [dir, id][1..] == [id];
  }

  lemma CleanProper(id: string)
    requires Proper(id)
    ensures Clean(id) == id
  {
    SplitSlashFree(id);
    assert PushAll(false, [], [id]) == PushAll(false, [id], []) == [id];
    assert !HasPrefix(id, "/") by { assert id[0] in id; }
  }

  lemma DefaultCgroup(id: string)
    requires Proper(id)
    ensures var p := DEFAULT_CGROUP_DIR + "/" + id;
      Join([DEFAULT_CGROUP_DIR, id]) == p && HasSuffix(p, "/" + id) && !HasPrefix(p, "/docker/")
  {
    var p := DEFAULT_CGROUP_DIR + "/" + id;
    assert p == DEFAULT_CGROUP_DIR + ("/" + id) && p[1] == 'i';
    assert Proper("isulad");
    CanonicalChild(["isulad"], id);
    RenderChild(["isulad"], id);
    assert Render(["isulad"]) == DEFAULT_CGROUP_DIR;
    JoinTwo(DEFAULT_CGROUP_DIR, id);
    CleanCanonical(DEFAULT_CGROUP_DIR + "/" + id);
  }

  // ------------------------------------------------------------ devices

  /** The compaction keeps exactly the supported devices, each as often as before, in order. */
  lemma {:induction false} SupportedExactly(ds: seq<Device>, d: Device)
    ensures multiset(SupportedDevices(ds))[d] == if ':' in d.path then 0 else multiset(ds)[d]
    ensures forall i :: 0 <= i < |SupportedDevices(ds)| ==> ':' !in SupportedDevices(ds)[i].path
  {
    if ds != [] {
      var n := |ds| - 1;
      assert ds == ds[..n] + [ds[n]];
      SupportedExactly(ds[..n], d);
    }
  }

  lemma SupportedOne(d: Device)
    ensures SupportedDevices([d]) == if ':' in d.path then [] else [d]
  {
    assert SupportedDevices([]) == [] && [d][..0] == [];
  }

  lemma {:induction false} SupportedStable(a: seq<Device>, b: seq<Device>)
    ensures SupportedDevices(a + b) == SupportedDevices(a) + SupportedDevices(b)
  {
    if b == [] {
      assert a + b == a;
    } else {
      var n := |b| - 1;
      assert (a + b)[..|a| + n] == a + b[..n];
      SupportedStable(a, b[..n]);
    }
  }

  /** Adding the required devices only appends, makes every one present, and adds nothing twice. */
  lemma {:induction false} DevicesAdded(ds: seq<CgroupDevice>, devs: seq<(int, int)>)
    ensures ds <= AddDevices(ds, devs)
    ensures forall i :: 0 <= i < |devs| ==> HasDevice(AddDevices(ds, devs), devs[i])
  {
    if devs != [] {
      var n := |devs| - 1;
      DevicesAdded(ds, devs[..n]);
      var before := AddDevices(ds, devs[..n]);
      var after := AddDevice(before, devs[n]);
      forall dev | HasDevice(before, dev) ensures HasDevice(after, dev) {
        var i :| 0 <= i < |before| && before[i].major == Some(dev.0) && before[i].minor == Some(dev.1);
        assert after[i] == before[i];
      }
      assert HasDevice(after, devs[n]) by {
        if !HasDevice(before, devs[n]) {
          assert after[|before|].major == Some(devs[n].0) && after[|before|].minor == Some(devs[n].1);
        }
      }
      assert forall i :: 0 <= i < n ==> devs[..n][i] == devs[i];
    }
  }

  /** An entry of the device cgroup names these numbers. */
  predicate Names(d: CgroupDevice, major: int, minor: int) { d.major == Some(major) && d.minor == Some(minor) }

  predicate Listed(ds: seq<CgroupDevice>, major: int, minor: int) {
    exists i :: 0 <= i < |ds| && Names(ds[i], major, minor)
  }

  /** What is added: ptmx and the pseudo terminals, each unless some entry names it already. */
  lemma MustDevicesExact(ds: seq<CgroupDevice>)
    ensures var ptmx := if Listed(ds, 5, 2) then [] else [CgroupDevice("c", true, Some(5), Some(2), "rwm")];
      var pts := if Listed(ds, 136, -1) then [] else [CgroupDevice("c", true, Some(136), Some(-1), "rwm")];
      AddDevices(ds, MUST_DEVICES) == ds + ptmx + pts
  {
    var one := AddDevice(ds, (5, 2));
    assert MUST_DEVICES[..1] == [(5, 2)] && MUST_DEVICES[..1][..0] == [];
    assert AddDevices(ds, [(5, 2)]) == one;
    assert HasDevice(ds, (5, 2)) <==> Listed(ds, 5, 2);
    assert HasDevice(one, (136, -1)) <==> Listed(ds, 136, -1) by {
      forall i | 0 <= i < |ds| ensures one[i] == ds[i] {}
    }
  }

  predicate Allows(ds: seq<CgroupDevice>, major: int, minor: int) {
    exists i :: 0 <= i < |ds| && ds[i].allow && Names(ds[i], major, minor)
  }

  /** The required devices are always named afterwards. They are allowed exactly if an entry allowed them
      before or no entry named them: an entry that denies one is taken for the device itself. */
  lemma MustDevicesAllowedIff(ds: seq<CgroupDevice>)
    ensures var r := AddDevices(ds, MUST_DEVICES);
      && Listed(r, 5, 2) && Listed(r, 136, -1)
      && (Allows(r, 5, 2) <==> Allows(ds, 5, 2) || !Listed(ds, 5, 2))
      && (Allows(r, 136, -1) <==> Allows(ds, 136, -1) || !Listed(ds, 136, -1))
  {
    MustDevicesExact(ds);
    var ptmx := if Listed(ds, 5, 2) then [] else [CgroupDevice("c", true, Some(5), Some(2), "rwm")];
    var pts := if Listed(ds, 136, -1) then [] else [CgroupDevice("c", true, Some(136), Some(-1), "rwm")];
    ListedAppend(ds, ptmx, 5, 2);
    ListedAppend(ds + ptmx, pts, 5, 2);
    ListedAppend(ds, ptmx, 136, -1);
    ListedAppend(ds + ptmx, pts, 136, -1);
    assert ptmx != [] ==> Names(ptmx[0], 5, 2);
    assert pts != [] ==> Names(pts[0], 136, -1);
  }

  lemma ListedAppend(a: seq<CgroupDevice>, b: seq<CgroupDevice>, major: int, minor: int)
    ensures Listed(a + b, major, minor) <==> Listed(a, major, minor) || Listed(b, major, minor)
    ensures Allows(a + b, major, minor) <==> Allows(a, major, minor) || Allows(b, major, minor)
  {
    var ab := a + b;
    assert forall i :: 0 <= i < |a| ==> ab[i] == a[i];
    assert forall i :: 0 <= i < |b| ==> ab[|a| + i] == b[i];
    forall i | |a| <= i < |ab| ensures ab[i] == b[i - |a|] {}
  }

  lemma {:induction false} NothingMissing(ds: seq<CgroupDevice>, devs: seq<(int, int)>)
    requires forall i :: 0 <= i < |devs| ==> HasDevice(ds, devs[i])
    ensures AddDevices(ds, devs) == ds
  {
    if devs != [] { NothingMissing(ds, devs[..|devs| - 1]); }
  }

  lemma AddingTwice(ds: seq<CgroupDevice>, devs: seq<(int, int)>)
    ensures AddDevices(AddDevices(ds, devs), devs) == AddDevices(ds, devs)
  {
    DevicesAdded(ds, devs);
    NothingMissing(AddDevices(ds, devs), devs);
  }
}
