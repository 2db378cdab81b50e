/** What a transform writes to the OCI spec (transform/docker/reconcile.go:191-314), entry by entry, in
    the words of the specification. */
module SpecMeaning {
  import opened Paths
  import opened Options
  import opened Reconcile

  /** A file of the container's bundle directory. */
  function BundleFile(t: Tool, id: string, names: seq<string>): string {
    Join([t.graph, "engines", t.runtime, id] + names)
  }

  /** A mount whose destination is a network file or the shm reads from the bundle directory, the shm with
      its mode and size appended; every other mount is as it was. */
  predicate MountWritten(t: Tool, id: string, shmSize: int, was: OciMount, now: OciMount) {
    if was.destination == "/etc/hostname" then now == was.(source := BundleFile(t, id, ["hostname"]))
    else if was.destination == "/etc/hosts" then now == was.(source := BundleFile(t, id, ["hosts"]))
    else if was.destination == "/etc/resolv.conf" then now == was.(source := BundleFile(t, id, ["resolv.conf"]))
    else if was.destination == "/dev/shm" then
      now == was.(source := BundleFile(t, id, ["mounts", "shm"]),
                  options := was.options + ["mode=1777", "size=" + Itoa(shmSize)])
    else now == was
  }

  /** The path of a namespace: the 64 characters behind `container:` if the mode is of that form. */
  function SharedId(mode: string): string {
    if |mode| == 74 && mode[..10] == "container:" then mode[10..] else ""
  }

  predicate NamespaceWritten(modes: Modes, was: Namespace, now: Namespace) {
    && now.kind == was.kind
    && (was.kind == "ipc" ==> now.path == SharedId(modes.ipc))
    && (was.kind == "pid" ==> now.path == SharedId(modes.pid))
    && (was.kind == "network" ==> now.path == SharedId(modes.network))
    && (was.kind !in ["ipc", "pid", "network"] ==> now.path == "")
  }

  /** The devices with a colon in their path are gone, the others are there as often as before. */
  ghost predicate DevicesWritten(was: seq<Device>, now: seq<Device>) {
    forall d :: multiset(now)[d] == if ':' in d.path then 0 else multiset(was)[d]
  }

  /** An unprivileged container can use ptmx and the pseudo terminals, unless an entry denies them. */
  predicate CgroupDevicesWritten(privileged: bool, was: seq<CgroupDevice>, now: seq<CgroupDevice>) {
    if privileged then now == was
    else
      && was <= now && Listed(now, 5, 2) && Listed(now, 136, -1)
      && (Allows(now, 5, 2) <==> Allows(was, 5, 2) || !Listed(was, 5, 2))
      && (Allows(now, 136, -1) <==> Allows(was, 136, -1) || !Listed(was, 136, -1))
  }

  lemma FileIs(t: Tool, id: string, file: string)
    ensures Join([Join([t.GetRuntimePath(), id]), file]) == BundleFile(t, id, [file])
  {
    BaseIs(t, id);
    JoinNested([t.graph, "engines", t.runtime, id], file);
  }

  lemma PathIs(t: Tool, id: string, file: string)
    ensures t.GetNetworkFilePath(id, file) == BundleFile(t, id, [file])
  {
    FileIs(t, id, file);
    JoinNested([t.GetRuntimePath(), id], file);
    assert [t.GetRuntimePath(), id] + [file] == [t.GetRuntimePath(), id, file];
  }

  lemma ShmIs(t: Tool, id: string)
    ensures Join([Join([t.GetRuntimePath(), id]), "mounts", "shm"]) == BundleFile(t, id, ["mounts", "shm"])
  {
    var base, parts := Join([t.GetRuntimePath(), id]), [t.graph, "engines", t.runtime, id];
    FileIs(t, id, "mounts");
    JoinNested([base, "mounts"], "shm");
    assert [base, "mounts"] + ["shm"] == [base, "mounts", "shm"];
    JoinNested(parts + ["mounts"], "shm");
    assert parts + ["mounts"] + ["shm"] == parts + ["mounts", "shm"];
  }

  lemma BaseIs(t: Tool, id: string)
    ensures Join([t.GetRuntimePath(), id]) == Join([t.graph, "engines", t.runtime, id])
  {
    JoinNested([t.graph, "engines", t.runtime], id);
    assert [t.graph, "engines", t.runtime] + [id] == [t.graph, "engines", t.runtime, id];
  }

  lemma RemountedIs(t: Tool, id: string, v: V2, shmSize: int, m: OciMount)
    requires var base := Join([t.GetRuntimePath(), id]);
      && v.net.hostname == Join([base, "hostname"]) && v.net.hosts == Join([base, "hosts"])
      && v.net.resolv == Join([base, "resolv.conf"]) && v.shmPath == Join([base, "mounts", "shm"])
    ensures MountWritten(t, id, shmSize, m, Remounted(v, shmSize, m))
  {
    FileIs(t, id, "hostname");
    FileIs(t, id, "hosts");
    FileIs(t, id, "resolv.conf");
    ShmIs(t, id);
  }

  lemma SharedIdIs(mode: string)
    ensures SharedContainer(mode) == if SharedId(mode) == "" then None else Some(SharedId(mode))
  {
    assert "container" + ":" == "container:";
    if |mode| == 74 && mode[..10] == "container:" {
      assert mode == "container" + ":" + mode[10..];
      SplitColonIff(mode, "container", mode[10..]);
    } else if SharedContainer(mode).Some? {
      var id := SharedContainer(mode).value;
      SplitColonIff(mode, "container", id);
    }
  }

  lemma AdaptedIs(modes: Modes, ns: Namespace)
    ensures NamespaceWritten(modes, ns, Adapted(ns, modes))
  {
    SharedIdIs(modes.ipc);
    SharedIdIs(modes.pid);
    SharedIdIs(modes.network);
  }

  lemma DevicesAre(ds: seq<Device>)
    ensures DevicesWritten(ds, SupportedDevices(ds))
  {
    forall d ensures multiset(SupportedDevices(ds))[d] == if ':' in d.path then 0 else multiset(ds)[d] {
      SupportedExactly(ds, d);
    }
  }

  lemma CgroupDevicesAre(privileged: bool, ds: seq<CgroupDevice>)
    ensures CgroupDevicesWritten(privileged, ds, if privileged then ds else AddDevices(ds, MUST_DEVICES))
  {
    if !privileged {
      MustDevicesAllowedIff(ds);
      MustDevicesExact(ds);
    }
  }

  /** The parts of the spec that are entries of lists. */
  ghost predicate EntriesWritten(t: Tool, id: string, host: Host, was: SpecState, now: SpecState) {
    && |now.mounts| == |was.mounts| && |now.namespaces| == |was.namespaces|
    && (forall i :: 0 <= i < |was.mounts| ==> MountWritten(t, id, host.shmSize, was.mounts[i], now.mounts[i]))
    && (forall i :: 0 <= i < |was.namespaces| ==> NamespaceWritten(host.modes, was.namespaces[i], now.namespaces[i]))
    && DevicesWritten(was.devices, now.devices)
    && CgroupDevicesWritten(host.privileged, was.cgroupDevices, now.cgroupDevices)
  }

  lemma EntriesAre(t: Tool, id: string, host: Host, v: V2, baseFs: string, was: SpecState)
    requires var base := Join([t.GetRuntimePath(), id]);
      && v.net.hostname == Join([base, "hostname"]) && v.net.hosts == Join([base, "hosts"])
      && v.net.resolv == Join([base, "resolv.conf"]) && v.shmPath == Join([base, "mounts", "shm"])
    ensures EntriesWritten(t, id, host, was, Rewritten(was, v, baseFs, host))
  {
    forall m ensures MountWritten(t, id, host.shmSize, m, Remounted(v, host.shmSize, m)) {
      RemountedIs(t, id, v, host.shmSize, m);
    }
    forall ns ensures NamespaceWritten(host.modes, ns, Adapted(ns, host.modes)) { AdaptedIs(host.modes, ns); }
    DevicesAre(was.devices);
    CgroupDevicesAre(host.privileged, was.cgroupDevices);
  }
}
