/** What a transform writes to config.v2.json (transform/docker/reconcile.go:44-168), option by option,
    in the words of the two file formats. */
module ConfigMeaning {
  import opened Paths
  import opened Options
  import opened Reconcile

  // ------------------------------------------------------------ numbers

  /** The number a string of digits stands for. */
  function Decode(s: string): int {
    if s == "" then 0 else 10 * Decode(s[..|s| - 1]) + (s[|s| - 1] as int - '0' as int)
  }

  predicate Digits(s: string) { s != "" && forall c :: c in s ==> '0' <= c <= '9' }

  lemma DigitIs(d: int)
    requires 0 <= d < 10
    ensures Digit(d) as int == '0' as int + d
  {
    if d < 5 {
      assert d == 0 || d == 1 || d == 2 || d == 3 || d == 4;
    } else {
      assert d == 5 || d == 6 || d == 7 || d == 8 || d == 9;
    }
  }

  lemma {:induction false} NatStringIs(n: nat)
    ensures Digits(NatString(n)) && Decode(NatString(n)) == n
    ensures n > 0 ==> NatString(n)[0] != '0'
  {
    DigitIs(n % 10);
    if n >= 10 {
      NatStringIs(n / 10);
      var s := NatString(n);
      assert s[..|s| - 1] == NatString(n / 10) && s[0] == NatString(n / 10)[0];
    } else {
      assert NatString(n)[..0] == "";
    }
  }

  /** Decimal notation: digits that decode to the number, without a leading zero, behind a minus sign
      for a negative one. */
  lemma ItoaIs(n: int)
    ensures n >= 0 ==> Digits(Itoa(n)) && Decode(Itoa(n)) == n
    ensures n < 0 ==> Itoa(n)[0] == '-' && Digits(Itoa(n)[1..]) && Decode(Itoa(n)[1..]) == -n
    ensures n > 0 ==> Itoa(n)[0] != '0'
    ensures n < 0 ==> Itoa(n)[1] != '0'
  {
    NatStringIs(if n < 0 then -n else n);
    if n < 0 { assert Itoa(n)[1..] == NatString(-n); }
  }

  // ------------------------------------------------------------ image names

  /** The characters of an image reference that end no name. */
  predicate NameChar(c: char) {
    || 'a' <= c <= 'z' || 'A' <= c <= 'Z' || '0' <= c <= '9'
    || c == '.' || c == '_' || c == '-' || c == '/' || c == ':'
  }

  lemma NameCharIs(c: char)
    ensures ImageChar(c) <==> NameChar(c)
  {
  }

  /** A name of allowed characters is kept whole, and a digest behind it is cut off. */
  lemma ImageNameKept(name: string, digest: string)
    requires forall c :: c in name ==> NameChar(c)
    ensures ImageRemoveSuffixDigest(name) == name
    ensures ImageRemoveSuffixDigest(name + "@" + digest) == name
  {
    forall c | c in name ensures ImageChar(c) { NameCharIs(c); }
    LongestRun(name, "");
    assert name + "" == name;
    LongestRun(name, "@" + digest);
    assert name + ("@" + digest) == name + "@" + digest;
  }

  /** The longest leading run is all there is to find. */
  lemma {:induction false} LongestRun(name: string, rest: string)
    requires forall c :: c in name ==> ImageChar(c)
    requires rest != "" ==> !ImageChar(rest[0])
    ensures ImageRemoveSuffixDigest(name + rest) == name
  {
    if name == "" {
      assert name + rest == rest;
    } else {
      assert (name + rest)[1..] == name[1..] + rest && name[0] in name;
      LongestRun(name[1..], rest);
    }
  }

  // ------------------------------------------------------------ annotations and fields

  predicate Has(v: V2, key: string, value: string) { key in v.annotations && v.annotations[key] == value }

  /** The value of an optional log option. */
  function Setting(cfg: LogConfig, key: string, default: string): string {
    if key in cfg.config then cfg.config[key] else default
  }

  /** `r` is `v` with the log configuration of a container's hostconfig.json. */
  predicate LogWritten(v: V2, r: V2, log: Option<LogConfig>, basePath: string) {
    if log.Some? && log.value.driver == "json-file" then
      var file := Join([basePath, "console.log"]);
      && r.logDriver == "json-file" && r.logPath == file
      && Has(r, "log.console.driver", "json-file") && Has(r, "log.console.file", file)
      && Has(r, "log.console.filerotate", Setting(log.value, "max-file", "7"))
      && Has(r, "log.console.filesize", Setting(log.value, "max-size", "30KB"))
      && SameKey(v, r, "log.console.tag") && SameKey(v, r, "log.console.facility")
    else if log.Some? && log.value.driver == "syslog" then
      && r.logDriver == "syslog" && r.logPath == v.logPath
      && Has(r, "log.console.driver", "syslog")
      && OptionalKey(v, r, "log.console.tag", log.value, "tag")
      && OptionalKey(v, r, "log.console.facility", log.value, "syslog-facility")
      && SameKey(v, r, "log.console.file")
      && SameKey(v, r, "log.console.filerotate") && SameKey(v, r, "log.console.filesize")
    else
      && r.logDriver == "json-file" && r.logPath == "none"
      && Has(r, "log.console.driver", "json-file") && Has(r, "log.console.file", "none")
      && Has(r, "log.console.filerotate", "7") && Has(r, "log.console.filesize", "30KB")
      && SameKey(v, r, "log.console.tag") && SameKey(v, r, "log.console.facility")
  }

  predicate OptionalKey(v: V2, r: V2, key: string, cfg: LogConfig, option: string) {
    if option in cfg.config then Has(r, key, cfg.config[option]) else SameKey(v, r, key)
  }

  /** A number of the host configuration is written unless it is zero. */
  predicate NumberWritten(v: V2, r: V2, key: string, n: int) {
    if n != 0 then Has(r, key, Itoa(n)) else SameKey(v, r, key)
  }

  lemma RequestedDistinct(oom: int, files: int, log: Option<LogConfig>, basePath: string, image: string, parent: string)
    ensures DistinctKinds(RequestedOptions(oom, files, log, basePath, image, parent))
    ensures WithLogConfig(log, basePath) in RequestedOptions(oom, files, log, basePath, image, parent)
    ensures WithImage(image) in RequestedOptions(oom, files, log, basePath, image, parent)
    ensures oom != 0 ==> WithOomScoreAdj(oom) in RequestedOptions(oom, files, log, basePath, image, parent)
    ensures files != 0 ==> WithFilesLimit(files) in RequestedOptions(oom, files, log, basePath, image, parent)
  {
    var opts := RequestedOptions(oom, files, log, basePath, image, parent);
    var n := |HostOptions(oom, files)|;
    assert opts[n] == WithLogConfig(log, basePath) && opts[n + 1] == WithImage(image);
    if oom != 0 { assert opts[0] == WithOomScoreAdj(oom); }
    if files != 0 { assert opts[n - 1] == WithFilesLimit(files); }
  }

  /** Nothing else in the request sets the key of a number that is zero. */
  lemma ZeroSetsNothing(oom: int, files: int, log: Option<LogConfig>, basePath: string, image: string, parent: string,
                        id: string)
    ensures var opts := RequestedOptions(oom, files, log, basePath, image, parent);
      forall i :: 0 <= i < |opts| ==>
        && (oom == 0 ==> "proc.oom_score_adj" !in Sets(opts[i], id))
        && (files == 0 ==> "files.limit" !in Sets(opts[i], id))
        && (opts[i].WithLogConfig? ==> opts[i] == WithLogConfig(log, basePath))
  {
  }

  lemma NumbersWritten(v: V2, oom: int, files: int, log: Option<LogConfig>, basePath: string, image: string,
                       parent: string)
    ensures var r := AppliedAll(v, RequestedOptions(oom, files, log, basePath, image, parent));
      NumberWritten(v, r, "proc.oom_score_adj", oom) && NumberWritten(v, r, "files.limit", files)
  {
    var opts := RequestedOptions(oom, files, log, basePath, image, parent);
    RequestedDistinct(oom, files, log, basePath, image, parent);
    ZeroSetsNothing(oom, files, log, basePath, image, parent, v.id);
    if oom != 0 {
      OptionReaches(v, opts, WithOomScoreAdj(oom), "proc.oom_score_adj");
    } else {
      KeepsKey(v, opts, "proc.oom_score_adj");
    }
    if files != 0 {
      OptionReaches(v, opts, WithFilesLimit(files), "files.limit");
    } else {
      KeepsKey(v, opts, "files.limit");
    }
  }

  /** A key of the log option is as the option sets it, or as before. */
  lemma LogKey(v: V2, opts: seq<V2Opt>, o: V2Opt, k: string)
    requires DistinctKinds(opts) && o in opts && o.WithLogConfig? && k in LOG_KEYS
    ensures KeyIs(v, AppliedAll(v, opts), Sets(o, v.id), k)
  {
    if k in Sets(o, v.id) {
      OptionReaches(v, opts, o, k);
    } else {
      var j :| 0 <= j < |opts| && opts[j] == o;
      forall i | 0 <= i < |opts| ensures k !in Sets(opts[i], v.id) {
        if i < j { assert !SameKind(opts[i], opts[j]); }
        if i > j { assert !SameKind(opts[j], opts[i]); }
        if i != j { OnlyLogSets(opts[i], v.id, k); }
      }
      KeepsKey(v, opts, k);
    }
  }

  lemma OnlyLogSets(o: V2Opt, id: string, k: string)
    requires !o.WithLogConfig? && k in LOG_KEYS
    ensures k !in Sets(o, id)
  {
  }

  lemma {:induction false} KeepsLog(v: V2, opts: seq<V2Opt>)
    requires forall i :: 0 <= i < |opts| ==> !opts[i].WithLogConfig?
    ensures var r := AppliedAll(v, opts); r.logDriver == v.logDriver && r.logPath == v.logPath
    decreases |opts|
  {
    if opts != [] { KeepsLog(Applied(v, opts[0]), opts[1..]); }
  }

  lemma {:induction false} LogFields(v: V2, opts: seq<V2Opt>, o: V2Opt)
    requires DistinctKinds(opts) && o in opts && o.WithLogConfig?
    ensures var r, w := AppliedAll(v, opts), WithFields(v, o); r.logDriver == w.logDriver && r.logPath == w.logPath
    decreases |opts|
  {
    if opts[0] == o {
      KeepsLog(Applied(v, o), opts[1..]);
    } else {
      FirstIsOther(opts, o);
      LogFields(Applied(v, opts[0]), opts[1..], o);
      LogFieldsApart(v, opts[0], o);
    }
  }

  lemma FirstIsOther(opts: seq<V2Opt>, o: V2Opt)
    requires DistinctKinds(opts) && o in opts && o.WithLogConfig? && opts[0] != o
    ensures !opts[0].WithLogConfig? && o in opts[1..]
  {
    var j :| 0 <= j < |opts| && opts[j] == o;
    assert !SameKind(opts[0], opts[j]) && opts[1..][j - 1] == o;
  }

  lemma LogFieldsApart(v: V2, x: V2Opt, o: V2Opt)
    requires !x.WithLogConfig? && o.WithLogConfig?
    ensures var w, w' := WithFields(v, o), WithFields(Applied(v, x), o);
      w'.logDriver == w.logDriver && w'.logPath == w.logPath
  {
    assert Applied(v, x).logPath == v.logPath && Applied(v, x).logDriver == v.logDriver;
  }

  const LOG_KEYS := ["log.console.driver", "log.console.file", "log.console.filerotate", "log.console.filesize",
                     "log.console.tag", "log.console.facility"]

  /** On the keys of the log, `r` is `v` with `m` put over it. */
  ghost predicate LogKeysAre(v: V2, r: V2, m: Annotations) {
    forall k :: k in LOG_KEYS ==> KeyIs(v, r, m, k)
  }

  predicate KeyIs(v: V2, r: V2, m: Annotations, k: string) {
    if k in m then Has(r, k, m[k]) else SameKey(v, r, k)
  }

  lemma SixKeys(v: V2, r: V2, m: Annotations)
    requires LogKeysAre(v, r, m)
    ensures KeyIs(v, r, m, "log.console.driver") && KeyIs(v, r, m, "log.console.file")
    ensures KeyIs(v, r, m, "log.console.filerotate") && KeyIs(v, r, m, "log.console.filesize")
    ensures KeyIs(v, r, m, "log.console.tag") && KeyIs(v, r, m, "log.console.facility")
  {
    assert LOG_KEYS[0] in LOG_KEYS && LOG_KEYS[1] in LOG_KEYS && LOG_KEYS[2] in LOG_KEYS;
    assert LOG_KEYS[3] in LOG_KEYS && LOG_KEYS[4] in LOG_KEYS && LOG_KEYS[5] in LOG_KEYS;
  }

  lemma JsonWritten(v: V2, r: V2, log: Option<LogConfig>, basePath: string)
    requires log.Some? && log.value.driver == "json-file" && LogKeysAre(v, r, LogAnnotations(log, basePath))
    requires r.logDriver == "json-file" && r.logPath == Join([basePath, "console.log"])
    ensures LogWritten(v, r, log, basePath)
  {
    SixKeys(v, r, LogAnnotations(log, basePath));
  }

  lemma SyslogWritten(v: V2, r: V2, log: Option<LogConfig>, basePath: string)
    requires log.Some? && log.value.driver == "syslog" && LogKeysAre(v, r, LogAnnotations(log, basePath))
    requires r.logDriver == "syslog" && r.logPath == v.logPath
    ensures LogWritten(v, r, log, basePath)
  {
    SixKeys(v, r, LogAnnotations(log, basePath));
  }

  lemma OtherLogWritten(v: V2, r: V2, log: Option<LogConfig>, basePath: string)
    requires log.Some? ==> log.value.driver != "json-file" && log.value.driver != "syslog"
    requires LogKeysAre(v, r, LogAnnotations(log, basePath)) && r.logDriver == "json-file" && r.logPath == "none"
    ensures LogWritten(v, r, log, basePath)
  {
    SixKeys(v, r, LogAnnotations(log, basePath));
  }

  lemma LogReaches(v: V2, opts: seq<V2Opt>, log: Option<LogConfig>, basePath: string)
    requires DistinctKinds(opts) && WithLogConfig(log, basePath) in opts
    ensures LogWritten(v, AppliedAll(v, opts), log, basePath)
  {
    var o, r := WithLogConfig(log, basePath), AppliedAll(v, opts);
    LogFields(v, opts, o);
    forall k | k in LOG_KEYS ensures KeyIs(v, r, LogAnnotations(log, basePath), k) { LogKey(v, opts, o, k); }
    if log.Some? && log.value.driver == "json-file" {
      JsonWritten(v, r, log, basePath);
    } else if log.Some? && log.value.driver == "syslog" {
      SyslogWritten(v, r, log, basePath);
    } else {
      OtherLogWritten(v, r, log, basePath);
    }
  }

  /** The log configuration, the numbers and the image of docker's files are in config.v2.json ... */
  predicate OptionsWritten(v: V2, r: V2, oom: int, files: int, log: Option<LogConfig>, basePath: string,
                           image: string)
  {
    && NumberWritten(v, r, "proc.oom_score_adj", oom) && NumberWritten(v, r, "files.limit", files)
    && LogWritten(v, r, log, basePath)
    && r.image == ImageRemoveSuffixDigest(image) && r.imageType == "oci"
  }

  /** ... and so is what does not depend on options: identity, network files with their origins, the shm
      path, the mount point of the rootfs, the state and the name. */
  predicate RestWritten(v: V2, r: V2, basePath: string) {
    && r.id == v.id && r.shmPath == Join([basePath, "mounts", "shm"])
    && r.net.hostname == Join([basePath, "hostname"]) && r.net.originHostname == v.net.hostname
    && r.net.hosts == Join([basePath, "hosts"]) && r.net.originHosts == v.net.hosts
    && r.net.resolv == Join([basePath, "resolv.conf"]) && r.net.originResolv == v.net.resolv
    && Has(r, "rootfs.mount", "/var/lib/isulad/mnt/rootfs") && !r.paused && !r.running
    && (v.name == "/" + r.name || (v.name == r.name && (v.name == "" || v.name[0] != '/')))
  }

  lemma RequestWritten(v: V2, oom: int, files: int, log: Option<LogConfig>, basePath: string, image: string,
                       parent: string)
    ensures var r := Reconciled(v, basePath, RequestedOptions(oom, files, log, basePath, image, parent));
      OptionsWritten(v, r, oom, files, log, basePath, image) && RestWritten(v, r, basePath)
  {
    var opts := RequestedOptions(oom, files, log, basePath, image, parent);
    RequestedDistinct(oom, files, log, basePath, image, parent);
    NumbersWritten(v, oom, files, log, basePath, image, parent);
    LogReaches(v, opts, log, basePath);
    ImageEndToEnd(v, opts, image);
    OnlyRootfs(v, AppliedAll(v, opts), Reconciled(v, basePath, opts), oom, files, log, basePath, image);
    RestIsWritten(v, basePath, opts);
  }

  lemma RestIsWritten(v: V2, basePath: string, opts: seq<V2Opt>)
    ensures RestWritten(v, Reconciled(v, basePath, opts), basePath)
  {
    OptionsKeepTheRest(v, opts);
    NameIs(v.name);
  }

  /** The name loses one leading slash. */
  lemma NameIs(name: string)
    ensures var r := TrimPrefix(name, "/"); name == "/" + r || (name == r && (name == "" || name[0] != '/'))
  {
  }

  /** The annotation that is added last changes no other. */
  lemma OnlyRootfs(v: V2, o: V2, r: V2, oom: int, files: int, log: Option<LogConfig>, basePath: string,
                   image: string)
    requires OptionsWritten(v, o, oom, files, log, basePath, image)
    requires r.annotations == o.annotations["rootfs.mount" := "/var/lib/isulad/mnt/rootfs"]
    requires r.logDriver == o.logDriver && r.logPath == o.logPath && r.image == o.image && r.imageType == o.imageType
    ensures OptionsWritten(v, r, oom, files, log, basePath, image)
  {
  }
}
