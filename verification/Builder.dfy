/** Volumes and volume mounts of a mount pod. */
module Builder {
  import opened Strings
  import opened Command
  import opened MountInfo

  datatype Source = HostPath(path: string) | Secret(secretName: string)
  datatype Volume = Volume(name: string, source: Source)
  datatype VolumeMount = VolumeMount(name: string, mountPath: string)

  ghost predicate Named(volumes: seq<Volume>, name: string) {
    exists i | 0 <= i < |volumes| :: volumes[i].name == name
  }

  /** Every mount names a volume. */
  ghost predicate Resolved(volumes: seq<Volume>, mounts: seq<VolumeMount>) {
    forall j | 0 <= j < |mounts| :: Named(volumes, mounts[j].name)
  }

  lemma NamedGrows(volumes: seq<Volume>, more: seq<Volume>)
    ensures forall n :: Named(volumes + more, n) <==> Named(volumes, n) || Named(more, n)
  {
    var all := volumes + more;
    forall n ensures Named(all, n) <==> Named(volumes, n) || Named(more, n) {
      if Named(volumes, n) {
        var i :| 0 <= i < |volumes| && volumes[i].name == n;
        assert all[i].name == n;
      }
      if Named(more, n) {
        var i :| 0 <= i < |more| && more[i].name == n;
        assert all[|volumes| + i].name == n;
      }
    }
  }

  /** Besides configs and caches a pod has two host directories, and its secret for each of the RSA key and the
      configuration file that is set. */
  ghost predicate OwnVolume(setting: JfsSetting, v: Volume) {
    || v == Volume("jfs-dir", HostPath("/var/lib/juicefs/volume"))
    || v == Volume("jfs-root-dir", HostPath("/var/lib/juicefs/config"))
    || (setting.encryptRsaKey != "" && v == Volume("rsa-key", Secret(setting.secretName)))
    || (setting.initConfig != "" && v == Volume("init_config", Secret(setting.secretName)))
  }

  /** The community edition needs the key only for the format, which the init container runs. */
  ghost predicate OwnMount(setting: JfsSetting, m: VolumeMount) {
    || m == VolumeMount("jfs-dir", "/jfs")
    || m == VolumeMount("jfs-root-dir", "/root/.juicefs")
    || (setting.encryptRsaKey != "" && !setting.isCe && m == VolumeMount("rsa-key", "/root/.rsa"))
    || (setting.initConfig != "" && m == VolumeMount("init_config", "/root/.juicefs"))
  }

  ghost predicate InitMount(setting: JfsSetting, m: VolumeMount) {
    || (setting.encryptRsaKey != "" && setting.isCe && m == VolumeMount("rsa-key", "/root/.rsa"))
    || (setting.initConfig != "" && m == VolumeMount("init_config", "/root/.juicefs"))
  }

  method GetVolumes(setting: JfsSetting) returns (volumes: seq<Volume>)
    ensures forall v :: v in volumes <==> OwnVolume(setting, v)
  {
    volumes := [Volume("jfs-dir", HostPath("/var/lib/juicefs/volume")), Volume("jfs-root-dir", HostPath("/var/lib/juicefs/config"))];
    if setting.encryptRsaKey != "" {
      volumes := volumes + [Volume("rsa-key", Secret(setting.secretName))];
    }
    if setting.initConfig != "" {
      volumes := volumes + [Volume("init_config", Secret(setting.secretName))];
    }
  }

  method GetVolumeMounts(setting: JfsSetting) returns (mounts: seq<VolumeMount>)
    ensures forall m :: m in mounts <==> OwnMount(setting, m)
  {
    mounts := [VolumeMount("jfs-dir", POD_MOUNT_BASE), VolumeMount("jfs-root-dir", "/root/.juicefs")];
    if setting.encryptRsaKey != "" && !setting.isCe {
      mounts := mounts + [VolumeMount("rsa-key", "/root/.rsa")];
    }
    if setting.initConfig != "" {
      mounts := mounts + [VolumeMount("init_config", "/root/.juicefs")];
    }
  }

  /** The mounts only the init container has. */
  method InitMounts(setting: JfsSetting) returns (mounts: seq<VolumeMount>)
    ensures forall m :: m in mounts <==> InitMount(setting, m)
  {
    mounts := [];
    if setting.initConfig != "" {
      mounts := mounts + [VolumeMount("init_config", "/root/.juicefs")];
    }
    if setting.encryptRsaKey != "" && setting.isCe {
      mounts := mounts + [VolumeMount("rsa-key", "/root/.rsa")];
    }
  }

  lemma OwnMountsResolve(setting: JfsSetting, volumes: seq<Volume>, mounts: seq<VolumeMount>)
    requires forall v :: OwnVolume(setting, v) ==> v in volumes
    requires forall m | m in mounts :: OwnMount(setting, m) || InitMount(setting, m)
    ensures Resolved(volumes, mounts)
  {
    assert Volume("jfs-dir", HostPath("/var/lib/juicefs/volume")) in volumes;
    assert Volume("jfs-root-dir", HostPath("/var/lib/juicefs/config")) in volumes;
    assert setting.encryptRsaKey != "" ==> Volume("rsa-key", Secret(setting.secretName)) in volumes;
    assert setting.initConfig != "" ==> Volume("init_config", Secret(setting.secretName)) in volumes;
    forall j | 0 <= j < |mounts| ensures Named(volumes, mounts[j].name) {
      assert mounts[j] in mounts;
    }
  }

  /** Volume and mount `i` are config-(i + 1) and bring a secret to its path; each secret comes once. */
  ghost predicate Configs(volumes: seq<Volume>, mounts: seq<VolumeMount>, configs: map<string, string>) {
    && |volumes| == |mounts|
    && (forall i | 0 <= i < |volumes| :: IsConfig(volumes[i], mounts[i], i, configs))
    && (forall i, j | 0 <= i < j < |volumes| :: volumes[i].source != volumes[j].source)
    && SecretNames(volumes) == configs.Keys
  }

  function SecretNames(volumes: seq<Volume>): set<string> {
    set v | v in volumes && v.source.Secret? :: v.source.secretName
  }

  predicate IsConfig(v: Volume, m: VolumeMount, i: nat, configs: map<string, string>) {
    && v.name == m.name == "config-" + Decimal(i + 1)
    && v.source.Secret? && v.source.secretName in configs && m.mountPath == configs[v.source.secretName]
  }

  /** Whatever order the map yields its entries in. */
  method ConfigVolumes(configs: map<string, string>) returns (volumes: seq<Volume>, mounts: seq<VolumeMount>)
    ensures Configs(volumes, mounts, configs)
  {
    volumes, mounts := [], [];
    var i := 1;
    var keys := configs.Keys;
    while keys != {}
      invariant keys <= configs.Keys && i == |volumes| + 1 && |volumes| == |mounts|
      invariant forall j | 0 <= j < |volumes| :: IsConfig(volumes[j], mounts[j], j, configs)
      invariant forall a, b | 0 <= a < b < |volumes| :: volumes[a].source != volumes[b].source
      invariant SecretNames(volumes) == configs.Keys - keys
    {
      var k :| k in keys;
      var v, m := Volume("config-" + Decimal(i), Secret(k)), VolumeMount("config-" + Decimal(i), configs[k]);
      SecretAdded(volumes, v);
      keys, volumes, mounts, i := keys - {k}, volumes + [v], mounts + [m], i + 1;
    }
  }

  lemma SecretAdded(volumes: seq<Volume>, v: Volume)
    requires v.source.Secret?
    ensures SecretNames(volumes + [v]) == SecretNames(volumes) + {v.source.secretName}
    ensures v.source.secretName !in SecretNames(volumes) ==> forall i | 0 <= i < |volumes| :: volumes[i].source != v.source
  {
    assert v in volumes + [v];
    forall k | k in SecretNames(volumes) ensures k in SecretNames(volumes + [v]) {
      var u :| u in volumes && u.source == Secret(k);
      assert u in volumes + [v];
    }
    assert forall i | 0 <= i < |volumes| :: volumes[i] in volumes;
  }

  /** strings.TrimSpace. */
  function TrimSpace(s: string): string {
    if s != "" && IsSpace(s[0]) then TrimSpace(s[1..])
    else if s != "" && IsSpace(s[|s| - 1]) then TrimSpace(s[..|s| - 1])
    else s
  }

  /** Volume and mount of each cache directory agree, index by index, in name and path. */
  ghost predicate Paired(volumes: seq<Volume>, mounts: seq<VolumeMount>) {
    && |volumes| == |mounts|
    && forall i | 0 <= i < |mounts| :: volumes[i] == Volume(mounts[i].name, HostPath(mounts[i].mountPath))
  }

  /** The directories one mount option names. */
  function OptionDirs(opt: string): seq<string> {
    var optValStr := TrimSpace(opt);
    var optValPair := Split(optValStr, "=");
    if "cache-dir" <= optValStr && |optValPair| == 2 then Split(TrimSpace(optValPair[1]), ":") else []
  }

  function DirsOf(opts: seq<string>): seq<string> {
    if opts == [] then [] else DirsOf(opts[..|opts| - 1]) + OptionDirs(opts[|opts| - 1])
  }

  /** The cache directories of a mount command, in order, repeats included. */
  function CacheDirs(cmd: string): seq<string> {
    var cmdSplits := Split(cmd, " -o ");
    if |cmdSplits| != 2 then []
    else if !Contains(cmd, "cache-dir") then ["/var/jfsCache"]
    else DirsOf(Split(cmdSplits[1], ","))
  }

  function MountPaths(mounts: seq<VolumeMount>): seq<string> {
    seq(|mounts|, i requires 0 <= i < |mounts| => mounts[i].mountPath)
  }

  lemma MorePaths(mounts: seq<VolumeMount>, m: VolumeMount)
    ensures MountPaths(mounts + [m]) == MountPaths(mounts) + [m.mountPath]
  {
  }

  /** The name is the path without its first slash, the others turned into dashes. */
  ghost predicate NamedAfter(name: string, dir: string) {
    var d := if dir != "" && dir[0] == '/' then dir[1..] else dir;
    |name| == |d| && forall i | 0 <= i < |d| :: name[i] == if d[i] == '/' then '-' else d[i]
  }

  lemma {:induction false} ReplaceEach(s: string)
    ensures var r := ReplaceAll(s, '/', "-"); |r| == |s| && forall i | 0 <= i < |s| :: r[i] == if s[i] == '/' then '-' else s[i]
  {
    if s != "" {
      ReplaceEach(s[1..]);
    }
  }

  // ----- the cache directories of the setting are those of the command

  lemma FlagStart(s: string, i: nat)
    requires OccursAt(s, " -o ", i)
    ensures s[i] == ' ' && s[i + 1] == '-'
  {
    assert s[i..i + 4][0] == s[i] && s[i..i + 4][1] == s[i + 1];
  }

  /** " -o " stands in the line once, before the options. */
  lemma OneFlag(bin: string, source: string, path: string, options: string)
    requires Word(bin) && Word(source) && Word(path) && Word(options) && source[0] != '-' && path[0] != '-'
    ensures Split(bin + " " + source + " " + path + " -o " + options, " -o ") == [bin + " " + source + " " + path, options]
  {
    var head := bin + " " + source + " " + path;
    var s := head + " -o " + options;
    assert s[|head|..|head| + 4] == " -o ";
    assert forall i | 0 <= i < |head| :: s[i] == head[i];
    forall i: nat | i < |head| ensures !OccursAt(s, " -o ", i) {
      HeadSpaces(bin, source, path, i);
      if OccursAt(s, " -o ", i) {
        FlagStart(s, i);
      }
    }
    IndexIs(s, " -o ", |head|);
    assert s[..|head|] == head && s[|head| + 4..] == options;
    if Contains(options, " -o ") {
      FlagStart(options, Index(options, " -o "));
    }
    SplitFree(options, " -o ");
  }

  lemma HeadSpaces(bin: string, source: string, path: string, i: nat)
    requires Word(bin) && Word(source) && Word(path) && source[0] != '-' && path[0] != '-'
    requires i < |bin + " " + source + " " + path|
    ensures var head := bin + " " + source + " " + path; head[i] == ' ' ==> i + 1 < |head| && head[i + 1] != '-'
  {
    var head := bin + " " + source + " " + path;
    if i < |bin| {
      assert head[i] == bin[i];
    } else if i == |bin| {
      assert head[i + 1] == source[0];
    } else if i < |bin| + 1 + |source| {
      assert head[i] == source[i - |bin| - 1];
    } else if i == |bin| + 1 + |source| {
      assert head[i + 1] == path[0];
    } else {
      assert head[i] == path[i - |bin| - |source| - 2];
    }
  }

  lemma TrimWord(s: string)
    requires NoSpace(s)
    ensures TrimSpace(s) == s
  {
  }

  ghost predicate AllSpace(s: string) {
    forall i | 0 <= i < |s| :: IsSpace(s[i])
  }

  lemma {:induction false} TrimmedSpace(pre: string, core: string, post: string)
    requires AllSpace(pre) && AllSpace(post) && (core != "" ==> !IsSpace(core[0]) && !IsSpace(core[|core| - 1]))
    ensures TrimSpace(pre + core + post) == core
    decreases |pre| + |post|
  {
    var s := pre + core + post;
    if pre != "" {
      assert s[0] == pre[0] && s[1..] == pre[1..] + core + post;
      TrimmedSpace(pre[1..], core, post);
    } else if post != "" && core != "" {
      assert s[0] == core[0] && s[|s| - 1] == post[|post| - 1] && s[..|s| - 1] == pre + core + post[..|post| - 1];
      TrimmedSpace(pre, core, post[..|post| - 1]);
    } else if post != "" {
      assert s[0] == post[0] && s[1..] == pre + core + post[1..];
      TrimmedSpace(pre, core, post[1..]);
    } else {
      assert s == core;
    }
  }

  /** White space around an option is ignored. */
  lemma SpaceIgnored(pre: string, opt: string, post: string)
    requires AllSpace(pre) && AllSpace(post) && (opt != "" ==> !IsSpace(opt[0]) && !IsSpace(opt[|opt| - 1]))
    ensures OptionDirs(pre + opt + post) == OptionDirs(opt)
  {
    TrimmedSpace(pre, opt, post);
    TrimmedSpace("", opt, "");
    assert "" + opt + "" == opt;
  }

  /** An option names the directories it was made of. */
  lemma OptionDirsOf(dirs: seq<string>)
    requires dirs != [] && forall d | d in dirs :: ':' !in d
    requires NoSpace(Join(dirs, ":")) && '=' !in Join(dirs, ":")
    ensures OptionDirs("cache-dir=" + Join(dirs, ":")) == dirs
  {
    var value := Join(dirs, ":");
    var opt := "cache-dir=" + value;
    assert NoSpace("cache-dir=");
    TrimWord(opt);
    TrimWord(value);
    assert opt == "cache-dir" + ['='] + value && "cache-dir" <= opt;
    FirstChar("cache-dir", '=', value);
    ContainsChar(value, '=');
    SplitFree(value, "=");
    SplitJoin(dirs, ':');
  }

  /** The option says nothing about caches. */
  ghost predicate Unrelated(opt: string) {
    NoSpace(opt) && !("cache-dir" <= opt)
  }

  lemma UnrelatedNamesNone(opt: string)
    requires Unrelated(opt)
    ensures OptionDirs(opt) == []
  {
    TrimWord(opt);
  }

  lemma DirsOneMore(opts: seq<string>, opt: string)
    ensures DirsOf(opts + [opt]) == DirsOf(opts) + OptionDirs(opt)
  {
    assert (opts + [opt])[..|opts|] == opts;
  }

  lemma {:induction false} NoneBehind(opts: seq<string>, post: seq<string>)
    requires forall o | o in post :: Unrelated(o)
    ensures DirsOf(opts + post) == DirsOf(opts)
    decreases |post|
  {
    if post == [] {
      assert opts + post == opts;
    } else {
      var init, last := post[..|post| - 1], post[|post| - 1];
      NoneBehind(opts, init);
      UnrelatedNamesNone(last);
      DirsOneMore(opts + init, last);
      LastApart(opts, post);
    }
  }

  lemma LastApart(a: seq<string>, b: seq<string>)
    requires b != []
    ensures a + b == a + b[..|b| - 1] + [b[|b| - 1]]
  {
  }

  lemma DirsOfOptions(pre: seq<string>, opt: string, post: seq<string>)
    requires forall o | o in pre || o in post :: Unrelated(o)
    ensures DirsOf(pre + [opt] + post) == OptionDirs(opt)
  {
    NoneBehind([], pre);
    DirsOneMore(pre, opt);
    NoneBehind(pre + [opt], post);
    assert [] + pre == pre;
  }

  lemma {:induction false} JoinHolds(parts: seq<string>, k: nat, prefix: string) returns (i: nat)
    requires k < |parts| && prefix <= parts[k]
    ensures OccursAt(Join(parts, ","), prefix, i)
  {
    if k == 0 {
      i := 0;
      assert prefix <= Join(parts, ",");
      OccursFirst(Join(parts, ","), prefix);
    } else {
      var i' := JoinHolds(parts[1..], k - 1, prefix);
      OccursBehind(parts[0] + ",", Join(parts[1..], ","), prefix, i');
      i := |parts[0] + ","| + i';
    }
  }

  lemma LineInParts(setting: JfsSetting, options: seq<string>)
    ensures MountLine(setting, options) ==
      Binary(setting) + " " + Command.Source(setting) + " " + setting.mountPath + " -o " + Join(options, ",")
  {
    var bin, source, path, opts := Binary(setting), Command.Source(setting), setting.mountPath, Join(options, ",");
    JoinFive(bin, source, path, "-o", opts);
    assert " " + ("-o" + " " + opts) == " -o " + opts;
  }

  /** What the driver adds says nothing about caches. */
  lemma AddedUnrelated(setting: JfsSetting)
    requires PlainOptions(MountOptions(setting))
    ensures forall o | o in DriverOptions(setting) :: Unrelated(o)
  {
    forall o | o in DriverOptions(setting) ensures Unrelated(o) {
      assert o in MountOptions(setting);
      assert o[0] == 'm' || o[0] == 'f' || o[0] == 'r';
    }
  }

  lemma DirsOfCommand(setting: JfsSetting, options: seq<string>, k: nat)
    requires (setting.isCe || (Word(setting.source) && setting.source[0] != '-')) && Word(setting.mountPath) && setting.mountPath[0] != '-'
    requires PlainOptions(options) && k < |options| && "cache-dir" <= options[k] && NoParens(MountLine(setting, options))
    ensures CacheDirs(QuoteForShell(MountLine(setting, options))) == DirsOf(options)
  {
    var i := JoinHolds(options, k, "cache-dir");
    var head := Binary(setting) + " " + Command.Source(setting) + " " + setting.mountPath;
    LineSplits(setting, options);
    LineInParts(setting, options);
    OccursBehind(head + " -o ", Join(options, ","), "cache-dir", i);
    SplitJoin(options, ',');
  }

  /** Splitting the command at " -o " gives the options. */
  lemma LineSplits(setting: JfsSetting, options: seq<string>)
    requires (setting.isCe || (Word(setting.source) && setting.source[0] != '-')) && Word(setting.mountPath) && setting.mountPath[0] != '-'
    requires PlainOptions(options) && options != [] && NoParens(MountLine(setting, options))
    ensures QuoteForShell(MountLine(setting, options)) == MountLine(setting, options)
    ensures var cmdSplits := Split(MountLine(setting, options), " -o "); |cmdSplits| == 2 && cmdSplits[1] == Join(options, ",")
  {
    QuoteIsQuoted(MountLine(setting, options));
    QuotedLength(MountLine(setting, options));
    LineInParts(setting, options);
    JoinIsWord(options);
    Binaries();
    OneFlag(Binary(setting), Command.Source(setting), setting.mountPath, Join(options, ","));
  }

  lemma DirsOfListed(setting: JfsSetting, options: seq<string>, pre: seq<string>, dirs: seq<string>, post: seq<string>)
    requires (setting.isCe || (Word(setting.source) && setting.source[0] != '-')) && Word(setting.mountPath) && setting.mountPath[0] != '-'
    requires options == pre + ["cache-dir=" + Join(dirs, ":")] + post && PlainOptions(options)
    requires forall o | o in pre || o in post :: Unrelated(o)
    requires dirs != [] && '=' !in Join(dirs, ":") && forall d | d in dirs :: ':' !in d
    requires NoParens(MountLine(setting, options))
    ensures CacheDirs(QuoteForShell(MountLine(setting, options))) == dirs
  {
    var opt := "cache-dir=" + Join(dirs, ":");
    assert options[|pre|] == opt && opt in options;
    assert Join(dirs, ":") == opt[10..];
    DirsOfCommand(setting, options, |pre|);
    DirsOfOptions(pre, opt, post);
    OptionDirsOf(dirs);
  }

  /** Whatever other options there are, the cache directories of the mount command are those of the setting's
      cache-dir option. */
  lemma CacheDirsReadBack(setting: JfsSetting, pre: seq<string>, dirs: seq<string>, post: seq<string>)
    requires (setting.isCe || (Word(setting.source) && setting.source[0] != '-')) && Word(setting.mountPath) && setting.mountPath[0] != '-'
    requires setting.options == pre + ["cache-dir=" + Join(dirs, ":")] + post && PlainOptions(setting.options)
    requires forall o | o in pre || o in post :: !("cache-dir" <= o)
    requires dirs != [] && '=' !in Join(dirs, ":") && forall d | d in dirs :: ':' !in d
    requires NoParens(MountLine(setting, MountOptions(setting)))
    ensures CacheDirs(QuoteForShell(MountLine(setting, MountOptions(setting)))) == dirs
  {
    var added := DriverOptions(setting);
    AddedOptions(setting);
    AddedUnrelated(setting);
    forall o | o in pre || o in post ensures Unrelated(o) {
      assert o in setting.options;
    }
    assert MountOptions(setting) == pre + ["cache-dir=" + Join(dirs, ":")] + (post + added);
    DirsOfListed(setting, MountOptions(setting), pre, dirs, post + added);
  }

  /** A command that names no cache directory gets the default one. */
  lemma DefaultCacheDir(setting: JfsSetting, options: seq<string>)
    requires (setting.isCe || (Word(setting.source) && setting.source[0] != '-')) && Word(setting.mountPath) && setting.mountPath[0] != '-'
    requires PlainOptions(options) && options != [] && NoParens(MountLine(setting, options))
    requires !Contains(MountLine(setting, options), "cache-dir")
    ensures CacheDirs(QuoteForShell(MountLine(setting, options))) == ["/var/jfsCache"]
  {
    LineSplits(setting, options);
  }

  method GetCacheDirVolumes(cmd: string) returns (volumes: seq<Volume>, mounts: seq<VolumeMount>)
    ensures Paired(volumes, mounts) && MountPaths(mounts) == CacheDirs(cmd)
    ensures forall m | m in mounts ::
      if Contains(cmd, "cache-dir") then NamedAfter(m.name, m.mountPath) else m.name == "jfs-default-cache"
  {
    volumes, mounts := [], [];
    var cmdSplits := Split(cmd, " -o ");
    if |cmdSplits| != 2 {
      return;
    }
    if !Contains(cmd, "cache-dir") {
      return [Volume("jfs-default-cache", HostPath("/var/jfsCache"))], [VolumeMount("jfs-default-cache", "/var/jfsCache")];
    }
    volumes, mounts := OptionVolumes(Split(cmdSplits[1], ","));
  }

  method OptionVolumes(opts: seq<string>) returns (volumes: seq<Volume>, mounts: seq<VolumeMount>)
    ensures Paired(volumes, mounts) && MountPaths(mounts) == DirsOf(opts)
    ensures forall m | m in mounts :: NamedAfter(m.name, m.mountPath)
  {
    volumes, mounts := [], [];
    for i := 0 to |opts|
      invariant Paired(volumes, mounts) && MountPaths(mounts) == DirsOf(opts[..i])
      invariant forall m | m in mounts :: NamedAfter(m.name, m.mountPath)
    {
      assert opts[..i + 1][..i] == opts[..i];
      var optValStr := TrimSpace(opts[i]);
      var optValPair := Split(optValStr, "=");
      if "cache-dir" <= optValStr && |optValPair| == 2 {
        var cacheDirs := Split(TrimSpace(optValPair[1]), ":");
        volumes, mounts := AddDirs(volumes, mounts, cacheDirs);
      }
    }
    assert opts[..|opts|] == opts;
  }

  method AddDirs(vs: seq<Volume>, ms: seq<VolumeMount>, cacheDirs: seq<string>) returns (volumes: seq<Volume>, mounts: seq<VolumeMount>)
    requires Paired(vs, ms) && forall m | m in ms :: NamedAfter(m.name, m.mountPath)
    ensures Paired(volumes, mounts) && MountPaths(mounts) == MountPaths(ms) + cacheDirs
    ensures forall m | m in mounts :: NamedAfter(m.name, m.mountPath)
  {
    volumes, mounts := vs, ms;
    for j := 0 to |cacheDirs|
      invariant Paired(volumes, mounts) && MountPaths(mounts) == MountPaths(ms) + cacheDirs[..j]
      invariant forall m | m in mounts :: NamedAfter(m.name, m.mountPath)
    {
      ReplaceEach(TrimPrefix(cacheDirs[j], "/"));
      var name := ReplaceAll(TrimPrefix(cacheDirs[j], "/"), '/', "-");
      MorePaths(mounts, VolumeMount(name, cacheDirs[j]));
      volumes := volumes + [Volume(name, HostPath(cacheDirs[j]))];
      mounts := mounts + [VolumeMount(name, cacheDirs[j])];
      assert cacheDirs[..j + 1] == cacheDirs[..j] + [cacheDirs[j]];
    }
    assert cacheDirs[..|cacheDirs|] == cacheDirs;
  }

  lemma PairedResolves(volumes: seq<Volume>, mounts: seq<VolumeMount>)
    requires |volumes| == |mounts| && forall i | 0 <= i < |mounts| :: volumes[i].name == mounts[i].name
    ensures Resolved(volumes, mounts)
  {
  }

  /** The pod's volumes and mounts, part by part: its own, the config secrets, the cache directories. */
  datatype Parts = Parts(ownVolumes: seq<Volume>, ownMounts: seq<VolumeMount>, configVolumes: seq<Volume>, configMounts: seq<VolumeMount>,
                         cacheVolumes: seq<Volume>, cacheMounts: seq<VolumeMount>)
  {
    predicate Fit(volumes: seq<Volume>, mounts: seq<VolumeMount>) {
      volumes == ownVolumes + configVolumes + cacheVolumes && mounts == ownMounts + configMounts + cacheMounts
    }
  }

  /** The pod's own parts are what the setting asks for, and the config secrets come with them. */
  ghost predicate Complete(setting: JfsSetting, parts: Parts) {
    && (forall v :: v in parts.ownVolumes <==> OwnVolume(setting, v))
    && (forall m :: m in parts.ownMounts <==> OwnMount(setting, m))
    && Configs(parts.configVolumes, parts.configMounts, setting.configs)
  }

  /** The volumes and mounts of generateJuicePod, and what its init container mounts: what it needs itself, and all
      that the main container has so far. */
  method GenerateJuicePod(setting: JfsSetting) returns (volumes: seq<Volume>, mounts: seq<VolumeMount>, initMounts: seq<VolumeMount>,
                                                        ghost parts: Parts)
    ensures Resolved(volumes, mounts) && Resolved(volumes, initMounts)
    ensures parts.cacheVolumes == [] && parts.cacheMounts == [] && parts.Fit(volumes, mounts) && Complete(setting, parts)
    ensures forall m :: m in initMounts <==> setting.formatCmd != "" && (InitMount(setting, m) || m in mounts)
  {
    var ownVolumes := GetVolumes(setting);
    var ownMounts := GetVolumeMounts(setting);
    var configVolumes, configMounts := ConfigVolumes(setting.configs);
    PairedResolves(configVolumes, configMounts);
    NamedGrows(ownVolumes, configVolumes);
    OwnMountsResolve(setting, ownVolumes, ownMounts);
    volumes, mounts := ownVolumes + configVolumes, ownMounts + configMounts;
    initMounts := [];
    if setting.formatCmd != "" {
      var own := InitMounts(setting);
      OwnMountsResolve(setting, ownVolumes, own);
      initMounts := own + mounts;
    }
    parts := Parts(ownVolumes, ownMounts, configVolumes, configMounts, [], []);
    assert volumes + [] == volumes && mounts + [] == mounts;
  }

  /** For every setting and every order of its configs: each mount of the main and of the init container names
      a volume of the pod; the pod's own directories and secrets, the config secrets and the cache directories of the
      mount command are mounted where they belong, and nothing else is. */
  method PodVolumes(setting: JfsSetting) returns (volumes: seq<Volume>, mounts: seq<VolumeMount>, initMounts: seq<VolumeMount>,
                                                  ghost parts: Parts)
    ensures Resolved(volumes, mounts) && Resolved(volumes, initMounts)
    ensures parts.Fit(volumes, mounts) && Complete(setting, parts) && Paired(parts.cacheVolumes, parts.cacheMounts)
    ensures MountPaths(parts.cacheMounts) == CacheDirs(QuoteForShell(MountLine(setting, MountOptions(setting))))
    ensures forall m :: m in initMounts <==>
      setting.formatCmd != "" && (InitMount(setting, m) || m in parts.ownMounts + parts.configMounts)
  {
    volumes, mounts, initMounts, parts := GenerateJuicePod(setting);
    var cmd := GetCommand(setting);
    var cacheVolumes, cacheMounts := GetCacheDirVolumes(cmd);
    PairedResolves(cacheVolumes, cacheMounts);
    NamedGrows(volumes, cacheVolumes);
    assert volumes == parts.ownVolumes + parts.configVolumes && mounts == parts.ownMounts + parts.configMounts;
    volumes, mounts := volumes + cacheVolumes, mounts + cacheMounts;
    parts := parts.(cacheVolumes := cacheVolumes, cacheMounts := cacheMounts);
  }
}
