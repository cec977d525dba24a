/** The mount command the builder prints and the driver reads back out of the pod. */
module Command {
  import opened Wrappers
  import opened Strings
  import opened Paths

  const POD_MOUNT_BASE := "/jfs"
  const CE_MOUNT_PATH := "/bin/mount.juicefs"
  const JFS_MOUNT_PATH := "/sbin/mount.juicefs"

  datatype JfsSetting = JfsSetting(
    isCe: bool,
    volumeId: string,
    source: string,
    mountPath: string,
    options: seq<string>,
    encryptRsaKey: string,
    initConfig: string,
    formatCmd: string,
    secretName: string,
    configs: map<string, string>)

  function QuoteForShell(cmd: string): string {
    var c := if Contains(cmd, "(") then ReplaceAll(cmd, '(', "\\(") else cmd;
    if Contains(c, ")") then ReplaceAll(c, ')', "\\)") else c
  }

  /** Returns the mount path and the volume id, none if the command is not a mount command. */
  function ParseMntPath(cmd: string): Option<(string, string)> {
    var args := Fields(cmd);
    if |args| < 3 || !(POD_MOUNT_BASE <= args[2]) then None
    else
      var argSlice := Split(args[2], "/");
      if |argSlice| < 3 then None else Some((args[2], argSlice[2]))
  }

  /** GetMountPathOfPod, from the command of the pod's first container. */
  function MountPathOfCommand(command: seq<string>): Option<(string, string)> {
    if |command| < 3 then None else ParseMntPath(command[2])
  }

  method ContainsString(items: seq<string>, s: string) returns (r: bool)
    ensures r <==> s in items
  {
    for i := 0 to |items|
      invariant s !in items[..i]
    {
      if items[i] == s {
        return true;
      }
    }
    return false;
  }

  /** The line the builder prints, for some list of options. */
  function MountLine(setting: JfsSetting, options: seq<string>): string {
    Join(MountArgs(setting, options), " ")
  }

  function Binary(setting: JfsSetting): string {
    if setting.isCe then CE_MOUNT_PATH else JFS_MOUNT_PATH
  }

  function Source(setting: JfsSetting): string {
    if setting.isCe then "${metaurl}" else setting.source
  }

  function MountArgs(setting: JfsSetting, options: seq<string>): seq<string> {
    [Binary(setting), Source(setting), setting.mountPath, "-o", Join(options, ",")]
  }

  /** The user's options and those the driver adds. */
  function MountOptions(setting: JfsSetting): seq<string> {
    setting.options + DriverOptions(setting)
  }

  function DriverOptions(setting: JfsSetting): seq<string> {
    if setting.isCe then if "metrics" in setting.options then [] else ["metrics=0.0.0.0:9567"]
    else ["foreground"] + if setting.encryptRsaKey != "" then ["rsa-key=/root/.rsa/rsa-key.pem"] else []
  }

  method GetCommand(setting: JfsSetting) returns (cmd: string)
    ensures cmd == QuoteForShell(MountLine(setting, MountOptions(setting)))
  {
    var options := setting.options;
    if setting.isCe {
      var mountArgs := [CE_MOUNT_PATH, "${metaurl}", setting.mountPath];
      var metrics := ContainsString(options, "metrics");
      if !metrics {
        options := options + ["metrics=0.0.0.0:9567"];
      }
      mountArgs := mountArgs + ["-o", Join(options, ",")];
      cmd := Join(mountArgs, " ");
      assert options == MountOptions(setting) && mountArgs == MountArgs(setting, options);
    } else {
      var mountArgs := [JFS_MOUNT_PATH, setting.source, setting.mountPath];
      options := options + ["foreground"];
      if setting.encryptRsaKey != "" {
        options := options + ["rsa-key=/root/.rsa/rsa-key.pem"];
      }
      mountArgs := mountArgs + ["-o", Join(options, ",")];
      cmd := Join(mountArgs, " ");
      assert options == MountOptions(setting) && mountArgs == MountArgs(setting, options);
    }
    return QuoteForShell(cmd);
  }

  /** MountFs and NewMountPod for a mount pod: the command whose mount path is the volume's. */
  method MountCommand(setting: JfsSetting) returns (command: seq<string>)
    requires setting.volumeId !in ["", ".", ".."] && '/' !in setting.volumeId && (setting.isCe || Word(setting.source))
    ensures MountPathOfCommand(command) == Some((POD_MOUNT_BASE + "/" + setting.volumeId, setting.volumeId))
      <==> Plain(setting.volumeId)
    ensures var setting' := setting.(mountPath := "/jfs/" + setting.volumeId);
      command == ["sh", "-c", QuoteForShell(MountLine(setting', MountOptions(setting')))]
  {
    var setting' := setting.(mountPath := JoinPath(POD_MOUNT_BASE, setting.volumeId));
    var cmd := GetCommand(setting');
    JoinChild("jfs", setting.volumeId);
    assert "/" + "jfs" == POD_MOUNT_BASE && "/jfs" + "/" == "/jfs/";
    assert setting'.mountPath == "/jfs/" + setting.volumeId;
    CommandRoundTrip(setting', MountOptions(setting'));
    return ["sh", "-c", cmd];
  }

  // ----- QuoteForShell, character by character, and its inverse

  function Quoted(s: string): string {
    if s == "" then "" else (if s[0] in "()" then ['\\', s[0]] else [s[0]]) + Quoted(s[1..])
  }

  /** What the shell makes of it: a backslash before a parenthesis goes. */
  function Unquoted(s: string): string {
    if s == "" then ""
    else if |s| > 1 && s[0] == '\\' && s[1] in "()" then [s[1]] + Unquoted(s[2..])
    else [s[0]] + Unquoted(s[1..])
  }

  lemma {:induction false} ReplaceAbsent(s: string, c: char, r: string)
    requires c !in s
    ensures ReplaceAll(s, c, r) == s
  {
    if s != "" {
      ReplaceAbsent(s[1..], c, r);
    }
  }

  lemma {:induction false} ReplaceAppend(a: string, b: string, c: char, r: string)
    ensures ReplaceAll(a + b, c, r) == ReplaceAll(a, c, r) + ReplaceAll(b, c, r)
  {
    if a == "" {
      assert a + b == b;
    } else {
      assert (a + b)[1..] == a[1..] + b;
      ReplaceAppend(a[1..], b, c, r);
    }
  }

  lemma {:induction false} TwoReplacements(s: string)
    ensures ReplaceAll(ReplaceAll(s, '(', "\\("), ')', "\\)") == Quoted(s)
  {
    if s != "" {
      TwoReplacements(s[1..]);
      var head := if s[0] == '(' then "\\(" else [s[0]];
      var tail := ReplaceAll(s[1..], '(', "\\(");
      ReplaceAppend(head, tail, ')', "\\)");
      if s[0] == '(' {
        ReplaceAbsent(head, ')', "\\)");
      } else {
        assert head[1..] == "";
      }
    }
  }

  lemma QuoteIsQuoted(s: string)
    ensures QuoteForShell(s) == Quoted(s)
  {
    ContainsChar(s, '(');
    var c := if Contains(s, "(") then ReplaceAll(s, '(', "\\(") else s;
    if '(' !in s {
      ReplaceAbsent(s, '(', "\\(");
    }
    ContainsChar(c, ')');
    if ')' !in c {
      ReplaceAbsent(c, ')', "\\)");
    }
    TwoReplacements(s);
  }

  lemma {:induction false} UnquoteQuoted(s: string)
    ensures Unquoted(Quoted(s)) == s
  {
    if s != "" {
      UnquoteQuoted(s[1..]);
      if s[0] in "()" {
        assert Quoted(s)[2..] == Quoted(s[1..]);
      } else {
        assert Quoted(s)[1..] == Quoted(s[1..]);
        assert Quoted(s[1..]) != "" ==> Quoted(s[1..])[0] !in "()";
      }
    }
  }

  /** Quoting loses nothing: removing the backslashes before parentheses gives the command back, whatever
      backslashes it had before. */
  lemma QuoteHasLeftInverse(cmd: string)
    ensures Unquoted(QuoteForShell(cmd)) == cmd
  {
    QuoteIsQuoted(cmd);
    UnquoteQuoted(cmd);
  }

  lemma {:induction false} QuotedAppend(a: string, b: string)
    ensures Quoted(a + b) == Quoted(a) + Quoted(b)
  {
    if a == "" {
      assert a + b == b;
    } else {
      assert (a + b)[1..] == a[1..] + b;
      QuotedAppend(a[1..], b);
    }
  }

  predicate NoParens(s: string) {
    forall i | 0 <= i < |s| :: s[i] != '(' && s[i] != ')'
  }

  lemma {:induction false} QuotedLength(s: string)
    ensures |Quoted(s)| >= |s|
    ensures |Quoted(s)| == |s| <==> NoParens(s)
    ensures NoParens(s) ==> Quoted(s) == s
    ensures NoSpace(s) ==> NoSpace(Quoted(s))
  {
    if s != "" {
      QuotedLength(s[1..]);
      assert s == [s[0]] + s[1..];
    }
  }

  // ----- what the shell passes on

  /** Options that survive the trip: no white space, no commas. */
  ghost predicate PlainOptions(options: seq<string>) {
    forall o | o in options :: Word(o) && ',' !in o
  }

  lemma {:induction false} JoinIsWord(parts: seq<string>)
    requires parts != [] && forall p | p in parts :: Word(p)
    ensures Word(Join(parts, ","))
  {
    assert Word(parts[0]);
    if |parts| > 1 {
      JoinIsWord(parts[1..]);
    }
  }

  lemma MetricsIsPlain()
    ensures PlainOptions(["metrics=0.0.0.0:9567"])
  {
  }

  lemma ForegroundIsPlain()
    ensures PlainOptions(["foreground"])
  {
  }

  lemma KeyIsPlain()
    ensures PlainOptions(["rsa-key=/root/.rsa/rsa-key.pem"])
  {
  }

  lemma MoreOptions(a: seq<string>, b: seq<string>)
    requires PlainOptions(a) && PlainOptions(b)
    ensures PlainOptions(a + b)
  {
  }

  lemma AddedOptions(setting: JfsSetting)
    requires PlainOptions(setting.options)
    ensures PlainOptions(MountOptions(setting)) && MountOptions(setting) != []
  {
    MetricsIsPlain();
    ForegroundIsPlain();
    KeyIsPlain();
    MoreOptions(["foreground"], ["rsa-key=/root/.rsa/rsa-key.pem"]);
    MoreOptions(setting.options, DriverOptions(setting));
  }

  /** The shell runs the right binary on source and mount path, and the binary gets the user's options and, last,
      those the driver adds. */
  lemma CommandReadBack(setting: JfsSetting)
    requires (setting.isCe || Word(setting.source)) && Word(setting.mountPath) && PlainOptions(setting.options)
    ensures var args := Fields(Unquoted(QuoteForShell(MountLine(setting, MountOptions(setting)))));
      && |args| == 5 && args[3] == "-o" && args[2] == setting.mountPath
      && args[..2] == (if setting.isCe then ["/bin/mount.juicefs", "${metaurl}"] else ["/sbin/mount.juicefs", setting.source])
      && Split(args[4], ",") == setting.options
           + (if setting.isCe && "metrics" in setting.options then []
              else if setting.isCe then ["metrics=0.0.0.0:9567"]
              else if setting.encryptRsaKey == "" then ["foreground"]
              else ["foreground", "rsa-key=/root/.rsa/rsa-key.pem"])
  {
    var options := MountOptions(setting);
    AddedOptions(setting);
    ArgsReadBack(setting, options);
    DriverOptionsAre(setting);
    assert MountArgs(setting, options)[..2] == [Binary(setting), Source(setting)];
  }

  lemma DriverOptionsAre(setting: JfsSetting)
    ensures DriverOptions(setting) ==
      if setting.isCe && "metrics" in setting.options then []
      else if setting.isCe then ["metrics=0.0.0.0:9567"]
      else if setting.encryptRsaKey == "" then ["foreground"]
      else ["foreground", "rsa-key=/root/.rsa/rsa-key.pem"]
  {
  }

  lemma ArgsReadBack(setting: JfsSetting, options: seq<string>)
    requires (setting.isCe || Word(setting.source)) && Word(setting.mountPath) && PlainOptions(options) && options != []
    ensures Fields(Unquoted(QuoteForShell(MountLine(setting, options)))) == MountArgs(setting, options)
    ensures Split(Join(options, ","), ",") == options
  {
    QuoteHasLeftInverse(MountLine(setting, options));
    JoinIsWord(options);
    Binaries();
    FieldsOfArgs(Binary(setting), Source(setting), setting.mountPath, Join(options, ","));
    SplitJoin(options, ',');
  }

  lemma FieldsOfArgs(bin: string, source: string, path: string, options: string)
    requires Word(bin) && Word(source) && Word(path) && Word(options)
    ensures Fields(Join([bin, source, path, "-o", options], " ")) == [bin, source, path, "-o", options]
  {
    assert Word("-o");
    FieldsJoin([bin, source, path, "-o", options]);
  }

  // ----- printing and parsing

  predicate Plain(id: string) {
    NoSpace(id) && NoParens(id)
  }

  lemma FieldsOfLine(bin: string, source: string, path: string, rest: string)
    requires Word(bin) && Word(source)
    ensures Fields(bin + " " + (source + " " + (path + " " + rest))) == [bin, source] + Fields(path) + Fields(rest)
  {
    FieldsBySpace(bin, source + " " + (path + " " + rest));
    FieldsBySpace(source, path + " " + rest);
    FieldsBySpace(path, rest);
    FieldsOfWord(bin);
    FieldsOfWord(source);
    Regroup(bin, source, Fields(path), Fields(rest));
  }

  lemma Regroup<T>(a: T, b: T, x: seq<T>, y: seq<T>)
    ensures [a] + ([b] + (x + y)) == [a, b] + x + y
  {
  }

  lemma JoinFive(a: string, b: string, c: string, d: string, e: string)
    ensures Join([a, b, c, d, e], " ") == a + " " + (b + " " + (c + " " + (d + " " + e)))
  {
    assert [a, b, c, d, e][1..] == [b, c, d, e] && [b, c, d, e][1..] == [c, d, e];
    assert [c, d, e][1..] == [d, e] && [d, e][1..] == [e];
    assert Join([d, e], " ") == d + " " + e;
    assert Join([c, d, e], " ") == c + " " + (d + " " + e);
    assert Join([b, c, d, e], " ") == b + " " + (c + " " + (d + " " + e));
  }

  lemma QuotedSpace(a: string, b: string)
    ensures Quoted(a + " " + b) == Quoted(a) + " " + Quoted(b)
  {
    QuotedAppend(a + " ", b);
    QuotedAppend(a, " ");
    assert Quoted(" ") == " " + Quoted(" "[1..]);
  }

  lemma Binaries()
    ensures Word(CE_MOUNT_PATH) && NoParens(CE_MOUNT_PATH)
    ensures Word(JFS_MOUNT_PATH) && NoParens(JFS_MOUNT_PATH)
    ensures Word("${metaurl}")
  {
  }

  lemma FirstOption(flag: string, options: string)
    requires Word(flag) && NoParens(flag)
    ensures Fields(Quoted(flag + " " + options)) == [flag] + Fields(Quoted(options))
  {
    QuotedSpace(flag, options);
    QuotedLength(flag);
    FieldsBySpace(flag, Quoted(options));
    FieldsOfWord(flag);
  }

  lemma OptionsFlag(options: string)
    ensures var fields := Fields(Quoted("-o" + " " + options)); fields != [] && fields[0] == "-o"
  {
    FirstOption("-o", options);
  }

  /** The printed command, quoted piece by piece. */
  lemma QuotedMountLine(setting: JfsSetting, options: seq<string>)
    ensures QuoteForShell(MountLine(setting, options)) ==
      Binary(setting) + " " + (Quoted(Source(setting)) + " " + (Quoted(setting.mountPath) + " " + Quoted("-o" + " " + Join(options, ","))))
  {
    var bin, source, path := Binary(setting), Source(setting), setting.mountPath;
    var rest := "-o" + " " + Join(options, ",");
    JoinFive(bin, source, path, "-o", Join(options, ","));
    QuoteIsQuoted(MountLine(setting, options));
    QuotedSpace(bin, source + " " + (path + " " + rest));
    QuotedSpace(source, path + " " + rest);
    QuotedSpace(path, rest);
    Binaries();
    QuotedLength(bin);
  }

  /** The fields of the printed command, as the parser sees them. */
  lemma FieldsOfCommand(setting: JfsSetting, options: seq<string>)
    requires setting.isCe || Word(setting.source)
    ensures exists bin, source, rest ::
      Fields(QuoteForShell(MountLine(setting, options))) == [bin, source] + Fields(Quoted(setting.mountPath)) + rest && rest != []
  {
    var bin, source := Binary(setting), Source(setting);
    QuotedMountLine(setting, options);
    Binaries();
    QuotedLength(source);
    FieldsOfLine(bin, Quoted(source), Quoted(setting.mountPath), Quoted("-o" + " " + Join(options, ",")));
    OptionsFlag(Join(options, ","));
  }

  lemma MountPathSplits(id: string)
    requires CleanComponent(id)
    ensures Split(POD_MOUNT_BASE + "/" + id, "/") == ["", "jfs", id]
  {
    SplitChild("jfs", id);
    assert "/" + "jfs" + "/" + id == POD_MOUNT_BASE + "/" + id;
  }

  lemma MountPathIsWord(id: string)
    ensures var path := POD_MOUNT_BASE + "/" + id;
      && POD_MOUNT_BASE <= path
      && (Plain(id) ==> Word(path) && Fields(Quoted(path)) == [path])
      && (Word(path) && Quoted(path) == path ==> Plain(id))
  {
    var base := POD_MOUNT_BASE + "/";
    var path := base + id;
    QuotedLength(path);
    assert NoSpace(base) && NoParens(base);
    forall i | 0 <= i < |path| ensures path[i] == if i < |base| then base[i] else id[i - |base|] {
    }
    forall i | 0 <= i < |id| ensures id[i] == path[i + |base|] {
    }
    if Plain(id) {
      FieldsOfWord(path);
    }
  }

  /** For every list of options, the parser returns the mount path and the volume id exactly if the id has
      neither white space nor parentheses. */
  lemma CommandRoundTrip(setting: JfsSetting, options: seq<string>)
    requires CleanComponent(setting.volumeId) && (setting.isCe || Word(setting.source))
    requires setting.mountPath == POD_MOUNT_BASE + "/" + setting.volumeId
    ensures ParseMntPath(QuoteForShell(MountLine(setting, options))) == Some((setting.mountPath, setting.volumeId))
      <==> Plain(setting.volumeId)
  {
    var path, id := setting.mountPath, setting.volumeId;
    FieldsOfCommand(setting, options);
    MountPathIsWord(id);
    MountPathSplits(id);
    var args := Fields(QuoteForShell(MountLine(setting, options)));
    var bin, source, rest :| args == [bin, source] + Fields(Quoted(path)) + rest && rest != [];
    if Word(path) {
      QuotedLength(path);
      FieldsOfWord(Quoted(path));
      assert args[2] == Quoted(path);
    } else {
      assert |args| > 2 ==> Word(args[2]);
    }
  }

  /** Without a source the path moves up one field: the driver does not recognise its own mount pod. */
  lemma NoSourceNoMountPath(setting: JfsSetting, options: seq<string>)
    requires !setting.isCe && setting.source == "" && Plain(setting.volumeId)
    requires setting.mountPath == POD_MOUNT_BASE + "/" + setting.volumeId
    ensures ParseMntPath(QuoteForShell(MountLine(setting, options))) == None
  {
    QuotedMountLine(setting, options);
    Binaries();
    MountPathIsWord(setting.volumeId);
    OptionsFlag(Join(options, ","));
    var rest := Quoted("-o" + " " + Join(options, ","));
    QuotedLength(setting.mountPath);
    SecondField(Binary(setting), Quoted(Source(setting)), Quoted(setting.mountPath), rest);
    FlagIsNoPath(QuoteForShell(MountLine(setting, options)), Binary(setting), Quoted(setting.mountPath), Fields(rest));
  }

  lemma FlagIsNoPath(cmd: string, bin: string, path: string, rest: seq<string>)
    requires Fields(cmd) == [bin, path] + rest && rest != [] && rest[0] == "-o"
    ensures ParseMntPath(cmd) == None
  {
  }

  lemma SecondField(bin: string, empty: string, path: string, rest: string)
    requires Word(bin) && Word(path) && empty == ""
    ensures Fields(bin + " " + (empty + " " + (path + " " + rest))) == [bin, path] + Fields(rest)
  {
    FieldsBySpace(bin, empty + " " + (path + " " + rest));
    FieldsBySpace(empty, path + " " + rest);
    FieldsBySpace(path, rest);
    FieldsOfWord(bin);
    FieldsOfWord(path);
    assert [] + ([path] + Fields(rest)) == [path] + ([] + Fields(rest));
    Regroup(bin, path, [], Fields(rest));
  }
}
