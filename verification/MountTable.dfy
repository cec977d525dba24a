/** The reconciler's snapshot of the mount table, and what it makes of one CSI target. */
module MountTable {
  import opened Wrappers
  import opened Strings
  import opened CsiPath
  import opened MountInfo

  const SUBPATH_DIRECTORY := "volume-subpaths"

  /** What os.Stat says about a path. */
  datatype Stat = Fine | NotThere | CorruptedMount | OtherError

  datatype TargetStatus = NotExist | Mounted | NotMount | Corrupt | Unexpect

  function StatusOf(stat: Stat, mounted: bool): TargetStatus {
    match stat
    case Fine => if mounted then Mounted else NotMount
    case NotThere => NotExist
    case CorruptedMount => Corrupt
    case OtherError => Unexpect
  }

  class TargetItem {
    const target: string
    var subpath: string
    var count: nat
    var inconsistent: bool
    var status: TargetStatus

    constructor (target: string, subpath: string, count: nat)
      ensures this.target == target && this.subpath == subpath && this.count == count
      ensures !inconsistent && status == NotExist
    {
      this.target, this.subpath, this.count := target, subpath, count;
      inconsistent, status := false, NotExist;
    }

    /** One more mount at the same path. */
    method Again(subpath: string)
      modifies this`count, this`inconsistent
      ensures count == old(count) + 1
      ensures inconsistent == (old(inconsistent) || this.subpath != subpath)
    {
      if this.subpath != subpath {
        inconsistent := true;
      }
      count := count + 1;
    }

    method Check(mounted: bool, stat: Stat)
      modifies this`status
      ensures status == StatusOf(stat, mounted)
      ensures status.Mounted? <==> stat.Fine? && mounted
      ensures status.NotMount? <==> stat.Fine? && !mounted
      ensures status.NotExist? <==> stat.NotThere?
      ensures status.Corrupt? <==> stat.CorruptedMount?
    {
      if stat.Fine? {
        status := if mounted then Mounted else NotMount;
      } else if stat.NotThere? {
        status := NotExist;
      } else {
        if !mounted {
          status := Unexpect;
        }
        status := if stat.CorruptedMount? then Corrupt else Unexpect;
      }
    }
  }

  // ----- grouping

  predicate Matches(mi: Entry, path: string, isPrefix: bool) {
    if isPrefix then path <= mi.mountPoint else path == mi.mountPoint
  }

  function Subpath(root: string): string {
    Trim(TrimSuffix(root, "//deleted"), '/')
  }

  /** The subpaths of the entries mounted at `point`, in table order. */
  function SubpathsAt(mis: seq<Entry>, point: string): seq<string> {
    if mis == [] then []
    else
      var last := mis[|mis| - 1];
      SubpathsAt(mis[..|mis| - 1], point) + (if last.mountPoint == point then [Subpath(last.root)] else [])
  }

  // ----- what a bind of a directory shows

  /** The path of a directory of the volume, without slashes around it. */
  ghost predicate Plain(dir: string) {
    && (dir != "" ==> dir[0] != '/' && dir[|dir| - 1] != '/')
    && !(|dir| >= 9 && dir[|dir| - 9..] == "//deleted")
  }

  /** The entry is a bind of this directory, which may have been deleted since. */
  ghost predicate Binds(mi: Entry, dir: string) {
    mi.root == "/" + dir || mi.root == "/" + dir + "//deleted"
  }

  /** Whether the directory still exists or not, its path is what the table shows. */
  lemma SubpathIsDirectory(mi: Entry, dir: string)
    requires Plain(dir) && Binds(mi, dir)
    ensures Subpath(mi.root) == dir
  {
    var root := "/" + dir;
    assert TrimSuffix(mi.root, "//deleted") == root by {
      if mi.root == root {
        RootNotDeleted(dir);
      } else {
        assert mi.root[|mi.root| - 9..] == "//deleted" && mi.root[..|mi.root| - 9] == root;
      }
    }
    assert root[1..] == dir;
    assert TrimLeft(root, '/') == TrimLeft(dir, '/') == dir;
    if dir == "" {
    } else {
      assert TrimRight(dir, '/') == dir;
    }
  }

  lemma RootNotDeleted(dir: string)
    requires dir != "" ==> dir[0] != '/'
    ensures HasSuffix("/" + dir, "//deleted") <==> HasSuffix(dir, "//deleted")
  {
    var root := "/" + dir;
    if |dir| >= 9 {
      assert root[|root| - 9..] == dir[|dir| - 9..];
    } else if |dir| == 8 {
      assert root[|root| - 9..][1] == dir[0] && "//deleted"[1] == '/';
    }
  }

  /** Each entry at `point` is a bind of its directory. */
  ghost predicate AllBind(mis: seq<Entry>, dirs: seq<string>, point: string) {
    |dirs| == |mis| && forall i | 0 <= i < |mis| && mis[i].mountPoint == point :: Plain(dirs[i]) && Binds(mis[i], dirs[i])
  }

  ghost predicate ShownAt(mis: seq<Entry>, dirs: seq<string>, point: string, dir: string)
    requires |dirs| == |mis|
  {
    exists i | 0 <= i < |mis| :: mis[i].mountPoint == point && dirs[i] == dir
  }

  lemma {:induction false} SubpathsAreDirectories(mis: seq<Entry>, dirs: seq<string>, point: string)
    requires AllBind(mis, dirs, point)
    ensures forall s :: s in SubpathsAt(mis, point) <==> ShownAt(mis, dirs, point, s)
    ensures forall i | 0 <= i < |mis| && mis[i].mountPoint == point && (forall j | 0 <= j < i :: mis[j].mountPoint != point) ::
      SubpathsAt(mis, point) != [] && SubpathsAt(mis, point)[0] == dirs[i]
  {
    if mis != [] {
      var init, known, k := mis[..|mis| - 1], dirs[..|mis| - 1], |mis| - 1;
      assert forall i | 0 <= i < k :: init[i] == mis[i] && known[i] == dirs[i];
      SubpathsAreDirectories(init, known, point);
      NowhereMounted(init, point);
      LastShown(mis, dirs, point);
      if mis[k].mountPoint == point {
        SubpathIsDirectory(mis[k], dirs[k]);
      }
    }
  }

  lemma LastShown(mis: seq<Entry>, dirs: seq<string>, point: string)
    requires |dirs| == |mis| > 0
    ensures var k := |mis| - 1;
      forall s :: ShownAt(mis, dirs, point, s) <==> ShownAt(mis[..k], dirs[..k], point, s) || (mis[k].mountPoint == point && dirs[k] == s)
  {
    var init, known, k := mis[..|mis| - 1], dirs[..|mis| - 1], |mis| - 1;
    assert forall i | 0 <= i < k :: init[i] == mis[i] && known[i] == dirs[i];
    forall s | ShownAt(init, known, point, s) ensures ShownAt(mis, dirs, point, s) {
      var i :| 0 <= i < |init| && init[i].mountPoint == point && known[i] == s;
      assert mis[i].mountPoint == point && dirs[i] == s;
    }
  }

  /** A path on which only directories are bound, deleted since or not, shows the first of them, and is
      inconsistent if and only if two of them differ. */
  lemma DirectoriesShown(mis: seq<Entry>, dirs: seq<string>, point: string)
    requires AllBind(mis, dirs, point)
    ensures forall i | 0 <= i < |mis| && mis[i].mountPoint == point && (forall j | 0 <= j < i :: mis[j].mountPoint != point) ::
      FirstSubpath(SubpathsAt(mis, point)) == dirs[i]
    ensures Differ(SubpathsAt(mis, point)) <==> exists a, b :: ShownAt(mis, dirs, point, a) && ShownAt(mis, dirs, point, b) && a != b
  {
    SubpathsAreDirectories(mis, dirs, point);
    var subpaths := SubpathsAt(mis, point);
    if a, b :| ShownAt(mis, dirs, point, a) && ShownAt(mis, dirs, point, b) && a != b {
      assert a in subpaths && b in subpaths;
    }
    if Differ(subpaths) {
      var i, j :| 0 <= i < |subpaths| && 0 <= j < |subpaths| && subpaths[i] != subpaths[j];
      assert subpaths[i] in subpaths && subpaths[j] in subpaths;
    }
  }

  ghost function MatchingPoints(mis: seq<Entry>, path: string, isPrefix: bool): set<string> {
    set i | 0 <= i < |mis| && Matches(mis[i], path, isPrefix) :: mis[i].mountPoint
  }

  ghost predicate Differ(subpaths: seq<string>) {
    exists i, j | 0 <= i < |subpaths| && 0 <= j < |subpaths| :: subpaths[i] != subpaths[j]
  }

  lemma DifferWith(subpaths: seq<string>, s: string)
    requires subpaths != []
    ensures Differ(subpaths + [s]) <==> Differ(subpaths) || subpaths[0] != s
    ensures !Differ([s])
  {
    var all := subpaths + [s];
    assert all[0] == subpaths[0] && all[|subpaths|] == s && forall i | 0 <= i < |subpaths| :: all[i] == subpaths[i];
    if Differ(subpaths) {
      var i, j :| 0 <= i < |subpaths| && 0 <= j < |subpaths| && subpaths[i] != subpaths[j];
      assert all[i] != all[j];
    }
  }

  ghost function Targets(items: seq<TargetItem>): set<string> {
    set i | 0 <= i < |items| :: items[i].target
  }

  lemma MoreTargets(items: seq<TargetItem>, item: TargetItem)
    ensures Targets(items + [item]) == Targets(items) + {item.target}
  {
    var all := items + [item];
    assert all[|items|] == item && forall i | 0 <= i < |items| :: all[i] == items[i];
    forall p | p in Targets(items) ensures p in Targets(all) {
      var i :| 0 <= i < |items| && items[i].target == p;
      assert all[i].target == p;
    }
  }

  /** The item tells how often its path is mounted, what its first mount shows, and whether they differ. */
  ghost predicate Describes(item: TargetItem, mis: seq<Entry>)
    reads item`count, item`subpath, item`inconsistent
  {
    var subpaths := SubpathsAt(mis, item.target);
    && subpaths != []
    && item.count == |subpaths|
    && item.subpath == subpaths[0]
    && (item.inconsistent <==> Differ(subpaths))
  }

  /** The item says what the table and stat say about its path, be it mounted or not. */
  ghost predicate Shows(item: TargetItem, mis: seq<Entry>, stat: string -> Stat)
    reads item
  {
    var subpaths := SubpathsAt(mis, item.target);
    && item.count == |subpaths|
    && item.subpath == FirstSubpath(subpaths)
    && (item.inconsistent <==> Differ(subpaths))
    && item.status == StatusOf(stat(item.target), subpaths != [])
  }

  function FirstSubpath(subpaths: seq<string>): string {
    if subpaths == [] then "" else subpaths[0]
  }

  ghost predicate Apart(items: seq<TargetItem>) {
    forall i, j | 0 <= i < j < |items| :: items[i].target != items[j].target
  }

  lemma MoreSubpaths(mis: seq<Entry>, mi: Entry, point: string)
    ensures SubpathsAt(mis + [mi], point) == if mi.mountPoint == point then SubpathsAt(mis, point) + [Subpath(mi.root)] else SubpathsAt(mis, point)
  {
  }

  lemma MorePoints(mis: seq<Entry>, mi: Entry, path: string, isPrefix: bool)
    ensures MatchingPoints(mis + [mi], path, isPrefix)
         == MatchingPoints(mis, path, isPrefix) + (if Matches(mi, path, isPrefix) then {mi.mountPoint} else {})
  {
    var all := mis + [mi];
    assert all[|mis|] == mi && forall i | 0 <= i < |mis| :: all[i] == mis[i];
    forall p | p in MatchingPoints(mis, path, isPrefix) ensures p in MatchingPoints(all, path, isPrefix) {
      var i :| 0 <= i < |mis| && Matches(mis[i], path, isPrefix) && mis[i].mountPoint == p;
      assert Matches(all[i], path, isPrefix);
    }
  }

  lemma {:induction false} NowhereMounted(mis: seq<Entry>, point: string)
    ensures SubpathsAt(mis, point) == [] <==> forall i | 0 <= i < |mis| :: mis[i].mountPoint != point
  {
    if mis != [] {
      var init := mis[..|mis| - 1];
      NowhereMounted(init, point);
      assert forall i | 0 <= i < |init| :: mis[i] == init[i];
      if SubpathsAt(mis, point) == [] {
        assert forall i | 0 <= i < |mis| :: i < |init| || mis[i] == mis[|mis| - 1];
      }
    }
  }

  /** The counts of all items together. */
  ghost function Total(items: seq<TargetItem>): nat
    reads set i | 0 <= i < |items| :: items[i]
  {
    if items == [] then 0 else Total(items[..|items| - 1]) + items[|items| - 1].count
  }

  datatype MountItem = MountItem(podExist: bool, podDeleted: bool, base: TargetItem, subpaths: seq<TargetItem>)

  /** Where the subpath mounts of this pod and volume live. Matching is by string prefix. */
  function SubpathPrefix(target: string): string {
    Join([TrimSuffix(Split(target, CSI_DIRECTORY)[0], "/"), SUBPATH_DIRECTORY, GetPVName(target)], "/")
  }

  lemma SplitInTwo(s: string, sep: string)
    requires sep != "" && |Split(s, sep)| == 2
    ensures s == Split(s, sep)[0] + sep + Split(s, sep)[1]
  {
    var i := Index(s, sep);
    SplitFree(s[i + |sep|..], sep);
    assert s == s[..i] + s[i..i + |sep|] + s[i + |sep|..];
  }

  lemma JoinThree(a: string, b: string, c: string, sep: string)
    ensures Join([a, b, c], sep) == a + sep + (b + sep + c)
  {
    assert [a, b, c][1..] == [b, c] && [b, c][1..] == [c];
    assert Join([c], sep) == c;
    assert Join([b, c], sep) == b + sep + c;
  }

  lemma PodDirOf(podDir: string, after: string)
    requires !Contains(podDir + "/", CSI_DIRECTORY) && !Contains(after, CSI_DIRECTORY)
    ensures TrimSuffix(Split(podDir + "/" + CSI_DIRECTORY + after, CSI_DIRECTORY)[0], "/") == podDir
  {
    SplitAtMarker(podDir + "/", after);
    var before := podDir + "/";
    assert before[|before| - 1..] == "/" && before[..|before| - 1] == podDir;
  }

  lemma Joined(podDir: string, pv: string)
    ensures Join([podDir, SUBPATH_DIRECTORY, pv], "/") == podDir + "/volume-subpaths/" + pv
  {
    JoinThree(podDir, SUBPATH_DIRECTORY, pv, "/");
    var below := "/" + "volume-subpaths" + "/";
    assert below == "/volume-subpaths/";
    assert podDir + "/" + ("volume-subpaths" + "/" + pv) == podDir + below + pv;
  }

  /** The subpath mounts of a CSI target live below the pod's directory, under the name of the volume. */
  lemma SubpathPrefixIs(root: string, uid: string, pv: string, tail: string)
    requires root != "" && '/' !in uid && '/' !in pv
    requires !Contains(root + "/" + uid + "/", CSI_DIRECTORY) && !Contains("/" + pv + "/" + tail, CSI_DIRECTORY)
    ensures SubpathPrefix(root + "/" + uid + "/" + CSI_DIRECTORY + ("/" + pv + "/" + tail)) == root + "/" + uid + "/volume-subpaths/" + pv
  {
    CsiPathRoundTrip(root, uid, pv, tail);
    PodDirOf(root + "/" + uid, "/" + pv + "/" + tail);
    Joined(root + "/" + uid, pv);
  }

  lemma PartsDiffer(a: string, b: string, p: string, q: string, k: nat)
    requires k < |p| && k < |q| && p[k] != q[k]
    ensures !(a + p <= a + q + b)
  {
    assert (a + p)[|a| + k] == p[k] && (a + q + b)[|a| + k] == q[k];
  }

  lemma CsiIsNotSubpath(podDir: string, pv: string, rest: string, slash: bool)
    ensures var d := if slash then "/" + CSI_DIRECTORY else CSI_DIRECTORY;
      !(podDir + ("/" + (SUBPATH_DIRECTORY + "/" + pv)) <= podDir + d + rest)
  {
    var below, d := "/" + (SUBPATH_DIRECTORY + "/" + pv), if slash then "/" + CSI_DIRECTORY else CSI_DIRECTORY;
    assert below[0] == '/' && below[7] == SUBPATH_DIRECTORY[6] == '-';
    assert d[0] == if slash then '/' else 'v';
    assert slash ==> d[7] == CSI_DIRECTORY[6] == 's';
    PartsDiffer(podDir, rest, below, d, if slash then 7 else 0);
  }

  lemma TrimmedSlash(s: string)
    ensures s == TrimSuffix(s, "/") + (if HasSuffix(s, "/") then "/" else "")
  {
  }

  /** The target itself is no subpath target: "volumes" and "volume-subpaths" part after "volume". */
  lemma BaseIsNoSubpath(target: string)
    requires GetPVName(target) != ""
    ensures !(SubpathPrefix(target) <= target)
  {
    var pair := Split(target, CSI_DIRECTORY);
    SplitInTwo(target, CSI_DIRECTORY);
    TrimmedSlash(pair[0]);
    NoPrefix(target, TrimSuffix(pair[0], "/"), pair[1], GetPVName(target), HasSuffix(pair[0], "/"));
  }

  lemma NoPrefix(target: string, podDir: string, rest: string, pv: string, slash: bool)
    requires target == podDir + (if slash then "/" else "") + CSI_DIRECTORY + rest
    ensures !(Join([podDir, SUBPATH_DIRECTORY, pv], "/") <= target)
  {
    JoinThree(podDir, SUBPATH_DIRECTORY, pv, "/");
    CsiIsNotSubpath(podDir, pv, rest, slash);
    var below := "/" + (SUBPATH_DIRECTORY + "/" + pv);
    assert podDir + "/" + (SUBPATH_DIRECTORY + "/" + pv) == podDir + below;
    assert target == podDir + (if slash then "/" + CSI_DIRECTORY else CSI_DIRECTORY) + rest;
  }

  lemma BaseApart(base: TargetItem, subpaths: seq<TargetItem>, mis: seq<Entry>)
    requires GetPVName(base.target) != "" && Apart(subpaths)
    requires Targets(subpaths) == MatchingPoints(mis, SubpathPrefix(base.target), true)
    ensures Apart([base] + subpaths)
  {
    BaseIsNoSubpath(base.target);
    forall i | 0 <= i < |subpaths| ensures subpaths[i].target != base.target {
      assert subpaths[i].target in Targets(subpaths);
    }
  }

  lemma NoMatch(mis: seq<Entry>, target: string)
    ensures MatchingPoints(mis, target, false) == {} ==> SubpathsAt(mis, target) == []
    ensures MatchingPoints(mis, target, false) <= {target}
  {
    NowhereMounted(mis, target);
    forall i | 0 <= i < |mis| && mis[i].mountPoint == target ensures target in MatchingPoints(mis, target, false) {
      assert Matches(mis[i], target, false);
    }
  }

  class MountInfoTable {
    var mis: seq<Entry>
    // key is the pod's UID, value whether it is being deleted
    var deletedPods: map<string, bool>

    constructor (mis: seq<Entry>)
      ensures this.mis == mis && deletedPods == map[]
    {
      this.mis, deletedPods := mis, map[];
    }

    /** The table lists exactly the pods given, each with its last deletion mark. */
    method SetPodsStatus(pods: seq<(string, bool)>)
      modifies this`deletedPods
      ensures forall u :: u in deletedPods <==> exists i | 0 <= i < |pods| :: pods[i].0 == u
      ensures forall i | 0 <= i < |pods| && (forall j | i < j < |pods| :: pods[j].0 != pods[i].0) ::
        pods[i].0 in deletedPods && deletedPods[pods[i].0] == pods[i].1
    {
      deletedPods := map[];
      for k := 0 to |pods|
        invariant forall u :: u in deletedPods <==> exists i | 0 <= i < k :: pods[i].0 == u
        invariant forall i | 0 <= i < k && (forall j | i < j < k :: pods[j].0 != pods[i].0) ::
          pods[i].0 in deletedPods && deletedPods[pods[i].0] == pods[i].1
      {
        deletedPods := deletedPods[pods[k].0 := pods[k].1];
      }
    }

    method SetPodStatus(uid: string, deleted: bool)
      modifies this`deletedPods
      ensures deletedPods == old(deletedPods)[uid := deleted]
    {
      deletedPods := deletedPods[uid := deleted];
    }

    /** One item for each matching mount point, describing its mounts, and no other. */
    method ResolveTargetItem(path: string, isPrefix: bool, stat: string -> Stat) returns (items: seq<TargetItem>)
      ensures forall i | 0 <= i < |items| :: fresh(items[i])
      ensures Apart(items)
      ensures Targets(items) == MatchingPoints(mis, path, isPrefix)
      ensures forall i | 0 <= i < |items| ::
        Describes(items[i], mis) && items[i].status == StatusOf(stat(items[i].target), true)
      ensures Total(items) == Matching(mis, path, isPrefix)
      ensures !isPrefix ==> |items| <= 1
    {
      var records := Records(path, isPrefix);
      items := CheckAll(records, stat);
      assert forall i | 0 <= i < |items| :: items[i].target in Targets(items);
      AllCounted(items, mis, path, isPrefix);
    }

    /** The base target and its subpath targets, all different, each as the table and stat show it; none if the
        path is no CSI target path. */
    method ResolveTarget(target: string, stat: string -> Stat) returns (r: Option<MountItem>)
      ensures r.None? <==> GetPodUid(target) == "" || GetPVName(target) == ""
      ensures r.Some? ==> (
        && var mi := r.value;
        && mi.podExist == (GetPodUid(target) in deletedPods)
        && mi.podDeleted == (GetPodUid(target) in deletedPods && deletedPods[GetPodUid(target)])
        && mi.base.target == target && Targets(mi.subpaths) == MatchingPoints(mis, SubpathPrefix(target), true)
        && Apart([mi.base] + mi.subpaths)
        && forall item | item in [mi.base] + mi.subpaths :: fresh(item) && Shows(item, mis, stat))
    {
      var pair := Split(target, CSI_DIRECTORY);
      if |pair| != 2 {
        return None;
      }
      var podDir := TrimSuffix(pair[0], "/");
      var podUID := GetPodUid(target);
      if podUID == "" {
        return None;
      }
      var pvName := GetPVName(target);
      if pvName == "" {
        return None;
      }
      var podExist := podUID in deletedPods;
      var podDeleted := podUID in deletedPods && deletedPods[podUID];
      var base := ResolveBase(target, stat);
      var subpaths := ResolveTargetItem(Join([podDir, SUBPATH_DIRECTORY, pvName], "/"), true, stat);
      BaseApart(base, subpaths, mis);
      return Some(MountItem(podExist, podDeleted, base, subpaths));
    }

    method ResolveBase(target: string, stat: string -> Stat) returns (base: TargetItem)
      ensures fresh(base) && base.target == target && Shows(base, mis, stat)
    {
      NoMatch(mis, target);
      var items := ResolveTargetItem(target, false, stat);
      assert forall i | 0 <= i < |items| :: items[i].target in Targets(items);
      if |items| == 1 {
        base := items[0];
      } else {
        assert Targets(items) == {};
        base := new TargetItem(target, "", 0);
        base.Check(false, stat(target));
      }
    }

    method Records(path: string, isPrefix: bool) returns (records: map<string, TargetItem>)
      ensures records.Keys == MatchingPoints(mis, path, isPrefix)
      ensures Indexed(records, mis) && forall p | p in records :: fresh(records[p])
    {
      records := map[];
      for k := 0 to |mis|
        invariant records.Keys == MatchingPoints(mis[..k], path, isPrefix)
        invariant Indexed(records, mis[..k]) && forall p | p in records :: fresh(records[p])
      {
        assert mis[..k + 1] == mis[..k] + [mis[k]];
        MorePoints(mis[..k], mis[k], path, isPrefix);
        NowhereMounted(mis[..k], mis[k].mountPoint);
        if Matches(mis[k], path, isPrefix) {
          records := Record(records, mis[k], mis[..k]);
        } else {
          Unaffected(records, mis[k], mis[..k]);
        }
      }
      assert mis[..|mis|] == mis;
    }
  }

  /** Each record stands under its own path and describes the entries seen so far. */
  ghost predicate Indexed(records: map<string, TargetItem>, mis: seq<Entry>)
    reads set p | p in records :: records[p]
  {
    forall p | p in records :: records[p].target == p && Describes(records[p], mis)
  }

  /** Lists the records in some order, each checked. */
  method CheckAll(records: map<string, TargetItem>, stat: string -> Stat) returns (items: seq<TargetItem>)
    requires forall p | p in records :: records[p].target == p
    modifies records.Values`status
    ensures Targets(items) == records.Keys
    ensures forall i, j | 0 <= i < j < |items| :: items[i].target != items[j].target
    ensures forall i | 0 <= i < |items| :: items[i].target in records && items[i] == records[items[i].target]
    ensures forall p | p in records :: records[p].status == StatusOf(stat(p), true)
  {
    items := [];
    var keys := records.Keys;
    while keys != {}
      invariant keys <= records.Keys && Targets(items) == records.Keys - keys
      invariant forall i | 0 <= i < |items| :: items[i].target in records.Keys - keys && items[i] == records[items[i].target]
      invariant forall i, j | 0 <= i < j < |items| :: items[i].target != items[j].target
      invariant forall p | p in records.Keys - keys :: records[p].status == StatusOf(stat(p), true)
    {
      var p :| p in keys;
      keys := keys - {p};
      var record := records[p];
      record.Check(true, stat(record.target));
      MoreTargets(items, record);
      items := items + [record];
    }
  }

  lemma Unaffected(records: map<string, TargetItem>, mi: Entry, before: seq<Entry>)
    requires Indexed(records, before) && mi.mountPoint !in records
    ensures Indexed(records, before + [mi])
  {
    forall p | p in records ensures SubpathsAt(before + [mi], p) == SubpathsAt(before, p) {
      MoreSubpaths(before, mi, p);
    }
  }

  method Record(records: map<string, TargetItem>, mi: Entry, ghost before: seq<Entry>) returns (records': map<string, TargetItem>)
    requires Indexed(records, before) && (mi.mountPoint !in records ==> SubpathsAt(before, mi.mountPoint) == [])
    modifies records.Values
    ensures records'.Keys == records.Keys + {mi.mountPoint} && Indexed(records', before + [mi])
    ensures forall p | p in records' :: (p in records && records'[p] == records[p]) || fresh(records'[p])
  {
    var subpath := Subpath(mi.root);
    if mi.mountPoint !in records {
      Unaffected(records, mi, before);
      MoreSubpaths(before, mi, mi.mountPoint);
      assert SubpathsAt(before + [mi], mi.mountPoint) == [subpath] && !Differ([subpath]);
      var item := new TargetItem(mi.mountPoint, subpath, 1);
      assert Describes(item, before + [mi]);
      records' := records[mi.mountPoint := item];
    } else {
      RecordAgain(records, mi, before);
      records' := records;
    }
  }

  method RecordAgain(records: map<string, TargetItem>, mi: Entry, ghost before: seq<Entry>)
    requires Indexed(records, before) && mi.mountPoint in records
    modifies records[mi.mountPoint]
    ensures Indexed(records, before + [mi])
  {
    var record := records[mi.mountPoint];
    MoreSubpaths(before, mi, mi.mountPoint);
    DifferWith(SubpathsAt(before, mi.mountPoint), Subpath(mi.root));
    forall p | p in records && p != mi.mountPoint
      ensures records[p] != record && Describes(records[p], before + [mi])
    {
      MoreSubpaths(before, mi, p);
    }
    record.Again(Subpath(mi.root));
    assert Describes(record, before + [mi]);
  }

  // ----- counts

  function Counted(mis: seq<Entry>, targets: seq<string>): nat {
    if targets == [] then 0
    else Counted(mis, targets[..|targets| - 1]) + |SubpathsAt(mis, targets[|targets| - 1])|
  }

  function Matching(mis: seq<Entry>, path: string, isPrefix: bool): nat {
    if mis == [] then 0
    else Matching(mis[..|mis| - 1], path, isPrefix) + (if Matches(mis[|mis| - 1], path, isPrefix) then 1 else 0)
  }

  lemma {:induction false} OneMore(mis: seq<Entry>, mi: Entry, targets: seq<string>)
    requires forall i, j | 0 <= i < j < |targets| :: targets[i] != targets[j]
    ensures Counted(mis + [mi], targets) == Counted(mis, targets) + (if mi.mountPoint in targets then 1 else 0)
  {
    if targets != [] {
      var init, last := targets[..|targets| - 1], targets[|targets| - 1];
      OneMore(mis, mi, init);
      MoreSubpaths(mis, mi, last);
      assert targets == init + [last];
    }
  }

  lemma {:induction false} NothingCounted(targets: seq<string>)
    ensures Counted([], targets) == 0
  {
    if targets != [] {
      NothingCounted(targets[..|targets| - 1]);
    }
  }

  /** The counts of the items add up to the number of matching entries: no entry is lost or counted twice. */
  lemma {:induction false} CountsAddUp(mis: seq<Entry>, targets: seq<string>, path: string, isPrefix: bool)
    requires forall i, j | 0 <= i < j < |targets| :: targets[i] != targets[j]
    requires forall i | 0 <= i < |mis| :: mis[i].mountPoint in targets <==> Matches(mis[i], path, isPrefix)
    ensures Counted(mis, targets) == Matching(mis, path, isPrefix)
  {
    if mis == [] {
      NothingCounted(targets);
    } else {
      var init := mis[..|mis| - 1];
      CountsAddUp(init, targets, path, isPrefix);
      OneMore(init, mis[|mis| - 1], targets);
      assert mis == init + [mis[|mis| - 1]];
    }
  }

  lemma {:induction false} TotalIsCounted(items: seq<TargetItem>, mis: seq<Entry>, targets: seq<string>)
    requires |targets| == |items| && forall i | 0 <= i < |items| :: targets[i] == items[i].target && Describes(items[i], mis)
    ensures Total(items) == Counted(mis, targets)
  {
    if items != [] {
      TotalIsCounted(items[..|items| - 1], mis, targets[..|targets| - 1]);
    }
  }

  lemma AllCounted(items: seq<TargetItem>, mis: seq<Entry>, path: string, isPrefix: bool)
    requires forall i, j | 0 <= i < j < |items| :: items[i].target != items[j].target
    requires forall i | 0 <= i < |items| :: Describes(items[i], mis)
    requires Targets(items) == MatchingPoints(mis, path, isPrefix)
    ensures Total(items) == Matching(mis, path, isPrefix)
  {
    var targets := seq(|items|, i requires 0 <= i < |items| => items[i].target);
    forall i | 0 <= i < |mis| ensures mis[i].mountPoint in targets <==> Matches(mis[i], path, isPrefix) {
      if mis[i].mountPoint in targets {
        var j :| 0 <= j < |targets| && targets[j] == mis[i].mountPoint;
        assert items[j].target in Targets(items);
      }
      if Matches(mis[i], path, isPrefix) {
        assert mis[i].mountPoint in Targets(items);
        var j :| 0 <= j < |items| && items[j].target == mis[i].mountPoint;
        assert targets[j] == mis[i].mountPoint;
      }
    }
    CountsAddUp(mis, targets, path, isPrefix);
    TotalIsCounted(items, mis, targets);
  }
}
