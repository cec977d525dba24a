/** Stacks of bind mounts on target paths, and the loops that repair and clear them. */
module Kernel {
  import opened Wrappers
  import opened Strings
  import opened CsiPath
  import MountInfo
  import opened MountTable
  import opened Pods

  function Max(a: int, b: int): int {
    if a > b then a else b
  }

  /** What is left of a stack after `pops` umounts. */
  function Popped(stack: seq<string>, pops: int): seq<string> {
    stack[..Max(|stack| - Max(pops, 0), 0)]
  }

  /** What the operating system answers while a handler runs: to os.Stat on a path, whether that of a source
      succeeds, and whether a bind mount on a path does. */
  datatype System = System(stat: string -> Stat, sourceExists: string -> bool, granted: string -> bool)

  class Stacks {
    // the sources bound on each path, the visible one last
    var stacks: map<string, seq<string>>

    constructor ()
      ensures stacks == map[]
    {
      stacks := map[];
    }

    function Stack(path: string): seq<string>
      reads this
    {
      StackAt(stacks, path)
    }

    /** umount: takes the top layer off, and fails on a path with none. */
    method Umount(path: string) returns (ok: bool)
      modifies this
      ensures ok <==> old(Stack(path)) != []
      ensures Stack(path) == Popped(old(Stack(path)), 1)
      ensures forall p | p != path :: Stack(p) == old(Stack(p))
    {
      var stack := Stack(path);
      ok := stack != [];
      if ok {
        stacks := stacks[path := stack[..|stack| - 1]];
      }
    }

    /** mount -o bind, unless the kernel refuses. */
    method Bind(source: string, path: string, granted: bool)
      modifies this
      ensures Stack(path) == old(Stack(path)) + (if granted then [source] else [])
      ensures forall p | p != path :: Stack(p) == old(Stack(p))
    {
      if granted {
        stacks := stacks[path := Stack(path) + [source]];
      }
    }

    method UmountTarget(target: string, count: int)
      modifies this
      ensures Stack(target) == Popped(old(Stack(target)), count)
      ensures forall p | p != target :: Stack(p) == old(Stack(p))
    {
      var i := 0;
      while i < count
        invariant 0 <= i <= Max(count, 0)
        invariant Stack(target) == Popped(old(Stack(target)), i)
        invariant forall p | p != target :: Stack(p) == old(Stack(p))
      {
        // errors are ignored
        var _ := Umount(target);
        i := i + 1;
      }
    }

    /** recoverTarget, for an item of the table and the deletion mark of its app pod. */
    method RecoverTarget(sourcePath: string, ti: TargetItem, podDeleted: bool, pathExists: string -> bool, granted: bool)
      modifies this
      ensures Stack(ti.target) == Recovered(old(Stack(ti.target)), sourcePath, ti.status, ti.count, ti.inconsistent, podDeleted,
                                            ti.subpath, granted && (ti.subpath == "" || pathExists(Source(sourcePath, ti.subpath))))
      ensures forall p | p != ti.target :: Stack(p) == old(Stack(p))
    {
      match ti.status
      case NotExist =>
        if ti.count > 0 && podDeleted {
          UmountTarget(ti.target, ti.count);
        }
      case Mounted =>
      case NotMount =>
      case Corrupt =>
        if ti.inconsistent || podDeleted {
          return;
        }
        UmountTarget(ti.target, ti.count - 1);
        var source := sourcePath;
        if ti.subpath != "" {
          source := source + "/" + ti.subpath;
          if !pathExists(source) {
            return;
          }
        }
        Bind(source, ti.target, granted);
      case Unexpect =>
    }

    /** The loop of JfsUnmount: unmounts until nothing is left, which takes one umount more than there are
        layers. */
    method UnmountAll(target: string) returns (calls: nat)
      modifies this
      ensures Stack(target) == []
      ensures calls == |old(Stack(target))| + 1
      ensures forall p | p != target :: Stack(p) == old(Stack(p))
    {
      calls := 0;
      var ok := true;
      while ok
        invariant calls + |Stack(target)| == |old(Stack(target))| + (if ok then 0 else 1)
        invariant !ok ==> Stack(target) == []
        invariant forall p | p != target :: Stack(p) == old(Stack(p))
        decreases ok, |Stack(target)|
      {
        ok := Umount(target);
        calls := calls + 1;
      }
    }

    /** recoverTarget on an item the table resolved. */
    method RecoverItem(sourcePath: string, item: TargetItem, podDeleted: bool, system: System, ghost mis: seq<MountInfo.Entry>)
      requires Shows(item, mis, system.stat)
      modifies this
      ensures Progress(old(stacks), stacks, {item.target}, sourcePath, mis, podDeleted, system)
    {
      ghost var before := stacks;
      RecoverTarget(sourcePath, item, podDeleted, system.sourceExists, system.granted(item.target));
      forall p | p != item.target ensures StackAt(stacks, p) == StackAt(before, p) {
        assert Stack(p) == StackAt(stacks, p);
      }
    }

    /** A round of podReadyHandler on one reference: its base target and its subpath targets are recovered, each
        as the table shows it, and nothing else is touched. */
    method RecoverItems(sourcePath: string, mi: MountItem, system: System, ghost mis: seq<MountInfo.Entry>)
      requires Apart([mi.base] + mi.subpaths)
      requires forall item | item in [mi.base] + mi.subpaths :: Shows(item, mis, system.stat)
      modifies this
      ensures Progress(old(stacks), stacks, {mi.base.target} + Targets(mi.subpaths), sourcePath, mis, mi.podDeleted, system)
    {
      ghost var before, items := stacks, [mi.base] + mi.subpaths;
      assert items[0] == mi.base && forall i | 0 <= i < |mi.subpaths| :: items[i + 1] == mi.subpaths[i];
      RecoverItem(sourcePath, mi.base, mi.podDeleted, system, mis);
      ghost var mid := stacks;
      RecoverSubpaths(sourcePath, mi.subpaths, mi.podDeleted, system, mis);
      assert mi.base.target !in Targets(mi.subpaths);
      ProgressOn(before, mid, stacks, {mi.base.target}, Targets(mi.subpaths), sourcePath, mis, mi.podDeleted, system);
    }

    method RecoverSubpaths(sourcePath: string, items: seq<TargetItem>, podDeleted: bool, system: System, ghost mis: seq<MountInfo.Entry>)
      requires Apart(items) && forall item | item in items :: Shows(item, mis, system.stat)
      modifies this
      ensures Progress(old(stacks), stacks, Targets(items), sourcePath, mis, podDeleted, system)
    {
      ghost var before := stacks;
      for i := 0 to |items|
        invariant Progress(before, stacks, Targets(items[..i]), sourcePath, mis, podDeleted, system)
      {
        ghost var mid := stacks;
        RecoverItem(sourcePath, items[i], podDeleted, system, mis);
        MoreTargets(items[..i], items[i]);
        assert items[..i + 1] == items[..i] + [items[i]];
        ProgressOn(before, mid, stacks, Targets(items[..i]), {items[i].target}, sourcePath, mis, podDeleted, system);
      }
      assert items[..|items|] == items;
    }
  }

  /** The paths of `done` were recovered, the others not yet. */
  ghost predicate Progress(before: map<string, seq<string>>, after: map<string, seq<string>>, done: set<string>, sourcePath: string,
                           mis: seq<MountInfo.Entry>, podDeleted: bool, system: System)
  {
    forall p :: StackAt(after, p) ==
      if p in done then AfterRound(StackAt(before, p), p, sourcePath, mis, podDeleted, system) else StackAt(before, p)
  }

  lemma ProgressOn(before: map<string, seq<string>>, mid: map<string, seq<string>>, after: map<string, seq<string>>, done: set<string>,
                   more: set<string>, sourcePath: string, mis: seq<MountInfo.Entry>, podDeleted: bool, system: System)
    requires Progress(before, mid, done, sourcePath, mis, podDeleted, system) && done !! more
    requires Progress(mid, after, more, sourcePath, mis, podDeleted, system)
    ensures Progress(before, after, done + more, sourcePath, mis, podDeleted, system)
  {
  }

  function StackAt(stacks: map<string, seq<string>>, path: string): seq<string> {
    if path in stacks then stacks[path] else []
  }

  // ----- what recovery does to one stack

  function Source(sourcePath: string, subpath: string): string {
    if subpath == "" then sourcePath else sourcePath + "/" + subpath
  }

  predicate Repairable(status: TargetStatus, inconsistent: bool, podDeleted: bool) {
    status.Corrupt? && !inconsistent && !podDeleted
  }

  function Recovered(stack: seq<string>, sourcePath: string, status: TargetStatus, count: nat, inconsistent: bool,
                     podDeleted: bool, subpath: string, bound: bool): seq<string>
  {
    if Repairable(status, inconsistent, podDeleted) then
      Popped(stack, count - 1) + (if bound then [Source(sourcePath, subpath)] else [])
    else if status.NotExist? && podDeleted then Popped(stack, count)
    else stack
  }

  /** What a round of recovery leaves on a path. */
  ghost function AfterRound(stack: seq<string>, path: string, sourcePath: string, mis: seq<MountInfo.Entry>, podDeleted: bool,
                            system: System): seq<string>
  {
    var subpaths := SubpathsAt(mis, path);
    var subpath := FirstSubpath(subpaths);
    Recovered(stack, sourcePath, StatusOf(system.stat(path), subpaths != []), |subpaths|, Differ(subpaths), podDeleted, subpath,
              system.granted(path) && (subpath == "" || system.sourceExists(Source(sourcePath, subpath))))
  }

  /** A repaired target ends at max(h - max(c - 1, 0), 0) + 1 layers with the new source on top: two if the
      table counts the layers right. */
  lemma RepairedHeight(stack: seq<string>, sourcePath: string, count: nat, subpath: string)
    ensures var s := Recovered(stack, sourcePath, Corrupt, count, false, false, subpath, true);
      && |s| == Max(|stack| - Max(count - 1, 0), 0) + 1
      && s[|s| - 1] == Source(sourcePath, subpath)
      && (count == |stack| >= 1 ==> |s| == 2 && s[0] == stack[0])
  {
  }

  /** Without the bind, for a missing subpath or a refused mount, a layer stays exactly if the table does not
      count more layers than there are. */
  lemma LayerStaysExactly(stack: seq<string>, sourcePath: string, count: nat, subpath: string)
    requires stack != []
    ensures Recovered(stack, sourcePath, Corrupt, count, false, false, subpath, false) != [] <==> count <= |stack|
  {
  }

  /** One recovery round as seen by one target: what its item says, and whether the bind succeeds. */
  datatype Round = Round(status: TargetStatus, inconsistent: bool, podDeleted: bool, subpath: string, bound: bool)

  /** Rounds in which the table counts the layers there are. */
  function Rounds(stack: seq<string>, sourcePath: string, rounds: seq<Round>): seq<string> {
    if rounds == [] then stack
    else
      var s := Rounds(stack, sourcePath, rounds[..|rounds| - 1]);
      var r := rounds[|rounds| - 1];
      Recovered(s, sourcePath, r.status, |s|, r.inconsistent, r.podDeleted, r.subpath, r.bound)
  }

  /** However many rounds there are: the stack never grows beyond two layers or what it was, and a target whose
      app pod lives is never left bare. */
  lemma {:induction false} RoundsStayBounded(stack: seq<string>, sourcePath: string, rounds: seq<Round>)
    ensures |Rounds(stack, sourcePath, rounds)| <= Max(|stack|, 2)
    ensures stack != [] && (forall r | r in rounds :: !r.podDeleted) ==> Rounds(stack, sourcePath, rounds) != []
    ensures stack != [] && (forall r | r in rounds :: !r.podDeleted) ==> Rounds(stack, sourcePath, rounds)[0] == stack[0]
  {
    if rounds != [] {
      var init := rounds[..|rounds| - 1];
      RoundsStayBounded(stack, sourcePath, init);
      assert forall r | r in init :: r in rounds;
      assert rounds[|rounds| - 1] in rounds;
    }
  }

  /** A stale count has no such bound: counting one layer where there are more adds a layer each round. */
  lemma {:induction false} StaleCountGrows(stack: seq<string>, sourcePath: string, n: nat)
    ensures |StaleRounds(stack, sourcePath, n)| == |stack| + n
  {
    if n > 0 {
      StaleCountGrows(stack, sourcePath, n - 1);
    }
  }

  function StaleRounds(stack: seq<string>, sourcePath: string, n: nat): seq<string> {
    if n == 0 then stack else Recovered(StaleRounds(stack, sourcePath, n - 1), sourcePath, Corrupt, 1, false, false, "", true)
  }

  /** However a target was recovered before, the table counting its layers right each time, unpublishing it
      takes one umount per layer and one more, at most max(layers, 2) + 1, and leaves it bare. */
  method RecoverThenUnmount(node: Stacks, sourcePath: string, target: string, rounds: seq<Round>) returns (calls: nat)
    modifies node
    ensures node.Stack(target) == []
    ensures calls == |Rounds(old(node.Stack(target)), sourcePath, rounds)| + 1
    ensures calls <= Max(|old(node.Stack(target))|, 2) + 1
    ensures forall p | p != target :: node.Stack(p) == old(node.Stack(p))
  {
    ghost var stack := node.Stack(target);
    for i := 0 to |rounds|
      invariant node.Stack(target) == Rounds(stack, sourcePath, rounds[..i])
      invariant forall p | p != target :: node.Stack(p) == old(node.Stack(p))
    {
      var r := rounds[i];
      assert rounds[..i + 1][..i] == rounds[..i];
      var item := new TargetItem(target, r.subpath, |node.Stack(target)|);
      item.status, item.inconsistent := r.status, r.inconsistent;
      node.RecoverTarget(sourcePath, item, r.podDeleted, _ => true, r.bound);
    }
    assert rounds[..|rounds|] == rounds;
    RoundsStayBounded(stack, sourcePath, rounds);
    calls := node.UnmountAll(target);
  }

  // ----- podReadyHandler

  /** The app pod of the target is listed as being deleted. */
  predicate AppPodDeleted(deletedPods: map<string, bool>, t: Target) {
    GetPodUid(t) in deletedPods && deletedPods[GetPodUid(t)]
  }

  /** The paths that belong to a reference: its target and the mounts below the subpath directory of its pod and
      volume; none if it is no CSI target path. */
  ghost function OwnPaths(mis: seq<MountInfo.Entry>, t: Target): set<string> {
    if GetPodUid(t) == "" || GetPVName(t) == "" then {} else {t} + MatchingPoints(mis, SubpathPrefix(t), true)
  }

  /** What belongs to a CSI target, <root>/<uid>/volumes/kubernetes.io~csi/<pv>/<tail>: itself, and every mount
      point that starts with <root>/<uid>/volume-subpaths/<pv>. */
  lemma OwnPathsOfCsiTarget(mis: seq<MountInfo.Entry>, root: string, uid: string, pv: string, tail: string, p: string)
    requires root != "" && uid != "" && pv != "" && '/' !in uid && '/' !in pv
    requires !Contains(root + "/" + uid + "/", CSI_DIRECTORY) && !Contains("/" + pv + "/" + tail, CSI_DIRECTORY)
    ensures var target := root + "/" + uid + "/" + CSI_DIRECTORY + ("/" + pv + "/" + tail);
      p in OwnPaths(mis, target) <==>
        p == target || (root + "/" + uid + "/volume-subpaths/" + pv <= p && exists i | 0 <= i < |mis| :: mis[i].mountPoint == p)
  {
    CsiPathRoundTrip(root, uid, pv, tail);
    SubpathPrefixIs(root, uid, pv, tail);
    var target := root + "/" + uid + "/" + CSI_DIRECTORY + ("/" + pv + "/" + tail);
    PointsBelow(mis, target, root + "/" + uid + "/volume-subpaths/" + pv, p);
  }

  lemma PointsBelow(mis: seq<MountInfo.Entry>, target: string, prefix: string, p: string)
    requires GetPodUid(target) != "" && GetPVName(target) != "" && SubpathPrefix(target) == prefix
    ensures p in OwnPaths(mis, target) <==> p == target || (prefix <= p && exists i | 0 <= i < |mis| :: mis[i].mountPoint == p)
  {
    if i :| 0 <= i < |mis| && mis[i].mountPoint == p && prefix <= p {
      assert Matches(mis[i], prefix, true);
    }
  }

  /** One round for each of these references, in this order. */
  ghost function AfterAll(stack: seq<string>, path: string, order: seq<Target>, sourcePath: string, mis: seq<MountInfo.Entry>,
                          deletedPods: map<string, bool>, system: System): seq<string>
  {
    if order == [] then stack
    else
      var s := AfterAll(stack, path, order[..|order| - 1], sourcePath, mis, deletedPods, system);
      var t := order[|order| - 1];
      if path in OwnPaths(mis, t) then AfterRound(s, path, sourcePath, mis, AppPodDeleted(deletedPods, t), system) else s
  }

  /** Every reference comes once. */
  ghost predicate Lists(order: seq<Target>, refs: set<Target>) {
    (forall i, j | 0 <= i < j < |order| :: order[i] != order[j]) && forall t :: t in order <==> t in refs
  }

  ghost predicate Ready(before: map<string, seq<string>>, after: map<string, seq<string>>, order: seq<Target>, sourcePath: string,
                        mis: seq<MountInfo.Entry>, deletedPods: map<string, bool>, system: System)
  {
    forall p :: StackAt(after, p) == AfterAll(StackAt(before, p), p, order, sourcePath, mis, deletedPods, system)
  }

  /** Every path gets exactly one round for each reference it belongs to, in the order in which the references
      come; nothing happens if the volume's own mount path is unknown or cannot be read. */
  method PodReadyHandler(node: Stacks, table: MountInfoTable, annotations: Annotations, mntPath: Option<string>, readable: bool,
                         system: System) returns (ghost order: seq<Target>)
    modifies node
    ensures mntPath.None? || !readable ==> node.stacks == old(node.stacks)
    ensures mntPath.Some? && readable ==> (
      && Lists(order, Refs(annotations))
      && Ready(old(node.stacks), node.stacks, order, mntPath.value, table.mis, table.deletedPods, system))
  {
    order := [];
    if mntPath.None? || !readable {
      return;
    }
    ghost var before := node.stacks;
    var keys := annotations.Keys;
    while keys != {}
      invariant keys <= annotations.Keys
      invariant Lists(order, Refs(annotations) - Pending(keys))
      invariant Ready(before, node.stacks, order, mntPath.value, table.mis, table.deletedPods, system)
    {
      var k :| k in keys;
      ghost var mid, done := node.stacks, order;
      if IsRef(k, annotations[k]) {
        var target := annotations[k].target;
        var mi := table.ResolveTarget(target, system.stat);
        if mi.Some? {
          node.RecoverItems(mntPath.value, mi.value, system, table.mis);
        }
        order := order + [target];
        NextRound(before, mid, node.stacks, done, target, mntPath.value, table.mis, table.deletedPods, system);
      }
      NextReference(annotations, keys, k, done, order);
      keys := keys - {k};
    }
    assert Pending({}) == {};
  }

  /** The targets whose reference keys are still to come. */
  ghost function Pending(keys: set<Key>): set<Target> {
    set k | k in keys && k.Ref? :: k.target
  }

  lemma NextReference(a: Annotations, keys: set<Key>, k: Key, done: seq<Target>, order: seq<Target>)
    requires keys <= a.Keys && k in keys && Lists(done, Refs(a) - Pending(keys))
    requires order == if IsRef(k, a[k]) then done + [a[k].target] else done
    ensures Lists(order, Refs(a) - Pending(keys - {k}))
  {
    forall t ensures t in Pending(keys) <==> t in Pending(keys - {k}) || k == Ref(t) {
      if t in Pending(keys) {
        assert Ref(t) in keys;
      }
    }
  }

  lemma NextRound(before: map<string, seq<string>>, mid: map<string, seq<string>>, after: map<string, seq<string>>, done: seq<Target>,
                  t: Target, sourcePath: string, mis: seq<MountInfo.Entry>, deletedPods: map<string, bool>, system: System)
    requires Ready(before, mid, done, sourcePath, mis, deletedPods, system)
    requires Progress(mid, after, OwnPaths(mis, t), sourcePath, mis, AppPodDeleted(deletedPods, t), system)
    ensures Ready(before, after, done + [t], sourcePath, mis, deletedPods, system)
  {
    assert (done + [t])[..|done|] == done;
  }

  /** A path that belongs to no reference stays as it is. */
  lemma {:induction false} OthersStay(stack: seq<string>, path: string, order: seq<Target>, sourcePath: string,
                                      mis: seq<MountInfo.Entry>, deletedPods: map<string, bool>, system: System)
    requires forall t | t in order :: path !in OwnPaths(mis, t)
    ensures AfterAll(stack, path, order, sourcePath, mis, deletedPods, system) == stack
  {
    if order != [] {
      OthersStay(stack, path, order[..|order| - 1], sourcePath, mis, deletedPods, system);
      assert order[|order| - 1] in order;
    }
  }

  /** A path that belongs to one reference alone is recovered once. */
  lemma {:induction false} RecoveredOnce(stack: seq<string>, path: string, order: seq<Target>, refs: set<Target>, t: Target, sourcePath: string,
                                         mis: seq<MountInfo.Entry>, deletedPods: map<string, bool>, system: System)
    requires Lists(order, refs) && t in refs && forall u | u in refs :: path in OwnPaths(mis, u) <==> u == t
    ensures AfterAll(stack, path, order, sourcePath, mis, deletedPods, system)
         == AfterRound(stack, path, sourcePath, mis, AppPodDeleted(deletedPods, t), system)
    decreases |order|
  {
    var init, last := order[..|order| - 1], order[|order| - 1];
    ListsButLast(order, refs);
    if last == t {
      OthersStay(stack, path, init, sourcePath, mis, deletedPods, system);
    } else {
      RecoveredOnce(stack, path, init, refs - {last}, t, sourcePath, mis, deletedPods, system);
    }
  }

  lemma ListsButLast(order: seq<Target>, refs: set<Target>)
    requires Lists(order, refs) && refs != {}
    ensures order != [] && order[|order| - 1] in refs
    ensures Lists(order[..|order| - 1], refs - {order[|order| - 1]})
  {
    assert order != [] by {
      var t :| t in refs;
      assert t in order;
    }
    var init, last := order[..|order| - 1], order[|order| - 1];
    assert last in order && last !in init;
    forall u ensures u in init <==> u in refs - {last} {
      assert u in order <==> u in init || u == last;
    }
  }

  /** What a ready pod's reference gets if its app pod lives, its path belongs to no other reference and the table
      counts its layers right: never bare, never more than two layers or what it was, the lowest layer kept; and
      if the mount is dead and can be bound again, exactly that layer with the new mount on top. */
  lemma LiveTargetRepaired(before: map<string, seq<string>>, after: map<string, seq<string>>, path: string, order: seq<Target>,
                           refs: set<Target>, t: Target, sourcePath: string, mis: seq<MountInfo.Entry>,
                           deletedPods: map<string, bool>, system: System)
    requires Ready(before, after, order, sourcePath, mis, deletedPods, system) && Lists(order, refs)
    requires t in refs && forall u | u in refs :: path in OwnPaths(mis, u) <==> u == t
    requires !AppPodDeleted(deletedPods, t) && |SubpathsAt(mis, path)| == |StackAt(before, path)| > 0
    ensures var stack, s := StackAt(before, path), StackAt(after, path);
      s != [] && s[0] == stack[0] && |s| <= Max(|stack|, 2)
    ensures var subpath := FirstSubpath(SubpathsAt(mis, path));
      system.stat(path).CorruptedMount? && !Differ(SubpathsAt(mis, path)) && system.granted(path)
        && (subpath == "" || system.sourceExists(Source(sourcePath, subpath))) ==>
      StackAt(after, path) == [StackAt(before, path)[0], Source(sourcePath, subpath)]
  {
    RecoveredOnce(StackAt(before, path), path, order, refs, t, sourcePath, mis, deletedPods, system);
    LiveRound(StackAt(before, path), path, sourcePath, mis, system);
  }

  /** What stat says of the path, what the table shows of it, and whether the app pod is deleted leave recovery
      nothing to do. */
  ghost predicate LeftAlone(path: string, mis: seq<MountInfo.Entry>, podDeleted: bool, system: System) {
    match system.stat(path)
    case Fine => true
    case OtherError => true
    case CorruptedMount => podDeleted || Differ(SubpathsAt(mis, path))
    case NotThere => !podDeleted
  }

  lemma {:induction false} AllLeave(stack: seq<string>, path: string, order: seq<Target>, sourcePath: string, mis: seq<MountInfo.Entry>,
                                    deletedPods: map<string, bool>, system: System)
    requires forall t | t in order && path in OwnPaths(mis, t) :: LeftAlone(path, mis, AppPodDeleted(deletedPods, t), system)
    ensures AfterAll(stack, path, order, sourcePath, mis, deletedPods, system) == stack
  {
    if order != [] {
      AllLeave(stack, path, order[..|order| - 1], sourcePath, mis, deletedPods, system);
      assert order[|order| - 1] in order;
    }
  }

  /** Whatever the references and their order: a path stat finds healthy, or cannot judge, keeps its stack. So does
      one whose mount is dead if its entries differ or the app pods it belongs to are all deleted, and one that is
      gone if none of them is. */
  lemma OnlyBrokenTouched(before: map<string, seq<string>>, after: map<string, seq<string>>, path: string, order: seq<Target>,
                          sourcePath: string, mis: seq<MountInfo.Entry>, deletedPods: map<string, bool>, system: System)
    requires Ready(before, after, order, sourcePath, mis, deletedPods, system)
    requires forall t | t in order && path in OwnPaths(mis, t) :: LeftAlone(path, mis, AppPodDeleted(deletedPods, t), system)
    ensures StackAt(after, path) == StackAt(before, path)
  {
    AllLeave(StackAt(before, path), path, order, sourcePath, mis, deletedPods, system);
  }

  /** A path that is gone, and belongs to one reference, of a deleted app pod, loses as many layers as the table
      counts, from the top, or all it has. */
  lemma GoneTargetCleared(before: map<string, seq<string>>, after: map<string, seq<string>>, path: string, order: seq<Target>,
                          refs: set<Target>, t: Target, sourcePath: string, mis: seq<MountInfo.Entry>,
                          deletedPods: map<string, bool>, system: System)
    requires Ready(before, after, order, sourcePath, mis, deletedPods, system) && Lists(order, refs)
    requires t in refs && forall u | u in refs :: path in OwnPaths(mis, u) <==> u == t
    requires AppPodDeleted(deletedPods, t) && system.stat(path).NotThere?
    ensures var counted, stack := |SubpathsAt(mis, path)|, StackAt(before, path);
      StackAt(after, path) == if counted < |stack| then stack[..|stack| - counted] else []
  {
    RecoveredOnce(StackAt(before, path), path, order, refs, t, sourcePath, mis, deletedPods, system);
  }

  /** A dead bind of a directory, deleted since or not, is recovered on that directory of the mounted volume. */
  lemma DeadBindRepaired(before: map<string, seq<string>>, after: map<string, seq<string>>, path: string, order: seq<Target>,
                         refs: set<Target>, t: Target, sourcePath: string, mis: seq<MountInfo.Entry>,
                         deletedPods: map<string, bool>, system: System, dir: string)
    requires Ready(before, after, order, sourcePath, mis, deletedPods, system) && Lists(order, refs)
    requires t in refs && forall u | u in refs :: path in OwnPaths(mis, u) <==> u == t
    requires !AppPodDeleted(deletedPods, t) && |SubpathsAt(mis, path)| == |StackAt(before, path)| > 0
    requires Plain(dir) && forall i | 0 <= i < |mis| && mis[i].mountPoint == path :: Binds(mis[i], dir)
    requires system.stat(path).CorruptedMount? && system.granted(path) && (dir == "" || system.sourceExists(sourcePath + "/" + dir))
    ensures StackAt(after, path) == [StackAt(before, path)[0], if dir == "" then sourcePath else sourcePath + "/" + dir]
  {
    var dirs := seq(|mis|, i => dir);
    SubpathsAreDirectories(mis, dirs, path);
    var subpaths := SubpathsAt(mis, path);
    assert forall i | 0 <= i < |subpaths| :: subpaths[i] in subpaths;
    assert forall s | s in subpaths :: s == dir;
    LiveTargetRepaired(before, after, path, order, refs, t, sourcePath, mis, deletedPods, system);
  }

  lemma LiveRound(stack: seq<string>, path: string, sourcePath: string, mis: seq<MountInfo.Entry>, system: System)
    requires |SubpathsAt(mis, path)| == |stack| > 0
    ensures var s := AfterRound(stack, path, sourcePath, mis, false, system); s != [] && s[0] == stack[0] && |s| <= Max(|stack|, 2)
    ensures var subpath := FirstSubpath(SubpathsAt(mis, path));
      system.stat(path).CorruptedMount? && !Differ(SubpathsAt(mis, path)) && system.granted(path)
        && (subpath == "" || system.sourceExists(Source(sourcePath, subpath))) ==>
      AfterRound(stack, path, sourcePath, mis, false, system) == [stack[0], Source(sourcePath, subpath)]
  {
  }
}
