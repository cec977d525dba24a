/** Mounting without pods: the mount table itself counts who still uses a base mount. */
module ProcessMount {
  import opened Wrappers
  import opened Strings
  import opened Paths
  import opened MountInfo

  type Table = seq<Entry>

  /** Mounts of one file system: the base mount of a volume and the binds made from it. */
  datatype Group = Group(majorMinor: string, fsType: string)

  function GroupOf(e: Entry): Group {
    Group(e.majorMinor, e.fsType)
  }

  // ----- searchMountPoints

  predicate Covers(e: Entry, path: string) {
    path == e.mountPoint || PathWithinBase(path, e.mountPoint)
  }

  /** A mount covers exactly the paths that begin with its components. */
  lemma CoversBelow(e: Entry, path: string)
    ensures Covers(e, path) <==> Components(e.mountPoint) <= Components(path)
  {
    WithinIsPrefix(path, e.mountPoint);
  }

  /** filepath.Join, as far as the search looks at it: is anything left? */
  function RootPath(root: string, rest: string): string {
    if root == "" && rest == "" then "" else JoinPath(root, rest)
  }

  /** The last mount covering the path: later mounts hide earlier ones. */
  ghost predicate IsLastCover(mis: Table, path: string, i: nat) {
    i < |mis| && Covers(mis[i], path) && forall j | i < j < |mis| :: !Covers(mis[j], path)
  }

  /** The mount points of the group, in table order, but for the mounts with identifier `id`. */
  function OtherPoints(mis: Table, g: Group, id: int): seq<string> {
    if mis == [] then []
    else
      var last := mis[|mis| - 1];
      OtherPoints(mis[..|mis| - 1], g, id) + (if last.id != id && GroupOf(last) == g then [last.mountPoint] else [])
  }

  method SearchMountPoints(hostSource: string, mis: Table) returns (refs: Option<seq<string>>)
    requires forall e | e in mis :: e.root != "" && e.majorMinor != ""
    ensures refs.None? <==> forall i | 0 <= i < |mis| :: !Covers(mis[i], hostSource)
    ensures forall i: nat | IsLastCover(mis, hostSource, i) :: refs == Some(OtherPoints(mis, GroupOf(mis[i]), mis[i].id))
  {
    var mountID, rootPath, majorMinor, fsType := 0, "", "", "";
    ghost var found: nat := |mis|;
    var i := |mis| - 1;
    while i >= 0
      invariant -1 <= i < |mis|
      invariant forall j | i < j < |mis| :: !Covers(mis[j], hostSource)
    {
      if hostSource == mis[i].mountPoint || PathWithinBase(hostSource, mis[i].mountPoint) {
        mountID := mis[i].id;
        rootPath := RootPath(mis[i].root, TrimPrefix(hostSource, mis[i].mountPoint));
        majorMinor := mis[i].majorMinor;
        fsType := mis[i].fsType;
        found := i;
        break;
      }
      i := i - 1;
    }
    assert if found == |mis| then rootPath == "" && forall j | 0 <= j < |mis| :: !Covers(mis[j], hostSource)
           else IsLastCover(mis, hostSource, found) && rootPath != "" && mis[found] in mis;
    if rootPath == "" || majorMinor == "" {
      return None;
    }
    var points := AllOthers(mis, mountID, majorMinor, fsType);
    return Some(points);
  }

  method AllOthers(mis: Table, mountID: int, majorMinor: string, fsType: string) returns (points: seq<string>)
    ensures points == OtherPoints(mis, Group(majorMinor, fsType), mountID)
  {
    points := [];
    for k := 0 to |mis|
      invariant points == OtherPoints(mis[..k], Group(majorMinor, fsType), mountID)
    {
      assert mis[..k + 1][..k] == mis[..k];
      if mis[k].id != mountID && mis[k].majorMinor == majorMinor && mis[k].fsType == fsType {
        points := points + [mis[k].mountPoint];
      }
    }
    assert mis[..|mis|] == mis;
  }

  // ----- the table

  ghost predicate Distinct(mis: Table) {
    forall i, j | 0 <= i < j < |mis| :: mis[i].id != mis[j].id && mis[i].mountPoint != mis[j].mountPoint
  }

  predicate Mounted(mis: Table, path: string) {
    exists i | 0 <= i < |mis| :: mis[i].mountPoint == path
  }

  /** The position of the last mount at `path`, the one an umount takes away. */
  function Find(mis: Table, path: string): (i: nat)
    requires Mounted(mis, path)
    ensures i < |mis| && mis[i].mountPoint == path && forall j | i < j < |mis| :: mis[j].mountPoint != path
  {
    if mis[|mis| - 1].mountPoint == path then |mis| - 1 else Find(mis[..|mis| - 1], path)
  }

  function Removed(mis: Table, i: nat): Table
    requires i < |mis|
  {
    mis[..i] + mis[i + 1..]
  }

  /** Nothing mounted later lies over the path. */
  ghost predicate Exposed(mis: Table, path: string) {
    Mounted(mis, path) ==> IsLastCover(mis, path, Find(mis, path))
  }

  /** What PathExists says about the target. */
  datatype Probe = Missing | Present | Corrupted | Failed

  /** An unmount of a target: its mount goes, and the one mount left of its group, if just one is left. */
  function Umounted(mis: Table, target: string): Table {
    if !Mounted(mis, target) then mis
    else
      var i := Find(mis, target);
      var rest := Removed(mis, i);
      var refs := OtherPoints(mis, GroupOf(mis[i]), mis[i].id);
      if |refs| == 1 && Mounted(rest, refs[0]) then Removed(rest, Find(rest, refs[0])) else rest
  }

  class Mounts {
    var mis: Table

    constructor ()
      ensures mis == []
    {
      mis := [];
    }

    method Unmount(path: string) returns (ok: bool)
      modifies this
      ensures ok <==> Mounted(old(mis), path)
      ensures mis == if ok then Removed(old(mis), Find(old(mis), path)) else old(mis)
    {
      ok := Mounted(mis, path);
      if ok {
        mis := Removed(mis, Find(mis, path));
      }
    }

    /** ProcessMount.JUmount. */
    method JUmount(target: string, probe: Probe) returns (ok: bool)
      requires forall e | e in mis :: e.root != "" && e.majorMinor != ""
      requires Exposed(mis, target)
      modifies this
      ensures ok && (probe.Present? || probe.Corrupted?) ==> mis == Umounted(old(mis), target)
      ensures !ok || probe.Missing? ==> mis == old(mis)
      ensures ok <==> probe.Missing? || probe.Present? || (probe.Corrupted? && Mounted(old(mis), target))
    {
      if probe.Missing? {
        return true;
      }
      if probe.Failed? {
        return false;
      }
      if probe.Present? && !Mounted(mis, target) {
        return true;
      }
      var refs := SearchMountPoints(target, mis);
      if refs.None? {
        return false;
      }
      var unmounted := Unmount(target);
      if !unmounted {
        return false;
      }
      if |refs.value| == 1 {
        var _ := Unmount(refs.value[0]);
      }
      return true;
    }
  }

  // ----- the table as a reference count

  /** What a reference counter would keep for one volume. */
  datatype Volume = Volume(up: bool, binds: set<string>)

  ghost predicate BaseUp(mis: Table, g: Group, base: string) {
    exists i | 0 <= i < |mis| :: GroupOf(mis[i]) == g && mis[i].mountPoint == base
  }

  ghost function Binds(mis: Table, g: Group, base: string): set<string> {
    set i | 0 <= i < |mis| && GroupOf(mis[i]) == g && mis[i].mountPoint != base :: mis[i].mountPoint
  }

  ghost function View(mis: Table, g: Group, base: string): Volume {
    Volume(BaseUp(mis, g, base), Binds(mis, g, base))
  }

  datatype Op = Mount(e: Entry) | Umount(target: string)

  /** The reference counter's own steps: a bind adds its target, an unmount of a bound target takes it away
      and the base with the last one, and nothing else matters. */
  function Count(v: Volume, g: Group, base: string, op: Op): Volume {
    match op
    case Mount(e) =>
      if GroupOf(e) != g then v
      else if e.mountPoint == base then v.(up := true)
      else v.(binds := v.binds + {e.mountPoint})
    case Umount(t) =>
      if t !in v.binds then v else Volume(v.up && v.binds != {t}, v.binds - {t})
  }

  function Apply(mis: Table, op: Op): Table {
    match op
    case Mount(e) => mis + [e]
    case Umount(t) => Umounted(mis, t)
  }

  /** One base mount a group: each group of `bases` has its base path, no two groups share one. */
  type Bases = map<Group, string>

  /** Binds come from a mounted base, new mounts get new identifiers and free paths, only targets with
      nothing over them are unmounted, and base paths are not targets. */
  ghost predicate Permitted(mis: Table, bases: Bases, op: Op) {
    match op
    case Mount(e) =>
      && (forall i | 0 <= i < |mis| :: mis[i].id != e.id && mis[i].mountPoint != e.mountPoint)
      && e.root != "" && e.majorMinor != ""
      && (GroupOf(e) in bases && e.mountPoint != bases[GroupOf(e)] ==> BaseUp(mis, GroupOf(e), bases[GroupOf(e)]))
      && (forall g | g in bases && bases[g] == e.mountPoint :: g == GroupOf(e))
    case Umount(t) =>
      && Exposed(mis, t)
      && (Mounted(mis, t) ==> GroupOf(mis[Find(mis, t)]) in bases)
      && (forall g | g in bases :: bases[g] != t)
  }

  ghost predicate Sound(mis: Table, bases: Bases) {
    && Distinct(mis)
    && (forall g | g in bases && Binds(mis, g, bases[g]) != {} :: BaseUp(mis, g, bases[g]))
    && (forall i, g | 0 <= i < |mis| && g in bases && bases[g] == mis[i].mountPoint :: g == GroupOf(mis[i]))
  }

  lemma RemovedView(mis: Table, i: nat, g: Group, base: string)
    requires Distinct(mis) && i < |mis|
    ensures View(Removed(mis, i), g, base) ==
      if GroupOf(mis[i]) != g then View(mis, g, base)
      else if mis[i].mountPoint == base then View(mis, g, base).(up := false)
      else Volume(BaseUp(mis, g, base), Binds(mis, g, base) - {mis[i].mountPoint})
  {
    var rest := Removed(mis, i);
    assert forall j | 0 <= j < i :: rest[j] == mis[j];
    assert forall j | i < j < |mis| :: rest[j - 1] == mis[j];
    assert forall j | i <= j < |rest| :: rest[j] == mis[j + 1];
    forall p ensures p in Binds(rest, g, base) <==>
      p in Binds(mis, g, base) && !(GroupOf(mis[i]) == g && p == mis[i].mountPoint)
    {
      if p in Binds(rest, g, base) {
        var j :| 0 <= j < |rest| && GroupOf(rest[j]) == g && rest[j].mountPoint != base && rest[j].mountPoint == p;
        var k := if j < i then j else j + 1;
        assert mis[k] == rest[j] && k != i;
      }
      if p in Binds(mis, g, base) {
        var k :| 0 <= k < |mis| && GroupOf(mis[k]) == g && mis[k].mountPoint != base && mis[k].mountPoint == p;
        if k != i {
          assert mis[k] == rest[if k < i then k else k - 1];
        }
      }
    }
    RemovedBase(mis, i, g, base);
  }

  lemma RemovedDistinct(mis: Table, i: nat)
    requires Distinct(mis) && i < |mis|
    ensures Distinct(Removed(mis, i))
  {
  }

  lemma DistinctStays(mis: Table, bases: Bases, op: Op)
    requires Sound(mis, bases) && Permitted(mis, bases, op)
    ensures Distinct(Apply(mis, op))
  {
    if op.Umount? && Mounted(mis, op.target) {
      RemovedDistinct(mis, Find(mis, op.target));
      var rest := Removed(mis, Find(mis, op.target));
      forall i: nat | i < |rest| ensures Distinct(Removed(rest, i)) {
        RemovedDistinct(rest, i);
      }
    }
  }

  lemma RemovedBase(mis: Table, i: nat, g: Group, base: string)
    requires Distinct(mis) && i < |mis|
    ensures BaseUp(Removed(mis, i), g, base) <==> BaseUp(mis, g, base) && !(GroupOf(mis[i]) == g && mis[i].mountPoint == base)
  {
    var rest := Removed(mis, i);
    if BaseUp(rest, g, base) {
      var j :| 0 <= j < |rest| && GroupOf(rest[j]) == g && rest[j].mountPoint == base;
      var k := if j < i then j else j + 1;
      assert mis[k] == rest[j] && k != i;
    }
    if BaseUp(mis, g, base) {
      var k :| 0 <= k < |mis| && GroupOf(mis[k]) == g && mis[k].mountPoint == base;
      if k != i {
        assert mis[k] == rest[if k < i then k else k - 1];
      }
    }
  }

  ghost predicate Other(e: Entry, g: Group, id: int) {
    e.id != id && GroupOf(e) == g
  }

  lemma {:induction false} OthersAmong(mis: Table, g: Group, id: int, j: nat, k: nat)
    requires j < k < |mis| && Other(mis[j], g, id) && Other(mis[k], g, id)
    ensures |OtherPoints(mis, g, id)| >= 2
    decreases |mis|
  {
    var init := mis[..|mis| - 1];
    if k < |init| {
      OthersAmong(init, g, id, j, k);
    } else {
      OneOther(init, g, id, j);
    }
  }

  lemma {:induction false} OneOther(mis: Table, g: Group, id: int, j: nat)
    requires j < |mis| && Other(mis[j], g, id)
    ensures |OtherPoints(mis, g, id)| >= 1
    ensures (forall k | 0 <= k < |mis| && k != j :: !Other(mis[k], g, id)) ==> OtherPoints(mis, g, id) == [mis[j].mountPoint]
    decreases |mis|
  {
    var init := mis[..|mis| - 1];
    if j < |init| {
      OneOther(init, g, id, j);
    } else if forall k | 0 <= k < |mis| && k != j :: !Other(mis[k], g, id) {
      NoOther(init, g, id);
    }
  }

  lemma {:induction false} NoOther(mis: Table, g: Group, id: int)
    requires forall k | 0 <= k < |mis| :: !Other(mis[k], g, id)
    ensures OtherPoints(mis, g, id) == []
  {
    if mis != [] {
      NoOther(mis[..|mis| - 1], g, id);
    }
  }

  /** Just one mount of the group is left besides this bind exactly if this is the last bind, and then the
      one left is the base. */
  lemma LastBind(mis: Table, i: nat, g: Group, base: string)
    requires Distinct(mis) && i < |mis| && GroupOf(mis[i]) == g && mis[i].mountPoint != base && BaseUp(mis, g, base)
    ensures |OtherPoints(mis, g, mis[i].id)| == 1 <==> Binds(mis, g, base) == {mis[i].mountPoint}
    ensures |OtherPoints(mis, g, mis[i].id)| == 1 ==> OtherPoints(mis, g, mis[i].id) == [base]
  {
    var id, p := mis[i].id, mis[i].mountPoint;
    assert p in Binds(mis, g, base);
    var b :| 0 <= b < |mis| && GroupOf(mis[b]) == g && mis[b].mountPoint == base;
    assert Other(mis[b], g, id);
    OneOther(mis, g, id, b);
    if k :| 0 <= k < |mis| && k != b && Other(mis[k], g, id) {
      OthersAmong(mis, g, id, if k < b then k else b, if k < b then b else k);
      assert mis[k].mountPoint in Binds(mis, g, base) && mis[k].mountPoint != p;
    } else {
      forall q | q in Binds(mis, g, base) ensures q == p {
        var k :| 0 <= k < |mis| && GroupOf(mis[k]) == g && mis[k].mountPoint != base && mis[k].mountPoint == q;
        assert Other(mis[k], g, id) || k == i;
      }
    }
  }

  lemma UmountCounts(mis: Table, bases: Bases, t: string, g: Group)
    requires Sound(mis, bases) && Permitted(mis, bases, Umount(t)) && g in bases
    ensures View(Umounted(mis, t), g, bases[g]) == Count(View(mis, g, bases[g]), g, bases[g], Umount(t))
  {
    var base := bases[g];
    if Mounted(mis, t) {
      var i := Find(mis, t);
      var h := GroupOf(mis[i]);
      assert t in Binds(mis, h, bases[h]);
      LastBind(mis, i, h, bases[h]);
      RemovedDistinct(mis, i);
      RemovedView(mis, i, g, base);
      RemovedView(mis, i, h, bases[h]);
      var rest := Removed(mis, i);
      if Binds(mis, h, bases[h]) == {t} {
        var b :| 0 <= b < |rest| && GroupOf(rest[b]) == h && rest[b].mountPoint == bases[h];
        assert Mounted(rest, bases[h]);
        var k := Find(rest, bases[h]);
        assert k == b;
        RemovedView(rest, k, g, base);
      }
      if g != h {
        NotBound(mis, i, g, base);
      }
    } else {
      assert t !in Binds(mis, g, base);
    }
  }

  lemma NotBound(mis: Table, i: nat, g: Group, base: string)
    requires Distinct(mis) && i < |mis| && GroupOf(mis[i]) != g
    ensures mis[i].mountPoint !in Binds(mis, g, base)
  {
  }

  lemma MountCounts(mis: Table, bases: Bases, e: Entry, g: Group)
    requires Sound(mis, bases) && Permitted(mis, bases, Mount(e)) && g in bases
    ensures View(mis + [e], g, bases[g]) == Count(View(mis, g, bases[g]), g, bases[g], Mount(e))
  {
    var base := bases[g];
    var mis' := mis + [e];
    assert mis'[|mis|] == e && forall i | 0 <= i < |mis| :: mis'[i] == mis[i];
    forall p ensures p in Binds(mis', g, base) <==> p in Binds(mis, g, base) || (GroupOf(e) == g && e.mountPoint != base && p == e.mountPoint) {
      if p in Binds(mis, g, base) {
        var i :| 0 <= i < |mis| && GroupOf(mis[i]) == g && mis[i].mountPoint != base && mis[i].mountPoint == p;
        assert mis'[i].mountPoint == p;
      }
    }
    if BaseUp(mis, g, base) {
      var i :| 0 <= i < |mis| && GroupOf(mis[i]) == g && mis[i].mountPoint == base;
      assert GroupOf(mis'[i]) == g && mis'[i].mountPoint == base;
    }
  }

  lemma BasesStay(mis: Table, bases: Bases, op: Op)
    requires Sound(mis, bases) && Permitted(mis, bases, op)
    ensures forall i, g | 0 <= i < |Apply(mis, op)| && g in bases && bases[g] == Apply(mis, op)[i].mountPoint :: g == GroupOf(Apply(mis, op)[i])
  {
  }

  /** Each operation on the table does what the reference counter of each volume says, and a volume with
      binds has its base mounted. */
  lemma StepCounts(mis: Table, bases: Bases, op: Op)
    requires Sound(mis, bases) && Permitted(mis, bases, op)
    ensures Sound(Apply(mis, op), bases)
    ensures forall g | g in bases :: View(Apply(mis, op), g, bases[g]) == Count(View(mis, g, bases[g]), g, bases[g], op)
  {
    var mis' := Apply(mis, op);
    forall g | g in bases
      ensures View(mis', g, bases[g]) == Count(View(mis, g, bases[g]), g, bases[g], op)
      ensures Binds(mis', g, bases[g]) != {} ==> BaseUp(mis', g, bases[g])
    {
      if op.Mount? {
        MountCounts(mis, bases, op.e, g);
      } else {
        UmountCounts(mis, bases, op.target, g);
      }
    }
    DistinctStays(mis, bases, op);
    BasesStay(mis, bases, op);
  }

  ghost predicate PermittedRun(bases: Bases, ops: seq<Op>)
    decreases |ops|
  {
    ops != [] ==> PermittedRun(bases, ops[..|ops| - 1]) && Permitted(Run(ops[..|ops| - 1]), bases, ops[|ops| - 1])
  }

  function Run(ops: seq<Op>): Table {
    if ops == [] then [] else Apply(Run(ops[..|ops| - 1]), ops[|ops| - 1])
  }

  function CountRun(ops: seq<Op>, g: Group, base: string): Volume {
    if ops == [] then Volume(false, {}) else Count(CountRun(ops[..|ops| - 1], g, base), g, base, ops[|ops| - 1])
  }

  /** Over any run, the mount table is a reference count: for every volume it shows the binds and the base a
      counter would have. So the base goes with the last bind, and no unmount takes another target's bind. */
  lemma {:induction false} TableIsReferenceCount(bases: Bases, ops: seq<Op>)
    requires PermittedRun(bases, ops)
    ensures Sound(Run(ops), bases)
    ensures forall g | g in bases :: View(Run(ops), g, bases[g]) == CountRun(ops, g, bases[g])
    decreases |ops|
  {
    if ops != [] {
      var init := ops[..|ops| - 1];
      TableIsReferenceCount(bases, init);
      StepCounts(Run(init), bases, ops[|ops| - 1]);
    }
  }
}
