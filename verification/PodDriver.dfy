/** The reconciler's work on one mount pod: checkAnnotations and the conflict retry of Run. */
module PodDriver {
  import opened Wrappers
  import opened Pods
  import opened ApiServer
  import opened Machine
  import opened Invariant
  import opened Node
  import opened IdleTail

  // ----- what a call does when nobody else acts

  function FinishAlone(s: Server, n: Name, pod: Pod, unused: bool, now: int, me: Writer): (Server, Outcome) {
    if unused && !pod.deleting then TailAlone(s, n, pod, now, me) else (s, Ok)
  }

  /** checkAnnotations on `pod`, which may be stale. */
  function CheckAlone(s: Server, n: Name, pod: Pod, table: Liveness, now: int, me: Writer): (Server, Outcome) {
    var after := AnnotatedWith(pod, Prune(pod.annotations, table));
    var unused := Refs(after.annotations) == {};
    if |pod.annotations| != |after.annotations| then
      var (s', r) := UpdatePod(s, n, after, me);
      if r.Accepted? then FinishAlone(s', n, after, unused, now, me) else (s', Failed(r))
    else FinishAlone(s, n, pod, unused, now, me)
  }

  /** The two attempts of Run: on a conflict the pod is fetched again, the liveness table is not. */
  function CheckTwiceAlone(s: Server, n: Name, pod: Pod, table: Liveness, now: int, me: Writer): (Server, Outcome) {
    var (s', e) := CheckAlone(s, n, pod, table, now, me);
    if e != Failed(Conflict) then (s', e)
    else if n !in s'.pods then (s', Failed(NotFound))
    else CheckAlone(s', n, s'.pods[n], table, now, me)
  }

  /** The copy the last attempt worked on. */
  function CheckedAlone(s: Server, n: Name, pod: Pod, table: Liveness, now: int, me: Writer): Pod {
    var (s', e) := CheckAlone(s, n, pod, table, now, me);
    if e == Failed(Conflict) && n in s'.pods then s'.pods[n] else pod
  }

  // ----- the loop over the annotations

  lemma KeptGrows(a: Annotations, kept: Annotations, k: Key)
    requires k in a && k !in kept && WellKeyed(a) && forall j | j in kept :: j in a && kept[j] == a[j]
    ensures |Refs(kept[k := a[k]])| == |Refs(kept)| + if IsRef(k, a[k]) then 1 else 0
  {
    var next := kept[k := a[k]];
    var more := if IsRef(k, a[k]) then {a[k].target} else {};
    forall t ensures t in Refs(next) <==> t in Refs(kept) + more {
    }
    assert Refs(next) == Refs(kept) + more && Refs(kept) !! more;
  }

  lemma StillKept(a: Annotations, table: Liveness, keys: set<Key>, k: Key)
    requires keys <= a.Keys && k in keys
    ensures var kept: Annotations := map j | j in a && j !in keys && Kept(table, j, a[j]) :: a[j];
            var next: Annotations := map j | j in a && j !in keys - {k} && Kept(table, j, a[j]) :: a[j];
            next == if Kept(table, k, a[k]) then kept[k := a[k]] else kept
  {
  }

  lemma DropsNoRef(a: Annotations)
    ensures Refs(a - {DeleteAt}) == Refs(a)
  {
  }

  /** Copies every annotation but the references of dead app pods, and counts the references it copies. */
  method LiveAnnotations(a: Annotations, table: Liveness) returns (annotation: Annotations, existTargets: nat)
    requires WellKeyed(a)
    ensures annotation == Prune(a, table)
    ensures existTargets == |Refs(annotation)|
  {
    annotation, existTargets := map[], 0;
    var keys := a.Keys;
    while keys != {}
      invariant keys <= a.Keys
      invariant annotation == map k | k in a && k !in keys && Kept(table, k, a[k]) :: a[k]
      invariant existTargets == |Refs(annotation)|
    {
      var k :| k in keys;
      StillKept(a, table, keys, k);
      if !(IsRef(k, a[k]) && !Alive(table, a[k].target)) {
        KeptGrows(a, annotation, k);
        if IsRef(k, a[k]) {
          existTargets := existTargets + 1;
        }
        annotation := annotation[k := a[k]];
      }
      keys := keys - {k};
    }
    HasRefIffRefs(annotation);
    DropsNoRef(annotation);
    if existTargets != 0 {
      annotation := annotation - {DeleteAt};
    }
  }

  // ----- checkAnnotations

  /** The write takes the dead references out of the stored pod, and its deletion instant if a live one
      remains; nothing else changes. */
  ghost predicate IsPrune(w: Write, n: Name, table: Liveness) {
    && w.name == n && w.prev.Some?
    && w.pod == w.prev.value.(annotations := Prune(w.prev.value.annotations, table), version := w.pod.version)
    && Refs(w.pod.annotations) == (set t | t in Refs(w.prev.value.annotations) && Alive(table, t))
    && Exclusive(w.pod.annotations)
  }

  /** A copy that agreed with the stored pod leads to one write at most, or a prune of the last reference
      followed by the deletion mark. A prune is never followed by a stamp: the first update left the caller's
      version stale. A copy that disagreed cannot be written back; all it can lead to is a deletion mark, of
      whatever is stored. */
  ghost predicate CheckWrites(w: seq<Write>, n: Name, table: Liveness, agreed: bool) {
    w == [] ||
      if agreed then
        || (|w| == 1 && (IsPrune(w[0], n, table) || IsMark(w[0], n) || exists k :: IsStamp(w[0], n, k)))
        || (|w| == 2 && IsPrune(w[0], n, table) && Refs(w[0].pod.annotations) == {} && IsMark(w[1], n))
      else |w| == 1 && IsDeletion(w[0], n)
  }

  /** Thread `me` holds the lock and is about to prune; `agreed` is the history kept for it. */
  ghost predicate Checks(m: State, me: Tid, n: Name, pod: Pod, table: Liveness, agreed: bool) {
    me in m.threads && m.threads[me] == CheckPrune(n, pod, table, agreed)
  }

  lemma AfterCheckPrune(before: State, m': State, me: Tid, n: Name, c: Pod, table: Liveness, agreed: bool)
    requires Checks(before, me, n, c, table, agreed) && After(before, m', me)
    ensures var pruned := Prune(c.annotations, table);
      var idle := Refs(pruned) == {} && !c.deleting;
      if |c.annotations| != |pruned| then
        Stands(m', me,
          if idle && UpdatePod(before.server, n, AnnotatedWith(c, pruned), Thread(me)).1.Accepted?
          then Some(IdleDecide(n, AnnotatedWith(c, pruned), Reconcile(true))) else None)
      else
        m'.server == before.server
        && Stands(m', me, if idle then Some(IdleDecide(n, AnnotatedWith(c, pruned), Reconcile(agreed))) else None)
  {
  }

  lemma CommitPrune(before: State, me: Tid, n: Name, c: Pod, table: Liveness, agreed: bool)
    requires Inv(before) && Checks(before, me, n, c, table, agreed)
    requires n in before.server.pods && before.server.pods[n].version == c.version
    ensures agreed && before.server.pods[n] == c
    ensures IsPrune(Write(n, AnnotatedWith(c, Prune(c.annotations, table)).(version := |before.server.log|), Some(c), Thread(me)), n, table)
    ensures |c.annotations| != |Prune(c.annotations, table)| ==> !Logged(before.server, n, AnnotatedWith(c, Prune(c.annotations, table)))
    ensures c.version < |before.server.log|
  {
    assert ThreadOk(before.server, before.volume, before.threads[me]);
    CurrentCopy(before.server, n, c);
    PruneKeepsLive(c.annotations, table);
  }

  lemma StillDetached(s: Server, n: Name, p: Pod, q: Pod, w: Writer)
    requires p.version < |s.log| && !Logged(s, n, p)
    ensures Detached(Put(s, n, q, w), n, p)
  {
  }

  /** Write back the pruned copy. On success the copy at hand is out of date. */
  method WritePruned(node: World, me: Tid, n: Name, pod: Pod, annotation: Annotations, table: Liveness, ghost agreed: bool, ghost from: nat) returns (e: Outcome)
    requires node.Good() && Checks(node.m, me, n, pod, table, agreed)
    requires annotation == Prune(pod.annotations, table) && |pod.annotations| != |annotation|
    requires from <= |node.m.server.log| && Mine(node.m, from, me) == []
    modifies node
    ensures !e.Blocked? && node.Good() && old(node.m.server.log) <= node.m.server.log
    ensures var after := AnnotatedWith(pod, annotation);
      && Stands(node.m, me, if e.Ok? && Refs(annotation) == {} && !pod.deleting then Some(IdleDecide(n, after, Reconcile(true))) else None)
      && (e.Ok? ==> agreed && Detached(node.m.server, n, after))
    ensures var w := Mine(node.m, from, me); if e.Ok? then |w| == 1 && IsPrune(w[0], n, table) && w[0].pod.annotations == annotation else w == []
    ensures old(node.schedule) == [] ==> (
      && node.schedule == [] && node.m.now == old(node.m).now
      && (node.m.server, e) == Answer(UpdatePod(old(node.m.server), n, AnnotatedWith(pod, annotation), Thread(me))))
  {
    ghost var m0 := node.m;
    var after := AnnotatedWith(pod, annotation);
    var r, before := node.UpdatePod(me, after);
    AfterCheckPrune(before, node.m, me, n, pod, table, agreed);
    if r.Accepted? {
      CommitPrune(before, me, n, pod, table, agreed);
      OneWrite(m0, before, node.m, from, me, n, after);
      StillDetached(before.server, n, after, after, Thread(me));
      return Ok;
    }
    NoWrite(m0, before, node.m, from, me);
    return Failed(r);
  }

  /** Nothing to prune: checkAnnotations makes no call here. */
  method KeepAnnotations(node: World, me: Tid, n: Name, pod: Pod, table: Liveness, ghost agreed: bool, ghost from: nat)
    requires node.Good() && Checks(node.m, me, n, pod, table, agreed)
    requires pod.annotations == Prune(pod.annotations, table)
    requires from <= |node.m.server.log| && Mine(node.m, from, me) == []
    modifies node
    ensures node.Good() && old(node.m.server.log) <= node.m.server.log && Mine(node.m, from, me) == []
    ensures Stands(node.m, me, if Refs(pod.annotations) == {} && !pod.deleting then Some(IdleDecide(n, pod, Reconcile(agreed))) else None)
    ensures old(node.schedule) == [] ==>
      (node.schedule == [] && node.m.now == old(node.m).now && node.m.server == old(node.m.server))
  {
    ghost var m0 := node.m;
    ghost var before := node.Call(me);
    AfterCheckPrune(before, node.m, me, n, pod, table, agreed);
    NoWrite(m0, before, node.m, from, me);
  }

  /** The end of checkAnnotations: delete the pod, or delay that, if it is unused. */
  method FinishCheck(node: World, me: Tid, n: Name, pod: Pod, unused: bool, ghost agreed: bool, ghost from: nat) returns (e: Outcome)
    requires node.Good() && Stands(node.m, me, if unused && !pod.deleting then Some(IdleDecide(n, pod, Reconcile(agreed))) else None)
    requires from <= |node.m.server.log|
    modifies node
    ensures !e.Blocked? && node.Good() && old(node.m.server.log) <= node.m.server.log && Stands(node.m, me, None)
    ensures FinishWrites(Mine(node.m, from, me), Mine(old(node.m), from, me), n, unused, agreed, Detached(old(node.m.server), n, pod))
    ensures old(node.schedule) == [] ==>
      (node.schedule == [] && node.m.now == old(node.m).now
      && (node.m.server, e) == FinishAlone(old(node.m.server), n, pod, unused, old(node.m).now, Thread(me)))
  {
    e := Ok;
    if unused && !pod.deleting {
      var shouldDelay, err, _ := ShouldDelayPod(node, me, n, pod, Reconcile(agreed), from);
      e := err;
      if !shouldDelay {
        e := DeleteIdle(node, me, n, Reconcile(agreed), from);
      }
    }
  }

  ghost predicate FinishWrites(w: seq<Write>, w0: seq<Write>, n: Name, unused: bool, agreed: bool, detached: bool) {
    w == w0 || (unused && |w| == |w0| + 1 && w[..|w0|] == w0
                && if agreed then IsMark(w[|w0|], n) || (!detached && exists k :: IsStamp(w[|w0|], n, k))
                   else IsDeletion(w[|w0|], n))
  }

  lemma PruneThenMark(w: seq<Write>, w0: seq<Write>, n: Name, table: Liveness, unused: bool)
    requires |w0| == 1 && IsPrune(w0[0], n, table) && (unused ==> Refs(w0[0].pod.annotations) == {})
    requires FinishWrites(w, w0, n, unused, true, true)
    ensures CheckWrites(w, n, table, true)
  {
  }

  lemma MarkOrStamp(w: seq<Write>, n: Name, table: Liveness, unused: bool, agreed: bool, detached: bool)
    requires FinishWrites(w, [], n, unused, agreed, detached)
    ensures CheckWrites(w, n, table, agreed)
  {
  }

  method CheckPruned(node: World, me: Tid, n: Name, pod: Pod, unused: bool, annotation: Annotations, table: Liveness, ghost agreed: bool, ghost from: nat) returns (e: Outcome)
    requires node.Good() && Checks(node.m, me, n, pod, table, agreed)
    requires annotation == Prune(pod.annotations, table) && |pod.annotations| != |annotation|
    requires unused <==> Refs(annotation) == {}
    requires from <= |node.m.server.log| && Mine(node.m, from, me) == []
    modifies node
    ensures !e.Blocked? && node.Good() && old(node.m.server.log) <= node.m.server.log && Stands(node.m, me, None)
    ensures CheckWrites(Mine(node.m, from, me), n, table, agreed)
    ensures old(node.schedule) == [] ==>
      (node.schedule == [] && node.m.now == old(node.m).now
      && (node.m.server, e) == CheckAlone(old(node.m.server), n, pod, table, old(node.m).now, Thread(me)))
  {
    e := WritePruned(node, me, n, pod, annotation, table, agreed, from);
    if !e.Ok? {
      return;
    }
    ghost var w := Mine(node.m, from, me);
    e := FinishCheck(node, me, n, AnnotatedWith(pod, annotation), unused, true, from);
    PruneThenMark(Mine(node.m, from, me), w, n, table, unused);
  }

  method CheckKept(node: World, me: Tid, n: Name, pod: Pod, unused: bool, table: Liveness, ghost agreed: bool, ghost from: nat) returns (e: Outcome)
    requires node.Good() && Checks(node.m, me, n, pod, table, agreed)
    requires pod.annotations == Prune(pod.annotations, table) && (unused <==> Refs(pod.annotations) == {})
    requires from <= |node.m.server.log| && Mine(node.m, from, me) == []
    modifies node
    ensures !e.Blocked? && node.Good() && old(node.m.server.log) <= node.m.server.log && Stands(node.m, me, None)
    ensures CheckWrites(Mine(node.m, from, me), n, table, agreed)
    ensures old(node.schedule) == [] ==>
      (node.schedule == [] && node.m.now == old(node.m).now
      && (node.m.server, e) == CheckAlone(old(node.m.server), n, pod, table, old(node.m).now, Thread(me)))
  {
    KeepAnnotations(node, me, n, pod, table, agreed, from);
    ghost var m1 := node.m;
    e := FinishCheck(node, me, n, pod, unused, agreed, from);
    MarkOrStamp(Mine(node.m, from, me), n, table, unused, agreed, Detached(m1.server, n, pod));
  }

  method CheckLocked(node: World, me: Tid, n: Name, pod: Pod, table: Liveness, ghost agreed: bool, ghost from: nat) returns (e: Outcome)
    requires node.Good() && Checks(node.m, me, n, pod, table, agreed) && WellKeyed(pod.annotations)
    requires from <= |node.m.server.log| && Mine(node.m, from, me) == []
    modifies node
    ensures !e.Blocked? && node.Good() && old(node.m.server.log) <= node.m.server.log && Stands(node.m, me, None)
    ensures CheckWrites(Mine(node.m, from, me), n, table, agreed)
    ensures old(node.schedule) == [] ==>
      (node.schedule == [] && node.m.now == old(node.m).now && (node.m.server, e) == CheckAlone(old(node.m.server), n, pod, table, old(node.m).now, Thread(me)))
  {
    LengthTestIsExact(pod.annotations, table);
    var annotation, existTargets := LiveAnnotations(pod.annotations, table);
    if |pod.annotations| != |annotation| {
      e := CheckPruned(node, me, n, pod, existTargets == 0, annotation, table, agreed, from);
    } else {
      e := CheckKept(node, me, n, pod, existTargets == 0, table, agreed, from);
    }
  }

  lemma CheckedIsProper(m: State, me: Tid, n: Name, pod: Pod, table: Liveness)
    requires Inv(m) && me in m.threads && m.threads[me] == CheckLock(n, pod, table)
    ensures WellKeyed(pod.annotations)
  {
  }

  method CheckFrom(node: World, me: Tid, n: Name, pod: Pod, table: Liveness, ghost from: nat)
    returns (e: Outcome, ghost locked: State, ghost agreed: bool)
    requires node.Good() && me in node.m.threads && node.m.threads[me] == CheckLock(n, pod, table)
    requires from <= |node.m.server.log| && Mine(node.m, from, me) == []
    modifies node
    ensures node.Good() && old(node.m.server.log) <= node.m.server.log
    ensures Stands(node.m, me, if e.Blocked? then Some(CheckLock(n, pod, table)) else None)
    ensures CheckWrites(Mine(node.m, from, me), n, table, agreed)
    ensures old(node.schedule) == [] ==>
      (node.schedule == [] && node.m.now == old(node.m).now && (e.Blocked? ==> node.m == old(node.m)))
    ensures old(node.schedule) == [] && !e.Blocked? ==>
      (node.m.server, e) == CheckAlone(old(node.m.server), n, pod, table, old(node.m).now, Thread(me))
    ensures Rely(old(node.m), locked, me) && agreed == Fresh(locked.server, n, pod)
    ensures e.Blocked? <==> !Granted(locked, n)
    ensures e.Blocked? ==> NotGranted(node.seen, old(node.seen), n)
    ensures old(node.schedule) == [] ==> locked == old(node.m)
  {
    ghost var m0 := node.m;
    var held;
    held, locked := node.Lock(me);
    agreed := Fresh(locked.server, n, pod);
    NoWrite(m0, locked, node.m, from, me);
    if !held {
      return Blocked, locked, agreed;
    }
    CheckedIsProper(locked, me, n, pod, table);
    e := CheckLocked(node, me, n, pod, table, agreed, from);
  }

  /** Whatever others do meanwhile, and whatever copy and table the call starts from, it writes only what
      `CheckWrites` says; `agreed` is whether the copy agreed with the stored pod when the lock was free to be
      taken, in state `locked`. Alone, the call does exactly what `CheckAlone` says. */
  method CheckAnnotations(node: World, me: Tid, n: Name, pod: Pod, table: Liveness)
    returns (e: Outcome, ghost locked: State, ghost agreed: bool)
    requires node.Good() && me in node.m.threads && node.m.threads[me] == CheckLock(n, pod, table)
    modifies node
    ensures node.Good() && old(node.m.server.log) <= node.m.server.log
    ensures Stands(node.m, me, if e.Blocked? then Some(CheckLock(n, pod, table)) else None)
    ensures CheckWrites(Mine(node.m, |old(node.m.server.log)|, me), n, table, agreed)
    ensures old(node.schedule) == [] ==>
      (node.schedule == [] && node.m.now == old(node.m).now && (e.Blocked? ==> node.m == old(node.m)))
    ensures old(node.schedule) == [] && !e.Blocked? ==>
      (node.m.server, e) == CheckAlone(old(node.m.server), n, pod, table, old(node.m).now, Thread(me))
    ensures Rely(old(node.m), locked, me) && agreed == Fresh(locked.server, n, pod)
    ensures e.Blocked? <==> !Granted(locked, n)
    ensures e.Blocked? ==> NotGranted(node.seen, old(node.seen), n)
    ensures old(node.schedule) == [] ==> locked == old(node.m)
  {
    e, locked, agreed := CheckFrom(node, me, n, pod, table, |node.m.server.log|);
  }

  lemma MineSplit(m: State, m': State, from: nat, me: Tid)
    requires from <= |m.server.log| && m.server.log <= m'.server.log
    ensures Mine(m', from, me) == Mine(m, from, me) + Mine(m', |m.server.log|, me)
  {
    WritesSplit(m'.server.log, from, |m.server.log|, Thread(me));
    assert m'.server.log[..|m.server.log|] == m.server.log;
  }

  method CheckFetched(node: World, me: Tid, n: Name, pod: Pod, table: Liveness, ghost from: nat) returns (e: Outcome, ghost agreed: bool)
    requires node.Good() && me !in node.m.threads && Logged(node.m.server, n, pod)
    requires from <= |node.m.server.log| && Mine(node.m, from, me) == []
    modifies node
    ensures node.Good() && old(node.m.server.log) <= node.m.server.log
    ensures Stands(node.m, me, if e.Blocked? then Some(CheckLock(n, pod, table)) else None)
    ensures CheckWrites(Mine(node.m, from, me), n, table, agreed)
    ensures e.Blocked? ==> NotGranted(node.seen, old(node.seen), n)
    ensures old(node.schedule) == [] ==> (node.schedule == [] && (!e.Blocked? ==>
      (node.m.server, e) == CheckAlone(old(node.m.server), n, pod, table, old(node.m).now, Thread(me))))
  {
    node.Start(me, CheckLock(n, pod, table));
    ghost var locked;
    e, locked, agreed := CheckFrom(node, me, n, pod, table, from);
  }

  /** The beginning of Run: on a conflict the pod, but not the table, is read again, and the check repeated
      once. `first` and `second` are what the two attempts wrote. */
  method CheckTwice(node: World, me: Tid, n: Name, pod: Pod, table: Liveness)
    returns (e: Outcome, current: Pod, ghost first: seq<Write>, ghost second: seq<Write>, ghost agreed: (bool, bool))
    requires node.Good() && me in node.m.threads && node.m.threads[me] == CheckLock(n, pod, table)
    modifies node
    ensures node.Good() && old(node.m.server.log) <= node.m.server.log
    ensures Stands(node.m, me, if e.Blocked? then Some(CheckLock(n, current, table)) else None)
    ensures Mine(node.m, |old(node.m.server.log)|, me) == first + second
    ensures CheckWrites(first, n, table, agreed.0) && CheckWrites(second, n, table, agreed.1)
    ensures e.Blocked? ==> node.seen.Seen? && !Granted(node.seen.state, n)
    ensures old(node.schedule) == [] ==> (node.schedule == [] && (!e.Blocked? ==>
      && (node.m.server, e) == CheckTwiceAlone(old(node.m.server), n, pod, table, old(node.m).now, Thread(me))
      && current == CheckedAlone(old(node.m.server), n, pod, table, old(node.m).now, Thread(me))))
  {
    ghost var m0 := node.m;
    current, second := pod, [];
    ghost var locked, agreed0, agreed1;
    e, locked, agreed0 := CheckAnnotations(node, me, n, pod, table);
    first := Mine(node.m, |m0.server.log|, me);
    agreed := (agreed0, true);
    if e == Failed(Conflict) {
      ghost var m1 := node.m;
      var latest := node.Fetch(me, n);
      NoWriteApart(m1, node.m, |m0.server.log|, me);
      NoWriteApart(m1, node.m, |m1.server.log|, me);
      if latest.None? {
        return Failed(NotFound), current, first, second, agreed;
      }
      current := latest.value;
      e, agreed1 := CheckFetched(node, me, n, current, table, |m1.server.log|);
      agreed := (agreed0, agreed1);
      second := Mine(node.m, |m1.server.log|, me);
      MineSplit(m1, node.m, |m0.server.log|, me);
    }
  }
}
