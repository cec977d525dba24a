/** Where checkAnnotations and its conflict retry end when nobody else acts, and what a stale copy does. */
module Convergence {
  import opened CsiPath
  import opened Pods
  import opened ApiServer
  import opened Machine
  import opened Node
  import opened IdleTail
  import opened PodDriver
  import opened PodMount

  /** The copy is the stored pod. */
  ghost predicate Current(s: Server, n: Name, pod: Pod) {
    n in s.pods && s.pods[n] == pod
  }

  /** Nothing refers to the pod, and it is being deleted or waits for its deletion instant. */
  ghost predicate Settled(s: Server, n: Name) {
    n in s.pods && Refs(s.pods[n].annotations) == {} && (s.pods[n].deleting || DeleteAt in s.pods[n].annotations)
  }

  lemma UnusedKeepsDelay(a: Annotations, table: Liveness, now: int)
    requires Refs(Prune(a, table)) == {}
    ensures ShouldDelay(Prune(a, table), now) == ShouldDelay(a, now)
    ensures DeleteAt in Prune(a, table) <==> DeleteAt in a
  {
  }

  // ----- the machine, left to one thread

  /** The next calls of thread `u`, at most `calls` of them, with no step of anyone else between. */
  function Alone(m: State, u: Tid, calls: nat): State
    decreases calls
  {
    if calls == 0 || u !in m.threads || !CallsApi(m.threads[u]) then m
    else Alone(Next(m, Go(u)), u, calls - 1)
  }

  lemma TailIsMachine(m: State, u: Tid, n: Name, pod: Pod)
    requires u in m.threads && m.threads[u].IdleDecide? && m.threads[u].name == n && m.threads[u].copy == pod && m.threads[u].op.Reconcile?
    ensures Alone(m, u, 2).server == TailAlone(m.server, n, pod, m.now, Thread(u)).0 && u !in Alone(m, u, 2).threads
  {
    var m1 := Next(m, Go(u));
    NextIsAfter(m, u);
    AfterDecide(m, m1, u, n, pod, m.threads[u].op);
    assert m1.server == m.server;
    if u in m1.threads {
      NextIsAfter(m1, u);
      assert Alone(m1, u, 1) == Next(m1, Go(u));
    }
  }

  lemma CheckStep(m: State, u: Tid, pc: Pc)
    requires u in m.threads && m.threads[u] == pc && pc.CheckPrune?
    ensures var e, m1 := CheckAct(pc, m.server, Thread(u)), Next(m, Go(u));
      m1.server == e.server && m1.now == m.now && Stands(m1, u, e.next)
  {
    NextIsAfter(m, u);
  }

  /** What the call leaves to do is the end of the check. */
  lemma CheckLeaves(s: Server, pc: Pc, now: int, me: Writer)
    requires pc.CheckPrune?
    ensures var e, after := CheckAct(pc, s, me), AnnotatedWith(pc.copy, Prune(pc.copy.annotations, pc.table));
      if e.next.None? then CheckAlone(s, pc.name, pc.copy, pc.table, now, me).0 == e.server
      else
        && e.next.value.IdleDecide? && e.next.value.name == pc.name && e.next.value.copy == after && e.next.value.op.Reconcile?
        && CheckAlone(s, pc.name, pc.copy, pc.table, now, me).0 == TailAlone(e.server, pc.name, after, now, me).0
  {
    LengthTestIsExact(pc.copy.annotations, pc.table);
  }

  /** Any copy, current or stale: the machine's own steps for checkAnnotations amount to `CheckAlone`. */
  lemma CheckIsMachine(m: State, u: Tid, n: Name, pod: Pod, table: Liveness, agreed: bool)
    requires Checks(m, u, n, pod, table, agreed)
    ensures Alone(m, u, 3).server == CheckAlone(m.server, n, pod, table, m.now, Thread(u)).0
    ensures u !in Alone(m, u, 3).threads
  {
    var pc, m1 := m.threads[u], Next(m, Go(u));
    CheckStep(m, u, pc);
    CheckLeaves(m.server, pc, m.now, Thread(u));
    if u in m1.threads {
      TailIsMachine(m1, u, n, AnnotatedWith(pod, Prune(pod.annotations, table)));
    }
  }

  // ----- one attempt

  /** A copy that needs no pruning goes straight to the end of the check. */
  lemma KeptAttempt(s: Server, n: Name, pod: Pod, table: Liveness, now: int, me: Writer)
    requires pod.annotations == Prune(pod.annotations, table)
    ensures CheckAlone(s, n, pod, table, now, me) == FinishAlone(s, n, pod, Refs(pod.annotations) == {}, now, me)
  {
  }

  lemma UnusedIsKept(a: Annotations, table: Liveness)
    requires Refs(a) == {}
    ensures a == Prune(a, table)
  {
    PruneKeepsLive(a, table);
    LengthTestIsExact(a, table);
    assert Refs(Prune(a, table)) == {};
  }

  /** A current copy that needs pruning is written back; the end of the check works on the outdated copy. */
  lemma PrunedAttempt(s: Server, n: Name, pod: Pod, table: Liveness, now: int, me: Writer)
    requires Current(s, n, pod) && pod.annotations != Prune(pod.annotations, table)
    ensures var after := AnnotatedWith(pod, Prune(pod.annotations, table));
      CheckAlone(s, n, pod, table, now, me) == FinishAlone(Put(s, n, after, me), n, after, Refs(after.annotations) == {}, now, me)
  {
    LengthTestIsExact(pod.annotations, table);
  }

  /** The end of the check on a copy whose version is gone: it deletes or waits as that copy says, but cannot
      stamp. */
  lemma OutdatedTail(s: Server, n: Name, pod: Pod, now: int, me: Writer)
    requires n in s.pods && s.pods[n].version != pod.version
    ensures TailAlone(s, n, pod, now, me) ==
      match ShouldDelay(pod.annotations, now)
      case DeleteNow => (DeletePod(s, n, me).0, Ok)
      case Wait => (s, Ok)
      case StampAt(_) => (s, Failed(Conflict))
  {
  }

  lemma MarkedPod(s: Server, n: Name, me: Writer)
    requires ServerOk(s) && n in s.pods
    ensures var s' := DeletePod(s, n, me).0;
      && ServerOk(s') && n in s'.pods && s'.pods[n].deleting && s'.pods[n].annotations == s.pods[n].annotations
  {
  }

  /** Pruning the last dead reference and stamping in one call always conflicts with itself: the accepted
      prune moves the stored version on, the caller's copy keeps the old one. */
  lemma StampAfterPruneConflicts(s: Server, n: Name, pod: Pod, table: Liveness, now: int, me: Writer)
    requires ServerOk(s) && Current(s, n, pod) && !pod.deleting
    requires Refs(pod.annotations) != {} && Refs(Prune(pod.annotations, table)) == {} && ShouldDelay(pod.annotations, now).StampAt?
    ensures var (s', e) := CheckAlone(s, n, pod, table, now, me);
            e == Failed(Conflict) && s' == Put(s, n, AnnotatedWith(pod, Prune(pod.annotations, table)), me)
  {
    var after := AnnotatedWith(pod, Prune(pod.annotations, table));
    PrunedAttempt(s, n, pod, table, now, me);
    UnusedKeepsDelay(pod.annotations, table, now);
    OutdatedTail(Put(s, n, after, me), n, after, now, me);
  }

  // ----- one Run from a current copy

  /** The pod stores no live reference, and is marked exactly if `marked`. */
  ghost predicate Unused(s: Server, n: Name, marked: bool) {
    ServerOk(s) && n in s.pods && Refs(s.pods[n].annotations) == {} && s.pods[n].deleting == marked
  }

  /** A current copy that needs no pruning is dealt with in one attempt. */
  lemma KeptSettles(s: Server, n: Name, pod: Pod, table: Liveness, now: int, me: Writer)
    requires ServerOk(s) && Current(s, n, pod) && Refs(pod.annotations) == {}
    ensures var (s', e) := CheckAlone(s, n, pod, table, now, me);
      && e.Ok? && Unused(s', n, pod.deleting || ShouldDelay(pod.annotations, now).DeleteNow?)
      && (s'.pods[n].deleting || DeleteAt in s'.pods[n].annotations)
  {
    UnusedIsKept(pod.annotations, table);
    KeptAttempt(s, n, pod, table, now, me);
    TailKeepsPod(s, n, now, me);
    TailKeepsServer(s, n, pod, now, me);
  }

  lemma TailKeepsServer(s: Server, n: Name, pod: Pod, now: int, me: Writer)
    requires ServerOk(s)
    ensures ServerOk(TailAlone(s, n, pod, now, me).0)
  {
  }

  lemma PrunedAlone(s: Server, n: Name, pod: Pod, table: Liveness, now: int, me: Writer)
    requires ServerOk(s) && Current(s, n, pod) && Refs(pod.annotations) != {} && Refs(Prune(pod.annotations, table)) == {}
    ensures var (s', e) := CheckAlone(s, n, pod, table, now, me);
      && Unused(s', n, pod.deleting || ShouldDelay(pod.annotations, now).DeleteNow?)
      && s'.pods[n].annotations == Prune(pod.annotations, table)
      && e == if pod.deleting || !ShouldDelay(pod.annotations, now).StampAt? then Ok else Failed(Conflict)
  {
    var after := AnnotatedWith(pod, Prune(pod.annotations, table));
    var s1 := Put(s, n, after, me);
    PrunedAttempt(s, n, pod, table, now, me);
    UnusedKeepsDelay(pod.annotations, table, now);
    OutdatedTail(s1, n, after, now, me);
    MarkedPod(s1, n, me);
  }

  lemma SettledByDelay(s: Server, n: Name, pod: Pod, now: int)
    requires Unused(s, n, pod.deleting || ShouldDelay(pod.annotations, now).DeleteNow?)
    requires DeleteAt in s.pods[n].annotations <==> DeleteAt in pod.annotations
    requires pod.deleting || !ShouldDelay(pod.annotations, now).StampAt?
    ensures Settled(s, n)
  {
  }

  /** One Run from a current copy without live references: no reference is left, and the pod is marked for
      deletion exactly if ShouldDelay says so now; otherwise its deletion instant is stored. */
  lemma OneRunSettles(s: Server, n: Name, pod: Pod, table: Liveness, now: int, me: Writer)
    requires ServerOk(s) && Current(s, n, pod) && Refs(Prune(pod.annotations, table)) == {}
    ensures var (s', e) := CheckTwiceAlone(s, n, pod, table, now, me);
      && e.Ok? && Settled(s', n) && Unused(s', n, pod.deleting || ShouldDelay(pod.annotations, now).DeleteNow?)
  {
    UnusedKeepsDelay(pod.annotations, table, now);
    if Refs(pod.annotations) == {} {
      KeptSettles(s, n, pod, table, now, me);
    } else {
      PrunedAlone(s, n, pod, table, now, me);
      var (s', e) := CheckAlone(s, n, pod, table, now, me);
      if e == Failed(Conflict) {
        KeptSettles(s', n, s'.pods[n], table, now, me);
      } else {
        SettledByDelay(s', n, pod, now);
      }
    }
  }

  // ----- Runs from a stale copy

  /** The first attempt from a stale copy: turned away if it prunes or stamps, and otherwise it deletes or
      leaves the pod as the copy alone says. */
  lemma StaleAttempt(s: Server, n: Name, pod: Pod, table: Liveness, now: int, me: Writer)
    requires n in s.pods && s.pods[n].version != pod.version
    ensures CheckAlone(s, n, pod, table, now, me) ==
      if pod.annotations != Prune(pod.annotations, table) then (s, Failed(Conflict))
      else if Refs(pod.annotations) != {} || pod.deleting then (s, Ok)
      else match ShouldDelay(pod.annotations, now)
           case DeleteNow => (DeletePod(s, n, me).0, Ok)
           case Wait => (s, Ok)
           case StampAt(_) => (s, Failed(Conflict))
  {
    LengthTestIsExact(pod.annotations, table);
    if pod.annotations == Prune(pod.annotations, table) {
      KeptAttempt(s, n, pod, table, now, me);
      OutdatedTail(s, n, pod, now, me);
    }
  }

  /** What the first Run decides for an unused pod it finds unmarked: the verdict on the stored pod if the copy
      is that pod or is turned away, else the copy's own. */
  predicate FirstRunMarks(stored: Pod, pod: Pod, table: Liveness, now: int) {
    var verdict, own := ShouldDelay(stored.annotations, now), ShouldDelay(pod.annotations, now);
    if stored.version == pod.version || pod.annotations != Prune(pod.annotations, table) then verdict.DeleteNow?
    else Refs(pod.annotations) == {} && !pod.deleting && (own.DeleteNow? || (own.StampAt? && verdict.DeleteNow?))
  }

  lemma SecondAttempt(s: Server, n: Name, table: Liveness, now: int, me: Writer)
    requires ServerOk(s) && n in s.pods && Refs(Prune(s.pods[n].annotations, table)) == {}
    ensures Unused(CheckAlone(s, n, s.pods[n], table, now, me).0, n,
      s.pods[n].deleting || ShouldDelay(s.pods[n].annotations, now).DeleteNow?)
  {
    if Refs(s.pods[n].annotations) == {} {
      KeptSettles(s, n, s.pods[n], table, now, me);
    } else {
      PrunedAlone(s, n, s.pods[n], table, now, me);
    }
  }

  /** One Run from a stale copy leaves the pod without a live reference, and marked exactly as `FirstRunMarks`
      says. */
  lemma StaleRun(s: Server, n: Name, pod: Pod, table: Liveness, now: int, me: Writer)
    requires ServerOk(s) && n in s.pods && s.pods[n].version != pod.version && Refs(Prune(s.pods[n].annotations, table)) == {}
    ensures var s' := CheckTwiceAlone(s, n, pod, table, now, me).0;
      && ServerOk(s') && n in s'.pods && Refs(Prune(s'.pods[n].annotations, table)) == {}
      && (s'.pods[n].deleting <==> s.pods[n].deleting || FirstRunMarks(s.pods[n], pod, table, now))
  {
    StaleAttempt(s, n, pod, table, now, me);
    MarkedPod(s, n, me);
    SecondAttempt(s, n, table, now, me);
    var s' := CheckAlone(s, n, s.pods[n], table, now, me).0;
    PruneKeepsLive(s'.pods[n].annotations, table);
  }

  /** Two Runs from any copy ever stored, current or stale, the second from what the first left, settle a pod
      without live references; what marks it is stated for each. */
  lemma TwoRunsSettle(s: Server, n: Name, pod: Pod, table: Liveness, now: int, later: int, me: Writer)
    requires ServerOk(s) && Logged(s, n, pod) && n in s.pods && Refs(Prune(s.pods[n].annotations, table)) == {}
    ensures var s1 := CheckTwiceAlone(s, n, pod, table, now, me).0;
      && n in s1.pods
      && (s1.pods[n].deleting <==> s.pods[n].deleting || FirstRunMarks(s.pods[n], pod, table, now))
      && var (s2, e) := CheckTwiceAlone(s1, n, s1.pods[n], table, later, me);
      && e.Ok? && Settled(s2, n)
      && (s2.pods[n].deleting <==> s1.pods[n].deleting || ShouldDelay(s1.pods[n].annotations, later).DeleteNow?)
  {
    var s1 := CheckTwiceAlone(s, n, pod, table, now, me).0;
    if s.pods[n].version == pod.version {
      CurrentCopy(s, n, pod);
      OneRunSettles(s, n, pod, table, now, me);
      PruneKeepsLive(s1.pods[n].annotations, table);
    } else {
      StaleRun(s, n, pod, table, now, me);
    }
    OneRunSettles(s1, n, s1.pods[n], table, later, me);
  }

  // ----- what a stale copy or a stale table does

  /** The pod was stored unmarked and is now marked although it stores a reference. */
  ghost predicate MarksReferenced(s: Server, s': Server, n: Name) {
    n in s.pods && !s.pods[n].deleting && n in s'.pods && s'.pods[n].deleting && Refs(s'.pods[n].annotations) != {}
  }

  lemma UnreferencedCopy(s: Server, n: Name, pod: Pod, table: Liveness, now: int, me: Writer)
    requires n in s.pods && !s.pods[n].deleting && Refs(pod.annotations) == {}
    ensures MarksReferenced(s, CheckAlone(s, n, pod, table, now, me).0, n) <==>
      Refs(s.pods[n].annotations) != {} && !pod.deleting && ShouldDelay(pod.annotations, now).DeleteNow?
  {
    PruneKeepsLive(pod.annotations, table);
    LengthTestIsExact(pod.annotations, table);
    assert Refs(Prune(pod.annotations, table)) == {};
  }

  lemma LiveReferenceStays(s: Server, n: Name, pod: Pod, table: Liveness, now: int, me: Writer)
    requires n in s.pods && !s.pods[n].deleting && Refs(Prune(pod.annotations, table)) != {}
    ensures !MarksReferenced(s, CheckAlone(s, n, pod, table, now, me).0, n)
  {
  }

  lemma ReferencedCopy(s: Server, n: Name, pod: Pod, table: Liveness, now: int, me: Writer)
    requires ServerOk(s) && n in s.pods && !s.pods[n].deleting && Logged(s, n, pod) && Refs(pod.annotations) != {}
    ensures !MarksReferenced(s, CheckAlone(s, n, pod, table, now, me).0, n)
  {
    if Refs(Prune(pod.annotations, table)) != {} {
      LiveReferenceStays(s, n, pod, table, now, me);
    } else if s.pods[n].version == pod.version {
      CurrentCopy(s, n, pod);
      PrunedAlone(s, n, pod, table, now, me);
    } else {
      StaleAttempt(s, n, pod, table, now, me);
    }
  }

  /** checkAnnotations deletes a referenced pod exactly if its copy is a stale one without references whose
      delay is over: that path carries no version. */
  lemma StaleDeletionExactly(s: Server, n: Name, pod: Pod, table: Liveness, now: int, me: Writer)
    requires ServerOk(s) && n in s.pods && !s.pods[n].deleting && Logged(s, n, pod)
    ensures MarksReferenced(s, CheckAlone(s, n, pod, table, now, me).0, n) <==>
      Refs(s.pods[n].annotations) != {}
      && Refs(pod.annotations) == {} && !pod.deleting && ShouldDelay(pod.annotations, now).DeleteNow?
  {
    if Refs(pod.annotations) == {} {
      UnreferencedCopy(s, n, pod, table, now, me);
    } else {
      ReferencedCopy(s, n, pod, table, now, me);
    }
  }

  /** With the stored version in hand that cannot happen. */
  lemma CurrentNeverMarksReferenced(s: Server, n: Name, pod: Pod, table: Liveness, now: int, me: Writer)
    requires ServerOk(s) && n in s.pods && !s.pods[n].deleting && Logged(s, n, pod) && s.pods[n].version == pod.version
    ensures !MarksReferenced(s, CheckAlone(s, n, pod, table, now, me).0, n)
  {
    StaleDeletionExactly(s, n, pod, table, now, me);
    CurrentCopy(s, n, pod);
  }

  /** The conflict retry reads the pod again but not the table: a reference of a current pod survives a
      Run exactly if the table lists its app pod as live, whether that pod lives or not. */
  lemma TableDecides(s: Server, n: Name, pod: Pod, table: Liveness, now: int, me: Writer)
    requires ServerOk(s) && Current(s, n, pod)
    ensures var s' := CheckTwiceAlone(s, n, pod, table, now, me).0;
      n in s'.pods && forall t ::
        t in Refs(s'.pods[n].annotations) <==> t in Refs(pod.annotations) && GetPodUid(t) in table && !table[GetPodUid(t)]
  {
    PruneKeepsLive(pod.annotations, table);
    LengthTestIsExact(pod.annotations, table);
    if Refs(Prune(pod.annotations, table)) == {} {
      OneRunSettles(s, n, pod, table, now, me);
    }
  }
}
