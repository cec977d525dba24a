/** ShouldDelay, and the deletion of an idle pod that JUmount and checkAnnotations share. */
module IdleTail {
  import opened Wrappers
  import opened Pods
  import opened ApiServer
  import opened Machine
  import opened Invariant
  import opened Node

  /** The write stamps a deletion instant on a pod without references and changes nothing else. */
  ghost predicate IsStamp(w: Write, n: Name, seconds: int) {
    && w.name == n && w.prev.Some? && Refs(w.prev.value.annotations) == {}
    && w.pod == Stamped(w.prev.value, seconds).(version := w.pod.version)
  }

  /** The write marks the pod for deletion and changes nothing else. */
  ghost predicate IsDeletion(w: Write, n: Name) {
    w.name == n && w.prev.Some? && w.pod == w.prev.value.(deleting := true, version := w.pod.version)
  }

  /** The write marks a pod without references. */
  ghost predicate IsMark(w: Write, n: Name) {
    IsDeletion(w, n) && Refs(w.prev.value.annotations) == {}
  }

  function Answer(sr: (Server, Reply)): (Server, Outcome) {
    (sr.0, if sr.1.Accepted? then Ok else Failed(sr.1))
  }

  /** What becomes of the server when nobody else acts: the pod is deleted, left, or stamped. */
  function TailAlone(s: Server, n: Name, pod: Pod, now: int, me: Writer): (Server, Outcome) {
    match ShouldDelay(pod.annotations, now)
    case DeleteNow => Answer(DeletePod(s, n, me))
    case Wait => (s, Ok)
    case StampAt(seconds) => Answer(UpdatePod(s, n, Stamped(pod, seconds), me))
  }

  /** No version on record is this pod: the copy was changed since it was read. */
  ghost predicate Detached(s: Server, n: Name, p: Pod) {
    p.version < |s.log| && !Logged(s, n, p)
  }

  lemma AfterDecide(before: State, m': State, me: Tid, n: Name, c: Pod, op: Op)
    requires me in before.threads && before.threads[me] == IdleDecide(n, c, op) && After(before, m', me)
    ensures Stands(m', me, match ShouldDelay(c.annotations, before.now)
                           case DeleteNow => Some(IdleDelete(n, c, op))
                           case Wait => None
                           case StampAt(k) => Some(IdleStamp(n, c, k, op)))
  {
  }

  lemma AfterStamp(before: State, m': State, me: Tid, n: Name, c: Pod, k: int, op: Op)
    requires me in before.threads && before.threads[me] == IdleStamp(n, c, k, op) && After(before, m', me)
    ensures Stands(m', me,
      if UpdatePod(before.server, n, Stamped(c, k), Thread(me)).1.Conflict? && op.Unpublish? then Some(IdleRead(n, op)) else None)
  {
  }

  lemma CommitStamp(before: State, me: Tid, n: Name, c: Pod, k: int, op: Op)
    requires Inv(before) && me in before.threads && before.threads[me] == IdleStamp(n, c, k, op)
    ensures !Logged(before.server, n, c) ==> Spent(before.server, n, c)
    ensures (Sure(op) ==> Refless(before.server, n)) && Refs(Stamped(c, k).annotations) == {}
    ensures n in before.server.pods && before.server.pods[n].version == c.version ==>
      Sure(op) && before.server.pods[n] == c && IsStamp(Write(n, Stamped(c, k).(version := |before.server.log|), Some(c), Thread(me)), n, k)
  {
  }

  lemma DecidedOnIdle(m: State, me: Tid, n: Name, pod: Pod, op: Op)
    requires Inv(m) && me in m.threads && m.threads[me] == IdleDecide(n, pod, op)
    ensures Sure(op) ==> Refless(m.server, n)
  {
    assert ThreadOk(m.server, m.volume, m.threads[me]);
    if Sure(op) {
      DecideOk(m.server, n, pod);
    }
  }

  lemma KeepsDetached(m: State, m': State, me: Tid, n: Name, p: Pod)
    requires Rely(m, m', me)
    ensures Detached(m.server, n, p) ==> Detached(m'.server, n, p)
  {
  }

  /** Which way ShouldDelay goes at the clock reading it takes. */
  method Decide(node: World, me: Tid, n: Name, pod: Pod, ghost op: Op, ghost from: nat) returns (now: int)
    requires node.Good() && me in node.m.threads && node.m.threads[me] == IdleDecide(n, pod, op)
    requires from <= |node.m.server.log|
    modifies node
    ensures node.Good() && old(node.m.server.log) <= node.m.server.log && old(node.m).now <= now <= node.m.now
    ensures Stands(node.m, me, match ShouldDelay(pod.annotations, now)
                               case DeleteNow => Some(IdleDelete(n, pod, op))
                               case Wait => None
                               case StampAt(k) => Some(IdleStamp(n, pod, k, op)))
    ensures Mine(node.m, from, me) == Mine(old(node.m), from, me) && (Sure(op) ==> Refless(node.m.server, n))
    ensures Detached(old(node.m.server), n, pod) ==> Detached(node.m.server, n, pod)
    ensures node.seen.Seen? && node.seen.earlier == old(node.seen) && node.seen.state.now == now
    ensures old(node.schedule) == [] ==>
      (node.schedule == [] && node.m.now == old(node.m).now && node.m.server == old(node.m.server) && now == old(node.m).now)
  {
    ghost var m0 := node.m;
    ghost var decided;
    now, decided := node.Now(me);
    AfterDecide(decided, node.m, me, n, pod, op);
    NoWrite(m0, decided, node.m, from, me);
    DecidedOnIdle(decided, me, n, pod, op);
    KeepsDetached(m0, decided, me, n, pod);
  }

  /** False exactly when the caller is to delete the pod now; when true, the operation is over or, on a
      conflict, to be tried again. At most one write, a stamp. */
  method ShouldDelayPod(node: World, me: Tid, n: Name, pod: Pod, ghost op: Op, ghost from: nat)
    returns (delay: bool, e: Outcome, ghost stamped: int)
    requires node.Good() && me in node.m.threads && node.m.threads[me] == IdleDecide(n, pod, op)
    requires from <= |node.m.server.log|
    modifies node
    ensures !e.Blocked?
    ensures node.Good() && old(node.m.server.log) <= node.m.server.log
    ensures !delay ==> e.Ok? && Stands(node.m, me, Some(IdleDelete(n, pod, op)))
    ensures delay ==> Stands(node.m, me, if e == Failed(Conflict) && op.Unpublish? then Some(IdleRead(n, op)) else None)
    ensures var w, w0 := Mine(node.m, from, me), Mine(old(node.m), from, me);
            w == w0 || (Sure(op) && e.Ok? && delay && |w| == |w0| + 1 && w[..|w0|] == w0
                        && exists k :: IsStamp(w[|w0|], n, k) && ShouldDelay(pod.annotations, stamped) == StampAt(k))
    ensures old(node.m).now <= stamped <= node.m.now
    ensures Sure(op) ==> Refless(node.m.server, n)
    ensures Detached(old(node.m.server), n, pod) ==> Mine(node.m, from, me) == Mine(old(node.m), from, me)
    ensures node.seen.Seen? && (!delay ==> node.seen.earlier == old(node.seen))
    ensures delay && e.Ok? && Mine(node.m, from, me) == Mine(old(node.m), from, me) ==>
      node.seen.earlier == old(node.seen) && ShouldDelay(pod.annotations, node.seen.state.now).Wait?
    ensures !e.Ok? ==>
      && delay && node.seen.earlier.Seen? && node.seen.earlier.earlier == old(node.seen)
      && e == Failed(node.seen.answer) && (node.seen.answer.NotFound? || node.seen.answer.Conflict?)
    ensures old(node.schedule) == [] ==> (
      node.schedule == [] && node.m.now == old(node.m).now &&
      if delay then (node.m.server, e) == TailAlone(old(node.m.server), n, pod, old(node.m).now, Thread(me))
      else node.m.server == old(node.m.server) && ShouldDelay(pod.annotations, old(node.m).now).DeleteNow?)
  {
    var now := Decide(node, me, n, pod, op, from);
    stamped := now;
    match ShouldDelay(pod.annotations, now)
    case DeleteNow =>
      return false, Ok, stamped;
    case Wait =>
      return true, Ok, stamped;
    case StampAt(seconds) =>
      e := WriteStamp(node, me, n, pod, seconds, op, from);
      return true, e, stamped;
  }

  lemma StampRecord(m: State, before: State, m': State, from: nat, me: Tid, n: Name, p: Pod)
    requires from <= |m.server.log| && Rely(m, before, me) && m'.server == UpdatePod(before.server, n, p, Thread(me)).0
    requires n in before.server.pods && before.server.pods[n].version == p.version ==>
      p.deleting == before.server.pods[n].deleting && p.status == before.server.pods[n].status
    ensures m.server.log <= m'.server.log
    ensures Mine(m', from, me) == Mine(m, from, me) +
      if UpdatePod(before.server, n, p, Thread(me)).1.Accepted?
      then [Write(n, p.(version := |before.server.log|), Lookup(before.server, n), Thread(me))] else []
  {
    if UpdatePod(before.server, n, p, Thread(me)).1.Accepted? {
      OneWrite(m, before, m', from, me, n, p);
    } else {
      NoWrite(m, before, m', from, me);
    }
  }

  lemma StampOutcome(m: State, before: State, m': State, from: nat, me: Tid, n: Name, c: Pod, k: int, op: Op)
    requires from <= |m.server.log| && Rely(m, before, me) && Inv(before) && me in before.threads && before.threads[me] == IdleStamp(n, c, k, op)
    requires m'.server == UpdatePod(before.server, n, Stamped(c, k), Thread(me)).0
    ensures m.server.log <= m'.server.log && (Sure(op) ==> Refless(m'.server, n))
    ensures var w, w0 := Mine(m', from, me), Mine(m, from, me);
      if UpdatePod(before.server, n, Stamped(c, k), Thread(me)).1.Accepted?
      then Sure(op) && !Detached(m.server, n, c) && |w| == |w0| + 1 && w[..|w0|] == w0 && IsStamp(w[|w0|], n, k) else w == w0
  {
    CommitStamp(before, me, n, c, k, op);
    StampRecord(m, before, m', from, me, n, Stamped(c, k));
  }

  method WriteStamp(node: World, me: Tid, n: Name, pod: Pod, seconds: int, ghost op: Op, ghost from: nat) returns (e: Outcome)
    requires node.Good() && me in node.m.threads && node.m.threads[me] == IdleStamp(n, pod, seconds, op)
    requires from <= |node.m.server.log|
    modifies node
    ensures !e.Blocked?
    ensures node.Good() && old(node.m.server.log) <= node.m.server.log
    ensures Stands(node.m, me, if e == Failed(Conflict) && op.Unpublish? then Some(IdleRead(n, op)) else None)
    ensures var w, w0 := Mine(node.m, from, me), Mine(old(node.m), from, me);
            if e.Ok? then Sure(op) && |w| == |w0| + 1 && w[..|w0|] == w0 && IsStamp(w[|w0|], n, seconds) else w == w0
    ensures old(node.m).now <= node.m.now && (Sure(op) ==> Refless(node.m.server, n))
    ensures Detached(old(node.m.server), n, pod) ==> Mine(node.m, from, me) == Mine(old(node.m), from, me)
    ensures node.seen.Seen? && node.seen.earlier == old(node.seen)
    ensures e == (if node.seen.answer.Accepted? then Ok else Failed(node.seen.answer))
    ensures !node.seen.answer.AlreadyExists?
    ensures old(node.schedule) == [] ==>
      (node.schedule == [] && node.m.now == old(node.m).now && (node.m.server, e) == Answer(UpdatePod(old(node.m.server), n, Stamped(pod, seconds), Thread(me))))
  {
    ghost var m0 := node.m;
    var annotated := Stamped(pod, seconds);
    var r, before := node.UpdatePod(me, annotated);
    AfterStamp(before, node.m, me, n, pod, seconds, op);
    StampOutcome(m0, before, node.m, from, me, n, pod, seconds, op);
    return if r.Accepted? then Ok else Failed(r);
  }

  lemma AfterDelete(before: State, m': State, me: Tid, n: Name)
    requires Inv(before) && me in before.threads && before.threads[me].IdleDelete? && before.threads[me].name == n
    requires After(before, m', me)
    ensures Stands(m', me, None) && (Sure(before.threads[me].op) ==> Refless(before.server, n))
  {
    assert ThreadOk(before.server, before.volume, before.threads[me]);
  }

  lemma DeletionRecord(m: State, before: State, m': State, from: nat, me: Tid, n: Name)
    requires from <= |m.server.log| && Rely(m, before, me) && m'.server == DeletePod(before.server, n, Thread(me)).0
    ensures m.server.log <= m'.server.log
    ensures var w, w0 := Mine(m', from, me), Mine(m, from, me);
      if UsedAt(before, n) then |w| == |w0| + 1 && w[..|w0|] == w0 && IsDeletion(w[|w0|], n) else w == w0
  {
    if n in before.server.pods && !before.server.pods[n].deleting {
      OneWrite(m, before, m', from, me, n, before.server.pods[n].(deleting := true));
    } else {
      NoWrite(m, before, m', from, me);
    }
  }

  /** Delete the pod for idleness: at most one write, and it marks a pod, one without references if the
      judgement rests on what is stored. */
  method DeleteIdle(node: World, me: Tid, n: Name, ghost op: Op, ghost from: nat) returns (e: Outcome)
    requires node.Good() && me in node.m.threads && node.m.threads[me].IdleDelete?
    requires node.m.threads[me].name == n && node.m.threads[me].op == op
    requires from <= |node.m.server.log|
    modifies node
    ensures !e.Blocked?
    ensures node.Good() && old(node.m.server.log) <= node.m.server.log && Stands(node.m, me, None)
    ensures var w, w0 := Mine(node.m, from, me), Mine(old(node.m), from, me);
            w == w0 || (|w| == |w0| + 1 && w[..|w0|] == w0 && IsDeletion(w[|w0|], n) && (Sure(op) ==> IsMark(w[|w0|], n)))
    ensures Sure(op) ==> Refless(node.m.server, n)
    ensures e == (if n in node.m.server.pods then Ok else Failed(NotFound))
    ensures e.Ok? ==> node.m.server.pods[n].deleting
    ensures node.seen.Seen? && node.seen.earlier == old(node.seen)
    ensures e.Ok? && Mine(node.m, from, me) == Mine(old(node.m), from, me) ==> DeletingAt(node.seen.state, n)
    ensures e == (if node.seen.answer.Accepted? then Ok else Failed(node.seen.answer))
    ensures old(node.schedule) == [] ==>
      (node.schedule == [] && node.m.now == old(node.m).now && (node.m.server, e) == Answer(DeletePod(old(node.m.server), n, Thread(me))))
  {
    ghost var m0 := node.m;
    var r, before := node.DeletePod(me);
    AfterDelete(before, node.m, me, n);
    DeletionRecord(m0, before, node.m, from, me, n);
    return if r.Accepted? then Ok else Failed(r);
  }
}
