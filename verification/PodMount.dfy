/** Reference counting by the node service: AddRefOfMount, createOrAddRef and JUmount. */
module PodMount {
  import opened Wrappers
  import opened Pods
  import opened ApiServer
  import opened Machine
  import opened Invariant
  import opened Safety
  import opened Node
  import opened IdleTail

  /** The write inserts the reference into the pod as it was stored at that moment; nothing else changes
      but the pending deletion, which is dropped. */
  ghost predicate IsInsert(w: Write, n: Name, t: Target) {
    && w.name == n && w.prev.Some?
    && w.pod == w.prev.value.(annotations := InsertRef(w.prev.value.annotations, t), version := w.pod.version)
    && Refs(w.pod.annotations) == Refs(w.prev.value.annotations) + {t}
    && t !in Refs(w.prev.value.annotations)
  }

  // ----- what the operations do when nobody else acts

  function AddRefAlone(s: Server, n: Name, t: Target, me: Writer): (Server, Outcome) {
    if n !in s.pods then (s, Failed(NotFound))
    else if s.pods[n].deleting then (s, Terminating)
    else if Ref(t) in s.pods[n].annotations then (s, Ok)
    else Answer(UpdatePod(s, n, AnnotatedWith(s.pods[n], InsertRef(s.pods[n].annotations, t)), me))
  }

  function AddAlone(s: Server, n: Name, t: Target, made: Pod, me: Writer): (Server, Outcome) {
    if n in s.pods then AddRefAlone(s, n, t, me)
    else Answer(CreatePod(s, n, AnnotatedWith(made, made.annotations[Ref(t) := Path(t)]).(finalizers := {FINALIZER}), me))
  }

  function DropRefAlone(s: Server, n: Name, t: Target, me: Writer): (Server, Outcome) {
    if n !in s.pods then (s, Failed(NotFound))
    else if Ref(t) !in s.pods[n].annotations then (s, Ok)
    else Answer(UpdatePod(s, n, AnnotatedWith(s.pods[n], RemoveRef(s.pods[n].annotations, t)), me))
  }

  function IdleAlone(s: Server, n: Name, now: int, me: Writer): (Server, Outcome) {
    if n !in s.pods || HasRef(s.pods[n].annotations) then (s, Ok) else TailAlone(s, n, s.pods[n], now, me)
  }

  function DropAlone(s: Server, n: Name, t: Target, now: int, me: Writer): (Server, Outcome) {
    if n !in s.pods then (s, Ok) else IdleAlone(DropRefAlone(s, n, t, me).0, n, now, me)
  }

  /** A publish left to itself succeeds unless the pod is being deleted, and then the pod stores the target
      beside whatever it stored before, with no deletion pending. */
  lemma PublishAlone(s: Server, n: Name, t: Target, made: Pod, me: Writer)
    requires FreshPod(made) && (n in s.pods ==> WellKeyed(s.pods[n].annotations) && Exclusive(s.pods[n].annotations))
    ensures var (s', e) := AddAlone(s, n, t, made, me);
      if n in s.pods && s.pods[n].deleting then s' == s && e.Terminating?
      else
        && e.Ok? && n in s'.pods && DeleteAt !in s'.pods[n].annotations
        && Refs(s'.pods[n].annotations) == (if n in s.pods then Refs(s.pods[n].annotations) else {}) + {t}
  {
    if n in s.pods {
      InsertIsSetInsert(s.pods[n].annotations, t);
      if Ref(t) in s.pods[n].annotations {
        assert t in Refs(s.pods[n].annotations);
      }
    } else {
      var a := made.annotations[Ref(t) := Path(t)];
      assert t in Refs(a);
    }
  }

  /** An unpublish left to itself succeeds and takes away exactly its reference. If no other is left, the pod
      is marked for deletion when no valid delay is pending, and otherwise keeps its deletion instant. */
  lemma UnpublishAlone(s: Server, n: Name, t: Target, now: int, me: Writer)
    requires ServerOk(s) && n in s.pods && WellKeyed(s.pods[n].annotations)
    ensures var (s', e) := DropAlone(s, n, t, now, me);
      && e.Ok? && n in s'.pods
      && Refs(s'.pods[n].annotations) == Refs(s.pods[n].annotations) - {t}
      && (s'.pods[n].deleting <==>
            s.pods[n].deleting || (Refs(s.pods[n].annotations) <= {t} && ShouldDelay(s.pods[n].annotations, now).DeleteNow?))
      && (Refs(s.pods[n].annotations) <= {t} && !ShouldDelay(s.pods[n].annotations, now).DeleteNow? ==> DeleteAt in s'.pods[n].annotations)
  {
    var a := s.pods[n].annotations;
    RemoveIsSetRemove(a, t);
    DropKeepsPod(s, n, t, me);
    var s1 := DropRefAlone(s, n, t, me).0;
    HasRefIffRefs(s1.pods[n].annotations);
    assert Refs(s1.pods[n].annotations) == {} <==> Refs(a) <= {t};
    if Refs(a) <= {t} {
      TailKeepsPod(s1, n, now, me);
    }
  }

  lemma DropKeepsPod(s: Server, n: Name, t: Target, me: Writer)
    requires n in s.pods && WellKeyed(s.pods[n].annotations)
    ensures var (s', e) := DropRefAlone(s, n, t, me);
      && e.Ok? && n in s'.pods && s'.pods[n].deleting == s.pods[n].deleting
      && s'.pods[n].annotations == RemoveRef(s.pods[n].annotations, t)
      && Refs(s'.pods[n].annotations) == Refs(s.pods[n].annotations) - {t}
      && forall k :: ShouldDelay(s'.pods[n].annotations, k) == ShouldDelay(s.pods[n].annotations, k)
  {
  }

  lemma TailKeepsPod(s: Server, n: Name, now: int, me: Writer)
    requires n in s.pods && Refs(s.pods[n].annotations) == {}
    ensures var (s', e) := TailAlone(s, n, s.pods[n], now, me);
      var verdict := ShouldDelay(s.pods[n].annotations, now);
      && e.Ok? && n in s'.pods && Refs(s'.pods[n].annotations) == {}
      && (s'.pods[n].deleting <==> s.pods[n].deleting || verdict.DeleteNow?)
      && (!verdict.DeleteNow? ==> DeleteAt in s'.pods[n].annotations)
  {
  }

  // ----- AddRefOfMount

  lemma CommitInsert(before: State, me: Tid, n: Name, t: Target, c: Pod)
    requires Inv(before) && me in before.threads && before.threads[me] == AddWrite(n, t, c)
    requires Ref(t) !in c.annotations
    requires n in before.server.pods && before.server.pods[n].version == c.version
    ensures before.server.pods[n] == c
    ensures IsInsert(Write(n, AnnotatedWith(c, InsertRef(c.annotations, t)).(version := |before.server.log|), Some(c), Thread(me)), n, t)
    ensures t in Refs(InsertRef(c.annotations, t))
  {
    assert ThreadOk(before.server, before.volume, before.threads[me]);
    CurrentCopy(before.server, n, c);
    InsertIsSetInsert(c.annotations, t);
  }

  lemma AfterAddRead(before: State, m': State, me: Tid, n: Name, t: Target)
    requires me in before.threads && before.threads[me] == AddRead(n, t) && After(before, m', me)
    ensures Stands(m', me,
      if n !in before.server.pods || before.server.pods[n].deleting then None
      else if Ref(t) in before.server.pods[n].annotations then Some(Bind(n, t))
      else Some(AddWrite(n, t, before.server.pods[n])))
  {
  }

  lemma AfterAddWrite(before: State, m': State, me: Tid, n: Name, t: Target, c: Pod)
    requires me in before.threads && before.threads[me] == AddWrite(n, t, c) && After(before, m', me)
    ensures Stands(m', me,
      match UpdatePod(before.server, n, AnnotatedWith(c, InsertRef(c.annotations, t)), Thread(me)).1
      case Accepted => Some(Bind(n, t))
      case Conflict => Some(AddRead(n, t))
      case _ => None)
  {
  }

  /** From `h0` to `h` were `k` attempts of a read and a write each, and every write met a conflict. */
  ghost predicate Conflicts(h: Sight, h0: Sight, k: nat) {
    if k == 0 then h == h0
    else h.Seen? && h.answer.Conflict? && h.earlier.Seen? && h.earlier.answer.Accepted? && Conflicts(h.earlier.earlier, h0, k - 1)
  }

  lemma {:induction false} ConflictsSince(h: Sight, h0: Sight, k: nat)
    requires Conflicts(h, h0, k)
    ensures Since(h, h0)
  {
    if k > 0 {
      ConflictsSince(h.earlier.earlier, h0, k - 1);
    }
  }

  /** One attempt after `k` others fails: the last call found no pod or, reading, one that is being deleted. */
  ghost predicate LastFails(e: Outcome, h: Sight, h0: Sight, k: nat, n: Name) {
    && h.Seen? && (Conflicts(h.earlier, h0, k) || (h.earlier.Seen? && h.earlier.answer.Accepted? && Conflicts(h.earlier.earlier, h0, k)))
    && if e.Terminating? then DeletingAt(h.state, n) else e == Failed(NotFound) && h.answer.NotFound?
  }

  /** Why adding or dropping a reference failed, by what was seen from `h0` to `h`: all four attempts met a
      conflict, or one of the four found the pod gone or being deleted. */
  ghost predicate FailsLate(e: Outcome, h: Sight, h0: Sight, n: Name) {
    if e == Failed(Conflict) then exists k: nat :: k == 4 && Conflicts(h, h0, k)
    else exists k: nat :: k < 4 && LastFails(e, h, h0, k, n)
  }

  lemma KeyMeansHeld(m: State, n: Name, t: Target)
    requires Inv(m) && n in m.server.pods && Ref(t) in m.server.pods[n].annotations
    ensures Holds(m.server, n, t)
  {
    StoredProper(m.server, m.volume, n);
  }

  method ReadMount(node: World, me: Tid, n: Name, t: Target, ghost from: nat) returns (exist: Option<Pod>)
    requires node.Good() && me in node.m.threads && node.m.threads[me] == AddRead(n, t)
    requires from <= |node.m.server.log| && Mine(node.m, from, me) == []
    modifies node
    ensures node.Good() && from <= |node.m.server.log| && Mine(node.m, from, me) == []
    ensures Stands(node.m, me,
      if exist.None? || exist.value.deleting then None
      else if Ref(t) in exist.value.annotations then Some(Bind(n, t)) else Some(AddWrite(n, t, exist.value)))
    ensures exist.Some? && Ref(t) in exist.value.annotations ==> Holds(node.m.server, n, t)
    ensures node.seen.Seen? && node.seen.earlier == old(node.seen) && node.seen.answer == Found(exist)
    ensures exist == Lookup(node.seen.state.server, n)
    ensures old(node.schedule) == [] ==>
      (node.schedule == [] && node.m.now == old(node.m).now && node.m.server == old(node.m.server) && exist == Lookup(node.m.server, n))
  {
    ghost var m0 := node.m;
    ghost var look;
    exist, look := node.GetPod(me);
    AfterAddRead(look, node.m, me, n, t);
    NoWrite(m0, look, node.m, from, me);
    if exist.Some? && Ref(t) in exist.value.annotations {
      KeyMeansHeld(look, n, t);
    }
  }

  /** One attempt: read, insert, write back. */
  method TryAddRef(node: World, me: Tid, n: Name, t: Target, ghost from: nat, ghost h0: Sight, ghost k: nat) returns (e: Outcome)
    requires node.Good() && me in node.m.threads && node.m.threads[me] == AddRead(n, t)
    requires from <= |node.m.server.log| && Mine(node.m, from, me) == []
    requires k < 4 && Conflicts(node.seen, h0, k)
    modifies node
    ensures node.Good() && from <= |node.m.server.log| && !e.Blocked?
    ensures Stands(node.m, me, if e.Ok? then Some(Bind(n, t)) else if e == Failed(Conflict) then Some(AddRead(n, t)) else None)
    ensures e.Ok? ==> Holds(node.m.server, n, t)
    ensures var w := Mine(node.m, from, me); w == [] || (e.Ok? && |w| == 1 && IsInsert(w[0], n, t))
    ensures e == Failed(Conflict) ==> Conflicts(node.seen, h0, k + 1)
    ensures !e.Ok? && e != Failed(Conflict) ==> FailsLate(e, node.seen, h0, n)
    ensures old(node.schedule) == [] ==> e != Failed(Conflict)
    ensures old(node.schedule) == [] ==>
      (node.schedule == [] && node.m.now == old(node.m).now && (node.m.server, e) == AddRefAlone(old(node.m.server), n, t, Thread(me)))
  {
    var exist := ReadMount(node, me, n, t, from);
    if exist.None? {
      assert LastFails(Failed(NotFound), node.seen, h0, k, n);
      return Failed(NotFound);
    }
    if exist.value.deleting {
      assert LastFails(Terminating, node.seen, h0, k, n);
      return Terminating;
    }
    var annotation := exist.value.annotations;
    if Ref(t) in annotation {
      return Ok;
    }
    annotation := annotation[Ref(t) := Path(t)] - {DeleteAt};
    e := WriteRef(node, me, n, t, exist.value, annotation, from);
    if e == Failed(NotFound) {
      assert LastFails(e, node.seen, h0, k, n);
    }
  }

  method WriteRef(node: World, me: Tid, n: Name, t: Target, exist: Pod, annotation: Annotations, ghost from: nat)
    returns (e: Outcome)
    requires node.Good() && me in node.m.threads && node.m.threads[me] == AddWrite(n, t, exist)
    requires annotation == InsertRef(exist.annotations, t) && Ref(t) !in exist.annotations
    requires from <= |node.m.server.log| && Mine(node.m, from, me) == []
    modifies node
    ensures node.Good() && from <= |node.m.server.log| && !e.Blocked?
    ensures Stands(node.m, me, if e.Ok? then Some(Bind(n, t)) else if e == Failed(Conflict) then Some(AddRead(n, t)) else None)
    ensures e.Ok? ==> Holds(node.m.server, n, t)
    ensures var w := Mine(node.m, from, me); w == [] || (e.Ok? && |w| == 1 && IsInsert(w[0], n, t))
    ensures node.seen.Seen? && node.seen.earlier == old(node.seen)
    ensures e == if node.seen.answer.Accepted? then Ok else Failed(node.seen.answer)
    ensures !node.seen.answer.AlreadyExists?
    ensures old(node.schedule) == [] ==>
      (node.schedule == [] && node.m.now == old(node.m).now && (node.m.server, e) == Answer(UpdatePod(old(node.m.server), n, AnnotatedWith(exist, annotation), Thread(me))))
  {
    ghost var m0 := node.m;
    var r, look := node.UpdatePod(me, AnnotatedWith(exist, annotation));
    AfterAddWrite(look, node.m, me, n, t, exist);
    if r.Accepted? {
      CommitInsert(look, me, n, t, exist);
      OneWrite(m0, look, node.m, from, me, n, AnnotatedWith(exist, annotation));
      return Ok;
    }
    NoWrite(m0, look, node.m, from, me);
    return Failed(r);
  }

  method AddRefFrom(node: World, me: Tid, n: Name, t: Target, ghost from: nat) returns (e: Outcome)
    requires node.Good() && me in node.m.threads && node.m.threads[me] == AddRead(n, t)
    requires from <= |node.m.server.log| && Mine(node.m, from, me) == []
    modifies node
    ensures node.Good() && from <= |node.m.server.log| && !e.Blocked?
    ensures Stands(node.m, me, if e.Ok? then Some(Bind(n, t)) else None)
    ensures e.Ok? ==> Holds(node.m.server, n, t)
    ensures var w := Mine(node.m, from, me); w == [] || (e.Ok? && |w| == 1 && IsInsert(w[0], n, t))
    ensures !e.Ok? ==> FailsLate(e, node.seen, old(node.seen), n)
    ensures old(node.schedule) == [] ==>
      (node.schedule == [] && node.m.now == old(node.m).now && (node.m.server, e) == AddRefAlone(old(node.m.server), n, t, Thread(me)))
  {
    ghost var h0, m0, alone := node.seen, node.m, node.schedule == [];
    for i := 0 to BACKOFF_STEPS
      invariant node.Good() && me in node.m.threads && node.m.threads[me] == AddRead(n, t)
      invariant from <= |node.m.server.log| && Mine(node.m, from, me) == []
      invariant alone ==> i == 0 && node.schedule == [] && node.m == m0
      invariant Conflicts(node.seen, h0, i)
    {
      e := TryAddRef(node, me, n, t, from, h0, i);
      if e != Failed(Conflict) {
        return;
      }
      assert !alone;
    }
    node.GiveUp(me);
    return Failed(Conflict);
  }

  /** Under any pattern of conflicts: at most one write, and it is a set insertion into the stored pod; on
      success the reference is stored, on failure nothing was written. It fails only if the pod is gone or being
      deleted, or if all four attempts conflicted. */
  method AddRefOfMount(node: World, me: Tid, n: Name, t: Target) returns (e: Outcome)
    requires node.Good() && me in node.m.threads && node.m.threads[me] == AddRead(n, t)
    modifies node
    ensures node.Good() && |old(node.m.server.log)| <= |node.m.server.log|
    ensures Stands(node.m, me, if e.Ok? then Some(Bind(n, t)) else None)
    ensures e.Ok? ==> Holds(node.m.server, n, t)
    ensures var w := Mine(node.m, |old(node.m.server.log)|, me);
            w == [] || (e.Ok? && |w| == 1 && IsInsert(w[0], n, t))
    ensures !e.Ok? ==> FailsLate(e, node.seen, old(node.seen), n)
    ensures old(node.schedule) == [] ==>
      (node.schedule == [] && node.m.now == old(node.m).now && (node.m.server, e) == AddRefAlone(old(node.m.server), n, t, Thread(me)))
  {
    e := AddRefFrom(node, me, n, t, |node.m.server.log|);
  }

  // ----- createOrAddRef

  /** The write creates the pod as built, with this one reference and the finalizer. */
  ghost predicate IsCreate(w: Write, n: Name, t: Target, made: Pod) {
    && w.name == n && w.prev.None?
    && w.pod.annotations == made.annotations[Ref(t) := Path(t)] && Refs(w.pod.annotations) == {t}
    && w.pod.labels == made.labels && w.pod.containers == made.containers
    && w.pod.finalizers == {FINALIZER} && !w.pod.deleting
  }

  lemma AfterAddWait(before: State, m': State, me: Tid, n: Name, t: Target, made: Pod)
    requires me in before.threads && before.threads[me] == AddWait(n, t, made) && After(before, m', me)
    ensures Stands(m', me,
      if n !in before.server.pods then Some(AddCreate(n, t, made))
      else if before.server.pods[n].deleting then Some(AddWait(n, t, made))
      else Some(AddRead(n, t)))
  {
  }

  lemma AfterAddCreate(before: State, m': State, me: Tid, n: Name, t: Target, made: Pod)
    requires Inv(before) && me in before.threads && before.threads[me] == AddCreate(n, t, made) && After(before, m', me)
    requires n !in before.server.pods
    ensures Stands(m', me, Some(Bind(n, t)))
    ensures Refs(made.annotations[Ref(t) := Path(t)]) == {t}
  {
  }

  /** Under the lock the pod cannot appear between the read and the create, so the create succeeds. */
  method CreateWithRef(node: World, me: Tid, n: Name, t: Target, made: Pod) returns (e: Outcome)
    requires node.Good() && me in node.m.threads && node.m.threads[me] == AddCreate(n, t, made)
    requires n !in node.m.server.pods
    modifies node
    ensures node.Good() && |old(node.m.server.log)| <= |node.m.server.log|
    ensures e.Ok? && Stands(node.m, me, Some(Bind(n, t))) && Holds(node.m.server, n, t)
    ensures forall from | 0 <= from <= |old(node.m.server.log)| && Mine(old(node.m), from, me) == [] ::
      var w := Mine(node.m, from, me); |w| == 1 && IsCreate(w[0], n, t, made)
    ensures old(node.schedule) == [] ==>
      (node.schedule == [] && node.m.now == old(node.m).now && (node.m.server, e) == AddAlone(old(node.m.server), n, t, made, Thread(me)))
  {
    ghost var m0 := node.m;
    var newPod := AnnotatedWith(made, made.annotations[Ref(t) := Path(t)]).(finalizers := {FINALIZER});
    var r, look := node.CreatePod(me, newPod);
    StillWithout(m0, look, me, n, t);
    AfterAddCreate(look, node.m, me, n, t, made);
    forall from | 0 <= from <= |m0.server.log| && Mine(m0, from, me) == []
      ensures var w := Mine(node.m, from, me); |w| == 1 && IsCreate(w[0], n, t, made)
    {
      OneWrite(m0, look, node.m, from, me, n, newPod.(deleting := false, status := Status(false, false, false)));
    }
    return Ok;
  }

  /** Why creating the pod or adding the reference failed: all 120 polls found the pod being deleted, or fewer did
      and the next one, the last of `used`, found it in use, and adding the reference to it failed. */
  ghost predicate WaitFails(e: Outcome, h: Sight, used: Sight, h0: Sight, n: Name) {
    || (e.Terminating? && DeletingThroughout(h, h0, n))
    || (&& used.Seen? && AllDeleting(used.earlier, h0, n) && Count(used.earlier) < Count(h0) + 120
        && UsedAt(used.state, n) && FailsLate(e, h, used, n))
  }

  /** One poll: none means the old pod is still being deleted. */
  method PollForPod(node: World, me: Tid, n: Name, t: Target, made: Pod, ghost from: nat) returns (r: Option<Outcome>)
    requires node.Good() && me in node.m.threads && node.m.threads[me] == AddWait(n, t, made)
    requires from <= |node.m.server.log| && Mine(node.m, from, me) == []
    modifies node
    ensures node.Good() && from <= |node.m.server.log|
    ensures Stands(node.m, me,
      if r.None? then Some(AddWait(n, t, made)) else if r.value.Ok? then Some(Bind(n, t)) else None)
    ensures r != Some(Blocked)
    ensures r.None? ==> node.seen.Seen? && node.seen.earlier == old(node.seen) && DeletingAt(node.seen.state, n)
    ensures r.Some? && !r.value.Ok? ==>
      exists look :: UsedAt(look, n) && FailsLate(r.value, node.seen, Seen(old(node.seen), look, Accepted), n)
    ensures r.None? ==> Mine(node.m, from, me) == []
    ensures r == Some(Ok) ==> Holds(node.m.server, n, t)
    ensures r.Some? ==> AddWrites(Mine(node.m, from, me), r.value, n, t, made)
    ensures old(node.schedule) == [] ==>
      (node.schedule == [] && node.m.now == old(node.m).now && (
        if r.None? then node.m.server == old(node.m.server) && AddAlone(old(node.m.server), n, t, made, Thread(me)).1.Terminating?
        else (node.m.server, r.value) == AddAlone(old(node.m.server), n, t, made, Thread(me))))
  {
    ghost var m0 := node.m;
    var oldPod, read := node.GetPod(me);
    AfterAddWait(read, node.m, me, n, t, made);
    NoWrite(m0, read, node.m, from, me);
    if oldPod.None? {
      var e := CreateWithRef(node, me, n, t, made);
      return Some(e);
    }
    if !oldPod.value.deleting {
      var e := AddRefFrom(node, me, n, t, from);
      assert UsedAt(read, n);
      return Some(e);
    }
    return None;
  }

  /** A publish writes at most once, on success only: it inserts its reference, or creates the pod with it. */
  ghost predicate AddWrites(w: seq<Write>, e: Outcome, n: Name, t: Target, made: Pod) {
    w == [] || (e.Ok? && |w| == 1 && (IsInsert(w[0], n, t) || IsCreate(w[0], n, t, made)))
  }

  /** Wait out a pod being deleted, then create the pod with the reference or add the reference to it. It fails
      only for the reasons `WaitFails` names, once it has the lock. */
  method CreateOrAddRef(node: World, me: Tid, n: Name, t: Target, made: Pod) returns (e: Outcome, ghost used: Sight)
    requires node.Good() && me in node.m.threads && node.m.threads[me] == AddLock(n, t, made)
    modifies node
    ensures node.Good() && |old(node.m.server.log)| <= |node.m.server.log|
    ensures Stands(node.m, me, if e.Ok? then Some(Bind(n, t)) else if e.Blocked? then Some(AddLock(n, t, made)) else None)
    ensures e.Ok? ==> Holds(node.m.server, n, t)
    ensures e.Blocked? ==> NotGranted(node.seen, old(node.seen), n)
    ensures !e.Ok? && !e.Blocked? ==>
      exists lock :: Granted(lock, n) && WaitFails(e, node.seen, used, Seen(old(node.seen), lock, Accepted), n)
    ensures AddWrites(Mine(node.m, |old(node.m.server.log)|, me), e, n, t, made)
    ensures old(node.schedule) == [] && !e.Blocked? ==>
      (node.m.server, e) == AddAlone(old(node.m.server), n, t, made, Thread(me))
    ensures old(node.schedule) == [] ==> (e.Blocked? <==> !Granted(old(node.m), n))
  {
    ghost var m0 := node.m;
    var held, locked := node.Lock(me);
    NoWrite(m0, locked, node.m, |m0.server.log|, me);
    if !held {
      return Blocked, Nothing;
    }
    assert Granted(locked, n);
    e, used := WaitAndAdd(node, me, n, t, made, |m0.server.log|);
  }

  method WaitAndAdd(node: World, me: Tid, n: Name, t: Target, made: Pod, ghost from: nat)
    returns (e: Outcome, ghost used: Sight)
    requires node.Good() && me in node.m.threads && node.m.threads[me] == AddWait(n, t, made)
    requires from <= |node.m.server.log| && Mine(node.m, from, me) == []
    modifies node
    ensures node.Good() && from <= |node.m.server.log| && !e.Blocked?
    ensures Stands(node.m, me, if e.Ok? then Some(Bind(n, t)) else None)
    ensures e.Ok? ==> Holds(node.m.server, n, t)
    ensures e.Ok? || WaitFails(e, node.seen, used, old(node.seen), n)
    ensures AddWrites(Mine(node.m, from, me), e, n, t, made)
    ensures old(node.schedule) == [] ==>
      (node.schedule == [] && node.m.now == old(node.m).now && (node.m.server, e) == AddAlone(old(node.m.server), n, t, made, Thread(me)))
  {
    ghost var h0 := node.seen;
    used := Nothing;
    for i := 0 to POLLS
      invariant node.Good() && me in node.m.threads && node.m.threads[me] == AddWait(n, t, made)
      invariant old(node.schedule) == [] ==> node.schedule == [] && node.m.now == old(node.m).now && node.m.server == old(node.m.server)
      invariant old(node.schedule) == [] && i > 0 ==> AddAlone(old(node.m.server), n, t, made, Thread(me)).1.Terminating?
      invariant from <= |node.m.server.log| && Mine(node.m, from, me) == []
      invariant AllDeleting(node.seen, h0, n) && Count(node.seen) == Count(h0) + i
    {
      ghost var h1 := node.seen;
      var r := PollForPod(node, me, n, t, made, from);
      if r.Some? {
        if !r.value.Ok? {
          ghost var look :| UsedAt(look, n) && FailsLate(r.value, node.seen, Seen(h1, look, Accepted), n);
          used := Seen(h1, look, Accepted);
        }
        return r.value, used;
      }
    }
    node.GiveUp(me);
    return Terminating, used;
  }

  // ----- JUmount

  /** The write removes the reference from the pod as it was stored at that moment; nothing else changes. */
  ghost predicate IsRemove(w: Write, n: Name, t: Target) {
    && w.name == n && w.prev.Some? && t in Refs(w.prev.value.annotations)
    && w.pod == w.prev.value.(annotations := RemoveRef(w.prev.value.annotations, t), version := w.pod.version)
    && Refs(w.pod.annotations) == Refs(w.prev.value.annotations) - {t}
  }

  lemma AfterDropRead(before: State, m': State, me: Tid, n: Name, t: Target)
    requires me in before.threads && before.threads[me] == DropRead(n, t) && After(before, m', me)
    ensures Stands(m', me,
      if n !in before.server.pods then None
      else if Ref(t) !in before.server.pods[n].annotations then Some(DropRecheck(n, t))
      else Some(DropWrite(n, t, before.server.pods[n])))
  {
  }

  lemma AfterDropWrite(before: State, m': State, me: Tid, n: Name, t: Target, c: Pod)
    requires me in before.threads && before.threads[me] == DropWrite(n, t, c) && After(before, m', me)
    ensures Stands(m', me,
      match UpdatePod(before.server, n, AnnotatedWith(c, RemoveRef(c.annotations, t)), Thread(me)).1
      case Accepted => Some(DropRecheck(n, t))
      case Conflict => Some(DropRead(n, t))
      case _ => None)
  {
  }

  lemma CommitRemove(before: State, me: Tid, n: Name, t: Target, c: Pod)
    requires Inv(before) && me in before.threads && before.threads[me] == DropWrite(n, t, c) && Ref(t) in c.annotations
    requires n in before.server.pods && before.server.pods[n].version == c.version
    ensures before.server.pods[n] == c
    ensures IsRemove(Write(n, AnnotatedWith(c, RemoveRef(c.annotations, t)).(version := |before.server.log|), Some(c), Thread(me)), n, t)
  {
  }

  method ReadForDrop(node: World, me: Tid, n: Name, t: Target, ghost from: nat) returns (po: Option<Pod>)
    requires node.Good() && me in node.m.threads && node.m.threads[me] == DropRead(n, t)
    requires from <= |node.m.server.log| && Mine(node.m, from, me) == []
    modifies node
    ensures node.Good() && from <= |node.m.server.log| && Mine(node.m, from, me) == []
    ensures Stands(node.m, me,
      if po.None? then None else if Ref(t) !in po.value.annotations then Some(DropRecheck(n, t)) else Some(DropWrite(n, t, po.value)))
    ensures po == Lookup(node.m.server, n)
    ensures node.seen.Seen? && node.seen.earlier == old(node.seen) && node.seen.answer == Found(po)
    ensures old(node.schedule) == [] ==> (node.schedule == [] && node.m.now == old(node.m).now && node.m.server == old(node.m.server))
  {
    ghost var m0 := node.m;
    ghost var read;
    po, read := node.GetPod(me);
    AfterDropRead(read, node.m, me, n, t);
    NoWrite(m0, read, node.m, from, me);
  }

  /** One attempt: read, delete the key, write back. */
  method TryDropRef(node: World, me: Tid, n: Name, t: Target, ghost from: nat, ghost h0: Sight, ghost k: nat) returns (e: Outcome)
    requires node.Good() && me in node.m.threads && node.m.threads[me] == DropRead(n, t)
    requires from <= |node.m.server.log| && Mine(node.m, from, me) == []
    requires k < 4 && Conflicts(node.seen, h0, k)
    modifies node
    ensures !e.Blocked?
    ensures node.Good() && from <= |node.m.server.log|
    ensures Stands(node.m, me, if e.Ok? then Some(DropRecheck(n, t)) else if e == Failed(Conflict) then Some(DropRead(n, t)) else None)
    ensures e.Ok? ==> !Holds(node.m.server, n, t)
    ensures var w := Mine(node.m, from, me); w == [] || (e.Ok? && |w| == 1 && IsRemove(w[0], n, t))
    ensures e.Ok? ==> Since(node.seen, h0)
    ensures e == Failed(Conflict) ==> Conflicts(node.seen, h0, k + 1)
    ensures !e.Ok? && e != Failed(Conflict) ==> FailsLate(e, node.seen, h0, n) && !e.Terminating?
    ensures old(node.schedule) == [] ==> e != Failed(Conflict)
    ensures old(node.schedule) == [] ==>
      (node.schedule == [] && node.m.now == old(node.m).now && (node.m.server, e) == DropRefAlone(old(node.m.server), n, t, Thread(me)))
  {
    ghost var h1 := node.seen;
    var po := ReadForDrop(node, me, n, t, from);
    FirstRead(node.seen, h1, h0, k, n);
    if po.None? {
      return Failed(NotFound);
    }
    if Ref(t) !in po.value.annotations {
      return Ok;
    }
    e := WriteWithoutRef(node, me, n, t, po.value, from);
    DropAttempt(e, node.seen, h1, h0, k, n);
  }

  lemma FirstRead(h: Sight, h1: Sight, h0: Sight, k: nat, n: Name)
    requires k < 4 && Conflicts(h1, h0, k) && h.Seen? && h.earlier == h1
    ensures Since(h, h0) && (h.answer.NotFound? ==> FailsLate(Failed(NotFound), h, h0, n))
  {
    ConflictsSince(h1, h0, k);
    if h.answer.NotFound? {
      assert LastFails(Failed(NotFound), h, h0, k, n);
    }
  }

  lemma DropAttempt(e: Outcome, h: Sight, h1: Sight, h0: Sight, k: nat, n: Name)
    requires k < 4 && Conflicts(h1, h0, k)
    requires h.Seen? && h.earlier.Seen? && h.earlier.answer.Accepted? && h.earlier.earlier == h1
    requires e == (if h.answer.Accepted? then Ok else Failed(h.answer)) && !h.answer.AlreadyExists?
    ensures if e.Ok? then Since(h, h0) else if e == Failed(Conflict) then Conflicts(h, h0, k + 1) else FailsLate(e, h, h0, n)
  {
    ConflictsSince(h1, h0, k);
    if h.answer.NotFound? {
      assert LastFails(e, h, h0, k, n);
    }
  }

  method WriteWithoutRef(node: World, me: Tid, n: Name, t: Target, po: Pod, ghost from: nat) returns (e: Outcome)
    requires node.Good() && me in node.m.threads && node.m.threads[me] == DropWrite(n, t, po) && Ref(t) in po.annotations
    requires from <= |node.m.server.log| && Mine(node.m, from, me) == []
    modifies node
    ensures !e.Blocked?
    ensures node.Good() && from <= |node.m.server.log|
    ensures Stands(node.m, me, if e.Ok? then Some(DropRecheck(n, t)) else if e == Failed(Conflict) then Some(DropRead(n, t)) else None)
    ensures e.Ok? ==> !Holds(node.m.server, n, t)
    ensures var w := Mine(node.m, from, me); w == [] || (e.Ok? && |w| == 1 && IsRemove(w[0], n, t))
    ensures node.seen.Seen? && node.seen.earlier == old(node.seen)
    ensures e == (if node.seen.answer.Accepted? then Ok else Failed(node.seen.answer))
    ensures !node.seen.answer.AlreadyExists?
    ensures old(node.schedule) == [] ==>
      (node.schedule == [] && node.m.now == old(node.m).now && (node.m.server, e) == Answer(UpdatePod(old(node.m.server), n, AnnotatedWith(po, RemoveRef(po.annotations, t)), Thread(me))))
  {
    ghost var m0 := node.m;
    var without := AnnotatedWith(po, po.annotations - {Ref(t)});
    var r, before := node.UpdatePod(me, without);
    AfterDropWrite(before, node.m, me, n, t, po);
    if r.Accepted? {
      CommitRemove(before, me, n, t, po);
      OneWrite(m0, before, node.m, from, me, n, without);
      return Ok;
    }
    NoWrite(m0, before, node.m, from, me);
    return Failed(r);
  }

  /** What an unpublish may add to the log after dropping its reference: one stamp or one mark of a pod
      without references. */
  ghost predicate IsTail(w: seq<Write>, w0: seq<Write>, n: Name) {
    w == w0 || (|w| == |w0| + 1 && w[..|w0|] == w0 && (IsMark(w[|w0|], n) || exists k :: IsStamp(w[|w0|], n, k)))
  }

  lemma AfterIdleRead(before: State, m': State, me: Tid, n: Name, op: Op)
    requires me in before.threads && before.threads[me] == IdleRead(n, op) && After(before, m', me)
    ensures Stands(m', me,
      if n !in before.server.pods || HasRef(before.server.pods[n].annotations) then None
      else Some(IdleDecide(n, before.server.pods[n], op)))
  {
  }

  lemma AfterDropRecheck(before: State, m': State, me: Tid, n: Name, t: Target)
    requires me in before.threads && before.threads[me] == DropRecheck(n, t) && After(before, m', me)
    ensures Stands(m', me,
      if n !in before.server.pods || HasRef(before.server.pods[n].annotations) then None else Some(IdleRead(n, Unpublish(t))))
  {
  }

  lemma AfterDropStart(before: State, m': State, me: Tid, n: Name, t: Target)
    requires me in before.threads && before.threads[me] == DropStart(n, t) && After(before, m', me)
    ensures Stands(m', me, if n in before.server.pods then Some(DropRead(n, t)) else None)
  {
  }

  /** From `h0` to `h` were `k` attempts of a read, a look at the clock and a stamp, and every stamp met a conflict. */
  ghost predicate StampConflicts(h: Sight, h0: Sight, k: nat) {
    if k == 0 then h == h0
    else
      && h.Seen? && h.answer.Conflict? && h.earlier.Seen? && h.earlier.earlier.Seen?
      && StampConflicts(h.earlier.earlier.earlier, h0, k - 1)
  }

  /** In the attempt after `k` others the pod was gone when it was to be stamped or deleted. */
  ghost predicate LastGone(h: Sight, h0: Sight, k: nat) {
    h.Seen? && h.answer.NotFound? && h.earlier.Seen? && h.earlier.earlier.Seen? && StampConflicts(h.earlier.earlier.earlier, h0, k)
  }

  /** Why deleteMountPod failed: all four stamps met a conflict, or one of the four attempts found the pod gone. */
  ghost predicate DeleteFails(e: Outcome, h: Sight, h0: Sight) {
    if e == Failed(Conflict) then exists k: nat :: k == 4 && StampConflicts(h, h0, k)
    else e == Failed(NotFound) && exists k: nat :: k < 4 && LastGone(h, h0, k)
  }

  /** Nothing is left to do: the last call found the pod gone, referenced or being deleted, or its deletion instant
      not yet come. */
  ghost predicate Settled(h: Sight, n: Name) {
    && h.Seen?
    && (|| n !in h.state.server.pods || Refs(h.state.server.pods[n].annotations) != {} || h.state.server.pods[n].deleting
        || (&& h.earlier.Seen? && n in h.earlier.state.server.pods
            && ShouldDelay(h.earlier.state.server.pods[n].annotations, h.state.now).Wait?))
  }

  lemma SettledAtRead(h: Sight, n: Name, po: Option<Pod>)
    requires h.Seen? && Lookup(h.state.server, n) == po && (po.None? || HasRef(po.value.annotations))
    ensures Settled(h, n)
  {
    if po.Some? {
      HasRefIffRefs(po.value.annotations);
    }
  }

  lemma SettledAfter(h: Sight, h2: Sight, n: Name, po: Pod)
    requires h2.Seen? && Lookup(h2.state.server, n) == Some(po) && h.Seen?
    requires DeletingAt(h.state, n) || (h.earlier == h2 && ShouldDelay(po.annotations, h.state.now).Wait?)
    ensures Settled(h, n)
  {
  }

  lemma IdleAttempt(e: Outcome, h: Sight, h1: Sight, h0: Sight, k: nat)
    requires k < 4 && StampConflicts(h1, h0, k)
    requires h.Seen? && h.earlier.Seen? && h.earlier.earlier.Seen? && h.earlier.earlier.earlier == h1
    requires e == Failed(h.answer) && (h.answer.NotFound? || h.answer.Conflict?)
    ensures if e == Failed(Conflict) then StampConflicts(h, h0, k + 1) else DeleteFails(e, h, h0)
  {
    if h.answer.NotFound? {
      assert LastGone(h, h0, k);
    }
  }

  method ReadIdle(node: World, me: Tid, n: Name, t: Target, ghost from: nat) returns (po: Option<Pod>)
    requires node.Good() && me in node.m.threads && node.m.threads[me] == IdleRead(n, Unpublish(t))
    requires from <= |node.m.server.log| && !Holds(node.m.server, n, t)
    modifies node
    ensures node.Good() && from <= |node.m.server.log| && !Holds(node.m.server, n, t)
    ensures Stands(node.m, me,
      if po.None? || HasRef(po.value.annotations) then None else Some(IdleDecide(n, po.value, Unpublish(t))))
    ensures Mine(node.m, from, me) == Mine(old(node.m), from, me) && po == Lookup(node.m.server, n)
    ensures node.seen.Seen? && node.seen.earlier == old(node.seen) && Lookup(node.seen.state.server, n) == po
    ensures old(node.schedule) == [] ==> (node.schedule == [] && node.m.now == old(node.m).now && node.m.server == old(node.m.server))
  {
    ghost var m0 := node.m;
    ghost var read;
    po, read := node.GetPod(me);
    AfterIdleRead(read, node.m, me, n, Unpublish(t));
    NoWrite(m0, read, node.m, from, me);
    StillWithout(m0, read, me, n, t);
  }

  /** One attempt of deleteMountPod. */
  method TryDeleteMountPod(node: World, me: Tid, n: Name, t: Target, ghost from: nat, ghost h0: Sight, ghost k: nat) returns (e: Outcome)
    requires node.Good() && me in node.m.threads && node.m.threads[me] == IdleRead(n, Unpublish(t))
    requires from <= |node.m.server.log| && !Holds(node.m.server, n, t)
    requires k < 4 && StampConflicts(node.seen, h0, k)
    modifies node
    ensures !e.Blocked?
    ensures node.Good() && from <= |node.m.server.log| && !Holds(node.m.server, n, t)
    ensures Stands(node.m, me, if e == Failed(Conflict) then Some(IdleRead(n, Unpublish(t))) else None)
    ensures IsTail(Mine(node.m, from, me), Mine(old(node.m), from, me), n)
    ensures e == Failed(Conflict) ==> Mine(node.m, from, me) == Mine(old(node.m), from, me)
    ensures e == Failed(Conflict) ==> StampConflicts(node.seen, h0, k + 1)
    ensures !e.Ok? && e != Failed(Conflict) ==> DeleteFails(e, node.seen, h0)
    ensures e.Ok? && Mine(node.m, from, me) == Mine(old(node.m), from, me) ==> Settled(node.seen, n)
    ensures old(node.schedule) == [] ==> e != Failed(Conflict)
    ensures old(node.schedule) == [] ==>
      (node.schedule == [] && node.m.now == old(node.m).now && (node.m.server, e) == IdleAlone(old(node.m.server), n, old(node.m).now, Thread(me)))
  {
    ghost var h1 := node.seen;
    var po := ReadIdle(node, me, n, t, from);
    ghost var h2 := node.seen;
    if po.None? || HasRef(po.value.annotations) {
      SettledAtRead(h2, n, po);
      return Ok;
    }
    e := DelayOrDelete(node, me, n, t, po.value, from);
    if !e.Ok? {
      IdleAttempt(e, node.seen, h1, h0, k);
    } else if Mine(node.m, from, me) == Mine(old(node.m), from, me) {
      SettledAfter(node.seen, h2, n, po.value);
    }
  }

  method DelayOrDelete(node: World, me: Tid, n: Name, t: Target, po: Pod, ghost from: nat) returns (e: Outcome)
    requires node.Good() && me in node.m.threads && node.m.threads[me] == IdleDecide(n, po, Unpublish(t))
    requires from <= |node.m.server.log|
    modifies node
    ensures !e.Blocked?
    ensures node.Good() && from <= |node.m.server.log| && !Holds(node.m.server, n, t)
    ensures Stands(node.m, me, if e == Failed(Conflict) then Some(IdleRead(n, Unpublish(t))) else None)
    ensures IsTail(Mine(node.m, from, me), Mine(old(node.m), from, me), n)
    ensures e == Failed(Conflict) ==> Mine(node.m, from, me) == Mine(old(node.m), from, me)
    ensures !e.Ok? ==>
      && node.seen.Seen? && node.seen.earlier.Seen? && node.seen.earlier.earlier == old(node.seen)
      && e == Failed(node.seen.answer) && (node.seen.answer.NotFound? || node.seen.answer.Conflict?)
    ensures e.Ok? && Mine(node.m, from, me) == Mine(old(node.m), from, me) ==>
      && node.seen.Seen?
      && (DeletingAt(node.seen.state, n)
          || (node.seen.earlier == old(node.seen) && ShouldDelay(po.annotations, node.seen.state.now).Wait?))
    ensures old(node.schedule) == [] ==>
      (node.schedule == [] && node.m.now == old(node.m).now && (node.m.server, e) == TailAlone(old(node.m.server), n, po, old(node.m).now, Thread(me)))
  {
    var shouldDelay, err, _ := ShouldDelayPod(node, me, n, po, Unpublish(t), from);
    if !shouldDelay {
      e := DeleteIdle(node, me, n, Unpublish(t), from);
    } else {
      e := err;
    }
  }

  /** Dropping the reference under any pattern of conflicts: at most one write, and it is a set removal from
      the stored pod; on success the reference is gone, on failure nothing was written. */
  method DropRef(node: World, me: Tid, n: Name, t: Target, ghost from: nat) returns (e: Outcome)
    requires node.Good() && me in node.m.threads && node.m.threads[me] == DropRead(n, t)
    requires from <= |node.m.server.log| && Mine(node.m, from, me) == []
    modifies node
    ensures !e.Blocked?
    ensures node.Good() && from <= |node.m.server.log|
    ensures Stands(node.m, me, if e.Ok? then Some(DropRecheck(n, t)) else None)
    ensures e.Ok? ==> !Holds(node.m.server, n, t)
    ensures var w := Mine(node.m, from, me); w == [] || (e.Ok? && |w| == 1 && IsRemove(w[0], n, t))
    ensures e.Ok? ==> Since(node.seen, old(node.seen))
    ensures !e.Ok? ==> FailsLate(e, node.seen, old(node.seen), n) && !e.Terminating?
    ensures old(node.schedule) == [] ==>
      (node.schedule == [] && node.m.now == old(node.m).now && (node.m.server, e) == DropRefAlone(old(node.m.server), n, t, Thread(me)))
  {
    ghost var h0, m0, alone := node.seen, node.m, node.schedule == [];
    for i := 0 to BACKOFF_STEPS
      invariant node.Good() && me in node.m.threads && node.m.threads[me] == DropRead(n, t)
      invariant from <= |node.m.server.log| && Mine(node.m, from, me) == []
      invariant alone ==> i == 0 && node.schedule == [] && node.m == m0
      invariant Conflicts(node.seen, h0, i)
    {
      e := TryDropRef(node, me, n, t, from, h0, i);
      if e != Failed(Conflict) {
        return;
      }
      assert !alone;
    }
    node.GiveUp(me);
    return Failed(Conflict);
  }

  /** deleteMountPod: any conflicts it meets, it writes at most once, a stamp or a mark of an idle pod; it leaves
      that out only when it fails or finds the pod settled. */
  method DeleteMountPod(node: World, me: Tid, n: Name, t: Target, ghost from: nat) returns (e: Outcome)
    requires node.Good() && me in node.m.threads && node.m.threads[me] == IdleRead(n, Unpublish(t))
    requires from <= |node.m.server.log| && !Holds(node.m.server, n, t)
    modifies node
    ensures !e.Blocked?
    ensures node.Good() && from <= |node.m.server.log| && !Holds(node.m.server, n, t) && Stands(node.m, me, None)
    ensures IsTail(Mine(node.m, from, me), Mine(old(node.m), from, me), n)
    ensures !e.Ok? ==> DeleteFails(e, node.seen, old(node.seen))
    ensures e.Ok? && Mine(node.m, from, me) == Mine(old(node.m), from, me) ==> Settled(node.seen, n)
    ensures old(node.schedule) == [] ==>
      (node.schedule == [] && node.m.now == old(node.m).now && (node.m.server, e) == IdleAlone(old(node.m.server), n, old(node.m).now, Thread(me)))
  {
    ghost var w0 := Mine(node.m, from, me);
    ghost var h0, m0, alone := node.seen, node.m, node.schedule == [];
    for i := 0 to BACKOFF_STEPS
      invariant node.Good() && me in node.m.threads && node.m.threads[me] == IdleRead(n, Unpublish(t))
      invariant from <= |node.m.server.log| && Mine(node.m, from, me) == w0 && !Holds(node.m.server, n, t)
      invariant alone ==> i == 0 && node.schedule == [] && node.m == m0
      invariant StampConflicts(node.seen, h0, i)
    {
      e := TryDeleteMountPod(node, me, n, t, from, h0, i);
      if e != Failed(Conflict) {
        return;
      }
      assert !alone;
    }
    node.GiveUp(me);
    return Failed(Conflict);
  }

  /** An unpublish removes its reference at most once, and writes nothing else to a referenced pod. */
  ghost predicate DropWrites(w: seq<Write>, n: Name, t: Target) {
    IsTail(w, [], n) || (w != [] && IsRemove(w[0], n, t) && IsTail(w, w[..1], n))
  }

  /** The last write stamps or marks the pod. */
  ghost predicate Tailed(w: seq<Write>, n: Name) {
    w != [] && var last := w[|w| - 1]; IsMark(last, n) || exists k :: IsStamp(last, n, k)
  }

  lemma TailOfDrop(w: seq<Write>, w0: seq<Write>, n: Name, t: Target)
    requires IsTail(w, w0, n) && (w0 == [] || (|w0| == 1 && IsRemove(w0[0], n, t)))
    ensures DropWrites(w, n, t) && (w != w0 ==> Tailed(w, n))
  {
  }

  /** Why an unpublish failed: dropping the reference did, or after that, from `h1` on, deleteMountPod did. */
  ghost predicate UnpublishFails(e: Outcome, h: Sight, h0: Sight, n: Name) {
    (FailsLate(e, h, h0, n) && !e.Terminating?) || exists h1 :: Since(h1, h0) && DeleteFails(e, h, h1)
  }

  /** Removal and, when no reference is left, deletion or its delay. Success means the reference is gone, and the
      pod was stamped or marked unless it was settled; it fails only for the reasons `UnpublishFails` names. */
  method JUmount(node: World, me: Tid, n: Name, t: Target) returns (e: Outcome)
    requires node.Good() && me in node.m.threads && node.m.threads[me] == DropLock(n, t)
    modifies node
    ensures node.Good() && |old(node.m.server.log)| <= |node.m.server.log|
    ensures Stands(node.m, me, if e.Blocked? then Some(DropLock(n, t)) else None)
    ensures e.Ok? ==> !Holds(node.m.server, n, t)
    ensures DropWrites(Mine(node.m, |old(node.m.server.log)|, me), n, t)
    ensures e.Blocked? ==> NotGranted(node.seen, old(node.seen), n)
    ensures !e.Ok? && !e.Blocked? ==>
      exists lock, read :: Granted(lock, n) && UnpublishFails(e, node.seen, Seen(Seen(old(node.seen), lock, Accepted), read, Accepted), n)
    ensures e.Ok? ==> Settled(node.seen, n) || Tailed(Mine(node.m, |old(node.m.server.log)|, me), n)
    ensures old(node.schedule) == [] && !e.Blocked? ==>
      (node.m.server, e) == DropAlone(old(node.m.server), n, t, old(node.m).now, Thread(me))
    ensures old(node.schedule) == [] ==> (e.Blocked? <==> !Granted(old(node.m), n))
  {
    ghost var m0 := node.m;
    ghost var from := |m0.server.log|;
    var held, locked := node.Lock(me);
    NoWrite(m0, locked, node.m, from, me);
    if !held {
      return Blocked;
    }
    e := DropAndDelete(node, me, n, t, from);
  }

  method DropAndDelete(node: World, me: Tid, n: Name, t: Target, ghost from: nat) returns (e: Outcome)
    requires node.Good() && me in node.m.threads && node.m.threads[me] == DropStart(n, t)
    requires from <= |node.m.server.log| && Mine(node.m, from, me) == []
    modifies node
    ensures node.Good() && from <= |node.m.server.log| && Stands(node.m, me, None) && !e.Blocked?
    ensures e.Ok? ==> !Holds(node.m.server, n, t)
    ensures DropWrites(Mine(node.m, from, me), n, t)
    ensures !e.Ok? ==> exists read :: UnpublishFails(e, node.seen, Seen(old(node.seen), read, Accepted), n)
    ensures e.Ok? ==> Settled(node.seen, n) || Tailed(Mine(node.m, from, me), n)
    ensures old(node.schedule) == [] ==>
      (node.schedule == [] && node.m.now == old(node.m).now && (node.m.server, e) == DropAlone(old(node.m.server), n, t, old(node.m).now, Thread(me)))
  {
    ghost var m0 := node.m;
    var pod, read := node.GetPod(me);
    AfterDropStart(read, node.m, me, n, t);
    NoWrite(m0, read, node.m, from, me);
    if pod.None? {
      return Ok;
    }
    e := DropThenDelete(node, me, n, t, from);
  }

  method DropThenDelete(node: World, me: Tid, n: Name, t: Target, ghost from: nat) returns (e: Outcome)
    requires node.Good() && me in node.m.threads && node.m.threads[me] == DropRead(n, t)
    requires from <= |node.m.server.log| && Mine(node.m, from, me) == []
    modifies node
    ensures node.Good() && from <= |node.m.server.log| && Stands(node.m, me, None) && !e.Blocked?
    ensures e.Ok? ==> !Holds(node.m.server, n, t)
    ensures DropWrites(Mine(node.m, from, me), n, t)
    ensures !e.Ok? ==> UnpublishFails(e, node.seen, old(node.seen), n)
    ensures e.Ok? ==> Settled(node.seen, n) || Tailed(Mine(node.m, from, me), n)
    ensures old(node.schedule) == [] && n in old(node.m.server.pods) ==> (
      && node.schedule == [] && node.m.now == old(node.m).now
      && (node.m.server, e) == IdleAlone(DropRefAlone(old(node.m.server), n, t, Thread(me)).0, n, old(node.m).now, Thread(me)))
  {
    e := DropRef(node, me, n, t, from);
    if e.Ok? {
      e := DeleteUnused(node, me, n, t, from);
    }
  }

  method DeleteUnused(node: World, me: Tid, n: Name, t: Target, ghost from: nat) returns (e: Outcome)
    requires node.Good() && me in node.m.threads && node.m.threads[me] == DropRecheck(n, t)
    requires from <= |node.m.server.log| && !Holds(node.m.server, n, t)
    requires var w := Mine(node.m, from, me); w == [] || (|w| == 1 && IsRemove(w[0], n, t))
    modifies node
    ensures node.Good() && from <= |node.m.server.log| && Stands(node.m, me, None)
    ensures !Holds(node.m.server, n, t)
    ensures DropWrites(Mine(node.m, from, me), n, t)
    ensures !e.Blocked?
    ensures !e.Ok? ==> exists read :: DeleteFails(e, node.seen, Seen(old(node.seen), read, Accepted))
    ensures e.Ok? ==> Settled(node.seen, n) || Tailed(Mine(node.m, from, me), n)
    ensures old(node.schedule) == [] ==>
      (node.schedule == [] && node.m.now == old(node.m).now && (node.m.server, e) == IdleAlone(old(node.m.server), n, old(node.m).now, Thread(me)))
  {
    ghost var m0 := node.m;
    var newPod, read := node.GetPod(me);
    AfterDropRecheck(read, node.m, me, n, t);
    NoWrite(m0, read, node.m, from, me);
    StillWithout(m0, read, me, n, t);
    if newPod.Some? && !HasRef(newPod.value.annotations) {
      e := DeleteMountPod(node, me, n, t, from);
    } else {
      e := Ok;
    }
    TailOfDrop(Mine(node.m, from, me), Mine(m0, from, me), n, t);
  }
}
