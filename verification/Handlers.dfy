/** podDeletedHandler and podErrorHandler: deleting a mount pod's remains and creating it again. */
module Handlers {
  import opened Wrappers
  import opened Pods
  import opened ApiServer
  import opened Machine
  import opened Invariant
  import opened Command
  import opened Node
  import opened IdleTail

  /** The write takes the driver's finalizer off the very pod the handler was given. */
  ghost predicate IsRelease(w: Write, n: Name, pod: Pod) {
    w.name == n && w.prev == Some(pod) && w.pod == pod.(finalizers := pod.finalizers - {FINALIZER}, version := w.pod.version)
  }

  /** The write creates the pod again, with all its annotations and the finalizer. */
  ghost predicate IsRecreation(w: Write, n: Name, pod: Pod) {
    && w.name == n && w.prev.None?
    && w.pod.annotations == pod.annotations && w.pod.labels == pod.labels && w.pod.containers == pod.containers
    && w.pod.finalizers == {FINALIZER} && !w.pod.deleting
  }

  /** The write adds the old pod's references to a pod created elsewhere and changes nothing else. */
  ghost predicate IsMerge(w: Write, n: Name, pod: Pod) {
    && w.name == n && w.prev.Some?
    && (var o, a := w.prev.value, w.pod.annotations;
        && !o.deleting
        && w.pod == o.(annotations := a, version := w.pod.version)
        && Refs(a) == Refs(o.annotations) + Refs(pod.annotations)
        && forall k: Key | !k.Ref? || k.target !in Refs(pod.annotations) ::
             (k in a <==> k in o.annotations) && (k in a ==> a[k] == o.annotations[k]))
  }

  /** The handler takes the finalizer off, then at most once brings the references back. */
  ghost predicate DeletedWrites(w: seq<Write>, n: Name, pod: Pod) {
    || w == []
    || (|w| == 1 && IsRelease(w[0], n, pod))
    || (|w| == 2 && IsRelease(w[0], n, pod) && (IsRecreation(w[1], n, pod) || IsMerge(w[1], n, pod)))
  }

  /** The copy carries the stored version. */
  predicate IsStored(s: Server, n: Name, pod: Pod) {
    n in s.pods && s.pods[n].version == pod.version
  }

  // ----- podDeletedHandler

  lemma AfterUnfinalize(before: State, m': State, me: Tid, n: Name, c: Pod)
    requires me in before.threads && before.threads[me] == Unfinalize(n, c) && After(before, m', me)
    ensures Stands(m', me,
      if UpdatePod(before.server, n, Released(c), Thread(me)).1.Accepted? && Mountable(c) && HasRef(c.annotations)
      then Some(RecreateLock(n, c)) else None)
  {
  }

  lemma AfterRecreatePoll(before: State, m': State, me: Tid, n: Name, c: Pod)
    requires me in before.threads && before.threads[me] == RecreatePoll(n, c) && After(before, m', me)
    ensures Stands(m', me, Some(
      if n !in before.server.pods then RecreateCreate(n, c)
      else if before.server.pods[n].deleting then RecreatePoll(n, c)
      else MergeWrite(n, c, before.server.pods[n])))
  {
  }

  lemma AfterLastCall(before: State, m': State, me: Tid)
    requires me in before.threads && (before.threads[me].RecreateCreate? || before.threads[me].MergeWrite? || before.threads[me].StripCreate?)
    requires After(before, m', me)
    ensures Stands(m', me, None)
  {
  }

  lemma CommitMerge(before: State, me: Tid, n: Name, c: Pod, o: Pod)
    requires Inv(before) && me in before.threads && before.threads[me] == MergeWrite(n, c, o)
    requires n in before.server.pods && before.server.pods[n].version == o.version
    ensures before.server.pods[n] == o
    ensures IsMerge(Write(n, AnnotatedWith(o, Merged(o.annotations, c.annotations)).(version := |before.server.log|), Some(o), Thread(me)), n, c)
  {
    assert ThreadOk(before.server, before.volume, before.threads[me]);
    CurrentCopy(before.server, n, o);
    LoggedProper(before.server, before.volume, n, o);
    LoggedProper(before.server, before.volume, n, c);
    MergeIsUnion(o.annotations, c.annotations);
    var a := Merged(o.annotations, c.annotations);
    forall k: Key | !k.Ref? || k.target !in Refs(c.annotations)
      ensures (k in a <==> k in o.annotations) && (k in a ==> a[k] == o.annotations[k])
    {
      assert k in c.annotations ==> !IsRef(k, c.annotations[k]);
    }
  }

  /** The references of the pod, key by key. */
  method ExistTargets(a: Annotations) returns (existTargets: Annotations)
    ensures existTargets == map k | k in a && IsRef(k, a[k]) :: a[k]
  {
    existTargets := map[];
    var keys := a.Keys;
    while keys != {}
      invariant keys <= a.Keys
      invariant existTargets == map k | k in a && k !in keys && IsRef(k, a[k]) :: a[k]
    {
      var k :| k in keys;
      keys := keys - {k};
      if IsRef(k, a[k]) {
        existTargets := existTargets[k := a[k]];
      }
    }
  }

  /** How a poll ends: the old pod is still there, a pod came back with the references, or the pod created
      elsewhere was changed by someone in between. */
  datatype Poll = Waiting | Restored | Refused

  /** A pod that is gone is created again, under the lock nobody else can do so; a pod created elsewhere gets
      the references, unless it changed. Only a pod that is being deleted is waited for. */
  method PollAndRecreate(node: World, me: Tid, n: Name, pod: Pod, existTargets: Annotations, ghost from: nat, ghost w0: seq<Write>)
    returns (done: bool, ghost poll: Poll)
    requires node.Good() && me in node.m.threads && node.m.threads[me] == RecreatePoll(n, pod)
    requires existTargets == map k | k in pod.annotations && IsRef(k, pod.annotations[k]) :: pod.annotations[k]
    requires from <= |node.m.server.log| && Mine(node.m, from, me) == w0
    modifies node
    ensures node.Good() && old(node.m.server.log) <= node.m.server.log
    ensures Stands(node.m, me, if done then None else Some(RecreatePoll(n, pod))) && (done <==> !poll.Waiting?)
    ensures if poll.Restored? then Brought(Mine(node.m, from, me), w0, n, pod) else Mine(node.m, from, me) == w0
    ensures match poll
      case Waiting =>
        && node.seen.Seen? && node.seen.earlier == old(node.seen) && DeletingAt(node.seen.state, n)
        && node.schedule == Later(old(node.schedule), 1)
      case Restored => true
      case Refused => MergeRefused(node.seen, old(node.seen), n)
    ensures Calm(old(node.schedule)) && DeletingAt(old(node.m), n) ==> poll.Waiting? && node.m.server == old(node.m.server)
    ensures ReapedAt(old(node.schedule), n, 0) && Reapable(old(node.m), n) ==>
      poll.Restored? && IsRecreation(Mine(node.m, from, me)[|w0|], n, pod)
    ensures old(node.schedule) == [] ==>
      (node.schedule == [] && poll == (if n in old(node.m.server.pods) && old(node.m.server.pods)[n].deleting then Waiting else Restored))
  {
    var po := ReadOld(node, me, n, pod, from);
    if po.None? {
      CreateAgain(node, me, n, pod, from, w0);
      return true, Restored;
    }
    if po.value.deleting {
      return false, Waiting;
    }
    ghost var r := MergeInto(node, me, n, pod, po.value, existTargets, from, w0);
    return true, if r.Accepted? then Restored else Refused;
  }

  method ReadOld(node: World, me: Tid, n: Name, pod: Pod, ghost from: nat) returns (po: Option<Pod>)
    requires node.Good() && me in node.m.threads && node.m.threads[me] == RecreatePoll(n, pod)
    requires from <= |node.m.server.log|
    modifies node
    ensures node.Good() && old(node.m.server.log) <= node.m.server.log && Mine(node.m, from, me) == Mine(old(node.m), from, me)
    ensures Stands(node.m, me, Some(
      if po.None? then RecreateCreate(n, pod) else if po.value.deleting then RecreatePoll(n, pod) else MergeWrite(n, pod, po.value)))
    ensures po == Lookup(node.m.server, n) && node.schedule == Later(old(node.schedule), 1)
    ensures node.seen.Seen? && node.seen.earlier == old(node.seen) && Lookup(node.seen.state.server, n) == po
    ensures Calm(old(node.schedule)) ==> node.m.server == old(node.m.server)
    ensures ReapedAt(old(node.schedule), n, 0) && Reapable(old(node.m), n) ==> po.None?
  {
    ghost var m0, s0 := node.m, node.schedule;
    ghost var read;
    po, read := node.GetPod(me);
    AfterRecreatePoll(read, node.m, me, n, pod);
    NoWrite(m0, read, node.m, from, me);
    CalmOrReaped(m0, read, s0, n);
  }

  /** The pod was in use when polled, and gone or changed when the references were to be merged into it. */
  ghost predicate MergeRefused(h: Sight, h0: Sight, n: Name) {
    h.Seen? && !h.answer.Accepted? && h.earlier.Seen? && UsedAt(h.earlier.state, n) && h.earlier.earlier == h0
  }

  ghost predicate Brought(w: seq<Write>, w0: seq<Write>, n: Name, pod: Pod) {
    |w| == |w0| + 1 && w[..|w0|] == w0 && (IsRecreation(w[|w0|], n, pod) || IsMerge(w[|w0|], n, pod))
  }

  method CreateAgain(node: World, me: Tid, n: Name, pod: Pod, ghost from: nat, ghost w0: seq<Write>)
    requires node.Good() && me in node.m.threads && node.m.threads[me] == RecreateCreate(n, pod) && n !in node.m.server.pods
    requires from <= |node.m.server.log| && Mine(node.m, from, me) == w0
    modifies node
    ensures node.Good() && old(node.m.server.log) <= node.m.server.log && Stands(node.m, me, None)
    ensures var w := Mine(node.m, from, me); |w| == |w0| + 1 && w[..|w0|] == w0 && IsRecreation(w[|w0|], n, pod)
    ensures old(node.schedule) == [] ==> node.schedule == []
  {
    ghost var m0 := node.m;
    var newPod := Reborn(pod);
    var r, before := node.CreatePod(me, newPod);
    StillWithout(m0, before, me, n, "");
    AfterLastCall(before, node.m, me);
    OneWrite(m0, before, node.m, from, me, n, newPod.(deleting := false, status := Status(false, false, false)));
  }

  method MergeInto(node: World, me: Tid, n: Name, pod: Pod, po: Pod, existTargets: Annotations, ghost from: nat, ghost w0: seq<Write>)
    returns (ghost r: Reply)
    requires node.Good() && me in node.m.threads && node.m.threads[me] == MergeWrite(n, pod, po)
    requires existTargets == map k | k in pod.annotations && IsRef(k, pod.annotations[k]) :: pod.annotations[k]
    requires from <= |node.m.server.log| && Mine(node.m, from, me) == w0
    modifies node
    ensures node.Good() && old(node.m.server.log) <= node.m.server.log && Stands(node.m, me, None)
    ensures var w := Mine(node.m, from, me);
      if r.Accepted? then |w| == |w0| + 1 && w[..|w0|] == w0 && IsMerge(w[|w0|], n, pod) else w == w0
    ensures node.seen.Seen? && node.seen.earlier == old(node.seen) && node.seen.answer == r
    ensures old(node.schedule) == [] ==>
      (node.schedule == [] && r == UpdatePod(old(node.m.server), n, AnnotatedWith(po, po.annotations + existTargets), Thread(me)).1)
  {
    ghost var m0 := node.m;
    var merged := AnnotatedWith(po, po.annotations + existTargets);
    var reply, before := node.UpdatePod(me, merged);
    r := reply;
    AfterLastCall(before, node.m, me);
    if reply.Accepted? {
      CommitMerge(before, me, n, pod, po);
      OneWrite(m0, before, node.m, from, me, n, merged);
    } else {
      NoWrite(m0, before, node.m, from, me);
    }
  }

  /** Success means the references are back, unless the merge was refused: its error is not reported. Without
      success all 120 polls found the old pod being deleted; a pod that only has to be removed comes back. */
  method Recreate(node: World, me: Tid, n: Name, pod: Pod, existTargets: Annotations, ghost from: nat, ghost w0: seq<Write>, ghost j: nat)
    returns (e: Outcome, ghost refused: bool)
    requires node.Good() && me in node.m.threads && node.m.threads[me] == RecreateLock(n, pod)
    requires existTargets == map k | k in pod.annotations && IsRef(k, pod.annotations[k]) :: pod.annotations[k]
    requires from <= |node.m.server.log| && Mine(node.m, from, me) == w0
    modifies node
    ensures node.Good() && old(node.m.server.log) <= node.m.server.log
    ensures Stands(node.m, me, if e.Blocked? then Some(RecreateLock(n, pod)) else None)
    ensures if e.Ok? && !refused then Brought(Mine(node.m, from, me), w0, n, pod) else Mine(node.m, from, me) == w0
    ensures RecreateEnds(e, refused, node.seen, old(node.seen), n)
    ensures ReapedAt(old(node.schedule), n, j) && 1 <= j <= 120 && Reapable(old(node.m), n) && Granted(old(node.m), n) ==>
      e.Ok? && !refused && IsRecreation(Mine(node.m, from, me)[|w0|], n, pod)
    ensures old(node.schedule) == [] ==> !refused
    ensures old(node.schedule) == [] && DeletingAt(old(node.m), n) ==>
      node.m.server == old(node.m.server) && e == if Granted(old(node.m), n) then Terminating else Blocked
  {
    ghost var m0, h0, s0 := node.m, node.seen, node.schedule;
    refused := false;
    var held, locked := node.Lock(me);
    NoWrite(m0, locked, node.m, from, me);
    if !held {
      return Blocked, false;
    }
    e, refused := PollUntilGone(node, me, n, pod, existTargets, from, w0, if j > 0 then j - 1 else 0);
    if j > 0 && ReapedAt(s0, n, j) {
      ReapedLater(s0, n, j);
    }
  }

  /** How recreation ends: without the lock, after 120 polls, or with a merge that was refused. */
  ghost predicate RecreateEnds(e: Outcome, refused: bool, h: Sight, h0: Sight, n: Name) {
    && (e.Blocked? ==> NotGranted(h, h0, n))
    && (e.Terminating? ==> exists lock :: Granted(lock, n) && DeletingThroughout(h, Seen(h0, lock, Accepted), n))
    && (refused ==> e.Ok? && exists h1 :: MergeRefused(h, h1, n))
    && !e.Failed?
  }

  /** Poll number `i`; `reaped` when all that happens is that the pod goes before poll `j`. */
  method PollOld(node: World, me: Tid, n: Name, pod: Pod, existTargets: Annotations, ghost from: nat, ghost w0: seq<Write>,
                 ghost i: nat, ghost j: nat, ghost reaped: bool, ghost h0: Sight, ghost s0: seq<seq<Step>>)
    returns (done: bool, ghost refused: bool)
    requires node.Good() && me in node.m.threads && node.m.threads[me] == RecreatePoll(n, pod)
    requires existTargets == map k | k in pod.annotations && IsRef(k, pod.annotations[k]) :: pod.annotations[k]
    requires from <= |node.m.server.log| && Mine(node.m, from, me) == w0
    requires AllDeleting(node.seen, h0, n) && node.schedule == Later(s0, i)
    requires reaped ==> ReapedAt(s0, n, j) && i <= j && Reapable(node.m, n)
    modifies node
    ensures node.Good() && old(node.m.server.log) <= node.m.server.log
    ensures Stands(node.m, me, if done then None else Some(RecreatePoll(n, pod)))
    ensures if done && !refused then Brought(Mine(node.m, from, me), w0, n, pod) else Mine(node.m, from, me) == w0
    ensures refused ==> done && s0 != [] && exists h1 :: MergeRefused(node.seen, h1, n)
    ensures !done ==>
      AllDeleting(node.seen, h0, n) && Count(node.seen) == old(Count(node.seen)) + 1 && node.schedule == Later(s0, i + 1)
    ensures reaped ==>
      if done then !refused && IsRecreation(Mine(node.m, from, me)[|w0|], n, pod) else i < j && node.m.server == old(node.m.server)
    ensures s0 == [] && DeletingAt(old(node.m), n) ==> !done && node.m.server == old(node.m.server)
  {
    LaterOn(s0, i);
    if reaped {
      ReapedThen(s0, n, j, i);
    }
    ghost var poll;
    done, poll := PollAndRecreate(node, me, n, pod, existTargets, from, w0);
    refused := poll.Refused?;
  }

  method PollUntilGone(node: World, me: Tid, n: Name, pod: Pod, existTargets: Annotations, ghost from: nat, ghost w0: seq<Write>, ghost j: nat)
    returns (e: Outcome, ghost refused: bool)
    requires node.Good() && me in node.m.threads && node.m.threads[me] == RecreatePoll(n, pod)
    requires existTargets == map k | k in pod.annotations && IsRef(k, pod.annotations[k]) :: pod.annotations[k]
    requires from <= |node.m.server.log| && Mine(node.m, from, me) == w0
    modifies node
    ensures node.Good() && old(node.m.server.log) <= node.m.server.log && Stands(node.m, me, None)
    ensures if e.Ok? && !refused then Brought(Mine(node.m, from, me), w0, n, pod) else Mine(node.m, from, me) == w0
    ensures e.Ok? || (e.Terminating? && !refused && DeletingThroughout(node.seen, old(node.seen), n))
    ensures refused ==> exists h1 :: MergeRefused(node.seen, h1, n)
    ensures ReapedAt(old(node.schedule), n, j) && j < 120 && Reapable(old(node.m), n) ==>
      e.Ok? && !refused && IsRecreation(Mine(node.m, from, me)[|w0|], n, pod)
    ensures old(node.schedule) == [] ==> !refused
    ensures old(node.schedule) == [] && DeletingAt(old(node.m), n) ==> e.Terminating? && node.m.server == old(node.m.server)
  {
    ghost var h0, s0, server := node.seen, node.schedule, node.m.server;
    ghost var reaped := ReapedAt(s0, n, j) && j < 120 && Reapable(node.m, n);
    for i := 0 to POLLS
      invariant node.Good() && me in node.m.threads && node.m.threads[me] == RecreatePoll(n, pod)
      invariant server.log <= node.m.server.log && Mine(node.m, from, me) == w0
      invariant reaped || (s0 == [] && n in server.pods && server.pods[n].deleting) ==> node.m.server == server
      invariant AllDeleting(node.seen, h0, n) && Count(node.seen) == Count(h0) + i && node.schedule == Later(s0, i) && (reaped ==> i <= j)
    {
      var done;
      done, refused := PollOld(node, me, n, pod, existTargets, from, w0, i, j, reaped, h0, s0);
      if done {
        return Ok, refused;
      }
    }
    node.GiveUp(me);
    return Terminating, false;
  }

  lemma CommitRelease(before: State, me: Tid, n: Name, c: Pod)
    requires Inv(before) && me in before.threads && (before.threads[me] == Unfinalize(n, c) || before.threads[me] == StripUnfinalize(n, c))
    requires n in before.server.pods && before.server.pods[n].version == c.version
    ensures before.server.pods[n] == c
    ensures IsRelease(Write(n, Released(c).(version := |before.server.log|), Some(c), Thread(me)), n, c)
  {
  }

  method ReleaseDeleted(node: World, me: Tid, n: Name, pod: Pod, ghost from: nat) returns (e: Outcome)
    requires node.Good() && me in node.m.threads && node.m.threads[me] == Unfinalize(n, pod)
    requires from <= |node.m.server.log| && Mine(node.m, from, me) == []
    modifies node
    ensures !e.Blocked? && node.Good() && old(node.m.server.log) <= node.m.server.log
    ensures Stands(node.m, me, if e.Ok? && Mountable(pod) && HasRef(pod.annotations) then Some(RecreateLock(n, pod)) else None)
    ensures var w := Mine(node.m, from, me); if e.Ok? then |w| == 1 && IsRelease(w[0], n, pod) else w == []
    ensures node.seen.Seen? && node.seen.earlier == old(node.seen)
    ensures e == if node.seen.answer.Accepted? then Ok else Failed(node.seen.answer)
    ensures node.schedule == Later(old(node.schedule), 1)
    ensures Calm(old(node.schedule)) ==>
      && (node.m.server, e) == Answer(UpdatePod(old(node.m.server), n, pod.(finalizers := pod.finalizers - {FINALIZER}), Thread(me)))
      && (Granted(old(node.m), n) <==> Granted(node.m, n))
  {
    ghost var m0 := node.m;
    var released := pod.(finalizers := pod.finalizers - {FINALIZER});
    var r, before := node.UpdatePod(me, released);
    AfterUnfinalize(before, node.m, me, n, pod);
    if r.Accepted? {
      CommitRelease(before, me, n, pod);
      OneWrite(m0, before, node.m, from, me, n, released);
      return Ok;
    }
    NoWrite(m0, before, node.m, from, me);
    return Failed(r);
  }

  lemma BroughtBack(w: seq<Write>, w0: seq<Write>, n: Name, pod: Pod)
    requires |w0| == 1 && IsRelease(w0[0], n, pod)
    requires w == w0 || Brought(w, w0, n, pod)
    ensures DeletedWrites(w, n, pod) && (Brought(w, w0, n, pod) ==> |w| == 2)
  {
  }

  /** The handler has references to bring back. */
  predicate ToRestore(pod: Pod) {
    && FINALIZER in pod.finalizers && !pod.status.resourceError && Refs(pod.annotations) != {}
    && |pod.containers| > 0 && MountPathOfCommand(pod.containers[0].command).Some?
  }

  /** The handler left to itself: it releases the pod, and waits in vain for it to go if references are to come back. */
  function DeletedAlone(s: Server, n: Name, pod: Pod, me: Writer, granted: bool): (Server, Outcome) {
    if FINALIZER !in pod.finalizers || pod.status.resourceError then (s, Ok)
    else
      var (s', e) := Answer(UpdatePod(s, n, pod.(finalizers := pod.finalizers - {FINALIZER}), me));
      (s', if !e.Ok? || !ToRestore(pod) then e else if granted then Terminating else Blocked)
  }

  /** How the handler ends when it has something to do: the release is not accepted, there is nothing to bring
      back, or recreation ends. */
  ghost predicate DeletedEnds(e: Outcome, refused: bool, h: Sight, h0: Sight, n: Name, pod: Pod) {
    if e.Failed? then h.Seen? && h.earlier == h0 && h.answer == e.reply && !h.answer.Accepted?
    else if !ToRestore(pod) then e.Ok? && !refused
    else exists release :: RecreateEnds(e, refused, h, Seen(h0, release, Accepted), n)
  }

  /** The pod is stored as the handler knows it, only its finalizer keeps it, the lock is free, and all the others
      do is to remove it, before call `j` of the handler. */
  ghost predicate RemovedAfterRelease(m: State, schedule: seq<seq<Step>>, n: Name, pod: Pod, j: nat) {
    IsStored(m.server, n, pod) && pod.finalizers == {FINALIZER} && Granted(m, n) && ReapedAt(schedule, n, j)
  }

  /** Whatever the polls see: at most one pod comes back, it stores the old references, and nothing of the
      pod it builds on is lost. If there are references to restore, success means that it came back, unless
      the merge was refused, and failure has a reason named by `DeletedEnds`. If all that happens otherwise is
      that the released pod is removed before one of the polls, it comes back. */
  method PodDeletedHandler(node: World, me: Tid, n: Name, pod: Pod, ghost j: nat) returns (e: Outcome, ghost refused: bool)
    requires node.Good() && me !in node.m.threads && Logged(node.m.server, n, pod) && pod.deleting
    modifies node
    ensures node.Good() && old(node.m.server.log) <= node.m.server.log
    ensures Stands(node.m, me, if e.Blocked? then Some(RecreateLock(n, pod)) else None)
    ensures DeletedWrites(Mine(node.m, |old(node.m.server.log)|, me), n, pod)
    ensures FINALIZER !in pod.finalizers || pod.status.resourceError ==>
      e.Ok? && !refused && node.m == old(node.m) && node.seen == old(node.seen)
    ensures FINALIZER in pod.finalizers && !pod.status.resourceError ==>
      && DeletedEnds(e, refused, node.seen, old(node.seen), n, pod)
      && (e.Failed? <==> Mine(node.m, |old(node.m.server.log)|, me) == [])
    ensures ToRestore(pod) && e.Ok? && !refused ==> |Mine(node.m, |old(node.m.server.log)|, me)| == 2
    ensures ToRestore(pod) && RemovedAfterRelease(old(node.m), old(node.schedule), n, pod, j) && 2 <= j < 122 ==>
      var w := Mine(node.m, |old(node.m.server.log)|, me);
      e.Ok? && !refused && |w| == 2 && IsRelease(w[0], n, pod) && IsRecreation(w[1], n, pod)
    ensures old(node.schedule) == [] ==> !refused
    ensures old(node.schedule) == [] ==>
      (node.m.server, e) == DeletedAlone(old(node.m.server), n, pod, Thread(me), Granted(old(node.m), n))
  {
    ghost var from := |node.m.server.log|;
    refused := false;
    if FINALIZER !in pod.finalizers {
      return Ok, false;
    }
    if pod.status.resourceError {
      return Ok, false;
    }
    node.Start(me, Unfinalize(n, pod));
    e, refused := ReleaseAndRestore(node, me, n, pod, from, j);
  }

  method ReleaseAndRestore(node: World, me: Tid, n: Name, pod: Pod, ghost from: nat, ghost j: nat) returns (e: Outcome, ghost refused: bool)
    requires node.Good() && me in node.m.threads && node.m.threads[me] == Unfinalize(n, pod) && Logged(node.m.server, n, pod) && pod.deleting
    requires from <= |node.m.server.log| && Mine(node.m, from, me) == [] && FINALIZER in pod.finalizers && !pod.status.resourceError
    modifies node
    ensures node.Good() && old(node.m.server.log) <= node.m.server.log
    ensures Stands(node.m, me, if e.Blocked? then Some(RecreateLock(n, pod)) else None)
    ensures DeletedWrites(Mine(node.m, from, me), n, pod) && (e.Failed? <==> Mine(node.m, from, me) == [])
    ensures DeletedEnds(e, refused, node.seen, old(node.seen), n, pod)
    ensures ToRestore(pod) && e.Ok? && !refused ==> |Mine(node.m, from, me)| == 2
    ensures ToRestore(pod) && RemovedAfterRelease(old(node.m), old(node.schedule), n, pod, j) && 2 <= j < 122 ==>
      var w := Mine(node.m, from, me); e.Ok? && !refused && |w| == 2 && IsRelease(w[0], n, pod) && IsRecreation(w[1], n, pod)
    ensures old(node.schedule) == [] ==> !refused
    ensures old(node.schedule) == [] ==>
      (node.m.server, e) == DeletedAlone(old(node.m.server), n, pod, Thread(me), Granted(old(node.m), n))
  {
    refused := false;
    e := ReleaseFirst(node, me, n, pod, from, j);
    if !e.Ok? {
      return;
    }
    e, refused := RestoreReferences(node, me, n, pod, from, if j > 0 then j - 1 else 0);
  }

  method ReleaseFirst(node: World, me: Tid, n: Name, pod: Pod, ghost from: nat, ghost j: nat) returns (e: Outcome)
    requires node.Good() && me in node.m.threads && node.m.threads[me] == Unfinalize(n, pod) && Logged(node.m.server, n, pod) && pod.deleting
    requires from <= |node.m.server.log| && Mine(node.m, from, me) == [] && FINALIZER in pod.finalizers && !pod.status.resourceError
    modifies node
    ensures (e.Ok? || e.Failed?) && node.Good() && old(node.m.server.log) <= node.m.server.log
    ensures Stands(node.m, me, if e.Ok? && ToRestore(pod) then Some(RecreateLock(n, pod)) else None)
    ensures var w := Mine(node.m, from, me); if e.Ok? then |w| == 1 && IsRelease(w[0], n, pod) else w == []
    ensures node.seen.Seen? && node.seen.earlier == old(node.seen)
    ensures e == if node.seen.answer.Accepted? then Ok else Failed(node.seen.answer)
    ensures RemovedAfterRelease(old(node.m), old(node.schedule), n, pod, j) && j > 0 ==>
      e.Ok? && Reapable(node.m, n) && Granted(node.m, n) && ReapedAt(node.schedule, n, j - 1)
    ensures old(node.schedule) == [] ==>
      && node.schedule == [] && (e.Ok? ==> DeletingAt(node.m, n))
      && DeletedAlone(old(node.m.server), n, pod, Thread(me), Granted(old(node.m), n)) ==
           (node.m.server, if !e.Ok? || !ToRestore(pod) then e else if Granted(node.m, n) then Terminating else Blocked)
  {
    ghost var m0, s0 := node.m, node.schedule;
    GoodServer(node);
    ReleaseStored(m0.server, n, pod, Thread(me));
    if j > 0 && ReapedAt(s0, n, j) {
      ReapedLater(s0, n, j);
    }
    e := ReleaseDeleted(node, me, n, pod, from);
    HasRefIffRefs(pod.annotations);
    if s0 == [] {
      ReleaseAlone(m0.server, node.m.server, e, n, pod, Thread(me), Granted(m0, n));
    }
  }

  lemma ReleaseAlone(s: Server, s1: Server, e: Outcome, n: Name, pod: Pod, me: Writer, granted: bool)
    requires FINALIZER in pod.finalizers && !pod.status.resourceError
    requires (s1, e) == Answer(UpdatePod(s, n, pod.(finalizers := pod.finalizers - {FINALIZER}), me))
    ensures DeletedAlone(s, n, pod, me, granted) ==
      (s1, if !e.Ok? || !ToRestore(pod) then e else if granted then Terminating else Blocked)
  {
  }

  lemma GoodServer(node: World)
    requires node.Good()
    ensures ServerOk(node.m.server)
  {
    node.GoodInv();
  }

  lemma ReleaseStored(s: Server, n: Name, pod: Pod, me: Writer)
    requires ServerOk(s) && Logged(s, n, pod)
    ensures var (s', r) := UpdatePod(s, n, pod.(finalizers := pod.finalizers - {FINALIZER}), me);
      r.Accepted? <==> IsStored(s, n, pod)
    ensures var (s', r) := UpdatePod(s, n, pod.(finalizers := pod.finalizers - {FINALIZER}), me);
      r.Accepted? ==> n in s'.pods && s'.pods[n].deleting == pod.deleting && s'.pods[n].finalizers == pod.finalizers - {FINALIZER}
  {
    CurrentCopy(s, n, pod);
  }

  method RestoreReferences(node: World, me: Tid, n: Name, pod: Pod, ghost from: nat, ghost j: nat) returns (e: Outcome, ghost refused: bool)
    requires node.Good() && FINALIZER in pod.finalizers && !pod.status.resourceError
    requires Stands(node.m, me, if ToRestore(pod) then Some(RecreateLock(n, pod)) else None)
    requires from <= |node.m.server.log|
    requires var w := Mine(node.m, from, me); |w| == 1 && IsRelease(w[0], n, pod)
    modifies node
    ensures node.Good() && old(node.m.server.log) <= node.m.server.log
    ensures Stands(node.m, me, if e.Blocked? then Some(RecreateLock(n, pod)) else None)
    ensures DeletedWrites(Mine(node.m, from, me), n, pod) && Mine(node.m, from, me) != []
    ensures ToRestore(pod) && e.Ok? && !refused ==> |Mine(node.m, from, me)| == 2
    ensures if ToRestore(pod) then RecreateEnds(e, refused, node.seen, old(node.seen), n)
      else e.Ok? && !refused && node.m == old(node.m)
    ensures ToRestore(pod) && ReapedAt(old(node.schedule), n, j) && 1 <= j <= 120 && Reapable(old(node.m), n) && Granted(old(node.m), n) ==>
      var w := Mine(node.m, from, me); e.Ok? && !refused && |w| == 2 && IsRelease(w[0], n, pod) && IsRecreation(w[1], n, pod)
    ensures old(node.schedule) == [] ==> !refused
    ensures ToRestore(pod) && old(node.schedule) == [] && DeletingAt(old(node.m), n) ==>
      node.m.server == old(node.m.server) && e == if Granted(old(node.m), n) then Terminating else Blocked
  {
    if |pod.containers| == 0 || MountPathOfCommand(pod.containers[0].command).None? {
      return Ok, false;
    }
    var existTargets := ExistTargets(pod.annotations);
    TargetsIffRef(pod.annotations, existTargets);
    HasRefIffRefs(pod.annotations);
    if |existTargets| == 0 {
      // the mount point is cleaned up
      return Ok, false;
    }
    ghost var w0 := Mine(node.m, from, me);
    e, refused := Recreate(node, me, n, pod, existTargets, from, w0, j);
    BroughtBack(Mine(node.m, from, me), w0, n, pod);
  }

  lemma TargetsIffRef(a: Annotations, refs: Annotations)
    requires refs == map k | k in a && IsRef(k, a[k]) :: a[k]
    ensures |refs| == 0 <==> !HasRef(a)
  {
    if HasRef(a) {
      var k :| k in a && IsRef(k, a[k]);
      assert k in refs;
    }
  }

  // ----- podErrorHandler

  /** The write creates the pod again without any resource request or limit, and otherwise as it was. */
  ghost predicate IsStripped(w: Write, n: Name, pod: Pod) {
    && w.name == n && w.prev.None?
    && w.pod.annotations == pod.annotations && w.pod.labels == pod.labels
    && w.pod.finalizers == {FINALIZER} && !w.pod.deleting
    && !HasRequests(w.pod) && |w.pod.containers| == |pod.containers|
    && forall i | 0 <= i < |pod.containers| ::
         w.pod.containers[i].command == pod.containers[i].command && |w.pod.containers[i].limits| == 0
  }

  /** Finalizer, deletion mark, new pod: each at most once and in this order. */
  ghost predicate ErrorWrites(w: seq<Write>, n: Name, pod: Pod) {
    w != [] ==>
      && IsRelease(w[0], n, pod)
      && (|w| == 1
          || (|w| == 2 && (IsDeletion(w[1], n) || IsStripped(w[1], n, pod)))
          || (|w| == 3 && IsDeletion(w[1], n) && IsStripped(w[2], n, pod)))
  }

  lemma AfterStripUnfinalize(before: State, m': State, me: Tid, n: Name, c: Pod)
    requires me in before.threads && before.threads[me] == StripUnfinalize(n, c) && After(before, m', me)
    ensures Stands(m', me, if UpdatePod(before.server, n, Released(c), Thread(me)).1.Accepted? then Some(StripDelete(n, c)) else None)
  {
  }

  lemma AfterStripDelete(before: State, m': State, me: Tid, n: Name, c: Pod)
    requires me in before.threads && before.threads[me] == StripDelete(n, c) && After(before, m', me)
    ensures Stands(m', me, if n in before.server.pods then Some(StripPoll(n, c)) else None)
  {
  }

  lemma AfterStripPoll(before: State, m': State, me: Tid, n: Name, c: Pod)
    requires me in before.threads && before.threads[me] == StripPoll(n, c) && After(before, m', me)
    ensures Stands(m', me, Some(if n in before.server.pods then StripPoll(n, c) else StripCreate(n, c)))
  {
  }

  /** IsPodHasResource. */
  method HasResource(pod: Pod) returns (r: bool)
    ensures r == HasRequests(pod)
    ensures r <==> exists i | 0 <= i < |pod.containers| :: |pod.containers[i].requests| > 0
  {
    for i := 0 to |pod.containers|
      invariant forall j | 0 <= j < i :: |pod.containers[j].requests| == 0
    {
      if |pod.containers[i].requests| != 0 {
        return true;
      }
    }
    return false;
  }

  /** DeleteResourceOfPod. */
  method DeleteResources(cs: seq<Container>) returns (r: seq<Container>)
    ensures r == WithoutResources(cs)
    ensures |r| == |cs| && forall i | 0 <= i < |cs| ::
      r[i].command == cs[i].command && |r[i].requests| == 0 && |r[i].limits| == 0
  {
    r := cs;
    for i := 0 to |cs|
      invariant |r| == |cs|
      invariant forall j | 0 <= j < |cs| :: r[j] == if j < i then cs[j].(requests := map[], limits := map[]) else cs[j]
    {
      r := r[i := r[i].(requests := map[], limits := map[])];
    }
  }

  method ReleaseFailed(node: World, me: Tid, n: Name, pod: Pod, ghost from: nat) returns (ok: bool)
    requires node.Good() && me in node.m.threads && node.m.threads[me] == StripUnfinalize(n, pod)
    requires from <= |node.m.server.log| && Mine(node.m, from, me) == []
    modifies node
    ensures node.Good() && old(node.m.server.log) <= node.m.server.log
    ensures Stands(node.m, me, if ok then Some(StripDelete(n, pod)) else None)
    ensures var w := Mine(node.m, from, me); if ok then |w| == 1 && IsRelease(w[0], n, pod) else w == []
    ensures node.seen.Seen? && node.seen.earlier == old(node.seen) && (ok <==> node.seen.answer.Accepted?)
    ensures node.schedule == Later(old(node.schedule), 1)
    ensures Calm(old(node.schedule)) ==>
      (node.m.server, ok) == Went(UpdatePod(old(node.m.server), n, pod.(finalizers := pod.finalizers - {FINALIZER}), Thread(me)))
  {
    ghost var m0 := node.m;
    var released := pod.(finalizers := pod.finalizers - {FINALIZER});
    var r, before := node.UpdatePod(me, released);
    AfterStripUnfinalize(before, node.m, me, n, pod);
    if r.Accepted? {
      CommitRelease(before, me, n, pod);
      OneWrite(m0, before, node.m, from, me, n, released);
      return true;
    }
    NoWrite(m0, before, node.m, from, me);
    return false;
  }

  function Went(sr: (Server, Reply)): (Server, bool) {
    (sr.0, sr.1.Accepted?)
  }

  method DeleteFailed(node: World, me: Tid, n: Name, pod: Pod, ghost from: nat, ghost w0: seq<Write>) returns (ok: bool)
    requires node.Good() && me in node.m.threads && node.m.threads[me] == StripDelete(n, pod)
    requires from <= |node.m.server.log| && Mine(node.m, from, me) == w0
    modifies node
    ensures node.Good() && old(node.m.server.log) <= node.m.server.log
    ensures Stands(node.m, me, if ok then Some(StripPoll(n, pod)) else None)
    ensures var w := Mine(node.m, from, me); w == w0 || (ok && |w| == |w0| + 1 && w[..|w0|] == w0 && IsDeletion(w[|w0|], n))
    ensures node.seen.Seen? && node.seen.earlier == old(node.seen) && node.seen.answer == (if ok then Accepted else NotFound)
    ensures node.schedule == Later(old(node.schedule), 1)
    ensures Calm(old(node.schedule)) ==>
      && node.m.server == DeletePod(old(node.m.server), n, Thread(me)).0
      && (n in old(node.m.server.pods) ==>
            ok && DeletingAt(node.m, n) && node.m.server.pods[n].finalizers == old(node.m.server.pods)[n].finalizers)
      && (UsedAt(old(node.m), n) ==> |Mine(node.m, from, me)| == |w0| + 1)
  {
    ghost var m0 := node.m;
    var r, before := node.DeletePod(me);
    AfterStripDelete(before, node.m, me, n, pod);
    DeletionRecord(m0, before, node.m, from, me, n);
    return r.Accepted?;
  }

  method ReadFailed(node: World, me: Tid, n: Name, pod: Pod, ghost from: nat) returns (po: Option<Pod>)
    requires node.Good() && me in node.m.threads && node.m.threads[me] == StripPoll(n, pod)
    requires from <= |node.m.server.log|
    modifies node
    ensures node.Good() && old(node.m.server.log) <= node.m.server.log && Mine(node.m, from, me) == Mine(old(node.m), from, me)
    ensures Stands(node.m, me, Some(if po.None? then StripCreate(n, pod) else StripPoll(n, pod)))
    ensures po == Lookup(node.m.server, n) && node.schedule == Later(old(node.schedule), 1)
    ensures node.seen.Seen? && node.seen.earlier == old(node.seen) && (po.Some? <==> n in node.seen.state.server.pods)
    ensures Calm(old(node.schedule)) ==> node.m.server == old(node.m.server)
    ensures ReapedAt(old(node.schedule), n, 0) && Reapable(old(node.m), n) ==> po.None?
  {
    ghost var m0, s0 := node.m, node.schedule;
    ghost var read;
    po, read := node.GetPod(me);
    AfterStripPoll(read, node.m, me, n, pod);
    NoWrite(m0, read, node.m, from, me);
    CalmOrReaped(m0, read, s0, n);
  }

  /** Poll number `i`; `reaped` when all that happens is that the pod goes before poll `j`. */
  method PollFailed(node: World, me: Tid, n: Name, pod: Pod, ghost from: nat, ghost i: nat, ghost j: nat, ghost reaped: bool,
                    ghost h0: Sight, ghost s0: seq<seq<Step>>)
    returns (isDeleted: bool)
    requires node.Good() && me in node.m.threads && node.m.threads[me] == StripPoll(n, pod)
    requires from <= |node.m.server.log|
    requires AllFound(node.seen, h0, n) && Count(node.seen) == Count(h0) + i && node.schedule == Later(s0, i)
    requires reaped ==> ReapedAt(s0, n, j) && i <= j && Reapable(node.m, n)
    modifies node
    ensures node.Good() && old(node.m.server.log) <= node.m.server.log && Mine(node.m, from, me) == Mine(old(node.m), from, me)
    ensures Stands(node.m, me, Some(if isDeleted then StripCreate(n, pod) else StripPoll(n, pod)))
    ensures if isDeleted then n !in node.m.server.pods else AllFound(node.seen, h0, n) && Count(node.seen) == Count(h0) + i + 1 && node.schedule == Later(s0, i + 1)
    ensures reaped && !isDeleted ==> i < j
    ensures (reaped && !isDeleted) || s0 == [] ==> node.m.server == old(node.m.server)
  {
    LaterOn(s0, i);
    if reaped {
      ReapedThen(s0, n, j, i);
    }
    var po := ReadFailed(node, me, n, pod, from);
    return po.None?;
  }

  /** Gives up only when all 120 polls found the pod, whatever its state. */
  method AwaitDeletion(node: World, me: Tid, n: Name, pod: Pod, ghost from: nat, ghost j: nat) returns (isDeleted: bool)
    requires node.Good() && me in node.m.threads && node.m.threads[me] == StripPoll(n, pod)
    requires from <= |node.m.server.log|
    modifies node
    ensures node.Good() && old(node.m.server.log) <= node.m.server.log && Mine(node.m, from, me) == Mine(old(node.m), from, me)
    ensures Stands(node.m, me, if isDeleted then Some(StripCreate(n, pod)) else None)
    ensures if isDeleted then n !in node.m.server.pods else FoundThroughout(node.seen, old(node.seen), n)
    ensures ReapedAt(old(node.schedule), n, j) && j < 120 && Reapable(old(node.m), n) ==> isDeleted
    ensures old(node.schedule) == [] && n in old(node.m.server.pods) ==> !isDeleted && node.m.server == old(node.m.server)
  {
    ghost var h0, s0, w0, server := node.seen, node.schedule, Mine(node.m, from, me), node.m.server;
    ghost var reaped := ReapedAt(s0, n, j) && j < 120 && Reapable(node.m, n);
    for i := 0 to POLLS
      invariant node.Good() && me in node.m.threads && node.m.threads[me] == StripPoll(n, pod)
      invariant server.log <= node.m.server.log && Mine(node.m, from, me) == w0
      invariant reaped || s0 == [] ==> node.m.server == server
      invariant AllFound(node.seen, h0, n) && Count(node.seen) == Count(h0) + i && node.schedule == Later(s0, i) && (reaped ==> i <= j)
    {
      var gone := PollFailed(node, me, n, pod, from, i, j, reaped, h0, s0);
      if gone {
        return true;
      }
    }
    node.GiveUp(me);
    return false;
  }

  lemma StrippedWrite(n: Name, pod: Pod, version: nat, w: Writer)
    ensures var p := Reborn(pod).(containers := WithoutResources(pod.containers), deleting := false, status := Status(false, false, false));
      IsStripped(Write(n, p.(version := version), None, w), n, pod)
  {
  }

  method CreateStripped(node: World, me: Tid, n: Name, pod: Pod, ghost from: nat, ghost w0: seq<Write>)
    requires node.Good() && me in node.m.threads && node.m.threads[me] == StripCreate(n, pod) && n !in node.m.server.pods
    requires from <= |node.m.server.log| && Mine(node.m, from, me) == w0
    modifies node
    ensures node.Good() && old(node.m.server.log) <= node.m.server.log && Stands(node.m, me, None)
    ensures var w := Mine(node.m, from, me); |w| == |w0| + 1 && w[..|w0|] == w0 && IsStripped(w[|w0|], n, pod)
  {
    ghost var m0 := node.m;
    var containers := DeleteResources(pod.containers);
    var newPod := Reborn(pod).(containers := containers);
    var r, before := node.CreatePod(me, newPod);
    StillWithout(m0, before, me, n, "");
    AfterLastCall(before, node.m, me);
    OneWrite(m0, before, node.m, from, me, n, newPod.(deleting := false, status := Status(false, false, false)));
    StrippedWrite(n, pod, |before.server.log|, Thread(me));
  }

  /** The last write is the stripped pod. */
  ghost predicate Stripped(w: seq<Write>, n: Name, pod: Pod) {
    w != [] && IsStripped(w[|w| - 1], n, pod)
  }

  /** How a redeployment ends that has taken the finalizer off: with the new pod, with a pod gone before the
      deletion, or after 120 polls that found the pod. */
  ghost predicate RedeployEnds(recreated: bool, h: Sight, h0: Sight, n: Name) {
    || recreated
    || (h.Seen? && h.earlier == h0 && h.answer.NotFound?)
    || exists mark :: FoundThroughout(h, Seen(h0, mark, Accepted), n)
  }

  /** How the handler ends that has the lock: the release is not accepted, or it redeploys. */
  ghost predicate ErrorEnds(recreated: bool, h: Sight, h0: Sight, n: Name) {
    || (!recreated && h.Seen? && h.earlier == h0 && !h.answer.Accepted?)
    || exists release :: RedeployEnds(recreated, h, Seen(h0, release, Accepted), n)
  }

  /** The handler left to itself: it releases and marks the pod, and waits in vain for it to go. */
  function ErrorAlone(s: Server, n: Name, pod: Pod, me: Writer, granted: bool): (Server, Outcome) {
    if !pod.status.resourceError || !HasRequests(pod) then (s, Ok)
    else if !granted then (s, Blocked)
    else (RedeployAlone(s, n, pod, me), Ok)
  }

  function RedeployAlone(s: Server, n: Name, pod: Pod, me: Writer): Server {
    var (s', r) := UpdatePod(s, n, pod.(finalizers := pod.finalizers - {FINALIZER}), me);
    if r.Accepted? then DeletePod(s', n, me).0 else s'
  }

  /** A pod refused for its resources comes back at most once, without any, and otherwise as it was; if it
      does not, `ErrorEnds` names the reason. If all that happens otherwise is that the pod is removed before
      one of the polls, it comes back. A pod without requests is left alone, so the handler cannot repeat on
      what it created. */
  method PodErrorHandler(node: World, me: Tid, n: Name, pod: Pod, ghost j: nat) returns (blocked: bool, recreated: bool)
    requires node.Good() && me !in node.m.threads && Logged(node.m.server, n, pod) && !pod.deleting
    modifies node
    ensures node.Good() && old(node.m.server.log) <= node.m.server.log
    ensures Stands(node.m, me, if blocked then Some(StripLock(n, pod)) else None)
    ensures ErrorWrites(Mine(node.m, |old(node.m.server.log)|, me), n, pod)
    ensures recreated <==> Stripped(Mine(node.m, |old(node.m.server.log)|, me), n, pod)
    ensures if !pod.status.resourceError || !HasRequests(pod) then !blocked && node.m == old(node.m) && node.seen == old(node.seen)
      else if blocked then NotGranted(node.seen, old(node.seen), n)
      else exists lock :: Granted(lock, n) && ErrorEnds(recreated, node.seen, Seen(old(node.seen), lock, Accepted), n)
    ensures pod.status.resourceError && HasRequests(pod) && RemovedAfterRelease(old(node.m), old(node.schedule), n, pod, j) && 3 <= j < 123 ==>
      recreated && |Mine(node.m, |old(node.m.server.log)|, me)| == 3
    ensures old(node.schedule) == [] ==> !recreated
    ensures old(node.schedule) == [] ==>
      (node.m.server, if blocked then Blocked else Ok) == ErrorAlone(old(node.m.server), n, pod, Thread(me), Granted(old(node.m), n))
  {
    ghost var from := |node.m.server.log|;
    var hasResource := HasResource(pod);
    if !pod.status.resourceError || !hasResource {
      return false, false;
    }
    node.Start(me, StripLock(n, pod));
    blocked, recreated := LockAndRedeploy(node, me, n, pod, from, j);
  }

  method LockAndRedeploy(node: World, me: Tid, n: Name, pod: Pod, ghost from: nat, ghost j: nat) returns (blocked: bool, recreated: bool)
    requires node.Good() && me in node.m.threads && node.m.threads[me] == StripLock(n, pod) && Logged(node.m.server, n, pod) && !pod.deleting
    requires from <= |node.m.server.log| && Mine(node.m, from, me) == []
    modifies node
    ensures node.Good() && old(node.m.server.log) <= node.m.server.log
    ensures Stands(node.m, me, if blocked then Some(StripLock(n, pod)) else None)
    ensures ErrorWrites(Mine(node.m, from, me), n, pod) && (recreated <==> Stripped(Mine(node.m, from, me), n, pod))
    ensures if blocked then NotGranted(node.seen, old(node.seen), n)
      else exists lock :: Granted(lock, n) && ErrorEnds(recreated, node.seen, Seen(old(node.seen), lock, Accepted), n)
    ensures RemovedAfterRelease(old(node.m), old(node.schedule), n, pod, j) && 3 <= j < 123 ==>
      recreated && |Mine(node.m, from, me)| == 3
    ensures old(node.schedule) == [] ==> !recreated && (blocked <==> !Granted(old(node.m), n))
    ensures old(node.schedule) == [] ==>
      node.m.server == if blocked then old(node.m.server) else RedeployAlone(old(node.m.server), n, pod, Thread(me))
  {
    ghost var m0, s0 := node.m, node.schedule;
    var held, locked := node.Lock(me);
    NoWrite(m0, locked, node.m, from, me);
    if !held {
      return true, false;
    }
    if j > 0 && ReapedAt(s0, n, j) {
      ReapedLater(s0, n, j);
    }
    recreated := Redeploy(node, me, n, pod, from, if j > 0 then j - 1 else 0);
    blocked := false;
  }

  method Redeploy(node: World, me: Tid, n: Name, pod: Pod, ghost from: nat, ghost j: nat) returns (recreated: bool)
    requires node.Good() && me in node.m.threads && node.m.threads[me] == StripUnfinalize(n, pod) && Logged(node.m.server, n, pod) && !pod.deleting
    requires from <= |node.m.server.log| && Mine(node.m, from, me) == []
    modifies node
    ensures node.Good() && old(node.m.server.log) <= node.m.server.log && Stands(node.m, me, None)
    ensures ErrorWrites(Mine(node.m, from, me), n, pod) && (recreated <==> Stripped(Mine(node.m, from, me), n, pod))
    ensures ErrorEnds(recreated, node.seen, old(node.seen), n)
    ensures IsStored(old(node.m.server), n, pod) && pod.finalizers == {FINALIZER} && ReapedAt(old(node.schedule), n, j) && 2 <= j < 122 ==>
      recreated && |Mine(node.m, from, me)| == 3
    ensures old(node.schedule) == [] ==> !recreated && node.m.server == RedeployAlone(old(node.m.server), n, pod, Thread(me))
  {
    ghost var s0 := node.schedule;
    GoodServer(node);
    ReleaseStored(node.m.server, n, pod, Thread(me));
    if j > 0 && ReapedAt(s0, n, j) {
      ReapedLater(s0, n, j);
    }
    var ok := ReleaseFailed(node, me, n, pod, from);
    if !ok {
      return false;
    }
    recreated := DeleteAndRecreate(node, me, n, pod, from, Mine(node.m, from, me), if j > 0 then j - 1 else 0);
  }

  method DeleteAndRecreate(node: World, me: Tid, n: Name, pod: Pod, ghost from: nat, ghost w1: seq<Write>, ghost j: nat) returns (recreated: bool)
    requires node.Good() && me in node.m.threads && node.m.threads[me] == StripDelete(n, pod)
    requires from <= |node.m.server.log| && Mine(node.m, from, me) == w1 && |w1| == 1 && IsRelease(w1[0], n, pod)
    modifies node
    ensures node.Good() && old(node.m.server.log) <= node.m.server.log && Stands(node.m, me, None)
    ensures ErrorWrites(Mine(node.m, from, me), n, pod) && (recreated <==> Stripped(Mine(node.m, from, me), n, pod))
    ensures RedeployEnds(recreated, node.seen, old(node.seen), n)
    ensures UsedAt(old(node.m), n) && old(node.m.server.pods)[n].finalizers == {} && ReapedAt(old(node.schedule), n, j) && 1 <= j < 121 ==>
      recreated && |Mine(node.m, from, me)| == 3
    ensures old(node.schedule) == [] && n in old(node.m.server.pods) ==>
      !recreated && node.m.server == DeletePod(old(node.m.server), n, Thread(me)).0
  {
    ghost var s0 := node.schedule;
    ghost var reaped := j > 0 && ReapedAt(s0, n, j);
    if reaped {
      ReapedLater(s0, n, j);
    }
    var ok := DeleteFailed(node, me, n, pod, from, w1);
    ghost var w2 := Mine(node.m, from, me);
    ghost var h1 := node.seen;
    recreated := false;
    if ok {
      recreated := RecreateStripped(node, me, n, pod, from, w2, if j > 0 then j - 1 else 0);
      RedeployNamed(recreated, node.seen, h1, n);
    }
    InOrder(Mine(node.m, from, me), w1, w2, n, pod);
  }

  lemma RedeployNamed(recreated: bool, h: Sight, h1: Sight, n: Name)
    requires h1.Seen? && h1.answer.Accepted? && (recreated || FoundThroughout(h, h1, n))
    ensures RedeployEnds(recreated, h, h1.earlier, n)
  {
    assert h1 == Seen(h1.earlier, h1.state, Accepted);
  }

  lemma InOrder(w: seq<Write>, w1: seq<Write>, w2: seq<Write>, n: Name, pod: Pod)
    requires |w1| == 1 && IsRelease(w1[0], n, pod)
    requires w2 == w1 || (|w2| == 2 && w2[..1] == w1 && IsDeletion(w2[1], n))
    requires w == w2 || (|w| == |w2| + 1 && w[..|w2|] == w2 && IsStripped(w[|w2|], n, pod))
    ensures ErrorWrites(w, n, pod) && (Stripped(w, n, pod) <==> w != w2)
  {
  }

  method RecreateStripped(node: World, me: Tid, n: Name, pod: Pod, ghost from: nat, ghost w0: seq<Write>, ghost j: nat) returns (recreated: bool)
    requires node.Good() && me in node.m.threads && node.m.threads[me] == StripPoll(n, pod)
    requires from <= |node.m.server.log| && Mine(node.m, from, me) == w0
    modifies node
    ensures node.Good() && old(node.m.server.log) <= node.m.server.log && Stands(node.m, me, None)
    ensures var w := Mine(node.m, from, me);
      if recreated then |w| == |w0| + 1 && w[..|w0|] == w0 && IsStripped(w[|w0|], n, pod) else w == w0
    ensures !recreated ==> FoundThroughout(node.seen, old(node.seen), n)
    ensures ReapedAt(old(node.schedule), n, j) && j < 120 && Reapable(old(node.m), n) ==> recreated
    ensures old(node.schedule) == [] && n in old(node.m.server.pods) ==> !recreated && node.m.server == old(node.m.server)
  {
    recreated := AwaitDeletion(node, me, n, pod, from, j);
    if recreated {
      CreateStripped(node, me, n, pod, from, w0);
    }
  }
}
