/** One Run of the reconciler on one mount pod. */
module Reconciler {
  import opened Wrappers
  import opened Pods
  import opened ApiServer
  import opened Machine
  import opened Node
  import opened PodDriver
  import opened Handlers
  import opened Kernel
  import Command
  import MountInfo
  import MountTable

  datatype PodStatus = PodReady | PodError | PodDeleted | PodPending

  function GetPodStatus(pod: Pod): PodStatus {
    if pod.deleting then PodDeleted
    else if pod.status.error then PodError
    else if pod.status.ready then PodReady
    else PodPending
  }

  /** What the handler chosen for `pod` wrote, how it ended, and why. Ready and pending pods are not written. */
  ghost predicate Handled(w: seq<Write>, e: Outcome, h: Sight, h0: Sight, n: Name, pod: Pod) {
    match GetPodStatus(pod)
    case PodDeleted => DeletedWrites(w, n, pod) && HandledDeleted(w, e, h, h0, n, pod)
    case PodError => ErrorWrites(w, n, pod) && HandledError(w, e, h, h0, n, pod)
    case _ => w == [] && e.Ok? && h == h0
  }

  ghost predicate HandledDeleted(w: seq<Write>, e: Outcome, h: Sight, h0: Sight, n: Name, pod: Pod) {
    if FINALIZER !in pod.finalizers || pod.status.resourceError then w == [] && e.Ok? && h == h0
    else
      && (e.Failed? <==> w == [])
      && exists refused ::
           DeletedEnds(e, refused, h, h0, n, pod) && (ToRestore(pod) && e.Ok? && !refused ==> |w| == 2)
  }

  ghost predicate HandledError(w: seq<Write>, e: Outcome, h: Sight, h0: Sight, n: Name, pod: Pod) {
    if !pod.status.resourceError || !HasRequests(pod) then w == [] && e.Ok? && h == h0
    else if e.Blocked? then NotGranted(h, h0, n)
    else e.Ok? && exists lock :: Granted(lock, n) && ErrorEnds(Stripped(w, n, pod), h, Seen(h0, lock, Accepted), n)
  }

  /** What becomes of the server when nobody else acts while the handler runs. */
  function HandleAlone(s: Server, n: Name, pod: Pod, me: Writer, granted: bool): (Server, Outcome) {
    match GetPodStatus(pod)
    case PodDeleted => DeletedAlone(s, n, pod, me, granted)
    case PodError => ErrorAlone(s, n, pod, me, granted)
    case _ => (s, Ok)
  }

  /** A Run left to itself: the check, with its retry, then the handler on the copy fetched anew if it is to
      write. `granted` is whether that one finds the lock free. */
  function RunAlone(s: Server, n: Name, pod: Pod, table: Liveness, now: int, me: Writer, granted: bool): (Server, Outcome) {
    var (s', e) := CheckTwiceAlone(s, n, pod, table, now, me);
    if e.Ok? then RestAlone(s', n, CheckedAlone(s, n, pod, table, now, me), me, granted) else (s', e)
  }

  function RestAlone(s: Server, n: Name, current: Pod, me: Writer, granted: bool): (Server, Outcome) {
    if GetPodStatus(current).PodDeleted? || GetPodStatus(current).PodError? then FetchedAlone(s, n, me, granted) else (s, Ok)
  }

  function FetchedAlone(s: Server, n: Name, me: Writer, granted: bool): (Server, Outcome) {
    if n in s.pods then HandleAlone(s, n, s.pods[n], me, granted) else (s, Failed(NotFound))
  }

  /** GetMountPathOfPod. */
  function MountPathOf(pod: Pod): Option<string> {
    if !Mountable(pod) then None else Some(Command.MountPathOfCommand(pod.containers[0].command).value.0)
  }

  /** What Run does to the node's mounts: for a ready pod, podReadyHandler's rounds on the references in `a`. */
  ghost predicate Recovers(before: map<string, seq<string>>, after: map<string, seq<string>>, pod: Pod, a: Annotations,
                           mis: seq<MountInfo.Entry>, deletedPods: map<string, bool>, readable: bool, system: System, order: seq<Target>)
  {
    if GetPodStatus(pod).PodReady? && MountPathOf(pod).Some? && readable then
      Lists(order, Refs(a)) && Ready(before, after, order, MountPathOf(pod).value, mis, deletedPods, system)
    else after == before
  }

  /** The same for a whole Run: the pod is the one the handler fetched, or the checked one as the check pruned it. */
  ghost predicate RunRecovers(before: map<string, seq<string>>, after: map<string, seq<string>>, current: Pod, handled: Option<Pod>,
                              e: Outcome, mis: seq<MountInfo.Entry>, deletedPods: map<string, bool>, readable: bool, system: System,
                              order: seq<Target>)
  {
    match handled
    case Some(pod) => Recovers(before, after, pod, pod.annotations, mis, deletedPods, readable, system, order)
    case None =>
      if e.Ok? then Recovers(before, after, current, Prune(current.annotations, deletedPods), mis, deletedPods, readable, system, order)
      else after == before
  }

  /** The table after Run: the deletion mark of the pod the handler fetched is set. */
  function Told(deletedPods: map<string, bool>, uid: string, handled: Option<Pod>): map<string, bool> {
    if handled.Some? then deletedPods[uid := handled.value.deleting] else deletedPods
  }

  /** The handler for the pod's state. */
  method Handle(node: World, stacks: Stacks, mit: MountTable.MountInfoTable, me: Tid, n: Name, pod: Pod, readable: bool, system: System)
    returns (e: Outcome, ghost order: seq<Target>)
    requires node.Good() && me !in node.m.threads && Logged(node.m.server, n, pod)
    modifies node, stacks
    ensures node.Good() && old(node.m.server.log) <= node.m.server.log
    ensures Handled(Mine(node.m, |old(node.m.server.log)|, me), e, node.seen, old(node.seen), n, pod)
    ensures GetPodStatus(pod).PodReady? || GetPodStatus(pod).PodPending? ==> node.m == old(node.m)
    ensures old(node.schedule) == [] ==>
      (node.m.server, e) == HandleAlone(old(node.m.server), n, pod, Thread(me), Granted(old(node.m), n))
    ensures Recovers(old(stacks.stacks), stacks.stacks, pod, pod.annotations, mit.mis, mit.deletedPods, readable, system, order)
  {
    order := [];
    match GetPodStatus(pod)
    case PodDeleted =>
      ghost var refused;
      e, refused := PodDeletedHandler(node, me, n, pod, 0);
    case PodError =>
      var blocked, _ := PodErrorHandler(node, me, n, pod, 0);
      e := if blocked then Blocked else Ok;
    case PodReady =>
      order := PodReadyHandler(stacks, mit, pod.annotations, MountPathOf(pod), readable, system);
      e := Ok;
    case PodPending =>
      e := Ok;
  }

  /** All a Run writes: its one or two checks, then what the handler of the pod it reads last writes. Nothing is
      handled but what the server held in state `fetched`, reached from where the checks ended, with history
      `checks`. A pod that is ready when its check is done has exactly the references with a live app pod
      recovered. Alone, exactly RunAlone. */
  method Run(node: World, stacks: Stacks, mit: MountTable.MountInfoTable, me: Tid, n: Name, pod: Pod, uid: string,
             readable: bool, system: System)
    returns (e: Outcome, checked: Outcome, current: Pod, handled: Option<Pod>, ghost first: seq<Write>, ghost second: seq<Write>,
             ghost third: seq<Write>, ghost agreed: (bool, bool), ghost order: seq<Target>, ghost fetched: State, ghost checks: Sight)
    requires node.Good() && me !in node.m.threads && Logged(node.m.server, n, pod)
    modifies node, stacks, mit`deletedPods
    ensures node.Good() && old(node.m.server.log) <= node.m.server.log
    ensures CheckWrites(first, n, old(mit.deletedPods), agreed.0) && CheckWrites(second, n, old(mit.deletedPods), agreed.1)
    ensures !checked.Ok? ==> e == checked && handled.None? && third == []
    ensures checked.Blocked? ==> node.seen.Seen? && !Granted(node.seen.state, n)
    ensures checked.Ok? ==> Handles(third, e, handled, node.seen, checks, fetched, n, current)
    ensures Mine(node.m, |old(node.m.server.log)|, me) == first + second + third
    ensures mit.deletedPods == Told(old(mit.deletedPods), uid, handled)
    ensures RunRecovers(old(stacks.stacks), stacks.stacks, current, handled, e, mit.mis, mit.deletedPods, readable, system, order)
    ensures old(node.schedule) == [] && !checked.Blocked? ==>
      (node.m.server, e) == RunAlone(old(node.m.server), n, pod, old(mit.deletedPods), old(node.m).now, Thread(me), Granted(fetched, n))
  {
    ghost var from := |node.m.server.log|;
    e, current, first, second, agreed := CheckFirst(node, me, n, pod, mit.deletedPods);
    checked, checks := e, node.seen;
    if !e.Ok? {
      assert first + second + [] == first + second;
      return e, checked, current, None, first, second, [], agreed, [], node.m, checks;
    }
    handled, e, third, order, fetched := AfterCheck(node, stacks, mit, me, n, current, uid, readable, system, from);
  }

  method CheckFirst(node: World, me: Tid, n: Name, pod: Pod, table: Liveness)
    returns (e: Outcome, current: Pod, ghost first: seq<Write>, ghost second: seq<Write>, ghost agreed: (bool, bool))
    requires node.Good() && me !in node.m.threads && Logged(node.m.server, n, pod)
    modifies node
    ensures node.Good() && old(node.m.server.log) <= node.m.server.log && (!e.Blocked? ==> me !in node.m.threads)
    ensures Mine(node.m, |old(node.m.server.log)|, me) == first + second
    ensures CheckWrites(first, n, table, agreed.0) && CheckWrites(second, n, table, agreed.1)
    ensures e.Blocked? ==> node.seen.Seen? && !Granted(node.seen.state, n)
    ensures old(node.schedule) == [] ==> node.schedule == [] && (!e.Blocked? ==> forall granted ::
      RunAlone(old(node.m.server), n, pod, table, old(node.m).now, Thread(me), granted) ==
        if e.Ok? then RestAlone(node.m.server, n, current, Thread(me), granted) else (node.m.server, e))
  {
    node.Start(me, CheckLock(n, pod, table));
    e, current, first, second, agreed := CheckTwice(node, me, n, pod, table);
    if old(node.schedule) == [] && !e.Blocked? {
      RunIsRest(old(node.m.server), node.m.server, e, n, pod, current, table, old(node.m).now, Thread(me));
    }
  }

  lemma RunIsRest(s: Server, s1: Server, e: Outcome, n: Name, pod: Pod, current: Pod, table: Liveness, now: int, me: Writer)
    requires (s1, e) == CheckTwiceAlone(s, n, pod, table, now, me) && current == CheckedAlone(s, n, pod, table, now, me)
    ensures forall granted ::
      RunAlone(s, n, pod, table, now, me, granted) == if e.Ok? then RestAlone(s1, n, current, me, granted) else (s1, e)
  {
  }

  /** The rest of Run: a ready or pending pod is not written, of a deleted or failed one the copy is handled that
      the server holds in state `fetched`, which comes next in the history. */
  ghost predicate Handles(third: seq<Write>, e: Outcome, handled: Option<Pod>, h: Sight, checks: Sight, fetched: State, n: Name, current: Pod) {
    if GetPodStatus(current).PodReady? || GetPodStatus(current).PodPending? then
      handled.None? && e.Ok? && third == [] && h == checks
    else
      && handled == Lookup(fetched.server, n)
      && match handled
         case None => third == [] && e == Failed(NotFound) && h == Seen(checks, fetched, NotFound)
         case Some(pod) => Handled(third, e, h, Seen(checks, fetched, Accepted), n, pod)
  }

  /** The rest of Run, when the check went well. */
  method AfterCheck(node: World, stacks: Stacks, mit: MountTable.MountInfoTable, me: Tid, n: Name, current: Pod, uid: string,
                    readable: bool, system: System, ghost from: nat)
    returns (handled: Option<Pod>, e: Outcome, ghost third: seq<Write>, ghost order: seq<Target>, ghost fetched: State)
    requires node.Good() && me !in node.m.threads && from <= |node.m.server.log|
    modifies node, stacks, mit`deletedPods
    ensures node.Good() && old(node.m.server.log) <= node.m.server.log
    ensures Handles(third, e, handled, node.seen, old(node.seen), fetched, n, current)
    ensures Mine(node.m, from, me) == Mine(old(node.m), from, me) + third
    ensures mit.deletedPods == Told(old(mit.deletedPods), uid, handled)
    ensures RunRecovers(old(stacks.stacks), stacks.stacks, current, handled, e, mit.mis, mit.deletedPods, readable, system, order)
    ensures old(node.schedule) == [] ==>
      (node.m.server, e) == RestAlone(old(node.m.server), n, current, Thread(me), Granted(fetched, n))
  {
    match GetPodStatus(current)
    case PodPending =>
      return None, Ok, [], [], node.m;
    case PodReady =>
      // the check pruned the copy in place
      order := PodReadyHandler(stacks, mit, Prune(current.annotations, mit.deletedPods), MountPathOf(current), readable, system);
      return None, Ok, [], order, node.m;
    case _ =>
      handled, e, third, order, fetched := FetchAndHandle(node, stacks, mit, me, n, uid, readable, system, from);
  }

  method FetchAndHandle(node: World, stacks: Stacks, mit: MountTable.MountInfoTable, me: Tid, n: Name, uid: string,
                        readable: bool, system: System, ghost from: nat)
    returns (handled: Option<Pod>, e: Outcome, ghost third: seq<Write>, ghost order: seq<Target>, ghost fetched: State)
    requires node.Good() && me !in node.m.threads && from <= |node.m.server.log|
    modifies node, stacks, mit`deletedPods
    ensures node.Good() && old(node.m.server.log) <= node.m.server.log
    ensures Mine(node.m, from, me) == Mine(old(node.m), from, me) + third
    ensures handled == Lookup(fetched.server, n)
    ensures match handled
      case None => third == [] && e == Failed(NotFound) && node.seen == Seen(old(node.seen), fetched, NotFound)
      case Some(pod) => Handled(third, e, node.seen, Seen(old(node.seen), fetched, Accepted), n, pod)
    ensures mit.deletedPods == Told(old(mit.deletedPods), uid, handled)
    ensures if handled.None? then stacks.stacks == old(stacks.stacks)
      else Recovers(old(stacks.stacks), stacks.stacks, handled.value, handled.value.annotations, mit.mis, mit.deletedPods,
                    readable, system, order)
    ensures old(node.schedule) == [] ==>
      (node.m.server, e) == FetchedAlone(old(node.m.server), n, Thread(me), Granted(fetched, n))
  {
    ghost var m1 := node.m;
    handled := node.Fetch(me, n);
    fetched := node.m;
    NoWriteApart(m1, node.m, from, me);
    if handled.None? {
      return None, Failed(NotFound), [], [], fetched;
    }
    mit.SetPodStatus(uid, handled.value.deleting);
    e, order := Handle(node, stacks, mit, me, n, handled.value, readable, system);
    third := Mine(node.m, |fetched.server.log|, me);
    MineSplit(fetched, node.m, from, me);
  }

  /** Checking a stored pod that is still used, or being deleted, prunes it and no more. */
  lemma CheckOnlyPrunes(s: Server, n: Name, pod: Pod, table: Liveness, now: int, me: Writer)
    requires n in s.pods && s.pods[n] == pod && (pod.deleting || exists t | t in Refs(pod.annotations) :: Alive(table, t))
    ensures var (s', e) := CheckTwiceAlone(s, n, pod, table, now, me);
      e.Ok? && n in s'.pods && s'.pods[n] == pod.(annotations := Prune(pod.annotations, table), version := s'.pods[n].version)
    ensures CheckedAlone(s, n, pod, table, now, me) == pod
  {
    var pruned := Prune(pod.annotations, table);
    LengthTestIsExact(pod.annotations, table);
    PruneKeepsLive(pod.annotations, table);
    assert pod.deleting || Refs(pruned) != {} by {
      if !pod.deleting {
        var t :| t in Refs(pod.annotations) && Alive(table, t);
        assert t in Refs(pruned);
      }
    }
    assert CheckAlone(s, n, pod, table, now, me) ==
      (if |pod.annotations| != |pruned| then UpdatePod(s, n, AnnotatedWith(pod, pruned), me).0 else s, Ok);
  }

  /** An undisturbed Run on a stored pod that is being deleted, whatever else its status says, prunes its dead
      references and takes the driver's finalizer off. It ends well if and only if no reference is left to bring
      back: nobody removes the pod. */
  lemma DeletedPodReleased(s: Server, n: Name, pod: Pod, table: Liveness, now: int, me: Writer, granted: bool)
    requires n in s.pods && s.pods[n] == pod && pod.deleting && FINALIZER in pod.finalizers && !pod.status.resourceError
    ensures var (s', e) := RunAlone(s, n, pod, table, now, me, granted);
      && n in s'.pods && !e.Failed?
      && s'.pods[n] == pod.(annotations := Prune(pod.annotations, table), finalizers := pod.finalizers - {FINALIZER},
                            version := s'.pods[n].version)
      && (e.Ok? <==>
            || |pod.containers| == 0 || Command.MountPathOfCommand(pod.containers[0].command).None?
            || forall t | t in Refs(pod.annotations) :: !Alive(table, t))
  {
    CheckOnlyPrunes(s, n, pod, table, now, me);
    PruneKeepsLive(pod.annotations, table);
    HasRefIffRefs(Prune(pod.annotations, table));
    var s1 := CheckTwiceAlone(s, n, pod, table, now, me).0;
    assert RestAlone(s1, n, pod, me, granted) == DeletedAlone(s1, n, s1.pods[n], me, granted);
    assert Refs(Prune(pod.annotations, table)) == {} <==> forall t | t in Refs(pod.annotations) :: !Alive(table, t);
  }

  /** One on a stored pod that failed for its resources, and is still used, prunes it and, under the lock, takes
      the finalizer off and marks it. */
  lemma FailedPodMarked(s: Server, n: Name, pod: Pod, table: Liveness, now: int, me: Writer, granted: bool, t: Target)
    requires n in s.pods && s.pods[n] == pod && t in Refs(pod.annotations) && Alive(table, t)
    requires !pod.deleting && pod.status.error && pod.status.resourceError && HasRequests(pod)
    ensures var (s', e) := RunAlone(s, n, pod, table, now, me, granted);
      && n in s'.pods && e == (if granted then Ok else Blocked)
      && s'.pods[n] == (if granted then pod.(deleting := true, finalizers := pod.finalizers - {FINALIZER}) else pod)
                         .(annotations := Prune(pod.annotations, table), version := s'.pods[n].version)
  {
    CheckOnlyPrunes(s, n, pod, table, now, me);
    var s1 := CheckTwiceAlone(s, n, pod, table, now, me).0;
    assert RestAlone(s1, n, pod, me, granted) == ErrorAlone(s1, n, s1.pods[n], me, granted);
  }

  /** One on any other stored pod that is still used prunes it and does nothing else. */
  lemma OtherPodOnlyPruned(s: Server, n: Name, pod: Pod, table: Liveness, now: int, me: Writer, granted: bool, t: Target)
    requires n in s.pods && s.pods[n] == pod && t in Refs(pod.annotations) && Alive(table, t)
    requires !pod.deleting && (!pod.status.error || !pod.status.resourceError || !HasRequests(pod))
    ensures var (s', e) := RunAlone(s, n, pod, table, now, me, granted);
      && e.Ok? && n in s'.pods && s'.pods[n] == pod.(annotations := Prune(pod.annotations, table), version := s'.pods[n].version)
  {
    CheckOnlyPrunes(s, n, pod, table, now, me);
    var s1 := CheckTwiceAlone(s, n, pod, table, now, me).0;
    assert RestAlone(s1, n, pod, me, granted) == (s1, Ok);
  }

  /** Only a pod that is ready, not being deleted and not failed, has bind mounts touched. */
  lemma OnlyReadyRecovers(before: map<string, seq<string>>, after: map<string, seq<string>>, pod: Pod, a: Annotations,
                          mis: seq<MountInfo.Entry>, deletedPods: map<string, bool>, readable: bool, system: System, order: seq<Target>)
    requires Recovers(before, after, pod, a, mis, deletedPods, readable, system, order)
    requires pod.deleting || pod.status.error || !pod.status.ready
    ensures after == before
  {
  }

  /** So a Run on a ready pod never leaves the target of a reference its check kept bare, and rebinds it if its
      mount is dead: the check has just made sure that the app pod lives. */
  lemma RunRepairsKept(before: map<string, seq<string>>, after: map<string, seq<string>>, current: Pod, mis: seq<MountInfo.Entry>,
                       deletedPods: map<string, bool>, system: System, order: seq<Target>, t: Target, mountPath: string)
    requires !current.deleting && !current.status.error && current.status.ready && |current.containers| > 0
    requires var parsed := Command.MountPathOfCommand(current.containers[0].command); parsed.Some? && parsed.value.0 == mountPath
    requires Recovers(before, after, current, Prune(current.annotations, deletedPods), mis, deletedPods, true, system, order)
    requires t in Refs(Prune(current.annotations, deletedPods))
    requires forall u | u in Refs(Prune(current.annotations, deletedPods)) :: t in OwnPaths(mis, u) <==> u == t
    requires |MountTable.SubpathsAt(mis, t)| == |StackAt(before, t)| > 0
    ensures var subpaths, s := MountTable.SubpathsAt(mis, t), StackAt(after, t);
      && s != [] && s[0] == StackAt(before, t)[0]
      && (system.stat(t).CorruptedMount? && !MountTable.Differ(subpaths) && system.granted(t)
          && (subpaths[0] == "" || system.sourceExists(Source(mountPath, subpaths[0]))) ==>
            s == [StackAt(before, t)[0], Source(mountPath, subpaths[0])])
  {
    PruneKeepsLive(current.annotations, deletedPods);
    LiveTargetRepaired(before, after, t, order, Refs(Prune(current.annotations, deletedPods)), t, mountPath,
                       mis, deletedPods, system);
  }
}
