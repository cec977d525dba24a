/** The invariant of every run, whatever input the reconciler works on. */
module Invariant {
  import opened Wrappers
  import opened Pods
  import opened ApiServer
  import opened Machine

  type Volumes = map<Target, Name>

  ghost predicate Known(vs: Volumes, n: Name, t: Target) {
    t in vs && vs[t] == n
  }

  /** While the lock is held, the stored pod, if any, agrees with `c` on the protocol's annotations. */
  ghost predicate Tracks(s: Server, n: Name, c: Pod) {
    n in s.pods ==> SameProtocol(s.pods[n].annotations, c.annotations)
  }

  /** A copy on which a pod is judged idle: it has no references, no more than the stored pod, and it can
      be written back only if it is the stored pod. */
  ghost predicate IdleCopy(s: Server, n: Name, c: Pod) {
    Refs(c.annotations) == {} && WellKeyed(c.annotations) && Tracks(s, n, c) && (Logged(s, n, c) || Spent(s, n, c))
  }

  /** A copy that disagreed with the stored pod can be judged idle, but no longer written back. */
  ghost predicate StaleCopy(s: Server, n: Name, c: Pod) {
    Refs(c.annotations) == {} && WellKeyed(c.annotations) && Spent(s, n, c)
  }

  /** The copy's version is gone, so the API server will turn it away. */
  ghost predicate Spent(s: Server, n: Name, c: Pod) {
    c.version < |s.log| && (n in s.pods ==> s.pods[n].version != c.version)
  }

  ghost predicate ThreadOk(s: Server, vs: Volumes, pc: Pc) {
    match pc
    case AddLock(n, t, made) => Known(vs, n, t) && FreshPod(made)
    case AddWait(n, t, made) => Known(vs, n, t) && FreshPod(made)
    case AddCreate(n, t, made) => Known(vs, n, t) && FreshPod(made)
    case AddWrite(n, t, c) => Known(vs, n, t) && Logged(s, n, c) && !c.deleting
    case DropWrite(n, t, c) => Known(vs, n, t) && Logged(s, n, c)
    case AddRead(n, t) => Known(vs, n, t)
    case Bind(n, t) => Known(vs, n, t)
    case Unmount(n, t) => Known(vs, n, t)
    case DropLock(n, t) => Known(vs, n, t)
    case DropStart(n, t) => Known(vs, n, t)
    case DropRead(n, t) => Known(vs, n, t)
    case DropRecheck(n, t) => Known(vs, n, t)
    case Recover(n, t, _) => Known(vs, n, t)
    case IdleRead(_, op) => op.Unpublish?
    case IdleDecide(n, c, op) => if Sure(op) then IdleCopy(s, n, c) else StaleCopy(s, n, c)
    case IdleStamp(n, c, _, op) => if Sure(op) then IdleCopy(s, n, c) else StaleCopy(s, n, c)
    case IdleDelete(n, _, op) => Sure(op) ==> Refless(s, n)
    case CheckLock(n, c, _) => Logged(s, n, c)
    case CheckPrune(n, c, _, agreed) => Logged(s, n, c) && (if agreed then Tracks(s, n, c) else Spent(s, n, c))
    case Unfinalize(n, c) => Logged(s, n, c) && c.deleting && FINALIZER in c.finalizers
    case RecreateLock(n, c) => Logged(s, n, c) && c.deleting && HasRef(c.annotations)
    case RecreatePoll(n, c) => Logged(s, n, c) && c.deleting && HasRef(c.annotations)
    case RecreateCreate(n, c) => Logged(s, n, c) && c.deleting && HasRef(c.annotations)
    case MergeWrite(n, c, o) => Logged(s, n, c) && Logged(s, n, o) && !o.deleting && HasRef(c.annotations)
    case StripLock(n, c) => Logged(s, n, c) && HasRequests(c) && !c.deleting
    case StripUnfinalize(n, c) => Logged(s, n, c) && HasRequests(c) && !c.deleting
    case StripDelete(n, c) => Logged(s, n, c) && Tracks(s, n, c) && HasRequests(c)
    case StripPoll(n, c) => Logged(s, n, c) && Tracks(s, n, c) && HasRequests(c)
    case StripCreate(n, c) => Logged(s, n, c) && Tracks(s, n, c) && HasRequests(c)
  }

  ghost predicate Owns(hash: Hash, locks: map<nat, Tid>, threads: map<Tid, Pc>, b: nat, u: Tid) {
    b in locks && locks[b] == u && u in threads && !Unlocked(threads[u]) && Bucket(hash, threads[u].name) == b
  }

  /** A lock is held by exactly the thread inside a section it guards. */
  ghost predicate LocksOk(hash: Hash, locks: map<nat, Tid>, threads: map<Tid, Pc>) {
    && (forall u | u in threads && !Unlocked(threads[u]) :: Owns(hash, locks, threads, Bucket(hash, threads[u].name), u))
    && (forall b | b in locks :: Owns(hash, locks, threads, b, locks[b]))
  }

  /** A stored annotation set is well keyed and refers only to targets of its volume. */
  ghost predicate Proper(vs: Volumes, n: Name, a: Annotations) {
    WellKeyed(a) && forall t | t in Refs(a) :: Known(vs, n, t)
  }

  ghost predicate LogOk(log: seq<Write>, vs: Volumes) {
    forall i | 0 <= i < |log| :: Proper(vs, log[i].name, log[i].pod.annotations)
  }

  ghost predicate ThreadsOk(s: Server, vs: Volumes, threads: map<Tid, Pc>) {
    forall u | u in threads :: ThreadOk(s, vs, threads[u])
  }

  ghost predicate Inv(m: State) {
    && ServerOk(m.server)
    && LogOk(m.server.log, m.volume)
    && LocksOk(m.hash, m.locks, m.threads)
    && m.live <= m.volume.Keys
    && ThreadsOk(m.server, m.volume, m.threads)
  }

  // ----- what one step does to the server

  /** `s'` is `s` with at most pod `n` rewritten, created or removed. */
  ghost predicate Touches(s: Server, s': Server, n: Name) {
    s' == s || s' == Reap(s, n) || exists p, w :: s' == Put(s, n, p, w)
  }

  /** The entries of pod `n` that only the driver writes survive, unless the pod itself is gone. */
  ghost predicate KeepsProtocol(s: Server, s': Server, n: Name) {
    n in s'.pods ==> n in s.pods && SameProtocol(s.pods[n].annotations, s'.pods[n].annotations)
  }

  lemma ActName(pc: Pc, s: Server, now: int, me: Writer)
    requires CallsApi(pc)
    ensures Act(pc, s, now, me).next.Some? ==> Act(pc, s, now, me).next.value.name == pc.name
    ensures Act(pc, s, now, me).next.Some? && pc.Unfinalize? ==> Act(pc, s, now, me).next.value.RecreateLock?
  {
  }

  lemma ActTouches(pc: Pc, s: Server, now: int, me: Writer)
    requires CallsApi(pc)
    ensures Touches(s, Act(pc, s, now, me).server, pc.name)
  {
  }

  lemma TouchesOk(s: Server, s': Server, n: Name)
    requires ServerOk(s) && Touches(s, s', n)
    ensures ServerOk(s') && s.log <= s'.log
    ensures forall k, p :: Logged(s, k, p) ==> Logged(s', k, p)
    ensures forall k | k != n :: Lookup(s, k) == Lookup(s', k)
    ensures forall k | k in s'.pods :: (k in s.pods && s'.pods[k] == s.pods[k]) || s'.pods[k].version >= |s.log|
  {
  }

  // ----- locks

  lemma SettleLocks(m: State, u: Tid, e: Effect)
    requires LocksOk(m.hash, m.locks, m.threads) && u in m.threads
    requires e.next.Some? ==> e.next.value.name == m.threads[u].name && (!Unlocked(e.next.value) ==> !Unlocked(m.threads[u]))
    ensures LocksOk(m.hash, Settle(m, u, e).locks, Settle(m, u, e).threads)
  {
  }

  lemma EnterLocks(m: State, u: Tid)
    requires LocksOk(m.hash, m.locks, m.threads) && u in m.threads
    requires Waiting(m.threads[u]) && Bucket(m.hash, m.threads[u].name) !in m.locks
    ensures LocksOk(m.hash, m.locks[Bucket(m.hash, m.threads[u].name) := u], m.threads[u := Entered(m.server, m.threads[u])])
  {
  }

  /** A thread outside any section can move or end without touching the locks. */
  lemma OutsideLocks(hash: Hash, locks: map<nat, Tid>, threads: map<Tid, Pc>, u: Tid, next: Option<Pc>)
    requires LocksOk(hash, locks, threads) && (u in threads ==> Unlocked(threads[u]))
    requires next.Some? ==> Unlocked(next.value)
    ensures LocksOk(hash, locks, threads - {u})
    ensures next.Some? ==> LocksOk(hash, locks, threads[u := next.value])
  {
  }

  // ----- facts of the threads that do not move

  /** Versions are never forgotten, targets never change volume, and no target dies twice. */
  ghost predicate Evolves(s: Server, vs: Volumes, s': Server, vs': Volumes) {
    && s.log <= s'.log
    && (forall n | n in s'.pods :: (n in s.pods && s'.pods[n] == s.pods[n]) || s'.pods[n].version >= |s.log|)
    && (forall t | t in vs :: t in vs' && vs'[t] == vs[t])
  }

  /** A thread that does not move keeps its facts, provided no one touches the protocol's annotations of
      the pod whose lock it holds. */
  lemma ThreadStable(s: Server, vs: Volumes, s': Server, vs': Volumes, pc: Pc)
    requires LogOk(s.log, vs) && ThreadOk(s, vs, pc) && Evolves(s, vs, s', vs')
    requires !Unlocked(pc) ==> KeepsProtocol(s, s', pc.name)
    ensures ThreadOk(s', vs', pc)
  {
  }

  lemma ThreadsStable(s: Server, vs: Volumes, s': Server, vs': Volumes, threads: map<Tid, Pc>)
    requires LogOk(s.log, vs) && Evolves(s, vs, s', vs')
    requires ThreadsOk(s, vs, threads)
    requires forall v | v in threads && !Unlocked(threads[v]) :: KeepsProtocol(s, s', threads[v].name)
    ensures ThreadsOk(s', vs', threads)
  {
    forall v | v in threads ensures ThreadOk(s', vs', threads[v]) {
      ThreadStable(s, vs, s', vs', threads[v]);
    }
  }

  lemma LoggedProper(s: Server, vs: Volumes, n: Name, c: Pod)
    requires LogOk(s.log, vs) && Logged(s, n, c)
    ensures Proper(vs, n, c.annotations)
  {
  }

  lemma StoredProper(s: Server, vs: Volumes, n: Name)
    requires ServerOk(s) && LogOk(s.log, vs) && n in s.pods
    ensures Proper(vs, n, s.pods[n].annotations)
  {
  }

  // ----- what the API calls write

  lemma UpdateOk(s: Server, vs: Volumes, n: Name, p: Pod, w: Writer)
    requires LogOk(s.log, vs) && Proper(vs, n, p.annotations)
    ensures LogOk(UpdatePod(s, n, p, w).0.log, vs)
    ensures UpdatePod(s, n, p, w).1.Accepted? ==> Tracks(UpdatePod(s, n, p, w).0, n, p)
    ensures s.log <= UpdatePod(s, n, p, w).0.log
  {
  }

  lemma CreateOk(s: Server, vs: Volumes, n: Name, p: Pod, w: Writer)
    requires LogOk(s.log, vs) && Proper(vs, n, p.annotations)
    ensures LogOk(CreatePod(s, n, p, w).0.log, vs)
  {
  }

  lemma DeleteOk(s: Server, vs: Volumes, n: Name, w: Writer)
    requires ServerOk(s) && LogOk(s.log, vs)
    ensures LogOk(DeletePod(s, n, w).0.log, vs) && s.log <= DeletePod(s, n, w).0.log
    ensures KeepsProtocol(s, DeletePod(s, n, w).0, n)
  {
  }

  // ----- one API call, program by program

  /** The call stores only proper annotations and the thread's next facts hold. */
  ghost predicate ActOk(vs: Volumes, e: Effect) {
    LogOk(e.server.log, vs) && (e.next.Some? ==> ThreadOk(e.server, vs, e.next.value))
  }

  lemma AddOk(s: Server, vs: Volumes, pc: Pc, me: Writer)
    requires ServerOk(s) && LogOk(s.log, vs) && ThreadOk(s, vs, pc)
    requires pc.AddWait? || pc.AddCreate? || pc.AddRead? || pc.AddWrite?
    ensures ActOk(vs, AddAct(pc, s, me))
  {
  }

  lemma DropOk(s: Server, vs: Volumes, pc: Pc, me: Writer)
    requires ServerOk(s) && LogOk(s.log, vs) && ThreadOk(s, vs, pc)
    requires pc.DropStart? || pc.DropRead? || pc.DropWrite? || pc.DropRecheck?
    ensures ActOk(vs, DropAct(pc, s, me))
  {
  }

  lemma DecideOk(s: Server, n: Name, copy: Pod)
    requires IdleCopy(s, n, copy)
    ensures Refless(s, n)
    ensures forall k :: Refs(Stamped(copy, k).annotations) == {} && WellKeyed(Stamped(copy, k).annotations)
  {
  }

  lemma IdleOk(s: Server, vs: Volumes, pc: Pc, now: int, me: Writer)
    requires ServerOk(s) && LogOk(s.log, vs) && ThreadOk(s, vs, pc)
    requires pc.IdleRead? || pc.IdleDecide? || pc.IdleStamp? || pc.IdleDelete?
    ensures ActOk(vs, IdleAct(pc, s, now, me))
  {
  }

  lemma PrunedProper(s: Server, vs: Volumes, n: Name, copy: Pod, table: Liveness)
    requires LogOk(s.log, vs) && Logged(s, n, copy)
    ensures Proper(vs, n, Prune(copy.annotations, table))
    ensures |copy.annotations| == |Prune(copy.annotations, table)| ==> copy.annotations == Prune(copy.annotations, table)
  {
    LoggedProper(s, vs, n, copy);
    PruneKeepsLive(copy.annotations, table);
    LengthTestIsExact(copy.annotations, table);
  }

  lemma CheckOk(s: Server, vs: Volumes, pc: Pc, me: Writer)
    requires ServerOk(s) && LogOk(s.log, vs) && ThreadOk(s, vs, pc) && pc.CheckPrune?
    ensures ActOk(vs, CheckAct(pc, s, me))
  {
    PrunedProper(s, vs, pc.name, pc.copy, pc.table);
    UpdateOk(s, vs, pc.name, AnnotatedWith(pc.copy, Prune(pc.copy.annotations, pc.table)), me);
  }

  /** The merge is set union on references and changes nothing else. */
  lemma MergeIsUnion(other: Annotations, mine: Annotations)
    requires WellKeyed(other)
    ensures Refs(Merged(other, mine)) == Refs(other) + Refs(mine)
    ensures WellKeyed(Merged(other, mine))
    ensures forall k: Key | !k.Ref? :: (k in Merged(other, mine) <==> k in other) && (k in other ==> Merged(other, mine)[k] == other[k])
  {
    var r := Merged(other, mine);
    forall t ensures t in Refs(r) <==> t in Refs(other) + Refs(mine) {
      assert t in Refs(mine) <==> Ref(t) in mine && IsRef(Ref(t), mine[Ref(t)]);
    }
  }

  lemma RecreateOk(s: Server, vs: Volumes, pc: Pc, me: Writer)
    requires ServerOk(s) && LogOk(s.log, vs) && ThreadOk(s, vs, pc)
    requires pc.Unfinalize? || pc.RecreatePoll? || pc.RecreateCreate? || pc.MergeWrite?
    ensures ActOk(vs, RecreateAct(pc, s, me))
  {
    var n, copy := pc.name, pc.copy;
    LoggedProper(s, vs, n, copy);
    match pc
    case Unfinalize(_, _) =>
      UpdateOk(s, vs, n, Released(copy), me);
    case RecreatePoll(_, _) =>
    case RecreateCreate(_, _) =>
      CreateOk(s, vs, n, Reborn(copy), me);
    case MergeWrite(_, _, other) =>
      LoggedProper(s, vs, n, other);
      MergeIsUnion(other.annotations, copy.annotations);
      assert Proper(vs, n, Merged(other.annotations, copy.annotations));
      UpdateOk(s, vs, n, AnnotatedWith(other, Merged(other.annotations, copy.annotations)), me);
  }

  lemma StripDeleteOk(s: Server, vs: Volumes, pc: Pc, me: Writer)
    requires ServerOk(s) && LogOk(s.log, vs) && ThreadOk(s, vs, pc) && pc.StripDelete?
    ensures ActOk(vs, StripAct(pc, s, me))
  {
    DeleteOk(s, vs, pc.name, me);
  }

  lemma StripOk(s: Server, vs: Volumes, pc: Pc, me: Writer)
    requires ServerOk(s) && LogOk(s.log, vs) && ThreadOk(s, vs, pc)
    requires pc.StripUnfinalize? || pc.StripPoll? || pc.StripCreate?
    ensures ActOk(vs, StripAct(pc, s, me))
  {
    var n, copy := pc.name, pc.copy;
    LoggedProper(s, vs, n, copy);
    if pc.StripUnfinalize? {
      UpdateOk(s, vs, n, Released(copy), me);
    } else if pc.StripCreate? {
      CreateOk(s, vs, n, Reborn(copy).(containers := WithoutResources(copy.containers)), me);
    }
  }

  lemma ActKeeps(s: Server, vs: Volumes, pc: Pc, now: int, me: Writer)
    requires ServerOk(s) && LogOk(s.log, vs) && ThreadOk(s, vs, pc) && CallsApi(pc)
    ensures ActOk(vs, Act(pc, s, now, me))
  {
    if pc.AddWait? || pc.AddCreate? || pc.AddRead? || pc.AddWrite? {
      AddOk(s, vs, pc, me);
    } else if pc.DropStart? || pc.DropRead? || pc.DropWrite? || pc.DropRecheck? {
      DropOk(s, vs, pc, me);
    } else if pc.IdleRead? || pc.IdleDecide? || pc.IdleStamp? || pc.IdleDelete? {
      IdleOk(s, vs, pc, now, me);
    } else if pc.CheckPrune? {
      CheckOk(s, vs, pc, me);
    } else if pc.Unfinalize? || pc.RecreatePoll? || pc.RecreateCreate? || pc.MergeWrite? {
      RecreateOk(s, vs, pc, me);
    } else if pc.StripDelete? {
      StripDeleteOk(s, vs, pc, me);
    } else {
      StripOk(s, vs, pc, me);
    }
  }

  // ----- every step keeps the invariant

  /** The lock excludes every other driver thread; what runs outside the locks writes no reference. */
  lemma OthersUntouched(m: State, u: Tid, v: Tid, s': Server)
    requires Inv(m) && u in m.threads && v in m.threads && v != u
    requires !Unlocked(m.threads[v])
    requires Touches(m.server, s', m.threads[u].name)
    requires Unlocked(m.threads[u]) ==> KeepsProtocol(m.server, s', m.threads[u].name)
    ensures KeepsProtocol(m.server, s', m.threads[v].name)
  {
    var n, k := m.threads[u].name, m.threads[v].name;
    assert Owns(m.hash, m.locks, m.threads, Bucket(m.hash, k), v);
    assert !Unlocked(m.threads[u]) ==> Owns(m.hash, m.locks, m.threads, Bucket(m.hash, n), u);
    if n != k {
      TouchesOk(m.server, s', n);
      assert Lookup(m.server, k) == Lookup(s', k);
    }
  }

  /** The lock keeps everyone else out of the section. */
  lemma OnlyOneInside(m: State, u: Tid, v: Tid)
    requires Inv(m) && u in m.threads && v in m.threads && u != v && !Unlocked(m.threads[u]) && !Unlocked(m.threads[v])
    ensures m.threads[u].name != m.threads[v].name
  {
    assert Owns(m.hash, m.locks, m.threads, Bucket(m.hash, m.threads[u].name), u);
    assert Owns(m.hash, m.locks, m.threads, Bucket(m.hash, m.threads[v].name), v);
  }

  lemma SettleInv(m: State, u: Tid, e: Effect)
    requires Inv(m) && u in m.threads
    requires ActOk(m.volume, e) && Touches(m.server, e.server, m.threads[u].name)
    requires LocksOk(m.hash, Settle(m, u, e).locks, Settle(m, u, e).threads)
    requires Unlocked(m.threads[u]) ==> KeepsProtocol(m.server, e.server, m.threads[u].name)
    ensures Inv(Settle(m, u, e))
  {
    TouchesOk(m.server, e.server, m.threads[u].name);
    var rest := m.threads - {u};
    forall v | v in rest && !Unlocked(rest[v]) ensures KeepsProtocol(m.server, e.server, rest[v].name) {
      OthersUntouched(m, u, v, e.server);
    }
    ThreadsStable(m.server, m.volume, e.server, m.volume, rest);
    forall v | v in Settle(m, u, e).threads ensures ThreadOk(e.server, m.volume, Settle(m, u, e).threads[v]) {
      if v != u {
        assert v in rest;
      }
    }
  }

  /** The one call outside the locks takes a finalizer off and nothing else. */
  lemma OutsideKeepsProtocol(s: Server, vs: Volumes, pc: Pc, now: int, me: Writer)
    requires ServerOk(s) && ThreadOk(s, vs, pc) && CallsApi(pc) && Unlocked(pc)
    ensures KeepsProtocol(s, Act(pc, s, now, me).server, pc.name)
  {
    CurrentCopy(s, pc.name, pc.copy);
  }

  lemma ApiInv(m: State, u: Tid)
    requires Inv(m) && u in m.threads && CallsApi(m.threads[u])
    ensures Inv(ThreadStep(m, u))
  {
    var pc := m.threads[u];
    var e := Act(pc, m.server, m.now, Thread(u));
    ActKeeps(m.server, m.volume, pc, m.now, Thread(u));
    ActTouches(pc, m.server, m.now, Thread(u));
    ActName(pc, m.server, m.now, Thread(u));
    if Unlocked(pc) {
      OutsideKeepsProtocol(m.server, m.volume, pc, m.now, Thread(u));
    }
    SettleLocks(m, u, e);
    SettleInv(m, u, e);
  }

  lemma EnteredOk(s: Server, vs: Volumes, pc: Pc)
    requires ThreadOk(s, vs, pc) && Waiting(pc) && ServerOk(s)
    ensures ThreadOk(s, vs, Entered(s, pc))
  {
    if pc.CheckLock? && pc.name in s.pods {
      AgreesIsSame(s.pods[pc.name].annotations, pc.copy.annotations);
      CurrentCopy(s, pc.name, pc.copy);
    }
  }

  lemma EnterStep(m: State, u: Tid)
    requires u in m.threads && Waiting(m.threads[u])
    ensures var pc := m.threads[u];
      ThreadStep(m, u) == m.(locks := m.locks[Bucket(m.hash, pc.name) := u], threads := m.threads[u := Entered(m.server, pc)])
  {
  }

  lemma EnterInv(m: State, st: Step)
    requires Inv(m) && st.Go? && Enabled(m, st) && Waiting(m.threads[st.tid])
    ensures Inv(ThreadStep(m, st.tid))
  {
    var u := st.tid;
    EnterLocks(m, u);
    EnteredOk(m.server, m.volume, m.threads[u]);
    MoveOk(m, u, Entered(m.server, m.threads[u]));
  }

  lemma MoveOk(m: State, u: Tid, pc: Pc)
    requires ThreadsOk(m.server, m.volume, m.threads) && ThreadOk(m.server, m.volume, pc)
    ensures ThreadsOk(m.server, m.volume, m.threads[u := pc])
  {
  }

  lemma MountInv(m: State, u: Tid)
    requires Inv(m) && u in m.threads && (m.threads[u].Bind? || m.threads[u].Unmount? || m.threads[u].Recover?)
    ensures Inv(MountStep(m, u))
  {
    var m' := MountStep(m, u);
    OutsideLocks(m.hash, m.locks, m.threads, u, if u in m'.threads then Some(m'.threads[u]) else None);
    assert ThreadOk(m.server, m.volume, m.threads[u]);
    if u in m'.threads {
      MoveOk(m, u, m'.threads[u]);
    }
  }

  lemma GoInv(m: State, st: Step)
    requires Inv(m) && st.Go? && Enabled(m, st)
    ensures Inv(Plain(m, st))
  {
    if CallsApi(m.threads[st.tid]) {
      ApiInv(m, st.tid);
    } else if Waiting(m.threads[st.tid]) {
      EnterInv(m, st);
    } else {
      MountInv(m, st.tid);
    }
  }

  lemma BeginInv(m: State, st: Step)
    requires Inv(m) && st.Begin? && Enabled(m, st)
    ensures Inv(Plain(m, st))
  {
  }

  lemma AbortInv(m: State, st: Step)
    requires Inv(m) && st.Abort? && Enabled(m, st)
    ensures Inv(Plain(m, st))
  {
    SettleLocks(m, st.tid, Effect(m.server, None));
    SettleInv(m, st.tid, Effect(m.server, None));
  }

  lemma EnvLogOk(m: State, a: Action)
    requires ServerOk(m.server) && LogOk(m.server.log, m.volume) && Allowed(m, a)
    ensures LogOk(Happen(m, a).server.log, m.volume)
  {
  }

  /** The outside world writes no reference and no deletion instant. */
  lemma EnvKeepsProtocol(m: State, a: Action)
    requires Allowed(m, a) && ServerOk(m.server)
    ensures ServerOk(Happen(m, a).server) && m.server.log <= Happen(m, a).server.log
    ensures forall n :: KeepsProtocol(m.server, Happen(m, a).server, n)
    ensures var s' := Happen(m, a).server;
            forall n | n in s'.pods :: (n in m.server.pods && s'.pods[n] == m.server.pods[n]) || s'.pods[n].version >= |m.server.log|
  {
    if a.KubeletStatus? || a.UserDelete? || a.SetFinalizers? || a.Annotate? || a.Reaped? {
      EnvTouches(m, a);
      TouchesKeepsProtocol(m.server, Happen(m, a).server, a.name);
    } else {
      assert Happen(m, a).server == m.server;
    }
  }

  lemma TouchesKeepsProtocol(s: Server, s': Server, k: Name)
    requires ServerOk(s) && Touches(s, s', k) && KeepsProtocol(s, s', k)
    ensures ServerOk(s') && s.log <= s'.log
    ensures forall n :: KeepsProtocol(s, s', n)
    ensures forall n | n in s'.pods :: (n in s.pods && s'.pods[n] == s.pods[n]) || s'.pods[n].version >= |s.log|
  {
    TouchesOk(s, s', k);
    forall n | n != k ensures KeepsProtocol(s, s', n) {
      assert Lookup(s, n) == Lookup(s', n);
    }
  }

  lemma EnvTouches(m: State, a: Action)
    requires Allowed(m, a) && ServerOk(m.server)
    requires a.KubeletStatus? || a.UserDelete? || a.SetFinalizers? || a.Annotate? || a.Reaped?
    ensures Touches(m.server, Happen(m, a).server, a.name)
    ensures KeepsProtocol(m.server, Happen(m, a).server, a.name)
  {
  }

  lemma EnvEvolves(m: State, a: Action)
    requires m.live <= m.volume.Keys && Allowed(m, a) && m.server.log <= Happen(m, a).server.log
    requires var s' := Happen(m, a).server;
             forall n | n in s'.pods :: (n in m.server.pods && s'.pods[n] == m.server.pods[n]) || s'.pods[n].version >= |m.server.log|
    ensures Evolves(m.server, m.volume, Happen(m, a).server, Happen(m, a).volume)
    ensures Happen(m, a).live <= Happen(m, a).volume.Keys
    ensures Happen(m, a).volume == m.volume || Happen(m, a).server == m.server
  {
  }

  /** The outside world moves no thread and no lock, and time only forward. */
  lemma EnvStill(m: State, a: Action)
    requires Allowed(m, a)
    ensures Happen(m, a).threads == m.threads && Happen(m, a).locks == m.locks && Happen(m, a).hash == m.hash && Happen(m, a).now >= m.now
  {
  }

  lemma LogOkGrows(log: seq<Write>, vs: Volumes, vs': Volumes)
    requires LogOk(log, vs) && forall t | t in vs :: t in vs' && vs'[t] == vs[t]
    ensures LogOk(log, vs')
  {
  }

  lemma EnvInv(m: State, st: Step)
    requires Inv(m) && st.Env? && Enabled(m, st)
    ensures Inv(Plain(m, st))
  {
    var m' := Happen(m, st.action);
    EnvLogOk(m, st.action);
    EnvKeepsProtocol(m, st.action);
    EnvEvolves(m, st.action);
    EnvStill(m, st.action);
    LogOkGrows(m'.server.log, m.volume, m'.volume);
    ThreadsStable(m.server, m.volume, m'.server, m'.volume, m.threads);
  }

  lemma InvStep(m: State, st: Step)
    requires Inv(m) && Enabled(m, st)
    ensures Inv(Next(m, st))
  {
    if st.Begin? {
      BeginInv(m, st);
    } else if st.Go? {
      GoInv(m, st);
    } else if st.Abort? {
      AbortInv(m, st);
    } else {
      EnvInv(m, st);
    }
  }

  // ----- runs

  lemma {:induction false} InvAlways(now: int, hash: Hash, run: seq<Step>, i: nat)
    requires Valid(Init(now, hash), run) && i <= |run|
    ensures Inv(At(Init(now, hash), run, i))
    decreases i
  {
    if i == 0 {
      AtZero(Init(now, hash), run);
    } else {
      InvAlways(now, hash, run, i - 1);
      AtStep(Init(now, hash), run, i - 1);
      InvStep(At(Init(now, hash), run, i - 1), run[i - 1]);
    }
  }

  /** No deadlock: whoever holds a lock can move, because no thread waits for a lock while it holds one.
      Pods that share a lock therefore only wait for each other's sections. */
  lemma HolderCanMove(m: State, b: nat)
    requires Inv(m) && b in m.locks
    ensures Enabled(m, Go(m.locks[b]))
  {
    assert Owns(m.hash, m.locks, m.threads, b, m.locks[b]);
  }
}
