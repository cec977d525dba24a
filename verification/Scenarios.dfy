/** Runs of the machine that reach what the theorems exclude. */
module Scenarios {
  import opened Wrappers
  import opened Pods
  import opened ApiServer
  import opened Machine
  import opened Invariant
  import opened Safety
  import opened PodMount
  import Bound
  import Command
  import IdleTime

  /** Some run leads from `m0` to `m`. */
  ghost predicate From(m0: State, m: State) {
    exists run :: Valid(m0, run) && Exec(m0, run) == m
  }

  function Boot(): State {
    Init(0, map[])
  }

  lemma FromItself(m: State)
    ensures From(m, m)
  {
    assert Valid(m, []) && Exec(m, []) == m;
  }

  lemma FromStep(m0: State, m: State, st: Step)
    requires From(m0, m) && Enabled(m, st)
    ensures From(m0, Next(m, st))
  {
    var run :| Valid(m0, run) && Exec(m0, run) == m;
    var more := run + [st];
    assert more[..|more| - 1] == run;
    assert Valid(m0, more) && Exec(m0, more) == Next(m, st);
  }

  lemma FromInv(m: State)
    requires From(Boot(), m)
    ensures Inv(m)
  {
    var run :| Valid(Boot(), run) && Exec(Boot(), run) == m;
    InvAlways(0, map[], run, |run|);
    assert run[..|run|] == run;
  }

  // ----- one thread at a time

  ghost predicate Parked(idle: map<Tid, Pc>) {
    forall u | u in idle :: Unlocked(idle[u])
  }

  /** No thread holds a lock; those of `idle` wait somewhere. */
  ghost predicate Quiet(m0: State, m: State, idle: map<Tid, Pc>) {
    From(m0, m) && m.threads == idle && Parked(idle) && m.locks == map[]
  }

  /** Besides them, thread `u` stands at `pc` and holds the lock it needs. */
  ghost predicate Solo(m0: State, m: State, idle: map<Tid, Pc>, u: Tid, pc: Pc) {
    && From(m0, m) && u !in idle && Parked(idle) && m.threads == idle[u := pc]
    && m.locks == if Unlocked(pc) then map[] else map[Bucket(m.hash, pc.name) := u]
  }

  /** Everything but threads, locks, history and the server. */
  ghost predicate SameRest(m: State, m': State) {
    && m'.hash == m.hash && m'.now == m.now && m'.volume == m.volume && m'.live == m.live
    && forall t :: Height(m', t) == Height(m, t)
  }

  lemma SameStacks(m: State, m': State)
    requires m'.stacks == m.stacks
    ensures forall t :: Height(m', t) == Height(m, t)
  {
  }

  lemma SameRestOn(m: State, m1: State, m2: State)
    requires SameRest(m, m1) && SameRest(m1, m2)
    ensures SameRest(m, m2)
  {
  }

  lemma Start(m0: State, m: State, idle: map<Tid, Pc>, u: Tid, pc: Pc) returns (m': State)
    requires Quiet(m0, m, idle) && u !in idle && CanBegin(m, pc)
    ensures Solo(m0, m', idle, u, pc) && SameRest(m, m') && m'.server == m.server
  {
    FromStep(m0, m, Begin(u, pc));
    m' := Next(m, Begin(u, pc));
  }

  lemma Stop(m0: State, m: State, idle: map<Tid, Pc>, u: Tid, pc: Pc) returns (m': State)
    requires Solo(m0, m, idle, u, pc)
    ensures Quiet(m0, m', idle) && SameRest(m, m') && m'.server == m.server
  {
    FromStep(m0, m, Abort(u));
    m' := Next(m, Abort(u));
    assert m'.threads == idle;
  }

  lemma NextIsPlain(m: State, st: Step)
    requires Enabled(m, st)
    ensures Next(m, st) == Plain(m, st).(marks := Next(m, st).marks)
  {
  }

  lemma EntersSection(s: Server, pc: Pc)
    requires Waiting(pc)
    ensures !Unlocked(Entered(s, pc)) && Entered(s, pc).name == pc.name
  {
  }

  lemma SoloCanGo(m0: State, m: State, idle: map<Tid, Pc>, u: Tid, pc: Pc)
    requires Solo(m0, m, idle, u, pc)
    ensures u in m.threads && m.threads[u] == pc && Enabled(m, Go(u)) && From(m0, Next(m, Go(u)))
  {
    FromStep(m0, m, Go(u));
  }

  lemma Enter(m0: State, m: State, idle: map<Tid, Pc>, u: Tid, pc: Pc) returns (m': State)
    requires Solo(m0, m, idle, u, pc) && Waiting(pc)
    ensures Solo(m0, m', idle, u, Entered(m.server, pc)) && SameRest(m, m') && m'.server == m.server
  {
    SoloCanGo(m0, m, idle, u, pc);
    m' := Next(m, Go(u));
    NextIsPlain(m, Go(u));
    EnterStep(m, u);
    EntersSection(m.server, pc);
    SameStacks(m, m');
    assert m.threads[u := Entered(m.server, pc)] == idle[u := Entered(m.server, pc)];
  }

  lemma CallStep(m: State, u: Tid)
    requires u in m.threads && CallsApi(m.threads[u])
    ensures ThreadStep(m, u) == Settle(m, u, Act(m.threads[u], m.server, m.now, Thread(u)))
  {
  }

  lemma SettlesSolo(m0: State, m: State, idle: map<Tid, Pc>, u: Tid, pc: Pc, e: Effect)
    requires Solo(m0, m, idle, u, pc) && (e.next.Some? ==> e.next.value.name == pc.name && (Unlocked(pc) ==> Unlocked(e.next.value)))
    ensures var m' := Settle(m, u, e);
      && m'.threads == (if e.next.Some? then idle[u := e.next.value] else idle)
      && m'.locks == if e.next.Some? && !Unlocked(e.next.value) then m.locks else map[]
  {
  }

  /** After a call with this effect. */
  ghost predicate Done(m0: State, m: State, m': State, idle: map<Tid, Pc>, u: Tid, e: Effect) {
    SameRest(m, m') && m'.server == e.server && if e.next.Some? then Solo(m0, m', idle, u, e.next.value) else Quiet(m0, m', idle)
  }

  lemma Call(m0: State, m: State, idle: map<Tid, Pc>, u: Tid, pc: Pc, e: Effect) returns (m': State)
    requires Solo(m0, m, idle, u, pc) && CallsApi(pc) && e == Act(pc, m.server, m.now, Thread(u))
    ensures Done(m0, m, m', idle, u, e)
  {
    SoloCanGo(m0, m, idle, u, pc);
    m' := Next(m, Go(u));
    NextIsPlain(m, Go(u));
    CallStep(m, u);
    ActName(pc, m.server, m.now, Thread(u));
    if Unlocked(pc) {
      NoNewSection(pc, m.server, m.now, Thread(u));
    }
    SettlesSolo(m0, m, idle, u, pc, e);
    SameStacks(m, m');
  }

  lemma NoNewSection(pc: Pc, s: Server, now: int, me: Writer)
    requires CallsApi(pc) && Unlocked(pc)
    ensures Act(pc, s, now, me).next.Some? ==> Unlocked(Act(pc, s, now, me).next.value)
  {
  }

  lemma Outside(m0: State, m: State, idle: map<Tid, Pc>, a: Action) returns (m': State)
    requires Quiet(m0, m, idle) && Allowed(m, a)
    ensures Quiet(m0, m', idle) && m' == Happen(m, a).(marks := m'.marks)
  {
    FromStep(m0, m, Env(a));
    m' := Next(m, Env(a));
  }

  /** Someone outside rewrites or removes a pod. */
  lemma OutsideWrites(m0: State, m: State, idle: map<Tid, Pc>, a: Action) returns (m': State)
    requires Quiet(m0, m, idle) && Allowed(m, a) && (a.UserDelete? || a.Reaped?)
    ensures Quiet(m0, m', idle) && SameRest(m, m')
    ensures m'.server == if a.UserDelete? then DeletePod(m.server, a.name, Writer.Outside).0 else Reap(m.server, a.name)
  {
    m' := Outside(m0, m, idle, a);
    SameStacks(m, m');
  }

  lemma AppStarts(m0: State, m: State, idle: map<Tid, Pc>, t: Target, n: Name) returns (m': State)
    requires Quiet(m0, m, idle) && t !in m.volume
    ensures Quiet(m0, m', idle) && m'.server == m.server && m'.volume == m.volume[t := n] && m'.live == m.live + {t}
    ensures m'.now == m.now && forall s :: Height(m', s) == Height(m, s)
  {
    m' := Outside(m0, m, idle, AppStart(t, n));
    SameStacks(m, m');
  }

  // ----- one call after the other

  lemma AddCall(m0: State, m: State, idle: map<Tid, Pc>, u: Tid, pc: Pc) returns (m': State)
    requires Solo(m0, m, idle, u, pc) && (pc.AddWait? || pc.AddCreate? || pc.AddRead? || pc.AddWrite?)
    ensures Done(m0, m, m', idle, u, AddAct(pc, m.server, Thread(u)))
  {
    m' := Call(m0, m, idle, u, pc, AddAct(pc, m.server, Thread(u)));
  }

  lemma DropCall(m0: State, m: State, idle: map<Tid, Pc>, u: Tid, pc: Pc) returns (m': State)
    requires Solo(m0, m, idle, u, pc) && (pc.DropStart? || pc.DropRead? || pc.DropWrite? || pc.DropRecheck?)
    ensures Done(m0, m, m', idle, u, DropAct(pc, m.server, Thread(u)))
  {
    m' := Call(m0, m, idle, u, pc, DropAct(pc, m.server, Thread(u)));
  }

  lemma IdleCall(m0: State, m: State, idle: map<Tid, Pc>, u: Tid, pc: Pc) returns (m': State)
    requires Solo(m0, m, idle, u, pc) && (pc.IdleRead? || pc.IdleDecide? || pc.IdleStamp? || pc.IdleDelete?)
    ensures Done(m0, m, m', idle, u, IdleAct(pc, m.server, m.now, Thread(u)))
  {
    m' := Call(m0, m, idle, u, pc, IdleAct(pc, m.server, m.now, Thread(u)));
  }

  lemma CheckCall(m0: State, m: State, idle: map<Tid, Pc>, u: Tid, pc: Pc) returns (m': State)
    requires Solo(m0, m, idle, u, pc) && pc.CheckPrune?
    ensures Done(m0, m, m', idle, u, CheckAct(pc, m.server, Thread(u)))
  {
    m' := Call(m0, m, idle, u, pc, CheckAct(pc, m.server, Thread(u)));
  }

  lemma RecreateCall(m0: State, m: State, idle: map<Tid, Pc>, u: Tid, pc: Pc) returns (m': State)
    requires Solo(m0, m, idle, u, pc) && (pc.Unfinalize? || pc.RecreatePoll?)
    ensures Done(m0, m, m', idle, u, RecreateAct(pc, m.server, Thread(u)))
  {
    m' := Call(m0, m, idle, u, pc, RecreateAct(pc, m.server, Thread(u)));
  }

  /** A publish of an unbound target, up to its bind, by a thread that then fails. */
  lemma Publish(m0: State, m: State, idle: map<Tid, Pc>, u: Tid, n: Name, t: Target, made: Pod) returns (m': State)
    requires Quiet(m0, m, idle) && u !in idle && CanBegin(m, AddLock(n, t, made))
    requires n in m.server.pods ==> !m.server.pods[n].deleting
    ensures Quiet(m0, m', idle) && SameRest(m, m') && m'.server == AddAlone(m.server, n, t, made, Thread(u)).0
  {
    var m1 := Start(m0, m, idle, u, AddLock(n, t, made));
    var m2 := Enter(m0, m1, idle, u, AddLock(n, t, made));
    var m3 := AddCall(m0, m2, idle, u, AddWait(n, t, made));
    if n !in m.server.pods {
      var m4 := AddCall(m0, m3, idle, u, AddCreate(n, t, made));
      m' := Stop(m0, m4, idle, u, Bind(n, t));
    } else {
      var m4 := AddCall(m0, m3, idle, u, AddRead(n, t));
      if Ref(t) in m.server.pods[n].annotations {
        m' := Stop(m0, m4, idle, u, Bind(n, t));
      } else {
        var m5 := AddCall(m0, m4, idle, u, AddWrite(n, t, m.server.pods[n]));
        m' := Stop(m0, m5, idle, u, Bind(n, t));
      }
    }
  }

  /** An unpublish of an unbound target, up to the removal of its reference. */
  lemma Drop(m0: State, m: State, idle: map<Tid, Pc>, u: Tid, n: Name, t: Target) returns (m': State)
    requires Quiet(m0, m, idle) && u !in idle && CanBegin(m, Unmount(n, t)) && Height(m, t) == 0
    requires n in m.server.pods && Ref(t) in m.server.pods[n].annotations
    ensures Solo(m0, m', idle, u, DropRecheck(n, t)) && SameRest(m, m')
    ensures m'.server == DropRefAlone(m.server, n, t, Thread(u)).0
  {
    var m1 := Start(m0, m, idle, u, Unmount(n, t));
    var m2 := Unmounted(m0, m1, idle, u, n, t);
    var m3 := Enter(m0, m2, idle, u, DropLock(n, t));
    var m4 := DropCall(m0, m3, idle, u, DropStart(n, t));
    var m5 := DropCall(m0, m4, idle, u, DropRead(n, t));
    m' := DropCall(m0, m5, idle, u, DropWrite(n, t, m.server.pods[n]));
  }

  lemma Unmounted(m0: State, m: State, idle: map<Tid, Pc>, u: Tid, n: Name, t: Target) returns (m': State)
    requires Solo(m0, m, idle, u, Unmount(n, t)) && Height(m, t) == 0
    ensures Solo(m0, m', idle, u, DropLock(n, t)) && SameRest(m, m') && m'.server == m.server
  {
    SoloCanGo(m0, m, idle, u, Unmount(n, t));
    m' := Next(m, Go(u));
    NextIsPlain(m, Go(u));
    assert MountStep(m, u) == m.(stacks := m.stacks[t := 0], threads := m.threads[u := DropLock(n, t)]);
    assert m.threads[u := DropLock(n, t)] == idle[u := DropLock(n, t)];
  }

  lemma StartsQuiet(t: Target, n: Name) returns (m: State)
    ensures Quiet(Boot(), m, map[]) && m.server == Server(map[], []) && (forall s :: Height(m, s) == 0) && m.volume == map[t := n] && m.live == {t} && m.now == 0
  {
    FromItself(Boot());
    m := AppStarts(Boot(), Boot(), map[], t, n);
    assert m.volume == map[t := n] && m.live == {t};
  }

  function Made(a: Annotations, command: seq<string>): Pod {
    Pod(0, map[], a, {}, false, Status(false, false, false), [Container(command, map[], map[])])
  }

  // ----- checkAnnotations from a stale copy

  /** A pod gains a reference, loses it and gains it again; `copy` is what was stored in between. */
  lemma BackAndForth(n: Name, t: Target) returns (m: State, copy: Pod)
    ensures Quiet(Boot(), m, map[]) && Logged(m.server, n, copy) && copy.annotations == map[] && !copy.deleting
    ensures Holds(m.server, n, t)
  {
    var made := Made(map[], []);
    var m1 := StartsQuiet(t, n);
    var m2 := Publish(Boot(), m1, map[], 0, n, t, made);
    PublishAlone(m1.server, n, t, made, Thread(0));
    FromInv(m2);
    StoredProper(m2.server, m2.volume, n);
    assert m2.server.pods[n].annotations == map[Ref(t) := Path(t)];
    var m3 := Drop(Boot(), m2, map[], 0, n, t);
    DropKeepsPod(m2.server, n, t, Thread(0));
    var m4 := Stop(Boot(), m3, map[], 0, DropRecheck(n, t));
    copy := m4.server.pods[n];
    FromInv(m4);
    assert copy.annotations == map[];
    m := Publish(Boot(), m4, map[], 0, n, t, made);
    PublishAlone(m4.server, n, t, made, Thread(0));
  }

  /** The check finds nothing to prune and no delay. */
  lemma EmptyCheck(s: Server, n: Name, copy: Pod, table: Liveness, agreed: bool, now: int, me: Writer)
    requires copy.annotations == map[] && !copy.deleting
    ensures CheckAct(CheckPrune(n, copy, table, agreed), s, me) == Effect(s, Some(IdleDecide(n, copy, Reconcile(agreed))))
    ensures IdleAct(IdleDecide(n, copy, Reconcile(agreed)), s, now, me) == Effect(s, Some(IdleDelete(n, copy, Reconcile(agreed))))
  {
    assert Refs(map[]) == {} && Prune(map[], table) == map[];
    assert AnnotatedWith(copy, map[]) == copy;
  }

  lemma CheckToDelete(m0: State, m: State, u: Tid, n: Name, copy: Pod, table: Liveness, agreed: bool) returns (m': State)
    requires Solo(m0, m, map[], u, CheckPrune(n, copy, table, agreed)) && copy.annotations == map[] && !copy.deleting
    ensures Solo(m0, m', map[], u, IdleDelete(n, copy, Reconcile(agreed))) && m'.server == m.server
  {
    EmptyCheck(m.server, n, copy, table, agreed, m.now, Thread(u));
    var m1 := CheckCall(m0, m, map[], u, CheckPrune(n, copy, table, agreed));
    m' := IdleCall(m0, m1, map[], u, IdleDecide(n, copy, Reconcile(agreed)));
  }

  /** The deletion without a version can hit a referenced pod: a run of the machine up to that step. The check
      works on what was stored before the only reference was added. */
  lemma StaleDeletionHappens()
    ensures exists m, u :: From(Boot(), m) && Enabled(m, Go(u)) && DeletesReferenced(m, Go(u))
  {
    var n, t := "pod", "target";
    var m1, copy := BackAndForth(n, t);
    var pc := CheckLock(n, copy, map[]);
    var m2 := Start(Boot(), m1, map[], 0, pc);
    var m3 := Enter(Boot(), m2, map[], 0, pc);
    var m4 := CheckToDelete(Boot(), m3, 0, n, copy, map[], Fresh(m2.server, n, copy));
    assert m4.threads[0].IdleDelete? && Enabled(m4, Go(0)) && DeletesReferenced(m4, Go(0));
  }

  // ----- a merge into a pod that waits for its deletion instant

  lemma Park(m0: State, m: State, u: Tid, pc: Pc)
    requires Unlocked(pc)
    ensures Solo(m0, m, map[], u, pc) <==> Quiet(m0, m, map[u := pc])
  {
  }

  const DELAY := 3600 * SECOND

  function Delayed(command: seq<string>): Pod {
    Made(map[DeleteDelay := Duration(DELAY)], command)
  }

  /** A pod of a live target is published and deleted by a user. */
  lemma UserDeletes(n: Name, t: Target, command: seq<string>) returns (m: State)
    ensures Quiet(Boot(), m, map[]) && n in m.server.pods && m.volume == map[t := n] && m.live == {t} && (forall s :: Height(m, s) == 0)
    ensures var p := m.server.pods[n];
      && p.deleting && p.finalizers == {FINALIZER} && p.containers == Delayed(command).containers && !p.status.resourceError
      && Refs(p.annotations) == {t}
  {
    var made := Delayed(command);
    var m1 := StartsQuiet(t, n);
    var m2 := Publish(Boot(), m1, map[], 0, n, t, made);
    PublishAlone(m1.server, n, t, made, Thread(0));
    m := OutsideWrites(Boot(), m2, map[], UserDelete(n));
  }

  /** Its handler takes the finalizer off and waits for the lock to create it again. */
  lemma ReleasesOld(m: State, n: Name, command: seq<string>) returns (m': State)
    requires Quiet(Boot(), m, map[]) && n in m.server.pods && Command.MountPathOfCommand(command).Some?
    requires var p := m.server.pods[n];
      && p.deleting && p.finalizers == {FINALIZER} && p.containers == Delayed(command).containers && !p.status.resourceError
      && Refs(p.annotations) != {}
    ensures Quiet(Boot(), m', map[1 := RecreateLock(n, m.server.pods[n])]) && SameRest(m, m')
    ensures n in m'.server.pods && m'.server.pods[n].deleting && m'.server.pods[n].finalizers == {}
  {
    var copy := m.server.pods[n];
    FromInv(m);
    HasRefIffRefs(copy.annotations);
    var m1 := Start(Boot(), m, map[], 1, Unfinalize(n, copy));
    assert Mountable(copy);
    ReleaseEffect(m.server, n, copy, m.now);
    m' := RecreateCall(Boot(), m1, map[], 1, Unfinalize(n, copy));
    Park(Boot(), m', 1, RecreateLock(n, copy));
  }

  lemma ReleaseEffect(s: Server, n: Name, copy: Pod, now: int)
    requires n in s.pods && s.pods[n] == copy && Mountable(copy) && HasRef(copy.annotations)
    ensures Act(Unfinalize(n, copy), s, now, Thread(1)) ==
      Effect(Put(s, n, copy.(finalizers := copy.finalizers - {FINALIZER}), Thread(1)), Some(RecreateLock(n, copy)))
  {
  }

  /** The tail of an unpublish that leaves a pod unused: it decides on a deletion instant, */
  lemma DecideUnused(m0: State, m: State, idle: map<Tid, Pc>, u: Tid, n: Name, t: Target) returns (m': State)
    requires Solo(m0, m, idle, u, DropRecheck(n, t)) && n in m.server.pods
    requires m.server.pods[n].annotations == map[DeleteDelay := Duration(DELAY)]
    ensures Solo(m0, m', idle, u, IdleDecide(n, m.server.pods[n], Unpublish(t))) && SameRest(m, m') && m'.server == m.server
  {
    assert !HasRef(m.server.pods[n].annotations);
    var m1 := DropCall(m0, m, idle, u, DropRecheck(n, t));
    m' := IdleCall(m0, m1, idle, u, IdleRead(n, Unpublish(t)));
  }

  /** and stores it. */
  lemma StampUnused(m0: State, m: State, idle: map<Tid, Pc>, u: Tid, n: Name, t: Target, p: Pod) returns (m': State)
    requires Solo(m0, m, idle, u, IdleDecide(n, p, Unpublish(t))) && n in m.server.pods && m.server.pods[n] == p
    requires p.annotations == map[DeleteDelay := Duration(DELAY)]
    ensures Quiet(m0, m', idle) && SameRest(m, m') && n in m'.server.pods && m'.server.pods[n].deleting == p.deleting
    ensures m'.server.pods[n].annotations == p.annotations[DeleteAt := Stamp((m.now + DELAY) / SECOND)]
  {
    StampEffect(m.server, n, p, t, m.now, Thread(u));
    var m1 := IdleCall(m0, m, idle, u, IdleDecide(n, p, Unpublish(t)));
    m' := IdleCall(m0, m1, idle, u, IdleStamp(n, p, (m.now + DELAY) / SECOND, Unpublish(t)));
    SameRestOn(m, m1, m');
  }

  lemma StampEffect(s: Server, n: Name, p: Pod, t: Target, now: int, me: Writer)
    requires n in s.pods && s.pods[n] == p && p.annotations == map[DeleteDelay := Duration(DELAY)]
    ensures var k := (now + DELAY) / SECOND;
      && IdleAct(IdleDecide(n, p, Unpublish(t)), s, now, me) == Effect(s, Some(IdleStamp(n, p, k, Unpublish(t))))
      && IdleAct(IdleStamp(n, p, k, Unpublish(t)), s, now, me) == Effect(Put(s, n, Stamped(p, k), me), None)
  {
    CountdownEnds(p.annotations, now, now);
  }

  lemma NewPod(m0: State, m: State, idle: map<Tid, Pc>, n: Name, t: Target, command: seq<string>) returns (m': State)
    requires Quiet(m0, m, idle) && 0 !in idle && n !in m.server.pods
    requires t in m.live && t in m.volume && m.volume[t] == n && forall u | u in idle :: Token(idle[u]) == None
    ensures Quiet(m0, m', idle) && SameRest(m, m') && n in m'.server.pods && !m'.server.pods[n].deleting
    ensures m'.server.pods[n].annotations == map[DeleteDelay := Duration(DELAY)][Ref(t) := Path(t)]
  {
    m' := Publish(m0, m, idle, 0, n, t, Delayed(command));
  }

  /** Meanwhile another target is published, and its reference dropped again. */
  lemma ComesAndGoes(m0: State, m: State, idle: map<Tid, Pc>, n: Name, t: Target, command: seq<string>) returns (m': State)
    requires Quiet(m0, m, idle) && 0 !in idle && n !in m.server.pods && Height(m, t) == 0
    requires t in m.live && t in m.volume && m.volume[t] == n && forall u | u in idle :: Token(idle[u]) == None
    ensures Solo(m0, m', idle, 0, DropRecheck(n, t)) && SameRest(m, m') && n in m'.server.pods && !m'.server.pods[n].deleting
    ensures m'.server.pods[n].annotations == map[DeleteDelay := Duration(DELAY)]
  {
    var m1 := NewPod(m0, m, idle, n, t, command);
    NotBusy(m1, t);
    m' := Drop(m0, m1, idle, 0, n, t);
    RemovesOnly(m1.server, n, t);
    AddedAndRemoved(map[DeleteDelay := Duration(DELAY)], t);
  }

  lemma NotBusy(m: State, t: Target)
    requires forall u | u in m.threads :: Token(m.threads[u]) == None
    ensures !Busy(m, t)
  {
  }

  lemma AddedAndRemoved(a: Annotations, t: Target)
    requires Ref(t) !in a
    ensures a[Ref(t) := Path(t)] - {Ref(t)} == a
  {
  }

  lemma RemovesOnly(s: Server, n: Name, t: Target)
    requires n in s.pods && Ref(t) in s.pods[n].annotations
    ensures var s' := DropRefAlone(s, n, t, Thread(0)).0;
      n in s'.pods && s'.pods[n].deleting == s.pods[n].deleting && s'.pods[n].annotations == s.pods[n].annotations - {Ref(t)}
  {
  }

  /** Thread `u` can merge, and stores both a reference and a deletion instant by it. */
  ghost predicate StoresBoth(m: State, u: Tid) {
    && Enabled(m, Go(u)) && BreaksExclusion(m, Go(u), m.threads[u].name)
    && exists n :: n in Next(m, Go(u)).server.pods && !Exclusive(Next(m, Go(u)).server.pods[n].annotations)
  }

  lemma SomeMountCommand() returns (command: seq<string>)
    ensures Command.MountPathOfCommand(command).Some?
  {
    var id := "v";
    var setting := Command.JfsSetting(true, id, "", Command.POD_MOUNT_BASE + "/" + id, [], "", "", "", "", map[]);
    Command.CommandRoundTrip(setting, []);
    command := ["sh", "-c", Command.QuoteForShell(Command.MountLine(setting, []))];
  }

  /** The old pod is gone and its handler waits to create it again, when another target's pod arrives. */
  lemma Recreating(n: Name, former: Target, t: Target, command: seq<string>) returns (m: State, copy: Pod)
    requires Command.MountPathOfCommand(command).Some? && t != former
    ensures Quiet(Boot(), m, map[1 := RecreateLock(n, copy)]) && n !in m.server.pods
    ensures t in m.live && m.volume == map[former := n, t := n] && forall s :: Height(m, s) == 0
    ensures Refs(copy.annotations) == {former}
  {
    var m1 := UserDeletes(n, former, command);
    copy := m1.server.pods[n];
    var m2 := ReleasesOld(m1, n, command);
    var m3 := OutsideWrites(Boot(), m2, map[1 := RecreateLock(n, copy)], Reaped(n));
    m := AppStarts(Boot(), m3, map[1 := RecreateLock(n, copy)], t, n);
    assert m.volume == map[former := n][t := n];
  }

  /** Meanwhile that pod falls idle and gets its deletion instant, an hour ahead. */
  lemma Counting(m: State, idle: map<Tid, Pc>, n: Name, t: Target, command: seq<string>) returns (m': State)
    requires Quiet(Boot(), m, idle) && 0 !in idle && n !in m.server.pods && Height(m, t) == 0
    requires t in m.live && t in m.volume && m.volume[t] == n && forall u | u in idle :: Token(idle[u]) == None
    ensures Quiet(Boot(), m', idle) && SameRest(m, m') && n in m'.server.pods && !m'.server.pods[n].deleting
    ensures m'.server.pods[n].annotations == map[DeleteDelay := Duration(DELAY)][DeleteAt := Stamp((m.now + DELAY) / SECOND)]
  {
    var m1 := ComesAndGoes(Boot(), m, idle, n, t, command);
    m' := Stamps(m1, idle, n, t);
    SameRestOn(m, m1, m');
  }

  lemma Stamps(m: State, idle: map<Tid, Pc>, n: Name, t: Target) returns (m': State)
    requires Solo(Boot(), m, idle, 0, DropRecheck(n, t)) && n in m.server.pods && !m.server.pods[n].deleting
    requires m.server.pods[n].annotations == map[DeleteDelay := Duration(DELAY)]
    ensures Quiet(Boot(), m', idle) && SameRest(m, m') && n in m'.server.pods && !m'.server.pods[n].deleting
    ensures m'.server.pods[n].annotations == map[DeleteDelay := Duration(DELAY)][DeleteAt := Stamp((m.now + DELAY) / SECOND)]
  {
    var m1 := DecideUnused(Boot(), m, idle, 0, n, t);
    m' := StampUnused(Boot(), m1, idle, 0, n, t, m.server.pods[n]);
    SameRestOn(m, m1, m');
  }

  /** The handler takes the lock, finds the new pod, and is about to merge. */
  lemma AboutToMerge(m: State, n: Name, copy: Pod) returns (m': State)
    requires Quiet(Boot(), m, map[1 := RecreateLock(n, copy)]) && n in m.server.pods && !m.server.pods[n].deleting
    ensures Solo(Boot(), m', map[], 1, MergeWrite(n, copy, m.server.pods[n])) && SameRest(m, m') && m'.server == m.server
  {
    Park(Boot(), m, 1, RecreateLock(n, copy));
    var m1 := Enter(Boot(), m, map[], 1, RecreateLock(n, copy));
    m' := RecreateCall(Boot(), m1, map[], 1, RecreatePoll(n, copy));
  }

  lemma MergeStoresBoth(m: State, n: Name, copy: Pod)
    requires n in m.server.pods && Solo(Boot(), m, map[], 1, MergeWrite(n, copy, m.server.pods[n]))
    requires DeleteAt in m.server.pods[n].annotations
    ensures StoresBoth(m, 1)
  {
    FromInv(m);
    assert m.threads[1] == MergeWrite(n, copy, m.server.pods[n]);
    assert ThreadOk(m.server, m.volume, m.threads[1]);
    StoredProper(m.server, m.volume, n);
    MergeExclusion(m.server.pods[n].annotations, copy.annotations);
    NextIsPlain(m, Go(1));
    CallStep(m, 1);
    assert n in Next(m, Go(1)).server.pods && !Exclusive(Next(m, Go(1)).server.pods[n].annotations);
  }

  /** A run of the machine up to a merge that stores both a reference and a deletion instant. */
  lemma ClashHappens()
    ensures exists m, u :: From(Boot(), m) && StoresBoth(m, u)
  {
    var command := SomeMountCommand();
    var m1, copy := Recreating("pod", "former", "new", command);
    var m2 := Counting(m1, map[1 := RecreateLock("pod", copy)], "pod", "new", command);
    var m3 := AboutToMerge(m2, "pod", copy);
    MergeStoresBoth(m3, "pod", copy);
  }

  // ----- and what follows: the deletion instant outlives the references the merge brought

  lemma MergeCall(m: State, n: Name, copy: Pod) returns (m': State)
    requires n in m.server.pods && Solo(Boot(), m, map[], 1, MergeWrite(n, copy, m.server.pods[n]))
    ensures Quiet(Boot(), m', map[]) && SameRest(m, m') && n in m'.server.pods
    ensures m'.server.pods[n].annotations == Merged(m.server.pods[n].annotations, copy.annotations)
  {
    var pc := MergeWrite(n, copy, m.server.pods[n]);
    m' := Call(Boot(), m, map[], 1, pc, RecreateAct(pc, m.server, Thread(1)));
  }

  /** The unpublish of the only reference deletes the pod at once if its deletion instant has passed. */
  lemma DeletesAtOnce(m: State, n: Name, t: Target) returns (m': State)
    requires Quiet(m, m, map[]) && t in m.volume && m.volume[t] == n && Height(m, t) == 0 && n in m.server.pods
    requires WellKeyed(m.server.pods[n].annotations) && Refs(m.server.pods[n].annotations) == {t}
    requires ShouldDelay(m.server.pods[n].annotations, m.now).DeleteNow? && IdleTime.ValidDelay(m.server.pods[n].annotations)
    ensures m'.now == m.now && n in m'.server.pods && Solo(m, m', map[], 0, IdleDelete(n, m'.server.pods[n], Unpublish(t)))
    ensures IdleTime.ValidDelay(m'.server.pods[n].annotations)
  {
    assert Ref(t) in m.server.pods[n].annotations;
    var m1 := Drop(m, m, map[], 0, n, t);
    DropKeepsPod(m.server, n, t, Thread(0));
    var p := m1.server.pods[n];
    UnusedEffect(m1.server, n, t, m.now, Thread(0));
    var m2 := DropCall(m, m1, map[], 0, DropRecheck(n, t));
    var m3 := IdleCall(m, m2, map[], 0, IdleRead(n, Unpublish(t)));
    m' := IdleCall(m, m3, map[], 0, IdleDecide(n, p, Unpublish(t)));
  }

  lemma UnusedEffect(s: Server, n: Name, t: Target, now: int, me: Writer)
    requires n in s.pods && Refs(s.pods[n].annotations) == {} && ShouldDelay(s.pods[n].annotations, now).DeleteNow?
    ensures DropAct(DropRecheck(n, t), s, me) == Effect(s, Some(IdleRead(n, Unpublish(t))))
    ensures IdleAct(IdleRead(n, Unpublish(t)), s, now, me) == Effect(s, Some(IdleDecide(n, s.pods[n], Unpublish(t))))
    ensures IdleAct(IdleDecide(n, s.pods[n], Unpublish(t)), s, now, me) == Effect(s, Some(IdleDelete(n, s.pods[n], Unpublish(t))))
  {
    HasRefIffRefs(s.pods[n].annotations);
  }

  /** From `m`, where pod `n` stores a reference, a run leads to its deletion for idleness although its delay is
      valid, and no time passes. */
  ghost predicate DeletedEarly(m: State, m': State, u: Tid, n: Name) {
    && From(m, m') && m'.now == m.now && !Refless(m.server, n)
    && Enabled(m', Go(u)) && IdleTime.DeletesIdle(m', Go(u), n) && IdleTime.ValidDelay(m'.threads[u].copy.annotations)
  }

  /** The pod the merge leaves: it refers to the former target, and is to be deleted in an hour. */
  lemma MergedPod(m: State, n: Name, copy: Pod, former: Target) returns (m': State)
    requires Quiet(Boot(), m, map[1 := RecreateLock(n, copy)]) && n in m.server.pods && !m.server.pods[n].deleting
    requires IdleTime.ValidDelay(m.server.pods[n].annotations) && DeleteAt in m.server.pods[n].annotations
    requires Refs(m.server.pods[n].annotations) == {} && Refs(copy.annotations) == {former}
    ensures Quiet(Boot(), m', map[]) && SameRest(m, m') && n in m'.server.pods
    ensures var a := m'.server.pods[n].annotations;
      && WellKeyed(a) && Refs(a) == {former} && IdleTime.ValidDelay(a)
      && DeleteAt in a && a[DeleteAt] == m.server.pods[n].annotations[DeleteAt]
  {
    var m1 := AboutToMerge(m, n, copy);
    m' := MergeCall(m1, n, copy);
    FromInv(m1);
    StoredProper(m1.server, m1.volume, n);
    MergeIsUnion(m.server.pods[n].annotations, copy.annotations);
  }

  /** After a clash the idle time bound fails: a run of the machine in which a pod with a delay of an hour is
      deleted for idleness at the very clock reading at which it still stored a reference. */
  lemma EarlyDeletionHappens()
    ensures exists m, m', u, n :: From(Boot(), m) && DeletedEarly(m, m', u, n)
  {
    var command := SomeMountCommand();
    var m1, copy := Recreating("pod", "former", "new", command);
    var m2 := Counting(m1, map[1 := RecreateLock("pod", copy)], "pod", "new", command);
    var m3 := MergedPod(m2, "pod", copy, "former");
    HourLater(m3, m1.now, "pod", "former");
  }

  lemma HourLater(m: State, start: int, n: Name, t: Target)
    requires Quiet(Boot(), m, map[]) && t in m.volume && m.volume[t] == n && Height(m, t) == 0 && n in m.server.pods
    requires WellKeyed(m.server.pods[n].annotations) && Refs(m.server.pods[n].annotations) == {t} && m.now >= start
    requires IdleTime.ValidDelay(m.server.pods[n].annotations) && DeleteAt in m.server.pods[n].annotations
    requires m.server.pods[n].annotations[DeleteAt] == Stamp((start + DELAY) / SECOND)
    ensures exists m1, m2, u, k :: From(Boot(), m1) && DeletedEarly(m1, m2, u, k)
  {
    var m1 := Outside(Boot(), m, map[], Tick(DELAY));
    FromItself(m1);
    var m2 := DeletesAtOnce(m1, n, t);
    assert DeletedEarly(m1, m2, 0, n);
  }

  // ----- a check whose table is older than the app pod

  lemma Binds(m: State, u: Tid, n: Name, t: Target) returns (m': State)
    requires Solo(Boot(), m, map[], u, Bind(n, t))
    ensures Quiet(Boot(), m', map[]) && Height(m', t) == Height(m, t) + 1
    ensures m'.server == m.server && m'.volume == m.volume && m'.live == m.live && m'.now == m.now && m'.hash == m.hash
  {
    SoloCanGo(Boot(), m, map[], u, Bind(n, t));
    m' := Next(m, Go(u));
    NextIsPlain(m, Go(u));
    assert MountStep(m, u) == m.(stacks := m.stacks[t := Height(m, t) + 1], threads := m.threads - {u});
    assert m.threads - {u} == map[];
  }

  /** A live target is published and bound. */
  lemma Published(n: Name, t: Target) returns (m: State)
    ensures Quiet(Boot(), m, map[]) && t in m.live && t in m.volume && m.volume[t] == n && Height(m, t) > 0
    ensures Holds(m.server, n, t)
  {
    var made := Made(map[], []);
    var m1 := StartsQuiet(t, n);
    var m2 := Start(Boot(), m1, map[], 0, AddLock(n, t, made));
    var m3 := Enter(Boot(), m2, map[], 0, AddLock(n, t, made));
    var m4 := AddCall(Boot(), m3, map[], 0, AddWait(n, t, made));
    var m5 := AddCall(Boot(), m4, map[], 0, AddCreate(n, t, made));
    m := Binds(m5, 0, n, t);
  }

  /** The step prunes the stored reference of a live, bound target from a pod, and leaves it unreferenced. */
  ghost predicate Strands(m: State, u: Tid, t: Target) {
    && Enabled(m, Go(u)) && t in m.live && Height(m, t) > 0 && Bound.Referenced(m, t)
    && Bound.Prunes(m, Go(u), m.volume[t], t) && !Bound.Referenced(Next(m, Go(u)), t)
  }

  /** A run of the machine up to a check that has the stored version in hand, and a table that does not know
      the app pod yet: it takes the reference of a live target whose bind mount stays. */
  lemma LivePruneHappens()
    ensures exists m, u, t :: From(Boot(), m) && Strands(m, u, t)
  {
    var n, t := "pod", "target";
    var m1 := Published(n, t);
    var pc := CheckLock(n, m1.server.pods[n], map[]);
    FromInv(m1);
    var m2 := Start(Boot(), m1, map[], 0, pc);
    var m3 := Enter(Boot(), m2, map[], 0, pc);
    FromInv(m3);
    assert StepRemoves(m3, Go(0), n, t);
    SoloCanGo(Boot(), m3, map[], 0, Entered(m2.server, pc));
    if n in Next(m3, Go(0)).server.pods {
      RefsSurvive(m3, Go(0), n, t);
    }
    VolumeOfNext(m3, 0);
    assert Strands(m3, 0, t);
  }

  lemma VolumeOfNext(m: State, u: Tid)
    requires u in m.threads && CallsApi(m.threads[u])
    ensures Next(m, Go(u)).volume == m.volume
  {
  }
}
