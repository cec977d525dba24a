/** "Bound implies referenced": in runs that delete no pod with the reference of a live target and prune no such
    reference, a live target with something mounted on it has its reference stored in its volume's mount pod. */
module Bound {
  import opened Wrappers
  import opened Pods
  import opened ApiServer
  import opened Machine
  import opened Invariant
  import opened Safety

  /** The step deletes pod `n`: for idleness, to strip its resources, or by a user. */
  predicate Deletes(m: State, st: Step, n: Name) {
    || (st.Env? && st.action.UserDelete? && st.action.name == n)
    || (st.Go? && st.tid in m.threads && (m.threads[st.tid].IdleDelete? || m.threads[st.tid].StripDelete?) && m.threads[st.tid].name == n)
  }

  /** The step is a check that takes the reference of `t` out of pod `n`. */
  predicate Prunes(m: State, st: Step, n: Name, t: Target) {
    StepRemoves(m, st, n, t) && m.threads[st.tid].CheckPrune?
  }

  /** The step prunes the stored reference of a live target, or deletes the pod that stores it. */
  ghost predicate Harmful(m: State, st: Step) {
    exists n, t :: t in m.live && Holds(m.server, n, t) && (Deletes(m, st, n) || Prunes(m, st, n, t))
  }

  ghost predicate Referenced(m: State, t: Target) {
    t in m.volume && Holds(m.server, m.volume[t], t)
  }

  predicate Mounts(pc: Pc) {
    pc.Bind? || pc.Recover?
  }

  /** The part of an unpublish that comes after the last umount. */
  predicate Dropping(pc: Pc) {
    pc.DropLock? || pc.DropStart? || pc.DropRead? || pc.DropWrite? || pc.DropRecheck?
    || ((pc.IdleRead? || pc.IdleDecide? || pc.IdleStamp? || pc.IdleDelete?) && pc.op.Unpublish?)
  }

  /** A pod that was deleted stores no reference of a target that still lives. */
  ghost predicate MarkedUnused(log: seq<Write>, live: set<Target>) {
    forall i | 0 <= i < |log| && log[i].pod.deleting :: Refs(log[i].pod.annotations) !! live
  }

  ghost predicate TokensDistinct(threads: map<Tid, Pc>) {
    forall u, v | u in threads && v in threads && u != v && Token(threads[u]).Some? :: Token(threads[u]) != Token(threads[v])
  }

  ghost predicate ThreadBound(m: State, pc: Pc) {
    && (Mounts(pc) && pc.target in m.live ==> Referenced(m, pc.target))
    && (Dropping(pc) ==> Height(m, Token(pc).value) == 0)
  }

  ghost predicate BoundIsReferenced(m: State) {
    forall t | t in m.live && Height(m, t) > 0 :: Referenced(m, t)
  }

  ghost predicate BoundInv(m: State) {
    && BoundIsReferenced(m)
    && m.stacks.Keys <= m.volume.Keys
    && (forall u | u in m.threads :: ThreadBound(m, m.threads[u]))
    && TokensDistinct(m.threads)
    && MarkedUnused(m.server.log, m.live)
  }

  // ----- tokens

  lemma NodeToken(pc: Pc, s: Server, now: int, me: Writer)
    requires pc.AddWait? || pc.AddCreate? || pc.AddRead? || pc.AddWrite? || pc.DropStart? || pc.DropRead? || pc.DropWrite? || pc.DropRecheck?
    ensures var e := Act(pc, s, now, me); e.next.Some? ==> Token(e.next.value) == Token(pc)
  {
  }

  lemma IdleToken(pc: Pc, s: Server, now: int, me: Writer)
    requires pc.IdleRead? || pc.IdleDecide? || pc.IdleStamp? || pc.IdleDelete? || pc.CheckPrune?
    ensures var e := Act(pc, s, now, me); e.next.Some? ==> Token(e.next.value) == Token(pc)
  {
  }

  lemma ActToken(pc: Pc, s: Server, now: int, me: Writer)
    requires CallsApi(pc)
    ensures var e := Act(pc, s, now, me); e.next.Some? ==> Token(e.next.value) == Token(pc)
  {
    if pc.IdleRead? || pc.IdleDecide? || pc.IdleStamp? || pc.IdleDelete? || pc.CheckPrune? {
      IdleToken(pc, s, now, me);
    } else if Token(pc).Some? {
      NodeToken(pc, s, now, me);
    }
  }

  lemma ActDropping(pc: Pc, s: Server, now: int, me: Writer)
    requires CallsApi(pc)
    ensures var e := Act(pc, s, now, me); e.next.Some? && Dropping(e.next.value) ==> Dropping(pc)
    ensures var e := Act(pc, s, now, me); e.next.Some? && Mounts(e.next.value) ==>
      e.next.value.Bind? && (pc.AddCreate? || pc.AddRead? || pc.AddWrite?)
  {
  }

  lemma TokensMove(threads: map<Tid, Pc>, u: Tid, pc: Pc)
    requires TokensDistinct(threads) && u in threads && Token(pc) == Token(threads[u])
    ensures TokensDistinct(threads[u := pc]) && TokensDistinct(threads - {u})
  {
  }

  lemma MountTokens(m: State, u: Tid)
    requires TokensDistinct(m.threads) && u in m.threads
    requires m.threads[u].Bind? || m.threads[u].Unmount? || m.threads[u].Recover?
    ensures TokensDistinct(MountStep(m, u).threads)
  {
    var pc, m' := m.threads[u], MountStep(m, u);
    TokensMove(m.threads, u, if u in m'.threads then m'.threads[u] else pc);
  }

  lemma ApiTokens(m: State, u: Tid)
    requires TokensDistinct(m.threads) && u in m.threads && CallsApi(m.threads[u])
    ensures TokensDistinct(Settle(m, u, Act(m.threads[u], m.server, m.now, Thread(u))).threads)
  {
    var e := Act(m.threads[u], m.server, m.now, Thread(u));
    ActToken(m.threads[u], m.server, m.now, Thread(u));
    TokensMove(m.threads, u, if e.next.Some? then e.next.value else m.threads[u]);
  }

  lemma GoTokens(m: State, u: Tid)
    requires TokensDistinct(m.threads) && u in m.threads
    ensures TokensDistinct(ThreadStep(m, u).threads)
  {
    var pc := m.threads[u];
    if CallsApi(pc) {
      ApiTokens(m, u);
    } else if Waiting(pc) {
      TokensMove(m.threads, u, Entered(m.server, pc));
    } else {
      MountTokens(m, u);
    }
  }

  lemma BeginTokens(m: State, u: Tid, pc: Pc)
    requires TokensDistinct(m.threads) && u !in m.threads && CanBegin(m, pc)
    ensures TokensDistinct(m.threads[u := pc])
  {
  }

  // ----- a deleted pod has no references

  ghost predicate HoldsLive(s: Server, n: Name, live: set<Target>) {
    exists t :: t in live && Holds(s, n, t)
  }

  lemma ActMarked(s: Server, vs: Volumes, pc: Pc, now: int, me: Writer, live: set<Target>)
    requires ServerOk(s) && LogOk(s.log, vs) && CallsApi(pc) && ThreadOk(s, vs, pc) && MarkedUnused(s.log, live)
    requires pc.IdleDelete? || pc.StripDelete? ==> !HoldsLive(s, pc.name, live)
    ensures MarkedUnused(Act(pc, s, now, me).server.log, live)
  {
  }

  lemma EnvMarked(m: State, a: Action)
    requires Inv(m) && MarkedUnused(m.server.log, m.live) && Allowed(m, a)
    requires a.UserDelete? ==> !HoldsLive(m.server, a.name, m.live)
    ensures MarkedUnused(Happen(m, a).server.log, Happen(m, a).live)
  {
  }

  // ----- references of live targets stay

  /** Only the kubelet removes a pod, and only one that is marked. */
  lemma PodStays(m: State, st: Step, n: Name)
    requires Enabled(m, st) && n in m.server.pods && !m.server.pods[n].deleting
    ensures n in Plain(m, st).server.pods
  {
    if st.Go? {
      GoStays(m, st.tid, n);
    } else if st.Env? {
      EnvStays(m, st.action, n);
    }
  }

  lemma EnvStays(m: State, a: Action, n: Name)
    requires Allowed(m, a) && n in m.server.pods && !m.server.pods[n].deleting
    ensures n in Happen(m, a).server.pods
  {
  }

  lemma GoStays(m: State, u: Tid, n: Name)
    requires u in m.threads && n in m.server.pods
    ensures n in ThreadStep(m, u).server.pods
  {
    if CallsApi(m.threads[u]) {
      ActStays(m.threads[u], m.server, m.now, Thread(u), n);
    }
  }

  lemma ActStays(pc: Pc, s: Server, now: int, me: Writer, n: Name)
    requires CallsApi(pc) && n in s.pods
    ensures n in Act(pc, s, now, me).server.pods
  {
  }

  /** The step is the commit of t's own JUmount. */
  ghost predicate IsOwnDrop(m: State, st: Step, t: Target) {
    st.Go? && st.tid in m.threads && m.threads[st.tid].DropWrite? && m.threads[st.tid].target == t
  }

  lemma RefStays(m: State, st: Step, t: Target)
    requires Inv(m) && BoundInv(m) && Enabled(m, st)
    requires t in m.live && Referenced(m, t) && !IsOwnDrop(m, st, t) && !Harmful(m, st)
    ensures Referenced(Next(m, st), t)
  {
    var n := m.volume[t];
    HeldIsUnmarked(m.server, n, t, m.live);
    PodStays(m, st, n);
    assert !Prunes(m, st, n, t);
    RefsSurvive(m, st, n, t);
    VolumeStays(m, st);
  }

  lemma HeldIsUnmarked(s: Server, n: Name, t: Target, live: set<Target>)
    requires ServerOk(s) && MarkedUnused(s.log, live) && t in live && Holds(s, n, t)
    ensures !s.pods[n].deleting
  {
  }

  lemma EnvVolume(m: State, a: Action)
    requires Allowed(m, a)
    ensures forall t | t in m.volume :: t in Happen(m, a).volume && Happen(m, a).volume[t] == m.volume[t]
    ensures forall t | t in Happen(m, a).live && t in m.volume :: t in m.live
  {
  }

  lemma VolumeStays(m: State, st: Step)
    requires Enabled(m, st)
    ensures forall t | t in m.volume :: t in Next(m, st).volume && Next(m, st).volume[t] == m.volume[t]
    ensures forall t | t in Next(m, st).live && t in m.volume :: t in m.live
    ensures Plain(m, st).live == Next(m, st).live
  {
    if st.Env? {
      EnvVolume(m, st.action);
    } else {
      assert Next(m, st).volume == m.volume && Next(m, st).live == m.live;
    }
  }

  /** A publish reaches its bind only with the reference stored. */
  lemma BindIsReferenced(s: Server, vs: Volumes, pc: Pc, me: Writer)
    requires ServerOk(s) && LogOk(s.log, vs) && ThreadOk(s, vs, pc)
    requires pc.AddCreate? || pc.AddRead? || pc.AddWrite?
    ensures var e := AddAct(pc, s, me); e.next.Some? && e.next.value.Bind? ==> Holds(e.server, pc.name, pc.target)
  {
  }

  // ----- every step

  /** References seen by anyone but the thread that moves. */
  lemma OthersBound(m: State, st: Step, m': State, v: Tid)
    requires Inv(m) && BoundInv(m) && Enabled(m, st) && !Harmful(m, st) && m' == Plain(m, st)
    requires v in m.threads && (st.Env? || st.tid != v) && Mounts(m.threads[v]) && m.threads[v].target in m'.live
    ensures Referenced(m', m.threads[v].target)
  {
    MountedIsReferenced(m, st, v);
    NotItsDrop(m, st, v);
    RefStays(m, st, m.threads[v].target);
  }

  lemma MountedIsReferenced(m: State, st: Step, v: Tid)
    requires Inv(m) && BoundInv(m) && Enabled(m, st)
    requires v in m.threads && Mounts(m.threads[v]) && m.threads[v].target in Plain(m, st).live
    ensures m.threads[v].target in m.live && Referenced(m, m.threads[v].target)
  {
    TargetKnown(m, v);
    VolumeStays(m, st);
    assert ThreadBound(m, m.threads[v]);
  }

  lemma TargetKnown(m: State, v: Tid)
    requires ThreadsOk(m.server, m.volume, m.threads) && v in m.threads
    requires m.threads[v].Bind? || m.threads[v].Unmount? || m.threads[v].Recover?
    ensures m.threads[v].target in m.volume
  {
    assert ThreadOk(m.server, m.volume, m.threads[v]);
  }

  lemma NotItsDrop(m: State, st: Step, v: Tid)
    requires TokensDistinct(m.threads) && v in m.threads && (st.Env? || st.tid != v) && Mounts(m.threads[v])
    ensures !IsOwnDrop(m, st, m.threads[v].target)
  {
    assert Token(m.threads[v]) == Some(m.threads[v].target);
  }

  lemma StacksReferenced(m: State, st: Step, m': State)
    requires Inv(m) && BoundInv(m) && Enabled(m, st) && !Harmful(m, st) && m' == Plain(m, st) && m'.stacks == m.stacks
    ensures BoundIsReferenced(m')
  {
    VolumeStays(m, st);
    if st.Go? {
      assert ThreadBound(m, m.threads[st.tid]);
    }
    forall t | t in m'.live && Height(m', t) > 0 ensures Referenced(m', t) {
      assert t in m.volume;
      RefStays(m, st, t);
    }
  }

  lemma ThreadBoundApi(m: State, u: Tid)
    requires Inv(m) && BoundInv(m) && u in m.threads && CallsApi(m.threads[u]) && !Harmful(m, Go(u))
    ensures var m' := ThreadStep(m, u); u in m'.threads ==> ThreadBound(m', m'.threads[u])
  {
    var pc := m.threads[u];
    var e := Act(pc, m.server, m.now, Thread(u));
    assert ThreadOk(m.server, m.volume, pc) && ThreadBound(m, pc);
    if e.next.Some? {
      ActToken(pc, m.server, m.now, Thread(u));
      ActDropping(pc, m.server, m.now, Thread(u));
      if Mounts(e.next.value) {
        BindIsReferenced(m.server, m.volume, pc, Thread(u));
        ActName(pc, m.server, m.now, Thread(u));
      }
    }
  }

  lemma HarmlessDeletion(m: State, u: Tid)
    requires u in m.threads && !Harmful(m, Go(u)) && (m.threads[u].IdleDelete? || m.threads[u].StripDelete?)
    ensures !HoldsLive(m.server, m.threads[u].name, m.live)
  {
    if t :| t in m.live && Holds(m.server, m.threads[u].name, t) {
      assert Deletes(m, Go(u), m.threads[u].name);
    }
  }

  lemma ApiBound(m: State, u: Tid)
    requires Inv(m) && BoundInv(m) && u in m.threads && CallsApi(m.threads[u]) && !Harmful(m, Go(u))
    ensures BoundInv(ThreadStep(m, u))
  {
    var m' := ThreadStep(m, u);
    assert m' == Plain(m, Go(u));
    assert ThreadOk(m.server, m.volume, m.threads[u]) && ThreadBound(m, m.threads[u]);
    if m.threads[u].IdleDelete? || m.threads[u].StripDelete? {
      HarmlessDeletion(m, u);
    }
    ActMarked(m.server, m.volume, m.threads[u], m.now, Thread(u), m.live);
    StacksReferenced(m, Go(u), m');
    GoTokens(m, u);
    ThreadBoundApi(m, u);
    forall v | v in m'.threads ensures ThreadBound(m', m'.threads[v]) {
      if v != u {
        assert m'.threads[v] == m.threads[v] && ThreadBound(m, m.threads[v]);
        if Mounts(m.threads[v]) && m.threads[v].target in m'.live {
          OthersBound(m, Go(u), m', v);
        }
      }
    }
  }

  lemma EnterBound(m: State, u: Tid)
    requires Inv(m) && BoundInv(m) && u in m.threads && Waiting(m.threads[u])
    ensures BoundInv(ThreadStep(m, u))
  {
    var m' := ThreadStep(m, u);
    GoTokens(m, u);
    EnterStep(m, u);
    EnteredBound(m, m.threads[u]);
    forall v | v in m'.threads ensures ThreadBound(m', m'.threads[v]) {
      assert ThreadBound(m, m.threads[v]);
    }
  }

  lemma EnteredBound(m: State, pc: Pc)
    requires Waiting(pc) && ThreadBound(m, pc)
    ensures ThreadBound(m, Entered(m.server, pc))
  {
  }

  /** A mount operation changes the height of its own target only. */
  lemma MountHeights(m: State, u: Tid, m': State)
    requires u in m.threads && (m.threads[u].Bind? || m.threads[u].Unmount? || m.threads[u].Recover?)
    requires m' == MountStep(m, u)
    ensures m' == m.(stacks := m'.stacks, threads := m'.threads) && m'.stacks.Keys <= m.stacks.Keys + {m.threads[u].target}
    ensures forall t | t != m.threads[u].target :: Height(m', t) == Height(m, t)
    ensures Height(m', m.threads[u].target) > 0 ==> Mounts(m.threads[u]) || Height(m, m.threads[u].target) > 0
  {
  }

  /** It leaves the thread mounting the same target, or at the drop with nothing left to unmount. */
  lemma MountMoves(m: State, u: Tid, m': State)
    requires u in m.threads && (m.threads[u].Bind? || m.threads[u].Unmount? || m.threads[u].Recover?)
    requires m' == MountStep(m, u)
    ensures forall v | v in m'.threads && v != u :: v in m.threads && m'.threads[v] == m.threads[v]
    ensures u in m'.threads && Mounts(m'.threads[u]) ==> Mounts(m.threads[u]) && m'.threads[u].target == m.threads[u].target
    ensures u in m'.threads && Dropping(m'.threads[u]) ==>
      Token(m'.threads[u]) == Some(m.threads[u].target) && Height(m', m.threads[u].target) == 0
  {
  }

  lemma MountBound(m: State, u: Tid)
    requires Inv(m) && BoundInv(m) && u in m.threads && (m.threads[u].Bind? || m.threads[u].Unmount? || m.threads[u].Recover?)
    ensures BoundInv(MountStep(m, u))
  {
    var m', pc := MountStep(m, u), m.threads[u];
    GoTokens(m, u);
    MountHeights(m, u, m');
    MountMoves(m, u, m');
    TargetKnown(m, u);
    assert ThreadBound(m, pc);
    forall v | v in m'.threads ensures ThreadBound(m', m'.threads[v]) {
      if v != u {
        BesideMount(m, u, m', v);
      }
    }
    MountReferenced(m, u, m');
  }

  /** A mount operation leaves the facts of the other threads alone. */
  lemma BesideMount(m: State, u: Tid, m': State, v: Tid)
    requires BoundInv(m) && u in m.threads && (m.threads[u].Bind? || m.threads[u].Unmount? || m.threads[u].Recover?)
    requires v in m.threads && v != u && m' == m.(stacks := m'.stacks, threads := m'.threads)
    requires forall t | t != m.threads[u].target :: Height(m', t) == Height(m, t)
    ensures ThreadBound(m', m.threads[v])
  {
    assert ThreadBound(m, m.threads[v]);
    if Dropping(m.threads[v]) {
      assert Token(m.threads[v]) != Token(m.threads[u]);
    }
  }

  lemma MountReferenced(m: State, u: Tid, m': State)
    requires BoundInv(m) && u in m.threads && (m.threads[u].Bind? || m.threads[u].Unmount? || m.threads[u].Recover?)
    requires m' == m.(stacks := m'.stacks, threads := m'.threads)
    requires forall t | t != m.threads[u].target :: Height(m', t) == Height(m, t)
    requires Height(m', m.threads[u].target) > 0 ==> Mounts(m.threads[u]) || Height(m, m.threads[u].target) > 0
    ensures BoundIsReferenced(m')
  {
    assert ThreadBound(m, m.threads[u]);
    forall t | t in m'.live && Height(m', t) > 0 ensures Referenced(m', t) {
      assert Referenced(m, t);
    }
  }

  lemma EnvBound(m: State, st: Step)
    requires Inv(m) && BoundInv(m) && Enabled(m, st) && st.Env? && !Harmful(m, st)
    ensures BoundInv(Plain(m, st))
  {
    var m' := Plain(m, st);
    if st.action.UserDelete? {
      assert Deletes(m, st, st.action.name);
    }
    EnvMarked(m, st.action);
    EnvLeaves(m, st.action);
    StacksReferenced(m, st, m');
    forall v | v in m'.threads ensures ThreadBound(m', m'.threads[v]) {
      assert ThreadBound(m, m.threads[v]);
      if Mounts(m.threads[v]) && m.threads[v].target in m'.live {
        OthersBound(m, st, m', v);
      }
    }
    VolumeStays(m, st);
  }

  lemma EnvLeaves(m: State, a: Action)
    requires Allowed(m, a)
    ensures Happen(m, a).threads == m.threads && Happen(m, a).stacks == m.stacks
  {
  }

  lemma BeginBound(m: State, u: Tid, pc: Pc)
    requires Inv(m) && BoundInv(m) && u !in m.threads && CanBegin(m, pc)
    ensures BoundInv(m.(threads := m.threads[u := pc]))
  {
    var m' := m.(threads := m.threads[u := pc]);
    BeginTokens(m, u, pc);
    forall v | v in m'.threads ensures ThreadBound(m', m'.threads[v]) {
      if v != u {
        assert ThreadBound(m, m.threads[v]);
      } else if pc.Recover? && pc.target in m.live {
        assert Referenced(m, pc.target);
      }
    }
    assert BoundIsReferenced(m') by {
      forall t | t in m'.live && Height(m', t) > 0 ensures Referenced(m', t) {
        assert Referenced(m, t);
      }
    }
  }

  lemma AbortBound(m: State, u: Tid)
    requires Inv(m) && BoundInv(m) && u in m.threads
    ensures BoundInv(Settle(m, u, Effect(m.server, None)))
  {
  }

  lemma MarksLeaveBound(m: State, marks: map<Name, Mark>)
    requires BoundInv(m)
    ensures BoundInv(m.(marks := marks))
  {
  }

  lemma BoundStep(m: State, st: Step)
    requires Inv(m) && BoundInv(m) && Enabled(m, st) && !Harmful(m, st)
    ensures BoundInv(Next(m, st))
  {
    match st {
    case Begin(u, pc) => BeginBound(m, u, pc);
    case Go(u) =>
      if CallsApi(m.threads[u]) {
        ApiBound(m, u);
      } else if Waiting(m.threads[u]) {
        EnterBound(m, u);
      } else {
        MountBound(m, u);
      }
    case Abort(u) => AbortBound(m, u);
    case Env(_) => EnvBound(m, st);
    }
    MarksLeaveBound(Plain(m, st), Next(m, st).marks);
  }

  /** In every run without a harmful step so far, a live target that has anything mounted on it is referenced by its volume's existing mount pod. */
  lemma {:induction false} BoundImpliesReferenced(now: int, hash: Hash, run: seq<Step>, i: nat, t: Target)
    requires Valid(Init(now, hash), run) && i <= |run|
    requires forall j | 0 <= j < i :: !Harmful(At(Init(now, hash), run, j), run[j])
    requires t in At(Init(now, hash), run, i).live && Height(At(Init(now, hash), run, i), t) > 0
    ensures Referenced(At(Init(now, hash), run, i), t)
  {
    BoundAlways(now, hash, run, i);
  }

  lemma {:induction false} BoundAlways(now: int, hash: Hash, run: seq<Step>, i: nat)
    requires Valid(Init(now, hash), run) && i <= |run|
    requires forall j | 0 <= j < i :: !Harmful(At(Init(now, hash), run, j), run[j])
    ensures BoundInv(At(Init(now, hash), run, i))
    decreases i
  {
    if i == 0 {
      AtZero(Init(now, hash), run);
    } else {
      BoundAlways(now, hash, run, i - 1);
      InvAlways(now, hash, run, i - 1);
      AtStep(Init(now, hash), run, i - 1);
      BoundStep(At(Init(now, hash), run, i - 1), run[i - 1]);
    }
  }
}
