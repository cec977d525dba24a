/** How often resources are stripped from the pods of one name, over whole runs. */
module Stripping {
  import opened Pods
  import opened ApiServer
  import opened Machine
  import opened Invariant
  import opened Node
  import Lineage

  /** The thread has taken the finalizer off a pod of this name with requests, and may create a pod from it. */
  predicate Claims(pc: Pc, n: Name) {
    pc.name == n
    && (((pc.RecreateLock? || pc.RecreatePoll? || pc.RecreateCreate?) && HasRequests(pc.copy))
        || pc.StripDelete? || pc.StripPoll? || pc.StripCreate?)
  }

  function Claimants(threads: map<Tid, Pc>, n: Name): set<Tid> {
    set u | u in threads && Claims(threads[u], n)
  }

  predicate DeletesToStrip(threads: map<Tid, Pc>, n: Name) {
    exists u | u in threads :: threads[u].StripDelete? && threads[u].name == n
  }

  /** The stored pod has requests and can still be claimed: it has the driver's finalizer, or is neither marked nor
      about to be by a thread that strips it. */
  predicate Claimable(s: Server, n: Name, stripping: bool) {
    n in s.pods && HasRequests(s.pods[n]) && (FINALIZER in s.pods[n].finalizers || (!s.pods[n].deleting && !stripping))
  }

  function One(b: bool): nat {
    if b then 1 else 0
  }

  /** How many pods of this name can still be stripped, unless more are built or get their finalizer back. */
  function Strippable(m: State, n: Name): nat {
    |Claimants(m.threads, n)| + One(Claimable(m.server, n, DeletesToStrip(m.threads, n)))
  }

  /** An outsider puts the driver's finalizer on a pod of this name. */
  predicate Finalizes(m: State, a: Action, n: Name) {
    a.SetFinalizers? && a.name == n && FINALIZER in a.finalizers && n in m.server.pods && FINALIZER !in m.server.pods[n].finalizers
  }

  /** An outsider puts it back: the pod has requests, and is marked or was released by podErrorHandler. */
  predicate PutsBack(m: State, st: Step, n: Name) {
    && st.Env? && Finalizes(m, st.action, n) && HasRequests(m.server.pods[n])
    && (m.server.pods[n].deleting || DeletesToStrip(m.threads, n))
  }

  /** The step is podErrorHandler creating a stripped pod of this name. */
  predicate Strips(m: State, st: Step, n: Name) {
    st.Go? && st.tid in m.threads && m.threads[st.tid].StripCreate? && m.threads[st.tid].name == n && n !in m.server.pods
  }

  /** The step is createOrAddRef creating a pod of this name. */
  predicate Builds(m: State, st: Step, n: Name) {
    st.Go? && st.tid in m.threads && m.threads[st.tid].AddCreate? && m.threads[st.tid].name == n && n !in m.server.pods
  }

  // ----- counting threads

  /** Thread `u` alone moves. */
  ghost predicate Moves(threads: map<Tid, Pc>, threads': map<Tid, Pc>, u: Tid) {
    forall v | v != u :: (v in threads <==> v in threads') && (v in threads ==> threads[v] == threads'[v])
  }

  function Own(threads: map<Tid, Pc>, u: Tid, n: Name): nat {
    One(u in threads && Claims(threads[u], n))
  }

  lemma WithoutOne(s: set<Tid>, u: Tid)
    ensures |s - {u}| + One(u in s) == |s|
  {
    if u in s {
      assert s == (s - {u}) + {u};
    } else {
      assert s == s - {u};
    }
  }

  lemma OthersClaim(threads: map<Tid, Pc>, threads': map<Tid, Pc>, u: Tid, n: Name)
    requires Moves(threads, threads', u)
    ensures Claimants(threads', n) - {u} == Claimants(threads, n) - {u}
  {
    forall v ensures v in Claimants(threads', n) - {u} <==> v in Claimants(threads, n) - {u} {
      if v != u {
        assert v in threads <==> v in threads';
      }
    }
  }

  lemma ClaimantsMove(threads: map<Tid, Pc>, threads': map<Tid, Pc>, u: Tid, n: Name)
    requires Moves(threads, threads', u)
    ensures |Claimants(threads', n)| + Own(threads, u, n) == |Claimants(threads, n)| + Own(threads', u, n)
  {
    OthersClaim(threads, threads', u, n);
    WithoutOne(Claimants(threads, n), u);
    WithoutOne(Claimants(threads', n), u);
  }

  // ----- one call

  /** The pod is stored only if it was, with the same containers; its mark stays and the driver's finalizer does
      not come. */
  ghost predicate Carries(s: Server, s': Server, n: Name) {
    n in s'.pods ==>
      && n in s.pods
      && s'.pods[n].containers == s.pods[n].containers
      && (s.pods[n].deleting ==> s'.pods[n].deleting)
      && (FINALIZER in s'.pods[n].finalizers ==> FINALIZER in s.pods[n].finalizers)
  }

  lemma CarriedClaimable(s: Server, s': Server, n: Name)
    requires Carries(s, s', n)
    ensures forall stripping :: Claimable(s', n, stripping) ==> Claimable(s, n, stripping)
  {
  }

  lemma UpdateCarries(s: Server, n: Name, c: Pod, p: Pod, me: Writer)
    requires ServerOk(s) && Logged(s, n, c) && p.version == c.version
    requires p.containers == c.containers && p.finalizers <= c.finalizers
    ensures Carries(s, UpdatePod(s, n, p, me).0, n)
  {
    CurrentCopy(s, n, c);
  }

  /** Every call but the creations. */
  lemma ActCarries(s: Server, vs: Volumes, pc: Pc, now: int, me: Writer)
    requires ServerOk(s) && CallsApi(pc) && ThreadOk(s, vs, pc) && Creation(pc).None?
    ensures Carries(s, Act(pc, s, now, me).server, pc.name)
  {
    if Payload(pc).Some? {
      PayloadIsWritten(pc, s, now, me);
      PayloadCarries(s, vs, pc, me);
    } else if pc.IdleDelete? || pc.StripDelete? {
      DeletionIsDeleted(pc, s, now, me);
    }
  }

  lemma PayloadCarries(s: Server, vs: Volumes, pc: Pc, me: Writer)
    requires ServerOk(s) && ThreadOk(s, vs, pc) && Payload(pc).Some?
    ensures Carries(s, UpdatePod(s, pc.name, Payload(pc).value, me).0, pc.name)
  {
    if pc.MergeWrite? {
      UpdateCarries(s, pc.name, pc.other, Payload(pc).value, me);
    } else if pc.IdleStamp? {
      Lineage.SpentIsRefused(s, pc.name, pc.copy, pc.seconds, me);
      if Logged(s, pc.name, pc.copy) {
        UpdateCarries(s, pc.name, pc.copy, Payload(pc).value, me);
      }
    } else {
      UpdateCarries(s, pc.name, pc.copy, Payload(pc).value, me);
    }
  }

  /** Where claims come from. */
  lemma NextClaims(pc: Pc, s: Server, now: int, me: Writer)
    requires CallsApi(pc)
    ensures var e := Act(pc, s, now, me); e.next.Some? ==>
      && (Claims(e.next.value, pc.name) ==> Claims(pc, pc.name) || pc.Unfinalize? || pc.StripUnfinalize?)
      && (e.next.value.StripDelete? ==> pc.StripUnfinalize?)
    ensures Creation(pc).Some? ==> Act(pc, s, now, me).next.None? || Act(pc, s, now, me).next.value.Bind?
  {
    if pc.IdleRead? || pc.IdleDecide? || pc.IdleStamp? || pc.IdleDelete? || pc.CheckPrune? {
      IdleStaysIdle(pc, s, now, me);
    } else if Token(pc).Some? {
      NodeStaysNode(pc, s, now, me);
    }
  }

  predicate OnNode(pc: Pc) {
    pc.AddWait? || pc.AddCreate? || pc.AddRead? || pc.AddWrite? || pc.Bind?
    || pc.DropStart? || pc.DropRead? || pc.DropWrite? || pc.DropRecheck? || OnIdle(pc)
  }

  predicate OnIdle(pc: Pc) {
    pc.IdleRead? || pc.IdleDecide? || pc.IdleStamp? || pc.IdleDelete?
  }

  lemma NodeStaysNode(pc: Pc, s: Server, now: int, me: Writer)
    requires OnNode(pc) && !OnIdle(pc) && !pc.Bind?
    ensures var e := Act(pc, s, now, me); e.next.Some? ==> OnNode(e.next.value) && (pc.AddCreate? ==> e.next.value.Bind?)
  {
  }

  lemma IdleStaysIdle(pc: Pc, s: Server, now: int, me: Writer)
    requires OnIdle(pc) || pc.CheckPrune?
    ensures var e := Act(pc, s, now, me); e.next.Some? ==> OnIdle(e.next.value)
  {
  }

  /** What a call makes claimable or claims was so before, or is built; a strip uses one up. `other` is whether
      another thread deletes the pod to strip it. */
  ghost predicate Pays(s: Server, pc: Pc, e: Effect, other: bool) {
    var n := pc.name;
    One(e.next.Some? && Claims(e.next.value, n))
      + One(Claimable(e.server, n, other || (e.next.Some? && e.next.value.StripDelete?)))
      + One(pc.StripCreate? && n !in s.pods)
    <= One(Claims(pc, n)) + One(Claimable(s, n, other || pc.StripDelete?)) + One(pc.AddCreate? && n !in s.pods)
  }

  /** A call that carries the pod on and claims nothing new. */
  lemma CarryPays(s: Server, pc: Pc, e: Effect, other: bool)
    requires Carries(s, e.server, pc.name) && Creation(pc).None? && !pc.StripDelete?
    requires e.next.Some? ==> !e.next.value.StripDelete? && (Claims(e.next.value, pc.name) ==> Claims(pc, pc.name))
    ensures Pays(s, pc, e, other)
  {
    CarriedClaimable(s, e.server, pc.name);
  }

  lemma CreationPays(s: Server, pc: Pc, now: int, me: Writer)
    requires CallsApi(pc) && Creation(pc).Some?
    ensures Pays(s, pc, Act(pc, s, now, me), false)
  {
    CreationIsCreated(pc, s, now, me);
    NextClaims(pc, s, now, me);
    CreatedClaimable(s, pc, me);
  }

  lemma CreatedClaimable(s: Server, pc: Pc, me: Writer)
    requires Creation(pc).Some?
    ensures var s' := CreatePod(s, pc.name, Creation(pc).value, me).0;
      if pc.name in s.pods then s' == s
      else Claimable(s', pc.name, false) ==> pc.AddCreate? || (pc.RecreateCreate? && HasRequests(pc.copy))
  {
    if pc.name !in s.pods && pc.RecreateCreate? {
      SameRequests(CreatePod(s, pc.name, Creation(pc).value, me).0.pods[pc.name], pc.copy);
    }
  }

  lemma SameRequests(p: Pod, q: Pod)
    requires p.containers == q.containers
    ensures HasRequests(p) == HasRequests(q)
  {
  }

  /** The one call outside the lock: it claims the pod by taking the finalizer off. */
  lemma UnfinalizePays(s: Server, pc: Pc, me: Writer, other: bool)
    requires ServerOk(s) && pc.Unfinalize? && Logged(s, pc.name, pc.copy) && pc.copy.deleting && FINALIZER in pc.copy.finalizers
    ensures Pays(s, pc, RecreateAct(pc, s, me), other)
  {
    CurrentCopy(s, pc.name, pc.copy);
  }

  lemma StripPays(s: Server, vs: Volumes, pc: Pc, me: Writer)
    requires ServerOk(s) && ThreadOk(s, vs, pc) && (pc.StripUnfinalize? || pc.StripDelete?)
    ensures Pays(s, pc, StripAct(pc, s, me), false)
  {
    CurrentCopy(s, pc.name, pc.copy);
  }

  lemma ActPays(s: Server, vs: Volumes, pc: Pc, now: int, me: Writer, other: bool)
    requires ServerOk(s) && ThreadOk(s, vs, pc) && CallsApi(pc) && (other ==> Unlocked(pc))
    ensures Pays(s, pc, Act(pc, s, now, me), other)
  {
    if pc.Unfinalize? {
      UnfinalizePays(s, pc, me, other);
    } else if pc.StripUnfinalize? || pc.StripDelete? {
      StripPays(s, vs, pc, me);
    } else if Creation(pc).Some? {
      CreationPays(s, pc, now, me);
    } else {
      ActCarries(s, vs, pc, now, me);
      NextClaims(pc, s, now, me);
      CarryPays(s, pc, Act(pc, s, now, me), other);
    }
  }

  // ----- one step

  /** What can still be stripped grows only by a build or a finalizer put back, and a strip uses one up. */
  ghost predicate Settles(m: State, st: Step, m': State, n: Name) {
    Strippable(m', n) + One(Strips(m, st, n)) <= Strippable(m, n) + One(Builds(m, st, n)) + One(PutsBack(m, st, n))
  }

  predicate OtherStrips(threads: map<Tid, Pc>, u: Tid, n: Name) {
    exists v | v in threads :: v != u && threads[v].StripDelete? && threads[v].name == n
  }

  lemma StrippersMove(threads: map<Tid, Pc>, threads': map<Tid, Pc>, u: Tid, n: Name)
    requires Moves(threads, threads', u)
    ensures DeletesToStrip(threads', n) <==>
      OtherStrips(threads, u, n) || (u in threads' && threads'[u].StripDelete? && threads'[u].name == n)
    ensures DeletesToStrip(threads, n) <==>
      OtherStrips(threads, u, n) || (u in threads && threads[u].StripDelete? && threads[u].name == n)
  {
    if v :| v in threads' && threads'[v].StripDelete? && threads'[v].name == n {
      if v != u {
        assert v in threads && threads[v] == threads'[v];
      }
    }
    if OtherStrips(threads, u, n) {
      var v :| v in threads && v != u && threads[v].StripDelete? && threads[v].name == n;
      assert v in threads';
    }
  }

  lemma ApiSettles(m: State, u: Tid, n: Name)
    requires Inv(m) && u in m.threads && CallsApi(m.threads[u])
    ensures Settles(m, Go(u), ThreadStep(m, u), n)
  {
    var pc, m' := m.threads[u], ThreadStep(m, u);
    var e := Act(pc, m.server, m.now, Thread(u));
    assert ThreadOk(m.server, m.volume, pc);
    ClaimantsMove(m.threads, m'.threads, u, n);
    StrippersMove(m.threads, m'.threads, u, n);
    ActName(pc, m.server, m.now, Thread(u));
    if pc.name == n {
      if OtherStrips(m.threads, u, n) {
        OtherIsGuarded(m, u, n);
      }
      ActPays(m.server, m.volume, pc, m.now, Thread(u), OtherStrips(m.threads, u, n));
    } else {
      ElsewhereSame(m, u, n);
      SameClaimable(m.server, e.server, n);
    }
  }

  lemma ElsewhereSame(m: State, u: Tid, n: Name)
    requires ServerOk(m.server) && u in m.threads && CallsApi(m.threads[u]) && n != m.threads[u].name
    ensures Lookup(Act(m.threads[u], m.server, m.now, Thread(u)).server, n) == Lookup(m.server, n)
  {
    ActTouches(m.threads[u], m.server, m.now, Thread(u));
    TouchesOk(m.server, Act(m.threads[u], m.server, m.now, Thread(u)).server, m.threads[u].name);
  }

  lemma SameClaimable(s: Server, s': Server, n: Name)
    requires Lookup(s, n) == Lookup(s', n)
    ensures forall stripping :: Claimable(s, n, stripping) == Claimable(s', n, stripping)
  {
  }

  lemma OtherIsGuarded(m: State, u: Tid, n: Name)
    requires Inv(m) && u in m.threads && m.threads[u].name == n && OtherStrips(m.threads, u, n)
    ensures Unlocked(m.threads[u])
  {
    var v :| v in m.threads && v != u && m.threads[v].StripDelete? && m.threads[v].name == n;
    if !Unlocked(m.threads[u]) {
      OnlyOneInside(m, u, v);
    }
  }

  /** Threads without a claim come, go and wait without changing anything. */
  lemma MoveSettles(m: State, st: Step, m': State, u: Tid, n: Name)
    requires m'.server == m.server && Moves(m.threads, m'.threads, u) && (!Strips(m, st, n))
    requires Own(m'.threads, u, n) <= Own(m.threads, u, n)
    requires u in m.threads && m.threads[u].StripDelete? && m.threads[u].name == n ==> Own(m'.threads, u, n) == 0
    ensures Settles(m, st, m', n)
  {
    ClaimantsMove(m.threads, m'.threads, u, n);
    StrippersMove(m.threads, m'.threads, u, n);
  }

  lemma EnterSettles(m: State, u: Tid, n: Name)
    requires u in m.threads && Waiting(m.threads[u])
    ensures Settles(m, Go(u), ThreadStep(m, u), n)
  {
    var m' := ThreadStep(m, u);
    assert m' == m.(locks := m'.locks, threads := m.threads[u := Entered(m.server, m.threads[u])]);
    EnteredClaim(m.server, m.threads[u], n);
    MoveSettles(m, Go(u), m', u, n);
  }

  lemma EnteredClaim(s: Server, pc: Pc, n: Name)
    requires Waiting(pc)
    ensures Claims(Entered(s, pc), n) == Claims(pc, n) && !Entered(s, pc).StripDelete?
    ensures Entered(s, pc).name == pc.name
  {
  }

  lemma MountSettles(m: State, u: Tid, n: Name)
    requires u in m.threads && (m.threads[u].Bind? || m.threads[u].Unmount? || m.threads[u].Recover?)
    ensures Settles(m, Go(u), MountStep(m, u), n)
  {
    MountUnclaimed(m, u, n);
    MoveSettles(m, Go(u), MountStep(m, u), u, n);
  }

  lemma MountUnclaimed(m: State, u: Tid, n: Name)
    requires u in m.threads && (m.threads[u].Bind? || m.threads[u].Unmount? || m.threads[u].Recover?)
    ensures var m' := MountStep(m, u); m'.server == m.server && Moves(m.threads, m'.threads, u) && Own(m'.threads, u, n) == 0
  {
  }

  lemma StartStopSettles(m: State, st: Step, n: Name)
    requires Enabled(m, st) && (st.Begin? || st.Abort?)
    ensures Settles(m, st, Plain(m, st), n)
  {
    var m' := Plain(m, st);
    if st.Begin? {
      assert m'.threads == m.threads[st.tid := st.pc];
    } else {
      assert m'.threads == m.threads - {st.tid};
    }
    MoveSettles(m, st, m', st.tid, n);
  }

  lemma RewriteCarries(s: Server, k: Name, p: Pod, n: Name)
    requires k in s.pods && p.containers == s.pods[k].containers && (s.pods[k].deleting ==> p.deleting)
    requires FINALIZER in p.finalizers ==> FINALIZER in s.pods[k].finalizers
    ensures Carries(s, Rewrite(s, k, p), n)
  {
  }

  lemma AnnotateCarries(m: State, a: Action, n: Name)
    requires Allowed(m, a) && a.Annotate?
    ensures Carries(m.server, Happen(m, a).server, n)
  {
    var s, was := m.server, m.server.pods[a.name].annotations;
    RewriteCarries(s, a.name, AnnotatedWith(s.pods[a.name], if a.value.Some? then was[a.key := a.value.value] else was - {a.key}), n);
  }

  lemma RestatusCarries(m: State, a: Action, n: Name)
    requires Allowed(m, a) && (a.KubeletStatus? || a.UserDelete? || a.SetFinalizers?)
    requires a.SetFinalizers? && FINALIZER in a.finalizers ==> FINALIZER in m.server.pods[a.name].finalizers
    ensures Carries(m.server, Happen(m, a).server, n)
  {
  }

  lemma EnvCarries(m: State, a: Action, n: Name)
    requires Allowed(m, a) && !Finalizes(m, a, n)
    ensures Carries(m.server, Happen(m, a).server, n)
  {
    if a.Annotate? {
      AnnotateCarries(m, a, n);
    } else if a.KubeletStatus? || a.UserDelete? || (a.SetFinalizers? && a.name == n) {
      RestatusCarries(m, a, n);
    }
  }

  /** A pod that is not marked can be claimed with the finalizer and without. */
  lemma FinalizedClaimable(m: State, a: Action, n: Name)
    requires Allowed(m, a) && Finalizes(m, a, n)
    ensures var s', p := Happen(m, a).server, m.server.pods[n]; forall stripping ::
      && Claimable(s', n, stripping) == HasRequests(p)
      && Claimable(m.server, n, stripping) == (HasRequests(p) && !p.deleting && !stripping)
  {
    SameRequests(Happen(m, a).server.pods[n], m.server.pods[n]);
  }

  lemma EnvSettles(m: State, st: Step, n: Name)
    requires Enabled(m, st) && st.Env?
    ensures Settles(m, st, Plain(m, st), n)
  {
    EnvStill(m, st.action);
    if Finalizes(m, st.action, n) {
      FinalizedClaimable(m, st.action, n);
    } else {
      EnvCarries(m, st.action, n);
      CarriedClaimable(m.server, Happen(m, st.action).server, n);
    }
  }

  /** Putting the finalizer back makes the pod strippable once more, so the count is exact. */
  lemma PuttingBackUnsettles(m: State, st: Step, n: Name)
    requires Enabled(m, st) && PutsBack(m, st, n)
    ensures Strippable(Next(m, st), n) == Strippable(m, n) + 1
  {
    EnvStill(m, st.action);
    FinalizedClaimable(m, st.action, n);
  }

  lemma StepSettles(m: State, st: Step, n: Name)
    requires Inv(m) && Enabled(m, st)
    ensures Settles(m, st, Next(m, st), n)
  {
    if st.Env? {
      EnvSettles(m, st, n);
    } else if !st.Go? {
      StartStopSettles(m, st, n);
    } else if CallsApi(m.threads[st.tid]) {
      ApiSettles(m, st.tid, n);
    } else if Waiting(m.threads[st.tid]) {
      EnterSettles(m, st.tid, n);
    } else {
      MountSettles(m, st.tid, n);
    }
    assert Strippable(Next(m, st), n) == Strippable(Plain(m, st), n);
  }

  // ----- runs

  /** How many of the first `i` steps strip, or build, a pod of this name, or put its finalizer back. */
  ghost function StripsIn(m: State, run: seq<Step>, i: nat, n: Name): nat
    requires Valid(m, run) && i <= |run|
  {
    if i == 0 then 0 else StripsIn(m, run, i - 1, n) + One(Strips(At(m, run, i - 1), run[i - 1], n))
  }

  ghost function BuildsIn(m: State, run: seq<Step>, i: nat, n: Name): nat
    requires Valid(m, run) && i <= |run|
  {
    if i == 0 then 0 else BuildsIn(m, run, i - 1, n) + One(Builds(At(m, run, i - 1), run[i - 1], n))
  }

  ghost function PutBacksIn(m: State, run: seq<Step>, i: nat, n: Name): nat
    requires Valid(m, run) && i <= |run|
  {
    if i == 0 then 0 else PutBacksIn(m, run, i - 1, n) + One(PutsBack(At(m, run, i - 1), run[i - 1], n))
  }

  lemma {:induction false} StrippableAlways(now: int, hash: Hash, run: seq<Step>, i: nat, n: Name)
    requires Valid(Init(now, hash), run) && i <= |run|
    ensures StripsIn(Init(now, hash), run, i, n) + Strippable(At(Init(now, hash), run, i), n)
         <= BuildsIn(Init(now, hash), run, i, n) + PutBacksIn(Init(now, hash), run, i, n)
    decreases i
  {
    var m0 := Init(now, hash);
    if i == 0 {
      AtZero(m0, run);
      assert Claimants(map[], n) == {};
    } else {
      var j := i - 1;
      StrippableAlways(now, hash, run, j, n);
      InvAlways(now, hash, run, j);
      AtStep(m0, run, j);
      StepSettles(At(m0, run, j), run[j], n);
    }
  }

  /** In every run podErrorHandler strips pods of a name at most as often as createOrAddRef creates one and an
      outsider puts the finalizer back on one together: left to itself, the driver never deletes and recreates
      forever on resource errors. */
  lemma StripsBounded(now: int, hash: Hash, run: seq<Step>, n: Name)
    requires Valid(Init(now, hash), run)
    ensures StripsIn(Init(now, hash), run, |run|, n)
         <= BuildsIn(Init(now, hash), run, |run|, n) + PutBacksIn(Init(now, hash), run, |run|, n)
  {
    StrippableAlways(now, hash, run, |run|, n);
  }
}
