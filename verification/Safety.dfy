/** What holds of references over whole runs: which idle deletions can hit a referenced pod, which steps take a
    stored reference away, and when a reference and a deletion instant are stored together. */
module Safety {
  import opened Pods
  import opened ApiServer
  import opened Machine
  import opened Invariant

  /** The step deletes a pod for idleness although the pod stores a reference. */
  ghost predicate DeletesReferenced(m: State, st: Step) {
    st.Go? && st.tid in m.threads && m.threads[st.tid].IdleDelete? && !Refless(m.server, m.threads[st.tid].name)
  }

  lemma IdleDeletionIsSafe(m: State, st: Step)
    requires Inv(m)
    ensures DeletesReferenced(m, st) ==> m.threads[st.tid].op == Reconcile(false)
  {
  }

  /** In every interleaving of every run, JUmount deletes for idleness only pods that store no reference at
      all, and so does every checkAnnotations whose copy, when it took the lock, agreed with the stored pod on
      references and deletion, or was pruned and written back since. */
  lemma IdleDeletionsAreSafe(now: int, hash: Hash, run: seq<Step>, i: nat)
    requires Valid(Init(now, hash), run) && i < |run|
    ensures var m := At(Init(now, hash), run, i);
      DeletesReferenced(m, run[i]) ==> m.threads[run[i].tid].op == Reconcile(false)
  {
    InvAlways(now, hash, run, i);
    IdleDeletionIsSafe(At(Init(now, hash), run, i), run[i]);
  }

  // ----- references survive

  ghost predicate Holds(s: Server, n: Name, t: Target) {
    n in s.pods && t in Refs(s.pods[n].annotations)
  }

  /** The call is the commit of t's own JUmount, or a check whose table does not list t's app pod as live, and
      its copy carries the stored version, so the API server takes it. */
  predicate Removes(s: Server, pc: Pc, n: Name, t: Target) {
    && pc.name == n && ((pc.DropWrite? && pc.target == t) || (pc.CheckPrune? && !Alive(pc.table, t)))
    && n in s.pods && s.pods[n].version == pc.copy.version
  }

  predicate StepRemoves(m: State, st: Step, n: Name, t: Target) {
    st.Go? && st.tid in m.threads && Removes(m.server, m.threads[st.tid], n, t)
  }

  lemma DropKeepsRef(s: Server, vs: Volumes, pc: Pc, me: Writer, t: Target)
    requires ServerOk(s) && ThreadOk(s, vs, pc) && pc.DropWrite? && Holds(s, pc.name, t)
    ensures Holds(DropAct(pc, s, me).server, pc.name, t) <==> !Removes(s, pc, pc.name, t)
  {
    CurrentCopy(s, pc.name, pc.copy);
  }

  lemma CheckKeepsRef(s: Server, vs: Volumes, pc: Pc, me: Writer, t: Target)
    requires ServerOk(s) && ThreadOk(s, vs, pc) && pc.CheckPrune? && Holds(s, pc.name, t)
    ensures Holds(CheckAct(pc, s, me).server, pc.name, t) <==> !Removes(s, pc, pc.name, t)
  {
    CurrentCopy(s, pc.name, pc.copy);
    PruneKeepsLive(pc.copy.annotations, pc.table);
    LengthTestIsExact(pc.copy.annotations, pc.table);
  }

  lemma OthersKeepRef(s: Server, vs: Volumes, pc: Pc, now: int, me: Writer, t: Target)
    requires ServerOk(s) && LogOk(s.log, vs) && CallsApi(pc) && ThreadOk(s, vs, pc) && !pc.DropWrite? && !pc.CheckPrune?
    requires Holds(s, pc.name, t) && pc.name in Act(pc, s, now, me).server.pods
    ensures Holds(Act(pc, s, now, me).server, pc.name, t)
  {
  }

  lemma ApiKeepsRef(m: State, u: Tid, n: Name, t: Target)
    requires Inv(m) && u in m.threads && CallsApi(m.threads[u]) && Holds(m.server, n, t)
    requires n in Act(m.threads[u], m.server, m.now, Thread(u)).server.pods
    ensures Holds(Act(m.threads[u], m.server, m.now, Thread(u)).server, n, t) <==> !Removes(m.server, m.threads[u], n, t)
  {
    var pc := m.threads[u];
    assert ThreadOk(m.server, m.volume, pc);
    if n != pc.name {
      ActTouches(pc, m.server, m.now, Thread(u));
      TouchesOk(m.server, Act(pc, m.server, m.now, Thread(u)).server, pc.name);
      assert Lookup(m.server, n) == Lookup(Act(pc, m.server, m.now, Thread(u)).server, n);
    } else if pc.DropWrite? {
      DropKeepsRef(m.server, m.volume, pc, Thread(u), t);
    } else if pc.CheckPrune? {
      CheckKeepsRef(m.server, m.volume, pc, Thread(u), t);
    } else {
      OthersKeepRef(m.server, m.volume, pc, m.now, Thread(u), t);
    }
  }

  lemma EnvKeepsRef(m: State, a: Action, n: Name, t: Target)
    requires ServerOk(m.server) && Allowed(m, a) && Holds(m.server, n, t) && n in Happen(m, a).server.pods
    ensures Holds(Happen(m, a).server, n, t)
  {
  }

  /** Only API calls and the outside world reach the server. */
  lemma QuietServer(m: State, st: Step)
    requires Enabled(m, st) && !st.Env? && (st.Go? ==> !CallsApi(m.threads[st.tid]))
    ensures Next(m, st).server == m.server
  {
  }

  lemma GoKeepsRef(m: State, st: Step, n: Name, t: Target)
    requires Inv(m) && Enabled(m, st) && st.Go? && CallsApi(m.threads[st.tid])
    requires Holds(m.server, n, t) && n in Next(m, st).server.pods
    ensures Holds(Next(m, st).server, n, t) <==> !StepRemoves(m, st, n, t)
  {
    ApiKeepsRef(m, st.tid, n, t);
  }

  /** As long as its pod exists, a stored reference goes exactly with the commit of its own unpublish or with an
      accepted prune whose table does not list its app pod as live: no stamp, no recreation, no outsider and no
      stale writer loses it. */
  lemma RefsSurvive(m: State, st: Step, n: Name, t: Target)
    requires Inv(m) && Enabled(m, st) && Holds(m.server, n, t) && n in Next(m, st).server.pods
    ensures Holds(Next(m, st).server, n, t) <==> !StepRemoves(m, st, n, t)
  {
    if st.Env? {
      EnvKeepsRef(m, st.action, n, t);
    } else if st.Go? && CallsApi(m.threads[st.tid]) {
      GoKeepsRef(m, st, n, t);
    } else {
      QuietServer(m, st);
    }
  }

  /** Pod `n` exists in every state of the run from `i` to `j`. */
  ghost predicate Stays(m: State, run: seq<Step>, i: nat, j: nat, n: Name)
    requires Valid(m, run) && i <= j <= |run|
  {
    forall k | i <= k <= j :: n in At(m, run, k).server.pods
  }

  /** It stores the reference of `t` in each of them. */
  ghost predicate HeldAlong(m: State, run: seq<Step>, i: nat, j: nat, n: Name, t: Target)
    requires Valid(m, run) && i <= j <= |run|
  {
    forall k | i <= k <= j :: Holds(At(m, run, k).server, n, t)
  }

  /** No step between them removes that reference. */
  ghost predicate NeverRemoved(m: State, run: seq<Step>, i: nat, j: nat, n: Name, t: Target)
    requires Valid(m, run) && i <= j <= |run|
  {
    forall k | i <= k < j :: !StepRemoves(At(m, run, k), run[k], n, t)
  }

  lemma OneStepOn(m: State, run: seq<Step>, i: nat, j: nat, n: Name, t: Target)
    requires Valid(m, run) && i <= j < |run|
    ensures HeldAlong(m, run, i, j + 1, n, t) <==> HeldAlong(m, run, i, j, n, t) && Holds(At(m, run, j + 1).server, n, t)
    ensures NeverRemoved(m, run, i, j + 1, n, t) <==> NeverRemoved(m, run, i, j, n, t) && !StepRemoves(At(m, run, j), run[j], n, t)
    ensures Stays(m, run, i, j + 1, n) ==> Stays(m, run, i, j, n) && n in At(m, run, j + 1).server.pods
    ensures HeldAlong(m, run, i, j, n, t) ==> Holds(At(m, run, j).server, n, t)
  {
  }

  /** In every run, a reference stored at `i` is stored all along to `j`, its pod being there, if and only if no
      step between removes it. */
  lemma {:induction false} RefsSurviveAlways(now: int, hash: Hash, run: seq<Step>, i: nat, j: nat, n: Name, t: Target)
    requires Valid(Init(now, hash), run) && i <= j <= |run|
    requires Holds(At(Init(now, hash), run, i).server, n, t) && Stays(Init(now, hash), run, i, j, n)
    ensures HeldAlong(Init(now, hash), run, i, j, n, t) <==> NeverRemoved(Init(now, hash), run, i, j, n, t)
    decreases j
  {
    if i < j {
      var m0, k := Init(now, hash), j - 1;
      OneStepOn(m0, run, i, k, n, t);
      RefsSurviveAlways(now, hash, run, i, k, n, t);
      InvAlways(now, hash, run, k);
      AtStep(m0, run, k);
      if HeldAlong(m0, run, i, k, n, t) {
        RefsSurvive(At(m0, run, k), run[k], n, t);
      }
    }
  }

  // ----- a reference and a deletion instant exclude each other

  /** No version of pod `n` on record holds both. */
  ghost predicate ExclusiveLog(log: seq<Write>, n: Name) {
    forall i | 0 <= i < |log| && log[i].name == n :: Exclusive(log[i].pod.annotations)
  }

  /** The step merges references into pod `n` while it waits for its deletion instant, and the API server takes it. */
  predicate BreaksExclusion(m: State, st: Step, n: Name) {
    st.Go? && st.tid in m.threads && m.threads[st.tid].name == n && Clashes(m.server, m.threads[st.tid])
  }

  predicate Clashes(s: Server, pc: Pc) {
    pc.MergeWrite? && DeleteAt in pc.other.annotations && pc.name in s.pods && s.pods[pc.name].version == pc.other.version
  }

  /** Merged with a pod that has references, annotations stay exclusive exactly if no deletion is pending. */
  lemma MergeExclusion(other: Annotations, mine: Annotations)
    requires WellKeyed(other) && HasRef(mine)
    ensures Exclusive(Merged(other, mine)) <==> DeleteAt !in other
  {
    MergeIsUnion(other, mine);
    HasRefIffRefs(mine);
  }

  lemma ActExclusive(s: Server, vs: Volumes, pc: Pc, now: int, me: Writer)
    requires ServerOk(s) && LogOk(s.log, vs) && CallsApi(pc) && ThreadOk(s, vs, pc)
    requires ExclusiveLog(s.log, pc.name) && !pc.MergeWrite?
    ensures ExclusiveLog(Act(pc, s, now, me).server.log, pc.name)
  {
  }

  lemma MergeActExclusive(s: Server, vs: Volumes, pc: Pc, now: int, me: Writer)
    requires ServerOk(s) && LogOk(s.log, vs) && ThreadOk(s, vs, pc) && pc.MergeWrite? && ExclusiveLog(s.log, pc.name)
    ensures ExclusiveLog(Act(pc, s, now, me).server.log, pc.name) <==> !Clashes(s, pc)
  {
    var o, s' := pc.other, Act(pc, s, now, me).server;
    LoggedProper(s, vs, pc.name, o);
    MergeExclusion(o.annotations, pc.copy.annotations);
    if pc.name in s.pods && s.pods[pc.name].version == o.version {
      assert s'.log[..|s.log|] == s.log && s'.log[|s.log|].pod.annotations == Merged(o.annotations, pc.copy.annotations);
    }
  }

  lemma TouchesExclusive(s: Server, s': Server, k: Name, n: Name)
    requires Touches(s, s', k) && n != k && ExclusiveLog(s.log, n)
    ensures ExclusiveLog(s'.log, n)
  {
  }

  lemma EnvExclusive(m: State, a: Action, n: Name)
    requires ServerOk(m.server) && ExclusiveLog(m.server.log, n) && Allowed(m, a)
    ensures ExclusiveLog(Happen(m, a).server.log, n)
  {
  }

  lemma GoExclusive(m: State, st: Step, n: Name)
    requires Inv(m) && Enabled(m, st) && ExclusiveLog(m.server.log, n)
    requires st.Go? && CallsApi(m.threads[st.tid])
    ensures ExclusiveLog(Next(m, st).server.log, n) <==> !BreaksExclusion(m, st, n)
  {
    var pc := m.threads[st.tid];
    assert ThreadOk(m.server, m.volume, pc);
    if pc.name != n {
      ActTouches(pc, m.server, m.now, Thread(st.tid));
      TouchesExclusive(m.server, Act(pc, m.server, m.now, Thread(st.tid)).server, pc.name, n);
    } else if pc.MergeWrite? {
      MergeActExclusive(m.server, m.volume, pc, m.now, Thread(st.tid));
    } else {
      ActExclusive(m.server, m.volume, pc, m.now, Thread(st.tid));
    }
  }

  /** A step keeps "never both" for pod `n`, stale writers included, exactly if it is not an accepted merge into
      that pod while its deletion is pending. */
  lemma ExclusiveStep(m: State, st: Step, n: Name)
    requires Inv(m) && Enabled(m, st) && ExclusiveLog(m.server.log, n)
    ensures ExclusiveLog(Next(m, st).server.log, n) <==> !BreaksExclusion(m, st, n)
  {
    if st.Env? {
      EnvExclusive(m, st.action, n);
    } else if st.Go? && CallsApi(m.threads[st.tid]) {
      GoExclusive(m, st, n);
    } else {
      QuietServer(m, st);
    }
  }

  /** No step of the run up to `i` merges into pod `n` while its deletion is pending. */
  ghost predicate ClashFree(m: State, run: seq<Step>, i: nat, n: Name)
    requires Valid(m, run) && i <= |run|
  {
    forall j | 0 <= j < i :: !BreaksExclusion(At(m, run, j), run[j], n)
  }

  /** What was once stored stays on record. */
  lemma LogGrows(m: State, st: Step)
    requires Inv(m) && Enabled(m, st)
    ensures m.server.log <= Next(m, st).server.log
  {
    if st.Env? {
      EnvKeepsProtocol(m, st.action);
    } else if st.Go? && CallsApi(m.threads[st.tid]) {
      ActTouches(m.threads[st.tid], m.server, m.now, Thread(st.tid));
      TouchesOk(m.server, Act(m.threads[st.tid], m.server, m.now, Thread(st.tid)).server, m.threads[st.tid].name);
    } else {
      QuietServer(m, st);
    }
  }

  lemma EarlierExclusive(log: seq<Write>, log': seq<Write>, n: Name)
    requires log <= log' && ExclusiveLog(log', n)
    ensures ExclusiveLog(log, n)
  {
    assert forall i | 0 <= i < |log| :: log[i] == log'[i];
  }

  lemma ExclusiveNext(m: State, st: Step, n: Name)
    requires Inv(m) && Enabled(m, st)
    ensures ExclusiveLog(Next(m, st).server.log, n) <==> ExclusiveLog(m.server.log, n) && !BreaksExclusion(m, st, n)
  {
    LogGrows(m, st);
    if ExclusiveLog(Next(m, st).server.log, n) {
      EarlierExclusive(m.server.log, Next(m, st).server.log, n);
    }
    if ExclusiveLog(m.server.log, n) {
      ExclusiveStep(m, st, n);
    }
  }

  lemma ClashFreeStep(m: State, run: seq<Step>, i: nat, n: Name)
    requires Valid(m, run) && i < |run|
    ensures ClashFree(m, run, i + 1, n) <==> ClashFree(m, run, i, n) && !BreaksExclusion(At(m, run, i), run[i], n)
  {
  }

  /** In every run, no version of pod `n` ever stored holds both a reference and a deletion instant, if and only if
      no step of it is an accepted merge into that pod while its deletion is pending. */
  lemma {:induction false} ExclusiveAlways(now: int, hash: Hash, run: seq<Step>, i: nat, n: Name)
    requires Valid(Init(now, hash), run) && i <= |run|
    ensures ExclusiveLog(At(Init(now, hash), run, i).server.log, n) <==> ClashFree(Init(now, hash), run, i, n)
    decreases i
  {
    var m0 := Init(now, hash);
    if i == 0 {
      AtZero(m0, run);
    } else {
      var j := i - 1;
      ExclusiveAlways(now, hash, run, j, n);
      InvAlways(now, hash, run, j);
      AtStep(m0, run, j);
      ExclusiveNext(At(m0, run, j), run[j], n);
      ClashFreeStep(m0, run, j, n);
      assert ExclusiveLog(At(m0, run, j + 1).server.log, n) <==> ClashFree(m0, run, j + 1, n);
    }
  }

  /** After a merge, the next checkAnnotations that is not turned away restores it. */
  lemma CheckRestoresExclusive(s: Server, pc: Pc, me: Writer)
    requires ServerOk(s) && pc.CheckPrune? && Logged(s, pc.name, pc.copy)
    requires pc.name in s.pods && s.pods[pc.name].version == pc.copy.version
    ensures var s' := CheckAct(pc, s, me).server; pc.name in s'.pods && Exclusive(s'.pods[pc.name].annotations)
  {
    PruneKeepsLive(pc.copy.annotations, pc.table);
    LengthTestIsExact(pc.copy.annotations, pc.table);
  }
}
