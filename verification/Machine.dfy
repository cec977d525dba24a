/** The driver as a transition system.

Threads run NodePublishVolume, NodeUnpublishVolume, checkAnnotations, podDeletedHandler,
podErrorHandler and recoverTarget. A step is one API call or one mount operation of one thread, or one
action of the outside world, so every interleaving of those is a run. Pod locks are part of the state. */
module Machine {
  import opened Wrappers
  import opened Pods
  import opened ApiServer
  import opened Command

  const LOCKS := 1024

  /** Which lock a pod name hashes to. The hash is a parameter of every run: nothing depends on FNV-1a, and
      names that share a lock are allowed. */
  type Hash = map<Name, nat>

  function Bucket(hash: Hash, name: Name): (b: nat)
    ensures b < LOCKS
  {
    (if name in hash then hash[name] else 0) % LOCKS
  }

  /** Who runs the shared "delete it if idle" tail. For checkAnnotations the history is kept whether the copy it
      judges agreed with the stored pod. */
  datatype Op = Unpublish(target: Target) | Reconcile(agreed: bool)

  /** The judgement rests on what is stored. */
  predicate Sure(op: Op) {
    op.Unpublish? || op.agreed
  }

  /** Where a thread stands, named after the call it makes next. */
  datatype Pc =
    // createOrAddRef, AddRefOfMount, then the bind mount of NodePublishVolume
    | AddLock(name: Name, target: Target, made: Pod)
    | AddWait(name: Name, target: Target, made: Pod)
    | AddCreate(name: Name, target: Target, made: Pod)
    | AddRead(name: Name, target: Target)
    | AddWrite(name: Name, target: Target, copy: Pod)
    | Bind(name: Name, target: Target)
    // JfsUnmount, JUmount
    | Unmount(name: Name, target: Target)
    | DropLock(name: Name, target: Target)
    | DropStart(name: Name, target: Target)
    | DropRead(name: Name, target: Target)
    | DropWrite(name: Name, target: Target, copy: Pod)
    | DropRecheck(name: Name, target: Target)
    // deleteMountPod and the end of checkAnnotations
    | IdleRead(name: Name, op: Op)
    | IdleDecide(name: Name, copy: Pod, op: Op)
    | IdleStamp(name: Name, copy: Pod, seconds: int, op: Op)
    | IdleDelete(name: Name, copy: Pod, op: Op)
    // checkAnnotations
    | CheckLock(name: Name, copy: Pod, table: Liveness)
    | CheckPrune(name: Name, copy: Pod, table: Liveness, agreed: bool)
    // podDeletedHandler
    | Unfinalize(name: Name, copy: Pod)
    | RecreateLock(name: Name, copy: Pod)
    | RecreatePoll(name: Name, copy: Pod)
    | RecreateCreate(name: Name, copy: Pod)
    | MergeWrite(name: Name, copy: Pod, other: Pod)
    // podErrorHandler
    | StripLock(name: Name, copy: Pod)
    | StripUnfinalize(name: Name, copy: Pod)
    | StripDelete(name: Name, copy: Pod)
    | StripPoll(name: Name, copy: Pod)
    | StripCreate(name: Name, copy: Pod)
    // recoverTarget
    | Recover(name: Name, target: Target, pops: nat)

  predicate Waiting(pc: Pc) {
    pc.AddLock? || pc.DropLock? || pc.CheckLock? || pc.RecreateLock? || pc.StripLock?
  }

  predicate Unlocked(pc: Pc) {
    Waiting(pc) || pc.Bind? || pc.Unmount? || pc.Unfinalize? || pc.Recover?
  }

  /** The target whose publish, unpublish or recovery this thread is. */
  function Token(pc: Pc): Option<Target> {
    match pc
    case AddLock(_, t, _) => Some(t)
    case AddWait(_, t, _) => Some(t)
    case AddCreate(_, t, _) => Some(t)
    case AddRead(_, t) => Some(t)
    case AddWrite(_, t, _) => Some(t)
    case Bind(_, t) => Some(t)
    case Unmount(_, t) => Some(t)
    case DropLock(_, t) => Some(t)
    case DropStart(_, t) => Some(t)
    case DropRead(_, t) => Some(t)
    case DropWrite(_, t, _) => Some(t)
    case DropRecheck(_, t) => Some(t)
    case Recover(_, t, _) => Some(t)
    case IdleRead(_, op) => OpToken(op)
    case IdleDecide(_, _, op) => OpToken(op)
    case IdleStamp(_, _, _, op) => OpToken(op)
    case IdleDelete(_, _, op) => OpToken(op)
    case _ => None
  }

  function OpToken(op: Op): Option<Target> {
    if op.Unpublish? then Some(op.target) else None
  }

  /** History of a decision to delay: taken at `since` with delay `delay`, written as `seconds`. `clean`
      until the pod is seen holding a reference again. */
  datatype Mark = Mark(since: int, delay: int, seconds: int, clean: bool)

  datatype State = State(
    hash: Hash,
    server: Server,
    now: int,
    locks: map<nat, Tid>,
    threads: map<Tid, Pc>,
    volume: map<Target, Name>,
    live: set<Target>,
    stacks: map<Target, nat>,
    marks: map<Name, Mark>)

  function Init(now: int, hash: Hash): State {
    State(hash, Server(map[], []), now, map[], map[], map[], {}, map[], map[])
  }

  function Height(m: State, t: Target): nat {
    if t in m.stacks then m.stacks[t] else 0
  }

  // ----- one API call of one thread

  datatype Effect = Effect(server: Server, next: Option<Pc>)

  predicate HasRequests(p: Pod) {
    exists i | 0 <= i < |p.containers| :: |p.containers[i].requests| != 0
  }

  /** GetMountPathOfPod finds a mount point in the pod's command. */
  predicate Mountable(p: Pod) {
    |p.containers| > 0 && MountPathOfCommand(p.containers[0].command).Some?
  }

  function WithoutResources(cs: seq<Container>): seq<Container> {
    seq(|cs|, i requires 0 <= i < |cs| => cs[i].(requests := map[], limits := map[]))
  }

  function AnnotatedWith(p: Pod, a: Annotations): Pod {
    p.(annotations := a)
  }

  function Stamped(p: Pod, seconds: int): Pod {
    AnnotatedWith(p, p.annotations[DeleteAt := Stamp(seconds)])
  }

  function Released(p: Pod): Pod {
    p.(finalizers := p.finalizers - {FINALIZER})
  }

  /** The pod podDeletedHandler and podErrorHandler create again. */
  function Reborn(p: Pod): Pod {
    p.(finalizers := {FINALIZER})
  }

  function Merged(other: Annotations, former: Annotations): Annotations {
    other + (map k | k in former && IsRef(k, former[k]) :: former[k])
  }

  function AddAct(pc: Pc, s: Server, me: Writer): Effect
    requires pc.AddWait? || pc.AddCreate? || pc.AddRead? || pc.AddWrite?
  {
    var n, t := pc.name, pc.target;
    match pc
    case AddWait(_, _, made) =>
      if n !in s.pods then Effect(s, Some(AddCreate(n, t, made)))
      else if s.pods[n].deleting then Effect(s, Some(pc))
      else Effect(s, Some(AddRead(n, t)))
    case AddCreate(_, _, made) =>
      var (s', r) := CreatePod(s, n, AnnotatedWith(made, made.annotations[Ref(t) := Path(t)]).(finalizers := {FINALIZER}), me);
      Effect(s', if r.Accepted? then Some(Bind(n, t)) else None)
    case AddRead(_, _) =>
      if n !in s.pods || s.pods[n].deleting then Effect(s, None)
      else if Ref(t) in s.pods[n].annotations then Effect(s, Some(Bind(n, t)))
      else Effect(s, Some(AddWrite(n, t, s.pods[n])))
    case AddWrite(_, _, copy) =>
      var (s', r) := UpdatePod(s, n, AnnotatedWith(copy, InsertRef(copy.annotations, t)), me);
      Effect(s', match r case Accepted => Some(Bind(n, t)) case Conflict => Some(AddRead(n, t)) case _ => None)
  }

  function DropAct(pc: Pc, s: Server, me: Writer): Effect
    requires pc.DropStart? || pc.DropRead? || pc.DropWrite? || pc.DropRecheck?
  {
    var n, t := pc.name, pc.target;
    match pc
    case DropStart(_, _) =>
      Effect(s, if n in s.pods then Some(DropRead(n, t)) else None)
    case DropRead(_, _) =>
      if n !in s.pods then Effect(s, None)
      else if Ref(t) !in s.pods[n].annotations then Effect(s, Some(DropRecheck(n, t)))
      else Effect(s, Some(DropWrite(n, t, s.pods[n])))
    case DropWrite(_, _, copy) =>
      var (s', r) := UpdatePod(s, n, AnnotatedWith(copy, RemoveRef(copy.annotations, t)), me);
      Effect(s', match r case Accepted => Some(DropRecheck(n, t)) case Conflict => Some(DropRead(n, t)) case _ => None)
    case DropRecheck(_, _) =>
      Effect(s, if n !in s.pods || HasRef(s.pods[n].annotations) then None else Some(IdleRead(n, Unpublish(t))))
  }

  function IdleAct(pc: Pc, s: Server, now: int, me: Writer): Effect
    requires pc.IdleRead? || pc.IdleDecide? || pc.IdleStamp? || pc.IdleDelete?
  {
    var n, op := pc.name, pc.op;
    match pc
    case IdleRead(_, _) =>
      Effect(s, if n !in s.pods || HasRef(s.pods[n].annotations) then None else Some(IdleDecide(n, s.pods[n], op)))
    case IdleDecide(_, copy, _) =>
      Effect(s, match ShouldDelay(copy.annotations, now)
                case DeleteNow => Some(IdleDelete(n, copy, op))
                case Wait => None
                case StampAt(seconds) => Some(IdleStamp(n, copy, seconds, op)))
    case IdleStamp(_, copy, seconds, _) =>
      var (s', r) := UpdatePod(s, n, Stamped(copy, seconds), me);
      Effect(s', if r.Conflict? && op.Unpublish? then Some(IdleRead(n, op)) else None)
    case IdleDelete(_, _, _) =>
      Effect(DeletePod(s, n, me).0, None)
  }

  function CheckAct(pc: Pc, s: Server, me: Writer): Effect
    requires pc.CheckPrune?
  {
    var n, copy := pc.name, pc.copy;
    var pruned := Prune(copy.annotations, pc.table);
    var after := AnnotatedWith(copy, pruned);
    var idle := Refs(pruned) == {} && !copy.deleting;
    if |copy.annotations| != |pruned| then
      var (s', r) := UpdatePod(s, n, after, me);
      Effect(s', if r.Accepted? && idle then Some(IdleDecide(n, after, Reconcile(true))) else None)
    else
      Effect(s, if idle then Some(IdleDecide(n, after, Reconcile(pc.agreed))) else None)
  }

  function RecreateAct(pc: Pc, s: Server, me: Writer): Effect
    requires pc.Unfinalize? || pc.RecreatePoll? || pc.RecreateCreate? || pc.MergeWrite?
  {
    var n, copy := pc.name, pc.copy;
    match pc
    case Unfinalize(_, _) =>
      var (s', r) := UpdatePod(s, n, Released(copy), me);
      Effect(s', if r.Accepted? && Mountable(copy) && HasRef(copy.annotations) then Some(RecreateLock(n, copy)) else None)
    case RecreatePoll(_, _) =>
      Effect(s, if n !in s.pods then Some(RecreateCreate(n, copy))
                else if s.pods[n].deleting then Some(pc)
                else Some(MergeWrite(n, copy, s.pods[n])))
    case RecreateCreate(_, _) =>
      Effect(CreatePod(s, n, Reborn(copy), me).0, None)
    case MergeWrite(_, _, other) =>
      Effect(UpdatePod(s, n, AnnotatedWith(other, Merged(other.annotations, copy.annotations)), me).0, None)
  }

  function StripAct(pc: Pc, s: Server, me: Writer): Effect
    requires pc.StripUnfinalize? || pc.StripDelete? || pc.StripPoll? || pc.StripCreate?
  {
    var n, copy := pc.name, pc.copy;
    match pc
    case StripUnfinalize(_, _) =>
      var (s', r) := UpdatePod(s, n, Released(copy), me);
      Effect(s', if r.Accepted? then Some(StripDelete(n, copy)) else None)
    case StripDelete(_, _) =>
      var (s', r) := DeletePod(s, n, me);
      Effect(s', if r.Accepted? then Some(StripPoll(n, copy)) else None)
    case StripPoll(_, _) =>
      Effect(s, Some(if n in s.pods then pc else StripCreate(n, copy)))
    case StripCreate(_, _) =>
      Effect(CreatePod(s, n, Reborn(copy).(containers := WithoutResources(copy.containers)), me).0, None)
  }

  predicate CallsApi(pc: Pc) {
    !Waiting(pc) && !pc.Bind? && !pc.Unmount? && !pc.Recover?
  }

  function Act(pc: Pc, s: Server, now: int, me: Writer): Effect
    requires CallsApi(pc)
  {
    if pc.AddWait? || pc.AddCreate? || pc.AddRead? || pc.AddWrite? then AddAct(pc, s, me)
    else if pc.DropStart? || pc.DropRead? || pc.DropWrite? || pc.DropRecheck? then DropAct(pc, s, me)
    else if pc.IdleRead? || pc.IdleDecide? || pc.IdleStamp? || pc.IdleDelete? then IdleAct(pc, s, now, me)
    else if pc.CheckPrune? then CheckAct(pc, s, me)
    else if pc.Unfinalize? || pc.RecreatePoll? || pc.RecreateCreate? || pc.MergeWrite? then RecreateAct(pc, s, me)
    else StripAct(pc, s, me)
  }

  /** The copy says about references and deletion what the stored pod says. */
  predicate Fresh(s: Server, n: Name, copy: Pod) {
    n in s.pods ==> Agrees(s.pods[n].annotations, copy.annotations)
  }

  /** What a thread does first once it holds the lock. checkAnnotations does not look whether its input is
      up to date; that is only recorded. */
  function Entered(s: Server, pc: Pc): Pc
    requires Waiting(pc)
  {
    match pc
    case AddLock(n, t, made) => AddWait(n, t, made)
    case DropLock(n, t) => DropStart(n, t)
    case CheckLock(n, copy, table) => CheckPrune(n, copy, table, Fresh(s, n, copy))
    case RecreateLock(n, copy) => RecreatePoll(n, copy)
    case StripLock(n, copy) => StripUnfinalize(n, copy)
  }

  // ----- steps

  datatype Action =
    | KubeletStatus(name: Name, status: Status)
    | UserDelete(name: Name)
    | SetFinalizers(name: Name, finalizers: set<string>)
    | Annotate(name: Name, key: Key, value: Option<Value>)
    | Reaped(name: Name)
    | Tick(elapsed: nat)
    | AppStart(target: Target, name: Name)
    | AppGone(target: Target)

  datatype Step = Begin(tid: Tid, pc: Pc) | Go(tid: Tid) | Abort(tid: Tid) | Env(action: Action)

  predicate Busy(m: State, t: Target) {
    exists u | u in m.threads :: Token(m.threads[u]) == Some(t)
  }

  /** A pod as NewMountPod builds it: the settings name none of the protocol's annotations. */
  predicate FreshPod(p: Pod) {
    DeleteAt !in p.annotations && forall k | k in p.annotations :: !k.Ref?
  }

  /** How operations start. The CO overlaps no publish, unpublish and recovery of one target; handlers
      start from a copy that some version of the pod matches, however old. */
  predicate CanBegin(m: State, pc: Pc) {
    match pc
    case AddLock(n, t, made) => t in m.live && t in m.volume && m.volume[t] == n && !Busy(m, t) && FreshPod(made)
    case Unmount(n, t) => t in m.volume && m.volume[t] == n && !Busy(m, t)
    case Recover(n, t, _) => t in m.volume && m.volume[t] == n && !Busy(m, t) && Height(m, t) > 0
    case CheckLock(n, copy, _) => Logged(m.server, n, copy)
    case Unfinalize(n, copy) =>
      Logged(m.server, n, copy) && copy.deleting && FINALIZER in copy.finalizers && !copy.status.resourceError
    case StripLock(n, copy) =>
      Logged(m.server, n, copy) && !copy.deleting && copy.status.resourceError && HasRequests(copy)
    case _ => false
  }

  predicate Allowed(m: State, a: Action) {
    match a
    case KubeletStatus(n, _) => n in m.server.pods
    case UserDelete(n) => n in m.server.pods
    case SetFinalizers(n, _) => n in m.server.pods
    case Annotate(n, k, _) => n in m.server.pods && (k.Other? || k.DeleteDelay?)
    case Reaped(n) => n in m.server.pods && m.server.pods[n].deleting && m.server.pods[n].finalizers == {}
    case Tick(_) => true
    case AppStart(t, _) => t !in m.volume
    case AppGone(t) => t in m.live
  }

  predicate Enabled(m: State, st: Step) {
    match st
    case Begin(u, pc) => u !in m.threads && CanBegin(m, pc)
    case Go(u) => u in m.threads && (Waiting(m.threads[u]) ==> Bucket(m.hash, m.threads[u].name) !in m.locks)
    case Abort(u) => u in m.threads
    case Env(a) => Allowed(m, a)
  }

  /** Install what a call of thread `u` did; a thread that ends or leaves the locked section unlocks. */
  function Settle(m: State, u: Tid, e: Effect): State {
    var keep := e.next.Some? && !Unlocked(e.next.value);
    m.(server := e.server,
       threads := if e.next.Some? then m.threads[u := e.next.value] else m.threads - {u},
       locks := if keep then m.locks else map b | b in m.locks && m.locks[b] != u :: m.locks[b])
  }

  /** What one mount operation leaves: how many layers the target has, and where the thread goes. */
  datatype MountEffect = MountEffect(height: nat, next: Option<Pc>)

  function MountAct(pc: Pc, h: nat): MountEffect
    requires pc.Bind? || pc.Unmount? || pc.Recover?
  {
    match pc
    case Bind(_, _) => MountEffect(h + 1, None)
    case Unmount(n, t) => if h > 0 then MountEffect(h - 1, Some(pc)) else MountEffect(0, Some(DropLock(n, t)))
    case Recover(n, t, pops) =>
      if pops > 0 then MountEffect(if h > 0 then h - 1 else 0, Some(Recover(n, t, pops - 1)))
      else MountEffect(h + 1, None)
  }

  function MountStep(m: State, u: Tid): State
    requires u in m.threads && (m.threads[u].Bind? || m.threads[u].Unmount? || m.threads[u].Recover?)
  {
    var t := m.threads[u].target;
    var e := MountAct(m.threads[u], Height(m, t));
    m.(stacks := m.stacks[t := e.height], threads := if e.next.Some? then m.threads[u := e.next.value] else m.threads - {u})
  }

  function ThreadStep(m: State, u: Tid): State
    requires u in m.threads
  {
    var pc := m.threads[u];
    if Waiting(pc) then m.(locks := m.locks[Bucket(m.hash, pc.name) := u], threads := m.threads[u := Entered(m.server, pc)])
    else if CallsApi(pc) then Settle(m, u, Act(pc, m.server, m.now, Thread(u)))
    else MountStep(m, u)
  }

  function Rewrite(s: Server, n: Name, p: Pod): Server {
    Put(s, n, p, Outside)
  }

  function Happen(m: State, a: Action): State
    requires (a.KubeletStatus? || a.UserDelete? || a.SetFinalizers? || a.Annotate?) ==> a.name in m.server.pods
  {
    var s := m.server;
    match a
    case KubeletStatus(n, status) => m.(server := Rewrite(s, n, s.pods[n].(status := status)))
    case UserDelete(n) => m.(server := DeletePod(s, n, Outside).0)
    case SetFinalizers(n, fs) => m.(server := Rewrite(s, n, s.pods[n].(finalizers := fs)))
    case Annotate(n, k, v) =>
      var a := s.pods[n].annotations;
      m.(server := Rewrite(s, n, AnnotatedWith(s.pods[n], if v.Some? then a[k := v.value] else a - {k})))
    case Reaped(n) => m.(server := Reap(s, n))
    case Tick(d) => m.(now := m.now + d)
    case AppStart(t, n) => m.(volume := m.volume[t := n], live := m.live + {t})
    case AppGone(t) => m.(live := m.live - {t})
  }

  function Plain(m: State, st: Step): State
    requires Enabled(m, st)
  {
    match st
    case Begin(u, pc) => m.(threads := m.threads[u := pc])
    case Go(u) => ThreadStep(m, u)
    case Abort(u) => Settle(m, u, Effect(m.server, None))
    case Env(a) => Happen(m, a)
  }

  predicate Refless(s: Server, n: Name) {
    n in s.pods ==> Refs(s.pods[n].annotations) == {}
  }

  /** The marks are history: they record decisions to delay, taken on what is stored, and influence nothing. */
  function Record(m: State, st: Step, m': State): map<Name, Mark> {
    var decided :=
      if st.Go? && st.tid in m.threads && m.threads[st.tid].IdleDecide? && Sure(m.threads[st.tid].op)
         && ShouldDelay(m.threads[st.tid].copy.annotations, m.now).StampAt?
         && m.threads[st.tid].copy.annotations[DeleteDelay].Duration? then
        var a := m.threads[st.tid].copy.annotations;
        m.marks[m.threads[st.tid].name := Mark(m.now, a[DeleteDelay].nanos, ShouldDelay(a, m.now).seconds, true)]
      else m.marks;
    map n | n in decided :: decided[n].(clean := decided[n].clean && Refless(m'.server, n))
  }

  function Next(m: State, st: Step): State
    requires Enabled(m, st)
  {
    var m' := Plain(m, st);
    m'.(marks := Record(m, st, m'))
  }

  // ----- runs

  ghost predicate Valid(m: State, run: seq<Step>)
    decreases |run|, 0
  {
    run != [] ==>
      Valid(m, run[..|run| - 1]) && Enabled(Exec(m, run[..|run| - 1]), run[|run| - 1])
  }

  ghost function Exec(m: State, run: seq<Step>): State
    requires Valid(m, run)
    decreases |run|, 1
  {
    if run == [] then m else Next(Exec(m, run[..|run| - 1]), run[|run| - 1])
  }

  lemma {:induction false} PrefixValid(m: State, run: seq<Step>, i: nat)
    requires Valid(m, run) && i <= |run|
    ensures Valid(m, run[..i])
    decreases |run|
  {
    if i < |run| {
      PrefixValid(m, run[..|run| - 1], i);
      assert run[..|run| - 1][..i] == run[..i];
    } else {
      assert run[..i] == run;
    }
  }

  /** The state before step `i` of a run, or the last one. */
  ghost function At(m: State, run: seq<Step>, i: nat): State
    requires Valid(m, run) && i <= |run|
  {
    PrefixValid(m, run, i);
    Exec(m, run[..i])
  }

  lemma AtZero(m: State, run: seq<Step>)
    requires Valid(m, run)
    ensures At(m, run, 0) == m
  {
  }

  lemma AtStep(m: State, run: seq<Step>, i: nat)
    requires Valid(m, run) && i < |run|
    ensures Enabled(At(m, run, i), run[i])
    ensures At(m, run, i + 1) == Next(At(m, run, i), run[i])
  {
    PrefixValid(m, run, i + 1);
    assert run[..i + 1][..i] == run[..i];
  }
}
