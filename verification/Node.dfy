/** The node's shared state, and the calls a driver thread makes on it while everyone else runs. */
module Node {
  import opened Wrappers
  import opened Pods
  import opened ApiServer
  import opened Machine
  import opened Invariant
  import opened Safety

  /** What other threads and the outside world may do to thread `me`: move the clock and the server, but
      not `me`, not in its name, and not the protocol's annotations of a pod whose lock it holds. */
  ghost predicate Rely(m: State, m': State, me: Tid) {
    && me in m.threads && me in m'.threads && m'.threads[me] == m.threads[me]
    && m.hash == m'.hash && m.now <= m'.now && m.server.log <= m'.server.log
    && (forall i | |m.server.log| <= i < |m'.server.log| :: m'.server.log[i].who != Thread(me))
    && (!Unlocked(m.threads[me]) ==> KeepsProtocol(m.server, m'.server, m.threads[me].name))
  }

  predicate ByOthers(st: Step, me: Tid) {
    st.Env? || st.tid != me
  }

  lemma RelyTransitive(m: State, m1: State, m2: State, me: Tid)
    requires Rely(m, m1, me) && Rely(m1, m2, me)
    ensures Rely(m, m2, me)
  {
  }

  // ----- one step of anyone else

  lemma ActWrites(pc: Pc, s: Server, now: int, u: Tid)
    requires CallsApi(pc)
    ensures var s' := Act(pc, s, now, Thread(u)).server;
            s.log <= s'.log && forall i | |s.log| <= i < |s'.log| :: s'.log[i].who == Thread(u) && s'.log[i].name == pc.name
  {
  }

  lemma EnvWrites(m: State, a: Action)
    requires Allowed(m, a)
    ensures var s' := Happen(m, a).server;
            m.server.log <= s'.log && forall i | |m.server.log| <= i < |s'.log| :: s'.log[i].who == Outside
  {
  }

  lemma ActRely(m: State, u: Tid, me: Tid)
    requires Inv(m) && u in m.threads && u != me && me in m.threads && CallsApi(m.threads[u])
    ensures !Unlocked(m.threads[me]) ==>
      KeepsProtocol(m.server, Act(m.threads[u], m.server, m.now, Thread(u)).server, m.threads[me].name)
  {
    var pc := m.threads[u];
    assert ThreadOk(m.server, m.volume, pc);
    ActTouches(pc, m.server, m.now, Thread(u));
    if Unlocked(pc) {
      OutsideKeepsProtocol(m.server, m.volume, pc, m.now, Thread(u));
    }
    if !Unlocked(m.threads[me]) {
      OthersUntouched(m, u, me, Act(pc, m.server, m.now, Thread(u)).server);
    }
  }

  lemma SettleRely(m: State, u: Tid, e: Effect, me: Tid)
    requires u != me && me in m.threads && m.server.log <= e.server.log
    requires forall i | |m.server.log| <= i < |e.server.log| :: e.server.log[i].who == Thread(u)
    requires !Unlocked(m.threads[me]) ==> KeepsProtocol(m.server, e.server, m.threads[me].name)
    ensures Rely(m, Settle(m, u, e), me)
  {
  }

  lemma GoRely(m: State, u: Tid, me: Tid)
    requires Inv(m) && u in m.threads && u != me && me in m.threads && CallsApi(m.threads[u])
    ensures Rely(m, ThreadStep(m, u), me)
  {
    ActWrites(m.threads[u], m.server, m.now, u);
    ActRely(m, u, me);
    SettleRely(m, u, Act(m.threads[u], m.server, m.now, Thread(u)), me);
  }

  lemma EnvRely(m: State, a: Action, me: Tid)
    requires Inv(m) && Allowed(m, a) && me in m.threads
    ensures Rely(m, Happen(m, a), me)
  {
    EnvWrites(m, a);
    EnvStill(m, a);
    EnvKeepsProtocol(m, a);
    StillRely(m, Happen(m, a), me);
  }

  lemma StillRely(m: State, m': State, me: Tid)
    requires me in m.threads && m'.threads == m.threads && m'.hash == m.hash && m.now <= m'.now && m.server.log <= m'.server.log
    requires forall i | |m.server.log| <= i < |m'.server.log| :: m'.server.log[i].who == Outside
    requires forall n :: KeepsProtocol(m.server, m'.server, n)
    ensures Rely(m, m', me)
  {
  }

  lemma MountQuiet(m: State, u: Tid)
    requires u in m.threads && (m.threads[u].Bind? || m.threads[u].Unmount? || m.threads[u].Recover?)
    ensures var m' := MountStep(m, u);
            m'.server == m.server && m'.now == m.now && m'.hash == m.hash
    ensures forall v | v != u :: (v in m.threads <==> v in MountStep(m, u).threads) && (v in m.threads ==> MountStep(m, u).threads[v] == m.threads[v])
  {
  }

  lemma MountRely(m: State, u: Tid, me: Tid)
    requires u in m.threads && u != me && me in m.threads && !CallsApi(m.threads[u])
    ensures Rely(m, ThreadStep(m, u), me)
  {
    if Waiting(m.threads[u]) {
    } else {
      MountQuiet(m, u);
    }
  }

  lemma StartStopRely(m: State, st: Step, me: Tid)
    requires Enabled(m, st) && (st.Begin? || st.Abort?) && st.tid != me && me in m.threads
    ensures Rely(m, Plain(m, st), me)
  {
  }

  lemma MarksRely(m: State, m': State, marks: map<Name, Mark>, me: Tid)
    requires Rely(m, m', me)
    ensures Rely(m, m'.(marks := marks), me)
  {
  }

  lemma RelyStep(m: State, st: Step, me: Tid)
    requires Inv(m) && Enabled(m, st) && ByOthers(st, me) && me in m.threads
    ensures Rely(m, Next(m, st), me)
  {
    if st.Env? {
      EnvRely(m, st.action, me);
    } else if st.Begin? || st.Abort? {
      StartStopRely(m, st, me);
    } else if CallsApi(m.threads[st.tid]) {
      GoRely(m, st.tid, me);
    } else {
      MountRely(m, st.tid, me);
    }
    MarksRely(m, Plain(m, st), Next(m, st).marks, me);
  }

  // ----- our own calls

  predicate Reads(pc: Pc) {
    pc.AddWait? || pc.AddRead? || pc.DropStart? || pc.DropRead? || pc.DropRecheck? || pc.IdleRead? || pc.RecreatePoll? || pc.StripPoll?
  }

  /** The pod a thread is about to pass to UpdatePod. */
  function Payload(pc: Pc): Option<Pod> {
    match pc
    case AddWrite(_, t, c) => Some(AnnotatedWith(c, InsertRef(c.annotations, t)))
    case DropWrite(_, t, c) => Some(AnnotatedWith(c, RemoveRef(c.annotations, t)))
    case IdleStamp(_, c, k, _) => Some(Stamped(c, k))
    case CheckPrune(_, c, table, _) =>
      if |c.annotations| != |Prune(c.annotations, table)| then Some(AnnotatedWith(c, Prune(c.annotations, table))) else None
    case Unfinalize(_, c) => Some(Released(c))
    case MergeWrite(_, c, o) => Some(AnnotatedWith(o, Merged(o.annotations, c.annotations)))
    case StripUnfinalize(_, c) => Some(Released(c))
    case _ => None
  }

  function Creation(pc: Pc): Option<Pod> {
    match pc
    case AddCreate(_, t, made) => Some(AnnotatedWith(made, made.annotations[Ref(t) := Path(t)]).(finalizers := {FINALIZER}))
    case RecreateCreate(_, c) => Some(Reborn(c))
    case StripCreate(_, c) => Some(Reborn(c).(containers := WithoutResources(c.containers)))
    case _ => None
  }

  /** Where thread `me` and the server are after its call in state `mid`. */
  ghost predicate After(mid: State, m': State, me: Tid)
    requires me in mid.threads && CallsApi(mid.threads[me])
  {
    var e := Act(mid.threads[me], mid.server, mid.now, Thread(me));
    && m'.server == e.server && m'.now == mid.now
    && (if e.next.Some? then me in m'.threads && m'.threads[me] == e.next.value else me !in m'.threads)
  }

  /** What thread `me` sees of one of its own calls: others ran, then the call happened. */
  ghost predicate Called(m: State, mid: State, m': State, me: Tid)
    requires me in m.threads && CallsApi(m.threads[me])
  {
    Rely(m, mid, me) && Inv(mid) && After(mid, m', me)
  }

  lemma NextIsAfter(m: State, me: Tid)
    requires me in m.threads && CallsApi(m.threads[me])
    ensures After(m, Next(m, Go(me)), me)
  {
  }

  lemma CallsTakeNoLock(m: State, me: Tid)
    requires Inv(m) && me in m.threads && CallsApi(m.threads[me])
    ensures Next(m, Go(me)).locks.Keys <= m.locks.Keys && Next(m, Go(me)).hash == m.hash
    ensures Unlocked(m.threads[me]) ==> Next(m, Go(me)).locks == m.locks
  {
  }

  lemma ReadLeaves(pc: Pc, s: Server, now: int, me: Writer)
    requires CallsApi(pc) && (Reads(pc) || pc.IdleDecide?)
    ensures Act(pc, s, now, me).server == s
  {
  }

  lemma PayloadIsWritten(pc: Pc, s: Server, now: int, me: Writer)
    requires CallsApi(pc) && Payload(pc).Some?
    ensures Act(pc, s, now, me).server == UpdatePod(s, pc.name, Payload(pc).value, me).0
  {
  }

  lemma CreationIsCreated(pc: Pc, s: Server, now: int, me: Writer)
    requires CallsApi(pc) && Creation(pc).Some?
    ensures Act(pc, s, now, me).server == CreatePod(s, pc.name, Creation(pc).value, me).0
  {
  }

  lemma DeletionIsDeleted(pc: Pc, s: Server, now: int, me: Writer)
    requires pc.IdleDelete? || pc.StripDelete?
    ensures Act(pc, s, now, me).server == DeletePod(s, pc.name, me).0
  {
  }

  /** How an operation ends. `Blocked`: the lock was not obtained. */
  datatype Outcome = Ok | Failed(reply: Reply) | Terminating | Blocked

  // retry.DefaultBackoff, and the bound of every wait loop
  const BACKOFF_STEPS := 4
  const POLLS := 120

  /** Where a thread stands after a call: at `next`, or done. */
  ghost predicate Stands(m: State, me: Tid, next: Option<Pc>) {
    if next.Some? then me in m.threads && m.threads[me] == next.value else me !in m.threads
  }

  /** A pod whose lock we hold neither appears nor gains a reference while others run. */
  lemma StillWithout(m: State, m': State, me: Tid, n: Name, t: Target)
    requires Rely(m, m', me) && !Unlocked(m.threads[me]) && m.threads[me].name == n
    ensures n !in m.server.pods ==> n !in m'.server.pods
    ensures Holds(m'.server, n, t) ==> Holds(m.server, n, t)
    ensures Refless(m.server, n) ==> Refless(m'.server, n)
  {
    if n in m'.server.pods {
      SameProtocolRefs(m.server.pods[n].annotations, m'.server.pods[n].annotations);
    }
  }

  /** The writes thread `me` has on record since log position `from`. */
  ghost function Mine(m: State, from: nat, me: Tid): seq<Write>
    requires from <= |m.server.log|
  {
    WritesBy(m.server.log, from, Thread(me))
  }

  lemma NoWrite(m: State, before: State, m': State, from: nat, me: Tid)
    requires from <= |m.server.log| && Rely(m, before, me) && m'.server == before.server
    ensures m.server.log <= m'.server.log && Mine(m', from, me) == Mine(m, from, me)
  {
    ForeignWrites(m.server.log, before.server.log, from, Thread(me));
  }

  lemma OneWrite(m: State, before: State, m': State, from: nat, me: Tid, n: Name, p: Pod)
    requires from <= |m.server.log| && Rely(m, before, me) && m'.server == Put(before.server, n, p, Thread(me))
    ensures m.server.log <= m'.server.log
    ensures Mine(m', from, me) == Mine(m, from, me)
      + [Write(n, p.(version := |before.server.log|), Lookup(before.server, n), Thread(me))]
  {
    ForeignWrites(m.server.log, before.server.log, from, Thread(me));
    OwnWrite(before.server.log, Write(n, p.(version := |before.server.log|), Lookup(before.server, n), Thread(me)), from);
  }

  /** What others may do while `me` runs nothing. */
  ghost predicate Apart(m: State, m': State, me: Tid) {
    && me !in m.threads && me !in m'.threads && m.now <= m'.now && m.server.log <= m'.server.log
    && forall i | |m.server.log| <= i < |m'.server.log| :: m'.server.log[i].who != Thread(me)
  }

  lemma ApartGo(m: State, u: Tid, me: Tid)
    requires u in m.threads && u != me && me !in m.threads && CallsApi(m.threads[u])
    ensures Apart(m, ThreadStep(m, u), me)
  {
    ActWrites(m.threads[u], m.server, m.now, u);
  }

  lemma ApartQuiet(m: State, st: Step, me: Tid)
    requires Enabled(m, st) && ByOthers(st, me) && !st.Env? && (st.Go? ==> !CallsApi(m.threads[st.tid])) && me !in m.threads
    ensures Apart(m, Plain(m, st), me)
  {
  }

  lemma ApartEnv(m: State, a: Action, me: Tid)
    requires Inv(m) && Allowed(m, a) && me !in m.threads
    ensures Apart(m, Happen(m, a), me)
  {
  }

  lemma ApartMarks(m: State, m': State, marks: map<Name, Mark>, me: Tid)
    requires Apart(m, m', me)
    ensures Apart(m, m'.(marks := marks), me)
  {
  }

  lemma ApartStep(m: State, st: Step, me: Tid)
    requires Inv(m) && Enabled(m, st) && ByOthers(st, me) && me !in m.threads
    ensures Apart(m, Next(m, st), me)
  {
    if st.Env? {
      ApartEnv(m, st.action, me);
    } else if st.Go? && CallsApi(m.threads[st.tid]) {
      ApartGo(m, st.tid, me);
    } else {
      ApartQuiet(m, st, me);
    }
    ApartMarks(m, Plain(m, st), Next(m, st).marks, me);
  }

  lemma NoWriteApart(m: State, m': State, from: nat, me: Tid)
    requires from <= |m.server.log| && Apart(m, m', me)
    ensures m.server.log <= m'.server.log && Mine(m', from, me) == Mine(m, from, me)
  {
    ForeignWrites(m.server.log, m'.server.log, from, Thread(me));
  }

  /** The states in which we called the API server or asked for a lock, and the answers, the last one outermost.
      A lock that is taken answers Conflict. */
  datatype Sight = Nothing | Seen(earlier: Sight, state: State, answer: Reply)

  function Found(r: Option<Pod>): Reply {
    if r.Some? then Accepted else NotFound
  }

  /** `h` is `h0`, or goes on from it. */
  ghost predicate Since(h: Sight, h0: Sight) {
    h == h0 || (h.Seen? && Since(h.earlier, h0))
  }

  function Count(seen: Sight): nat {
    if seen.Nothing? then 0 else Count(seen.earlier) + 1
  }

  /** What the API server answers to the thread's next call. */
  function AnswerTo(pc: Pc, s: Server, me: Writer): Reply {
    if Payload(pc).Some? then ApiServer.UpdatePod(s, pc.name, Payload(pc).value, me).1
    else if Creation(pc).Some? then ApiServer.CreatePod(s, pc.name, Creation(pc).value, me).1
    else if pc.IdleDelete? || pc.StripDelete? then ApiServer.DeletePod(s, pc.name, me).1
    else Found(Lookup(s, pc.name))
  }

  lemma AnswerToRead(pc: Pc, s: Server, me: Writer)
    requires Reads(pc)
    ensures AnswerTo(pc, s, me) == Found(Lookup(s, pc.name))
  {
  }

  lemma AnswerToDeletion(pc: Pc, s: Server, me: Writer)
    requires pc.IdleDelete? || pc.StripDelete?
    ensures AnswerTo(pc, s, me) == ApiServer.DeletePod(s, pc.name, me).1
  {
  }

  /** What is left of a plan after `k` batches. */
  function Later(plan: seq<seq<Step>>, k: nat): seq<seq<Step>> {
    if k <= |plan| then plan[k..] else []
  }

  lemma LaterOn(plan: seq<seq<Step>>, k: nat)
    ensures Later(plan, k + 1) == Later(Later(plan, k), 1)
  {
  }

  /** All the others do before the next call is to remove a pod. */
  predicate Reaping(schedule: seq<seq<Step>>) {
    schedule != [] && |schedule[0]| == 1 && schedule[0][0].Env? && schedule[0][0].action.Reaped?
  }

  /** What a first batch without a step, or with the removal of a pod, leaves. */
  ghost predicate Foreign(m: State, m': State, schedule: seq<seq<Step>>) {
    && (schedule != [] && schedule[0] == [] ==> m' == m)
    && (Reaping(schedule) ==>
          && m'.server == (if Allowed(m, schedule[0][0].action) then Reap(m.server, schedule[0][0].action.name) else m.server)
          && m'.locks == m.locks && m'.hash == m.hash)
  }

  /** No one else acts before the next call. */
  predicate Calm(schedule: seq<seq<Step>>) {
    schedule == [] || schedule[0] == []
  }

  /** All anyone else does is to remove pod `n`, before call `j` from now on. */
  predicate ReapedAt(schedule: seq<seq<Step>>, n: Name, j: nat) {
    |schedule| == j + 1 && (forall i | 0 <= i < j :: schedule[i] == []) && schedule[j] == [Env(Reaped(n))]
  }

  lemma ReapedLater(schedule: seq<seq<Step>>, n: Name, j: nat)
    requires ReapedAt(schedule, n, j)
    ensures j > 0 ==> Calm(schedule) && ReapedAt(Later(schedule, 1), n, j - 1)
    ensures j == 0 ==> Reaping(schedule) && schedule[0][0].action.name == n
  {
  }

  lemma ReapedThen(schedule: seq<seq<Step>>, n: Name, j: nat, i: nat)
    requires ReapedAt(schedule, n, j) && i <= j
    ensures if i < j then Calm(Later(schedule, i)) else ReapedAt(Later(schedule, i), n, 0)
  {
  }

  ghost predicate DeletingAt(look: State, n: Name) {
    n in look.server.pods && look.server.pods[n].deleting
  }

  ghost predicate UsedAt(look: State, n: Name) {
    n in look.server.pods && !look.server.pods[n].deleting
  }

  /** The pod is marked and has no finalizer left. */
  ghost predicate Reapable(m: State, n: Name) {
    DeletingAt(m, n) && m.server.pods[n].finalizers == {}
  }

  lemma CalmOrReaped(m: State, before: State, schedule: seq<seq<Step>>, n: Name)
    requires Foreign(m, before, schedule) && (schedule == [] ==> before == m)
    ensures Calm(schedule) ==> before == m
    ensures ReapedAt(schedule, n, 0) && Reapable(m, n) ==> n !in before.server.pods
  {
  }

  /** Whenever anything was seen from `h0` to `h`, the pod was being deleted. */
  ghost predicate AllDeleting(h: Sight, h0: Sight, n: Name) {
    h == h0 || (h.Seen? && DeletingAt(h.state, n) && AllDeleting(h.earlier, h0, n))
  }

  /** All 120 polls found the pod being deleted. */
  ghost predicate DeletingThroughout(h: Sight, h0: Sight, n: Name) {
    AllDeleting(h, h0, n) && Count(h) == Count(h0) + 120
  }

  /** Whenever anything was seen from `h0` to `h`, the pod was stored, whatever its state. */
  ghost predicate AllFound(h: Sight, h0: Sight, n: Name) {
    h == h0 || (h.Seen? && n in h.state.server.pods && AllFound(h.earlier, h0, n))
  }

  /** All 120 polls found the pod. */
  ghost predicate FoundThroughout(h: Sight, h0: Sight, n: Name) {
    AllFound(h, h0, n) && Count(h) == Count(h0) + 120
  }

  /** The lock of the name is free. */
  ghost predicate Granted(lock: State, n: Name) {
    Bucket(lock.hash, n) !in lock.locks
  }

  /** All that happened is that the lock was asked for and not granted. */
  ghost predicate NotGranted(h: Sight, h0: Sight, n: Name) {
    h.Seen? && h.earlier == h0 && !Granted(h.state, n)
  }

  /** Where a batch of attempts of the others leads from `m`: what is not enabled when its turn comes is skipped. */
  ghost function Attempted(m: State, batch: seq<Step>, me: Tid): State {
    if batch == [] then m
    else
      var m', last := Attempted(m, batch[..|batch| - 1], me), batch[|batch| - 1];
      if ByOthers(last, me) && Enabled(m', last) then Next(m', last) else m'
  }

  function Batch(schedule: seq<seq<Step>>): seq<Step> {
    if schedule == [] then [] else schedule[0]
  }

  lemma AttemptedOneMore(m: State, batch: seq<Step>, i: nat, me: Tid)
    requires i < |batch|
    ensures var m' := Attempted(m, batch[..i], me);
      Attempted(m, batch[..i + 1], me) == if ByOthers(batch[i], me) && Enabled(m', batch[i]) then Next(m', batch[i]) else m'
  {
    assert batch[..i + 1][..i] == batch[..i];
  }

  lemma AttemptedIsForeign(m: State, schedule: seq<seq<Step>>, me: Tid)
    ensures Foreign(m, Attempted(m, Batch(schedule), me), schedule)
  {
    if Reaping(schedule) {
      AttemptedOneMore(m, schedule[0], 0, me);
      assert schedule[0][..0] == [] && schedule[0][..1] == schedule[0];
    }
  }

  class World {
    const start: int
    const hash: Hash
    var m: State
    // what everyone else attempts, one batch before each call of ours
    const plan: seq<seq<Step>>
    var schedule: seq<seq<Step>>
    ghost var run: seq<Step>
    ghost var seen: Sight

    /** The state is the result of a run, and a batch of the plan goes with each state seen. */
    ghost predicate Good()
      reads this
    {
      Valid(Init(start, hash), run) && m == Exec(Init(start, hash), run) && schedule == Later(plan, Count(seen))
    }

    constructor (now: int, hash: Hash, schedule: seq<seq<Step>>)
      ensures Good() && m == Init(now, hash) && this.schedule == schedule && seen == Nothing
    {
      this.start, this.hash, this.plan, this.schedule := now, hash, schedule, schedule;
      m := Init(now, hash);
      run, seen := [], Nothing;
    }

    lemma GoodInv()
      requires Good()
      ensures Inv(m)
    {
      InvAlways(start, hash, run, |run|);
      assert run[..|run|] == run;
    }

    /** One step of anybody. */
    method Take(st: Step)
      requires Good() && Enabled(m, st)
      modifies this`m, this`run
      ensures Good() && m == Next(old(m), st) && run == old(run) + [st]
    {
      ghost var next := run + [st];
      assert next[..|next| - 1] == run;
      run := next;
      m := Next(m, st);
    }

    /** One attempt of someone else. */
    method Attempt(st: Step, me: Tid)
      requires Good() && Inv(m)
      modifies this`m, this`run
      ensures Good() && Inv(m) && m == if ByOthers(st, me) && Enabled(old(m), st) then Next(old(m), st) else old(m)
      ensures me in old(m).threads ==> Rely(old(m), m, me)
      ensures me !in old(m).threads ==> Apart(old(m), m, me)
    {
      if ByOthers(st, me) && Enabled(m, st) {
        if me in m.threads {
          RelyStep(m, st, me);
        } else {
          ApartStep(m, st, me);
        }
        InvStep(m, st);
        Take(st);
      }
    }

    /** Everyone else runs for a while: the next batch. */
    method Interleave(me: Tid)
      requires Good() && me in m.threads
      modifies this`m, this`run
      ensures Good() && Rely(old(m), m, me) && Foreign(old(m), m, schedule)
      ensures m == Attempted(old(m), Batch(schedule), me)
    {
      GoodInv();
      ghost var m0 := m;
      if schedule != [] {
        var batch := schedule[0];
        for i := 0 to |batch|
          invariant Good() && Inv(m) && Rely(m0, m, me) && m == Attempted(m0, batch[..i], me)
        {
          AttemptedOneMore(m0, batch, i, me);
          ghost var m1 := m;
          Attempt(batch[i], me);
          RelyTransitive(m0, m1, m, me);
        }
        assert batch[..|batch|] == batch;
      }
      AttemptedIsForeign(m0, schedule, me);
    }

    /** Its batch is over, and state `s` was seen. */
    method Look(ghost s: State, ghost answer: Reply)
      requires Good()
      modifies this`schedule, this`seen
      ensures Good() && seen == Seen(old(seen), s, answer) && schedule == Later(old(schedule), 1)
    {
      LaterOn(plan, Count(seen));
      seen := Seen(seen, s, answer);
      schedule := if schedule == [] then [] else schedule[1..];
    }

    /** Everyone runs for a while, then a pod is read; no operation of ours is under way. */
    method Fetch(me: Tid, n: Name) returns (r: Option<Pod>)
      requires Good() && me !in m.threads
      modifies this`m, this`run, this`schedule, this`seen
      ensures Good() && Apart(old(m), m, me) && r == Lookup(m.server, n) && seen == Seen(old(seen), m, Found(r))
      ensures m == Attempted(old(m), Batch(old(schedule)), me)
      ensures r.Some? ==> Logged(m.server, n, r.value)
      ensures old(schedule) == [] ==> m == old(m) && schedule == []
    {
      GoodInv();
      ghost var m0 := m;
      if schedule != [] {
        var batch := schedule[0];
        for i := 0 to |batch|
          invariant Good() && Inv(m) && Apart(m0, m, me) && seen == old(seen) && schedule == old(schedule)
          invariant m == Attempted(m0, batch[..i], me)
        {
          AttemptedOneMore(m0, batch, i, me);
          Attempt(batch[i], me);
        }
        assert batch[..|batch|] == batch;
      }
      r := Lookup(m.server, n);
      Look(m, Found(r));
    }

    /** An operation of ours starts. */
    method Start(me: Tid, pc: Pc)
      requires Good() && me !in m.threads && CanBegin(m, pc)
      modifies this`m, this`run
      ensures Good() && me in m.threads && m.threads[me] == pc && m.server == old(m.server) && m.now == old(m.now)
      ensures m.locks == old(m.locks) && m.hash == old(m.hash)
    {
      Take(Begin(me, pc));
    }

    /** The next call of thread `me`, whatever it is. */
    method Call(me: Tid) returns (before: State)
      requires Good() && me in m.threads && CallsApi(m.threads[me])
      modifies this`m, this`run, this`schedule, this`seen
      ensures Good() && Called(old(m), before, m, me) && Foreign(old(m), before, old(schedule)) && schedule == Later(old(schedule), 1)
      ensures m.locks.Keys <= before.locks.Keys && m.hash == before.hash
      ensures Unlocked(old(m).threads[me]) ==> m.locks == before.locks
      ensures seen == Seen(old(seen), before, AnswerTo(old(m).threads[me], before.server, Thread(me)))
      ensures before == Attempted(old(m), Batch(old(schedule)), me)
      ensures old(schedule) == [] ==> before == old(m) && schedule == []
    {
      Interleave(me);
      GoodInv();
      before := m;
      NextIsAfter(m, me);
      CallsTakeNoLock(m, me);
      Take(Go(me));
      Look(before, AnswerTo(before.threads[me], before.server, Thread(me)));
    }

    method GetPod(me: Tid) returns (r: Option<Pod>, ghost before: State)
      requires Good() && me in m.threads && CallsApi(m.threads[me]) && Reads(m.threads[me])
      modifies this`m, this`run, this`schedule, this`seen
      ensures Good() && Called(old(m), before, m, me) && seen == Seen(old(seen), before, Found(r))
      ensures Foreign(old(m), before, old(schedule)) && schedule == Later(old(schedule), 1)
      ensures m.server == before.server && r == Lookup(before.server, old(m).threads[me].name)
      ensures old(schedule) == [] ==> before == old(m) && schedule == []
    {
      var n := m.threads[me].name;
      var b := Call(me);
      ReadLeaves(b.threads[me], b.server, b.now, Thread(me));
      AnswerToRead(b.threads[me], b.server, Thread(me));
      r, before := Lookup(b.server, n), b;
    }

    /** The clock reading ShouldDelay takes. */
    method Now(me: Tid) returns (now: int, ghost before: State)
      requires Good() && me in m.threads && m.threads[me].IdleDecide?
      modifies this`m, this`run, this`schedule, this`seen
      ensures Good() && Called(old(m), before, m, me) && seen.Seen? && seen.earlier == old(seen) && seen.state == before
      ensures m.server == before.server && now == before.now
      ensures old(schedule) == [] ==> before == old(m) && schedule == []
    {
      var b := Call(me);
      ReadLeaves(b.threads[me], b.server, b.now, Thread(me));
      now, before := b.now, b;
    }

    method UpdatePod(me: Tid, pod: Pod) returns (r: Reply, ghost before: State)
      requires Good() && me in m.threads && CallsApi(m.threads[me]) && Payload(m.threads[me]) == Some(pod)
      modifies this`m, this`run, this`schedule, this`seen
      ensures Good() && Called(old(m), before, m, me) && seen == Seen(old(seen), before, r)
      ensures Foreign(old(m), before, old(schedule)) && schedule == Later(old(schedule), 1)
      ensures (m.server, r) == ApiServer.UpdatePod(before.server, old(m).threads[me].name, pod, Thread(me))
      ensures m.locks.Keys <= before.locks.Keys && m.hash == before.hash
      ensures Unlocked(old(m).threads[me]) ==> m.locks == before.locks
      ensures old(schedule) == [] ==> before == old(m) && schedule == []
    {
      var n := m.threads[me].name;
      var b := Call(me);
      PayloadIsWritten(b.threads[me], b.server, b.now, Thread(me));
      r, before := ApiServer.UpdatePod(b.server, n, pod, Thread(me)).1, b;
    }

    method CreatePod(me: Tid, pod: Pod) returns (r: Reply, ghost before: State)
      requires Good() && me in m.threads && CallsApi(m.threads[me]) && Creation(m.threads[me]) == Some(pod)
      modifies this`m, this`run, this`schedule, this`seen
      ensures Good() && Called(old(m), before, m, me) && seen == Seen(old(seen), before, r)
      ensures Foreign(old(m), before, old(schedule)) && schedule == Later(old(schedule), 1)
      ensures (m.server, r) == ApiServer.CreatePod(before.server, old(m).threads[me].name, pod, Thread(me))
      ensures old(schedule) == [] ==> before == old(m) && schedule == []
    {
      var n := m.threads[me].name;
      var b := Call(me);
      CreationIsCreated(b.threads[me], b.server, b.now, Thread(me));
      r, before := ApiServer.CreatePod(b.server, n, pod, Thread(me)).1, b;
    }

    method DeletePod(me: Tid) returns (r: Reply, ghost before: State)
      requires Good() && me in m.threads && (m.threads[me].IdleDelete? || m.threads[me].StripDelete?)
      modifies this`m, this`run, this`schedule, this`seen
      ensures Good() && Called(old(m), before, m, me) && seen == Seen(old(seen), before, r)
      ensures Foreign(old(m), before, old(schedule)) && schedule == Later(old(schedule), 1)
      ensures (m.server, r) == ApiServer.DeletePod(before.server, old(m).threads[me].name, Thread(me))
      ensures old(schedule) == [] ==> before == old(m) && schedule == []
    {
      var n := m.threads[me].name;
      var b := Call(me);
      DeletionIsDeleted(b.threads[me], b.server, b.now, Thread(me));
      AnswerToDeletion(b.threads[me], b.server, Thread(me));
      r, before := ApiServer.DeletePod(b.server, n, Thread(me)).1, b;
    }

    /** lock.Lock(): false when the lock is still taken after everyone else ran. */
    method Lock(me: Tid) returns (held: bool, ghost before: State)
      requires Good() && me in m.threads && Waiting(m.threads[me])
      modifies this`m, this`run, this`schedule, this`seen
      ensures Good() && Rely(old(m), before, me) && Inv(before) && m.server == before.server && m.now == before.now
      ensures seen == Seen(old(seen), before, if held then Accepted else Conflict)
      ensures before == Attempted(old(m), Batch(old(schedule)), me)
      ensures Foreign(old(m), before, old(schedule)) && schedule == Later(old(schedule), 1)
      ensures if held then me in m.threads && m.threads[me] == Entered(m.server, old(m).threads[me]) else m == before
      ensures held <==> Bucket(before.hash, old(m).threads[me].name) !in before.locks
      ensures old(schedule) == [] ==> before == old(m) && schedule == []
    {
      Interleave(me);
      GoodInv();
      var b := m;
      held := Enabled(m, Go(me));
      if held {
        Take(Go(me));
      }
      before := b;
      Look(b, if held then Accepted else Conflict);
    }

    /** The operation gives up: the deferred unlock runs. */
    method GiveUp(me: Tid)
      requires Good() && me in m.threads
      modifies this`m, this`run
      ensures Good() && me !in m.threads && m.server == old(m).server && m.now == old(m).now
    {
      Take(Abort(me));
    }
  }
}
