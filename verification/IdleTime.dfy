/** How long a pod with a deletion delay stays: the bound over whole runs. */
module IdleTime {
  import opened Pods
  import opened ApiServer
  import opened Machine
  import opened Invariant
  import opened Safety

  /** The deletion instant `v` of pod `n` was decided once, and the pod has held no reference since. */
  ghost predicate Decided(marks: map<Name, Mark>, n: Name, v: Value) {
    v.Stamp? && n in marks && marks[n].clean && marks[n].seconds == v.seconds
  }

  predicate ValidDelay(a: Annotations) {
    DeleteDelay in a && a[DeleteDelay].Duration?
  }

  /** The deletion instant was decided once, the pod has held no reference since, and it has passed. */
  ghost predicate Expired(marks: map<Name, Mark>, now: int, n: Name, a: Annotations) {
    DeleteAt in a && Decided(marks, n, a[DeleteAt]) && now >= a[DeleteAt].seconds * SECOND
  }

  ghost predicate Dated(marks: map<Name, Mark>, n: Name, a: Annotations) {
    DeleteAt in a ==> Decided(marks, n, a[DeleteAt])
  }

  ghost predicate StoredDated(s: Server, marks: map<Name, Mark>, n: Name) {
    n in s.pods ==> Dated(marks, n, s.pods[n].annotations)
  }

  /** Facts of a thread inside a section; what it remembers matters only while the pod exists, or, for
      podErrorHandler, because it will create the pod again. */
  ghost predicate ThreadDated(s: Server, marks: map<Name, Mark>, now: int, pc: Pc) {
    match pc
    case IdleDecide(n, c, op) => Sure(op) && n in s.pods ==> Dated(marks, n, c.annotations)
    case IdleStamp(n, _, k, op) => Sure(op) ==> Decided(marks, n, Stamp(k))
    case IdleDelete(n, c, op) => Sure(op) && n in s.pods && ValidDelay(c.annotations) ==> Expired(marks, now, n, c.annotations)
    case CheckPrune(n, c, _, agreed) => agreed && n in s.pods ==> Dated(marks, n, c.annotations)
    case StripDelete(n, c) => Dated(marks, n, c.annotations)
    case StripPoll(n, c) => Dated(marks, n, c.annotations)
    case StripCreate(n, c) => Dated(marks, n, c.annotations)
    case _ => true
  }

  ghost predicate ThreadsDated(s: Server, marks: map<Name, Mark>, now: int, threads: map<Tid, Pc>, n: Name) {
    forall u | u in threads && threads[u].name == n :: ThreadDated(s, marks, now, threads[u])
  }

  /** Every mark is what its arithmetic says. */
  ghost predicate MarksOk(marks: map<Name, Mark>) {
    forall n | n in marks :: marks[n].seconds == (marks[n].since + marks[n].delay) / SECOND
  }

  /** Every deletion instant of pod `n`, stored or remembered, comes from a decision on the idle pod. */
  ghost predicate DatedInv(m: State, n: Name) {
    && StoredDated(m.server, m.marks, n)
    && ThreadsDated(m.server, m.marks, m.now, m.threads, n)
    && MarksOk(m.marks)
  }

  // ----- marks from one step to the next

  /** `marks'` remembers what `marks` did about pod `n`, unless the pod now holds a reference. */
  ghost predicate SameMark(marks: map<Name, Mark>, marks': map<Name, Mark>, s': Server, n: Name) {
    n in marks && Refless(s', n) ==> n in marks' && marks'[n] == marks[n]
  }

  ghost predicate Decides(m: State, st: Step, n: Name) {
    st.Go? && st.tid in m.threads && m.threads[st.tid].IdleDecide? && Sure(m.threads[st.tid].op) && m.threads[st.tid].name == n
    && ShouldDelay(m.threads[st.tid].copy.annotations, m.now).StampAt?
  }

  lemma RecordKeeps(m: State, st: Step, m': State, n: Name)
    requires !Decides(m, st, n)
    ensures SameMark(m.marks, Record(m, st, m'), m'.server, n)
  {
  }

  lemma RecordOk(m: State, st: Step, m': State)
    requires MarksOk(m.marks)
    ensures MarksOk(Record(m, st, m'))
  {
  }

  // ----- what the calls of a thread store

  /** A call that merges into no pending deletion stores a deletion instant only if it was stored before, or the thread
      itself has it from a decision. */
  ghost predicate Inherits(s: Server, s': Server, n: Name, pc: Pc) {
    n in s'.pods && DeleteAt in s'.pods[n].annotations ==>
      var v := s'.pods[n].annotations[DeleteAt];
      || (n in s.pods && DeleteAt in s.pods[n].annotations && s.pods[n].annotations[DeleteAt] == v)
      || (pc.IdleStamp? && Sure(pc.op) && v == Stamp(pc.seconds))
      || (pc.StripCreate? && DeleteAt in pc.copy.annotations && pc.copy.annotations[DeleteAt] == v)
  }

  lemma ActInherits(s: Server, vs: Volumes, pc: Pc, now: int, me: Writer)
    requires ServerOk(s) && ExclusiveLog(s.log, pc.name) && CallsApi(pc) && ThreadOk(s, vs, pc) && !Clashes(s, pc)
    ensures Inherits(s, Act(pc, s, now, me).server, pc.name, pc)
  {
  }

  lemma CheckDated(s: Server, marks: map<Name, Mark>, marks': map<Name, Mark>, now: int, pc: Pc, me: Writer)
    requires ServerOk(s) && ExclusiveLog(s.log, pc.name) && pc.CheckPrune? && Logged(s, pc.name, pc.copy)
    requires if pc.agreed then Tracks(s, pc.name, pc.copy) else Spent(s, pc.name, pc.copy)
    requires pc.agreed && pc.name in s.pods ==> Dated(marks, pc.name, pc.copy.annotations)
    requires SameMark(marks, marks', CheckAct(pc, s, me).server, pc.name)
    ensures var e := CheckAct(pc, s, me); e.next.Some? ==> ThreadDated(e.server, marks', now, e.next.value)
  {
  }

  lemma IdleReadDated(s: Server, marks: map<Name, Mark>, marks': map<Name, Mark>, now: int, pc: Pc, me: Writer)
    requires ServerOk(s) && ExclusiveLog(s.log, pc.name) && (pc.IdleRead? || pc.IdleStamp? || pc.IdleDelete?)
    requires StoredDated(s, marks, pc.name) && SameMark(marks, marks', IdleAct(pc, s, now, me).server, pc.name)
    ensures var e := IdleAct(pc, s, now, me); e.next.Some? ==> ThreadDated(e.server, marks', now, e.next.value)
  {
  }

  lemma StripActDated(s: Server, vs: Volumes, marks: map<Name, Mark>, marks': map<Name, Mark>, now: int, pc: Pc, me: Writer)
    requires ServerOk(s) && LogOk(s.log, vs) && ExclusiveLog(s.log, pc.name) && ThreadOk(s, vs, pc)
    requires pc.StripUnfinalize? || pc.StripDelete? || pc.StripPoll? || pc.StripCreate?
    requires StoredDated(s, marks, pc.name) && ThreadDated(s, marks, now, pc)
    requires SameMark(marks, marks', StripAct(pc, s, me).server, pc.name)
    ensures var e := StripAct(pc, s, me); e.next.Some? ==> ThreadDated(e.server, marks', now, e.next.value)
  {
  }

  /** The pcs whose facts mention a deletion instant. */
  predicate Dates(pc: Pc) {
    pc.IdleDecide? || pc.IdleStamp? || pc.IdleDelete? || pc.CheckPrune? || pc.StripDelete? || pc.StripPoll? || pc.StripCreate?
  }

  lemma OtherNext(pc: Pc, s: Server, now: int, me: Writer)
    requires CallsApi(pc) && !Dates(pc) && !pc.IdleRead? && !pc.StripUnfinalize?
    ensures Act(pc, s, now, me).next.Some? ==> !Dates(Act(pc, s, now, me).next.value)
  {
  }

  lemma BlindDecideDated(s: Server, marks': map<Name, Mark>, pc: Pc, now: int, me: Writer)
    requires pc.IdleDecide? && !Sure(pc.op)
    ensures var e := Act(pc, s, now, me); e.next.Some? ==> ThreadDated(e.server, marks', now, e.next.value)
  {
  }

  /** The thread's next facts, given the marks after the step. */
  lemma ActDated(s: Server, vs: Volumes, marks: map<Name, Mark>, marks': map<Name, Mark>, pc: Pc, now: int, me: Writer)
    requires ServerOk(s) && LogOk(s.log, vs) && ExclusiveLog(s.log, pc.name) && CallsApi(pc) && ThreadOk(s, vs, pc)
    requires StoredDated(s, marks, pc.name) && ThreadDated(s, marks, now, pc) && (pc.IdleDecide? ==> !Sure(pc.op))
    requires SameMark(marks, marks', Act(pc, s, now, me).server, pc.name)
    ensures var e := Act(pc, s, now, me); e.next.Some? ==> ThreadDated(e.server, marks', now, e.next.value)
  {
    if pc.CheckPrune? {
      CheckDated(s, marks, marks', now, pc, me);
    } else if pc.IdleDecide? {
      BlindDecideDated(s, marks', pc, now, me);
    } else if pc.IdleRead? || pc.IdleStamp? || pc.IdleDelete? {
      IdleReadDated(s, marks, marks', now, pc, me);
    } else if pc.StripUnfinalize? || pc.StripDelete? || pc.StripPoll? || pc.StripCreate? {
      StripActDated(s, vs, marks, marks', now, pc, me);
    } else {
      OtherNext(pc, s, now, me);
    }
  }

  // ----- every step but a merge into a pending deletion

  /** A thread that does not move keeps its facts. */
  lemma ThreadDatedStable(s: Server, vs: Volumes, marks: map<Name, Mark>, now: int,
                          s': Server, marks': map<Name, Mark>, now': int, pc: Pc)
    requires ServerOk(s) && ExclusiveLog(s.log, pc.name) && ThreadOk(s, vs, pc) && ThreadDated(s, marks, now, pc)
    requires now <= now'
    requires !Unlocked(pc) ==> KeepsProtocol(s, s', pc.name) && SameMark(marks, marks', s', pc.name)
    ensures ThreadDated(s', marks', now', pc)
  {
  }

  /** A stored deletion instant that was there before still stands for its decision. */
  lemma StoredDatedStable(s: Server, marks: map<Name, Mark>, s': Server, marks': map<Name, Mark>, n: Name)
    requires StoredDated(s, marks, n) && SameMark(marks, marks', s', n)
    requires ServerOk(s') && ExclusiveLog(s'.log, n)
    requires n in s'.pods && DeleteAt in s'.pods[n].annotations ==>
      n in s.pods && DeleteAt in s.pods[n].annotations && s.pods[n].annotations[DeleteAt] == s'.pods[n].annotations[DeleteAt]
    ensures StoredDated(s', marks', n)
  {
  }

  /** Facts survive a step that decides nothing and writes nothing the protocol owns. */
  lemma FrameDated(m: State, s': Server, marks': map<Name, Mark>, now': int, n: Name)
    requires Inv(m) && DatedInv(m, n) && ExclusiveLog(m.server.log, n) && ServerOk(s') && ExclusiveLog(s'.log, n) && m.now <= now'
    requires KeepsProtocol(m.server, s', n) && SameMark(m.marks, marks', s', n)
    ensures StoredDated(s', marks', n) && ThreadsDated(s', marks', now', m.threads, n)
  {
    StoredDatedStable(m.server, m.marks, s', marks', n);
    forall u | u in m.threads && m.threads[u].name == n ensures ThreadDated(s', marks', now', m.threads[u]) {
      ThreadDatedStable(m.server, m.volume, m.marks, m.now, s', marks', now', m.threads[u]);
    }
  }

  lemma QuietMarks(m: State, st: Step, n: Name)
    requires Enabled(m, st) && MarksOk(m.marks) && (st.Go? ==> !m.threads[st.tid].IdleDecide?)
    ensures MarksOk(Next(m, st).marks) && SameMark(m.marks, Next(m, st).marks, Next(m, st).server, n)
  {
  }

  lemma QuietDated(m: State, st: Step, n: Name)
    requires Inv(m) && DatedInv(m, n) && ExclusiveLog(m.server.log, n) && Enabled(m, st)
    requires !st.Env? && (st.Go? ==> !CallsApi(m.threads[st.tid]))
    ensures StoredDated(Next(m, st).server, Next(m, st).marks, n) && MarksOk(Next(m, st).marks)
    ensures ThreadsDated(Next(m, st).server, Next(m, st).marks, Next(m, st).now, m.threads, n)
  {
    QuietServer(m, st);
    QuietMarks(m, st, n);
    FrameDated(m, m.server, Next(m, st).marks, m.now, n);
  }

  /** Every other thread keeps its facts when thread `u` calls the API. */
  lemma OthersDated(m: State, u: Tid, s': Server, marks': map<Name, Mark>, n: Name)
    requires Inv(m) && DatedInv(m, n) && ExclusiveLog(m.server.log, n) && u in m.threads
    requires Touches(m.server, s', m.threads[u].name)
    requires Unlocked(m.threads[u]) ==> KeepsProtocol(m.server, s', m.threads[u].name)
    requires SameMark(m.marks, marks', s', n)
    ensures ThreadsDated(s', marks', m.now, m.threads - {u}, n)
  {
    var rest := m.threads - {u};
    forall v | v in rest && rest[v].name == n ensures ThreadDated(s', marks', m.now, rest[v]) {
      if !Unlocked(m.threads[v]) {
        OthersUntouched(m, u, v, s');
      }
      ThreadDatedStable(m.server, m.volume, m.marks, m.now, s', marks', m.now, m.threads[v]);
    }
  }

  lemma CopyDated(s: Server, marks: map<Name, Mark>, now: int, pc: Pc)
    requires ThreadDated(s, marks, now, pc)
    ensures pc.StripCreate? ==> Dated(marks, pc.name, pc.copy.annotations)
    ensures pc.IdleStamp? && Sure(pc.op) ==> Decided(marks, pc.name, Stamp(pc.seconds))
  {
  }

  lemma StoredDatedByAct(s: Server, marks: map<Name, Mark>, s': Server, marks': map<Name, Mark>, pc: Pc)
    requires Inherits(s, s', pc.name, pc) && StoredDated(s, marks, pc.name)
    requires pc.StripCreate? ==> Dated(marks, pc.name, pc.copy.annotations)
    requires pc.IdleStamp? && Sure(pc.op) ==> Decided(marks, pc.name, Stamp(pc.seconds))
    requires ServerOk(s') && ExclusiveLog(s'.log, pc.name) && SameMark(marks, marks', s', pc.name)
    ensures StoredDated(s', marks', pc.name)
  {
  }

  /** What is stored of pod `n` after a call on another pod. */
  lemma ElsewhereDated(m: State, s': Server, marks': map<Name, Mark>, k: Name, n: Name)
    requires ServerOk(m.server) && StoredDated(m.server, m.marks, n) && Touches(m.server, s', k) && k != n
    requires ServerOk(s') && ExclusiveLog(s'.log, n) && SameMark(m.marks, marks', s', n)
    ensures StoredDated(s', marks', n)
  {
    TouchesOk(m.server, s', k);
    assert Lookup(m.server, n) == Lookup(s', n);
    StoredDatedStable(m.server, m.marks, s', marks', n);
  }

  /** Where a call leaves the state. */
  lemma NextOfCall(m: State, u: Tid)
    requires u in m.threads && CallsApi(m.threads[u])
    ensures var e, m' := Act(m.threads[u], m.server, m.now, Thread(u)), Next(m, Go(u));
      m'.server == e.server && m'.now == m.now && m'.threads == Settle(m, u, e).threads && m'.marks == Record(m, Go(u), Plain(m, Go(u)))
      && Plain(m, Go(u)).server == e.server
  {
  }

  lemma ApiDated(m: State, u: Tid, n: Name)
    requires Inv(m) && DatedInv(m, n) && ExclusiveLog(m.server.log, n)
    requires u in m.threads && CallsApi(m.threads[u]) && !BreaksExclusion(m, Go(u), n)
    requires m.threads[u].name == n && m.threads[u].IdleDecide? ==> !Sure(m.threads[u].op)
    requires ServerOk(Next(m, Go(u)).server) && ExclusiveLog(Next(m, Go(u)).server.log, n)
    ensures DatedInv(Next(m, Go(u)), n)
  {
    NextOfCall(m, u);
    RecordOk(m, Go(u), Plain(m, Go(u)));
    RecordKeeps(m, Go(u), Plain(m, Go(u)), n);
    if m.threads[u].name == n {
      OwnDates(m, u, Act(m.threads[u], m.server, m.now, Thread(u)), Record(m, Go(u), Plain(m, Go(u))));
    } else {
      ElsewhereDates(m, u, Act(m.threads[u], m.server, m.now, Thread(u)), Record(m, Go(u), Plain(m, Go(u))), n);
    }
  }

  /** A call on pod `n` itself. */
  lemma OwnDates(m: State, u: Tid, e: Effect, marks': map<Name, Mark>)
    requires Inv(m) && u in m.threads && DatedInv(m, m.threads[u].name) && ExclusiveLog(m.server.log, m.threads[u].name)
    requires CallsApi(m.threads[u]) && !Clashes(m.server, m.threads[u])
    requires m.threads[u].IdleDecide? ==> !Sure(m.threads[u].op)
    requires e == Act(m.threads[u], m.server, m.now, Thread(u)) && ServerOk(e.server) && ExclusiveLog(e.server.log, m.threads[u].name)
    requires SameMark(m.marks, marks', e.server, m.threads[u].name)
    ensures StoredDated(e.server, marks', m.threads[u].name)
    ensures ThreadsDated(e.server, marks', m.now, Settle(m, u, e).threads, m.threads[u].name)
  {
    var pc := m.threads[u];
    assert ThreadOk(m.server, m.volume, pc) && ThreadDated(m.server, m.marks, m.now, pc);
    OwnStored(m, pc, e, marks', Thread(u));
    ActTouches(pc, m.server, m.now, Thread(u));
    if Unlocked(pc) {
      OutsideKeepsProtocol(m.server, m.volume, pc, m.now, Thread(u));
    }
    OthersDated(m, u, e.server, marks', pc.name);
    ActDated(m.server, m.volume, m.marks, marks', pc, m.now, Thread(u));
    JoinDated(m, u, e, marks', pc.name);
  }

  lemma OwnStored(m: State, pc: Pc, e: Effect, marks': map<Name, Mark>, me: Writer)
    requires ServerOk(m.server) && ThreadOk(m.server, m.volume, pc) && ThreadDated(m.server, m.marks, m.now, pc)
    requires StoredDated(m.server, m.marks, pc.name) && ExclusiveLog(m.server.log, pc.name)
    requires CallsApi(pc) && !Clashes(m.server, pc) && e == Act(pc, m.server, m.now, me)
    requires ServerOk(e.server) && ExclusiveLog(e.server.log, pc.name) && SameMark(m.marks, marks', e.server, pc.name)
    ensures StoredDated(e.server, marks', pc.name)
  {
    ActInherits(m.server, m.volume, pc, m.now, me);
    CopyDated(m.server, m.marks, m.now, pc);
    StoredDatedByAct(m.server, m.marks, e.server, marks', pc);
  }

  /** A call on another pod. */
  lemma ElsewhereDates(m: State, u: Tid, e: Effect, marks': map<Name, Mark>, n: Name)
    requires Inv(m) && u in m.threads && DatedInv(m, n) && ExclusiveLog(m.server.log, n)
    requires CallsApi(m.threads[u]) && m.threads[u].name != n
    requires e == Act(m.threads[u], m.server, m.now, Thread(u)) && ServerOk(e.server) && ExclusiveLog(e.server.log, n)
    requires SameMark(m.marks, marks', e.server, n)
    ensures StoredDated(e.server, marks', n) && ThreadsDated(e.server, marks', m.now, Settle(m, u, e).threads, n)
  {
    var pc := m.threads[u];
    assert ThreadOk(m.server, m.volume, pc);
    ActTouches(pc, m.server, m.now, Thread(u));
    ActName(pc, m.server, m.now, Thread(u));
    ElsewhereDated(m, e.server, marks', pc.name, n);
    if Unlocked(pc) {
      OutsideKeepsProtocol(m.server, m.volume, pc, m.now, Thread(u));
    }
    OthersDated(m, u, e.server, marks', n);
    JoinDated(m, u, e, marks', n);
  }

  lemma JoinDated(m: State, u: Tid, e: Effect, marks': map<Name, Mark>, n: Name)
    requires ThreadsDated(e.server, marks', m.now, m.threads - {u}, n)
    requires e.next.Some? && e.next.value.name == n ==> ThreadDated(e.server, marks', m.now, e.next.value)
    ensures ThreadsDated(e.server, marks', m.now, Settle(m, u, e).threads, n)
  {
    var ts := Settle(m, u, e).threads;
    forall v | v in ts && ts[v].name == n ensures ThreadDated(e.server, marks', m.now, ts[v]) {
      if v != u {
        assert v in m.threads - {u} && ts[v] == (m.threads - {u})[v];
      }
    }
  }

  /** Deciding to delay sets the mark; no one else is in a section of that pod. */
  lemma DecideDated(m: State, u: Tid)
    requires Inv(m) && u in m.threads && DatedInv(m, m.threads[u].name) && ExclusiveLog(m.server.log, m.threads[u].name)
    requires m.threads[u].IdleDecide? && Sure(m.threads[u].op)
    ensures DatedInv(Next(m, Go(u)), m.threads[u].name)
  {
    NextOfCall(m, u);
    RecordOk(m, Go(u), Plain(m, Go(u)));
    TracksWhenSure(m, u);
    DecideStored(m, u);
    DecideThread(m, u);
    DecideThreads(m, u, Act(m.threads[u], m.server, m.now, Thread(u)), Record(m, Go(u), Plain(m, Go(u))));
  }

  lemma DecideThreads(m: State, u: Tid, e: Effect, marks': map<Name, Mark>)
    requires Inv(m) && u in m.threads && !Unlocked(m.threads[u]) && e.server == m.server
    requires e.next.Some? ==> ThreadDated(m.server, marks', m.now, e.next.value)
    ensures ThreadsDated(m.server, marks', m.now, Settle(m, u, e).threads, m.threads[u].name)
  {
    OnlyUndatedBeside(m, u, marks');
    JoinDated(m, u, e, marks', m.threads[u].name);
  }

  lemma TracksWhenSure(m: State, u: Tid)
    requires Inv(m) && u in m.threads && DatedInv(m, m.threads[u].name) && m.threads[u].IdleDecide? && Sure(m.threads[u].op)
    ensures Tracks(m.server, m.threads[u].name, m.threads[u].copy) && Refless(m.server, m.threads[u].name)
    ensures m.threads[u].name in m.server.pods ==> Dated(m.marks, m.threads[u].name, m.threads[u].copy.annotations)
  {
    assert ThreadOk(m.server, m.volume, m.threads[u]) && ThreadDated(m.server, m.marks, m.now, m.threads[u]);
    DecideOk(m.server, m.threads[u].name, m.threads[u].copy);
  }

  /** The lock keeps everyone else off a pod whose lock `u` holds. */
  lemma OnlyUndatedBeside(m: State, u: Tid, marks': map<Name, Mark>)
    requires Inv(m) && u in m.threads && !Unlocked(m.threads[u])
    ensures ThreadsDated(m.server, marks', m.now, m.threads - {u}, m.threads[u].name)
  {
    forall v | v in m.threads - {u} && m.threads[v].name == m.threads[u].name
      ensures ThreadDated(m.server, marks', m.now, m.threads[v])
    {
      if !Unlocked(m.threads[v]) {
        OnlyOneInside(m, u, v);
      }
    }
  }

  lemma DecideStored(m: State, u: Tid)
    requires u in m.threads && StoredDated(m.server, m.marks, m.threads[u].name) && ServerOk(m.server)
    requires ExclusiveLog(m.server.log, m.threads[u].name) && m.threads[u].IdleDecide? && Sure(m.threads[u].op)
    requires Tracks(m.server, m.threads[u].name, m.threads[u].copy)
    ensures StoredDated(m.server, Record(m, Go(u), Plain(m, Go(u))), m.threads[u].name)
  {
    if !Decides(m, Go(u), m.threads[u].name) {
      RecordKeeps(m, Go(u), Plain(m, Go(u)), m.threads[u].name);
      StoredDatedStable(m.server, m.marks, m.server, Record(m, Go(u), Plain(m, Go(u))), m.threads[u].name);
    }
  }

  lemma DecideThread(m: State, u: Tid)
    requires u in m.threads && m.threads[u].IdleDecide? && Refless(m.server, m.threads[u].name)
    requires m.threads[u].name in m.server.pods ==> Dated(m.marks, m.threads[u].name, m.threads[u].copy.annotations)
    ensures var e := Act(m.threads[u], m.server, m.now, Thread(u));
            e.next.Some? ==> ThreadDated(m.server, Record(m, Go(u), Plain(m, Go(u))), m.now, e.next.value)
  {
  }

  lemma EnterDated(m: State, st: Step, n: Name)
    requires Inv(m) && DatedInv(m, n) && ExclusiveLog(m.server.log, n) && st.Go? && Enabled(m, st)
    requires Waiting(m.threads[st.tid])
    ensures DatedInv(Next(m, st), n)
  {
    var m', pc := Next(m, st), m.threads[st.tid];
    QuietDated(m, st, n);
    assert m'.server == m.server && m'.now == m.now && m'.threads == m.threads[st.tid := Entered(m.server, pc)];
    assert ThreadOk(m.server, m.volume, pc);
    if pc.name == n {
      EnteredDated(m.server, m.volume, m'.marks, m.now, pc);
    }
    MoveDated(m.server, m'.marks, m.now, m.threads, st.tid, Entered(m.server, pc), n);
  }

  lemma MoveDated(s: Server, marks: map<Name, Mark>, now: int, threads: map<Tid, Pc>, u: Tid, pc: Pc, n: Name)
    requires ThreadsDated(s, marks, now, threads, n) && (pc.name == n ==> ThreadDated(s, marks, now, pc))
    ensures ThreadsDated(s, marks, now, threads[u := pc], n)
  {
  }

  lemma EnteredDated(s: Server, vs: Volumes, marks: map<Name, Mark>, now: int, pc: Pc)
    requires ServerOk(s) && ThreadOk(s, vs, pc) && Waiting(pc) && StoredDated(s, marks, pc.name)
    ensures ThreadDated(s, marks, now, Entered(s, pc))
  {
  }

  /** Mount operations move one thread, to a place without dates. */
  lemma MountLeaves(m: State, u: Tid, m': State)
    requires u in m.threads && (m.threads[u].Bind? || m.threads[u].Unmount? || m.threads[u].Recover?)
    requires m' == MountStep(m, u)
    ensures forall v | v in m'.threads && v != u :: v in m.threads && m'.threads[v] == m.threads[v]
    ensures u in m'.threads ==> !Dates(m'.threads[u])
  {
  }

  lemma MountDated(m: State, u: Tid, n: Name)
    requires Inv(m) && DatedInv(m, n) && ExclusiveLog(m.server.log, n) && Enabled(m, Go(u))
    requires !Waiting(m.threads[u]) && !CallsApi(m.threads[u])
    ensures DatedInv(Next(m, Go(u)), n)
  {
    MountLeaves(m, u, MountStep(m, u));
    QuietDated(m, Go(u), n);
    UndatedMove(Next(m, Go(u)), m.threads, u, n);
  }

  lemma UndatedMove(m': State, threads: map<Tid, Pc>, u: Tid, n: Name)
    requires ThreadsDated(m'.server, m'.marks, m'.now, threads, n)
    requires forall v | v in m'.threads && v != u :: v in threads && m'.threads[v] == threads[v]
    requires u in m'.threads ==> !Dates(m'.threads[u])
    ensures ThreadsDated(m'.server, m'.marks, m'.now, m'.threads, n)
  {
  }

  lemma GoDated(m: State, st: Step, n: Name)
    requires Inv(m) && DatedInv(m, n) && ExclusiveLog(m.server.log, n) && Enabled(m, st) && !BreaksExclusion(m, st, n)
    requires st.Go? && ServerOk(Next(m, st).server) && ExclusiveLog(Next(m, st).server.log, n)
    ensures DatedInv(Next(m, st), n)
  {
    var pc := m.threads[st.tid];
    if Waiting(pc) {
      EnterDated(m, st, n);
    } else if !CallsApi(pc) {
      MountDated(m, st.tid, n);
    } else if pc.name == n && pc.IdleDecide? && Sure(pc.op) {
      DecideDated(m, st.tid);
    } else {
      ApiDated(m, st.tid, n);
    }
  }

  lemma EnvFrame(m: State, st: Step, n: Name)
    requires ServerOk(m.server) && Enabled(m, st) && st.Env?
    ensures KeepsProtocol(m.server, Next(m, st).server, n)
    ensures Next(m, st).threads == m.threads && Next(m, st).now >= m.now
  {
    var m1 := Happen(m, st.action);
    EnvKeepsProtocol(m, st.action);
    EnvStill(m, st.action);
    assert Next(m, st).server == m1.server && Next(m, st).threads == m1.threads && Next(m, st).now == m1.now;
  }

  lemma EnvDated(m: State, st: Step, n: Name)
    requires Inv(m) && DatedInv(m, n) && ExclusiveLog(m.server.log, n) && Enabled(m, st) && st.Env?
    requires ServerOk(Next(m, st).server) && ExclusiveLog(Next(m, st).server.log, n)
    ensures DatedInv(Next(m, st), n)
  {
    EnvFrame(m, st, n);
    QuietMarks(m, st, n);
    FrameDated(m, Next(m, st).server, Next(m, st).marks, Next(m, st).now, n);
  }

  lemma StartStopDated(m: State, st: Step, n: Name)
    requires Inv(m) && DatedInv(m, n) && ExclusiveLog(m.server.log, n) && Enabled(m, st) && (st.Begin? || st.Abort?)
    ensures DatedInv(Next(m, st), n)
  {
    QuietDated(m, st, n);
    UndatedMove(Next(m, st), m.threads, st.tid, n);
  }

  lemma DatedStep(m: State, st: Step, n: Name)
    requires Inv(m) && DatedInv(m, n) && ExclusiveLog(m.server.log, n) && Enabled(m, st) && !BreaksExclusion(m, st, n)
    ensures DatedInv(Next(m, st), n)
  {
    InvStep(m, st);
    ExclusiveStep(m, st, n);
    if st.Go? {
      GoDated(m, st, n);
    } else if st.Env? {
      EnvDated(m, st, n);
    } else {
      StartStopDated(m, st, n);
    }
  }

  lemma {:induction false} DatedAlways(now: int, hash: Hash, run: seq<Step>, i: nat, n: Name)
    requires Valid(Init(now, hash), run) && i <= |run| && ClashFree(Init(now, hash), run, i, n)
    ensures DatedInv(At(Init(now, hash), run, i), n)
    decreases i
  {
    if i == 0 {
      AtZero(Init(now, hash), run);
    } else {
      ClashFreeStep(Init(now, hash), run, i - 1, n);
      DatedAlways(now, hash, run, i - 1, n);
      InvAlways(now, hash, run, i - 1);
      ExclusiveAlways(now, hash, run, i - 1, n);
      AtStep(Init(now, hash), run, i - 1);
      DatedStep(At(Init(now, hash), run, i - 1), run[i - 1], n);
    }
  }

  // ----- what a mark means for the run behind it

  /** At step `j` some thread found pod `n` idle with delay `d`, at clock `t0`, and asked to delete it at
      second `seconds`; pod `n` stored no reference in any state from then up to state `i`. */
  ghost predicate IdleSince(m: State, run: seq<Step>, i: nat, n: Name, j: nat, t0: int, d: int, seconds: int)
    requires Valid(m, run) && i <= |run|
  {
    && j < i && At(m, run, j).now == t0
    && Decides(At(m, run, j), run[j], n)
    && At(m, run, j).threads[run[j].tid].copy.annotations[DeleteDelay] == Duration(d)
    && seconds == (t0 + d) / SECOND
    && forall k | j < k <= i :: Refless(At(m, run, k).server, n)
  }

  lemma StillIdle(m: State, run: seq<Step>, i: nat, n: Name, j: nat, t0: int, d: int, seconds: int)
    requires Valid(m, run) && i < |run| && IdleSince(m, run, i, n, j, t0, d, seconds)
    requires Refless(At(m, run, i + 1).server, n)
    ensures IdleSince(m, run, i + 1, n, j, t0, d, seconds)
  {
  }

  lemma JustIdle(m: State, run: seq<Step>, j: nat, n: Name)
    requires Valid(m, run) && j < |run| && Decides(At(m, run, j), run[j], n) && Refless(At(m, run, j + 1).server, n)
    ensures var p := At(m, run, j);
            var d := p.threads[run[j].tid].copy.annotations[DeleteDelay].nanos;
            IdleSince(m, run, j + 1, n, j, p.now, d, (p.now + d) / SECOND)
  {
  }

  lemma MarkStep(m: State, st: Step, n: Name)
    requires Enabled(m, st)
    requires var marks := Next(m, st).marks; n in marks && marks[n].clean
    ensures Refless(Next(m, st).server, n)
    ensures Decides(m, st, n) ==>
      var a := m.threads[st.tid].copy.annotations;
      Next(m, st).marks[n] == Mark(m.now, a[DeleteDelay].nanos, (m.now + a[DeleteDelay].nanos) / SECOND, true)
    ensures !Decides(m, st, n) ==> n in m.marks && m.marks[n] == Next(m, st).marks[n]
  {
  }

  lemma {:induction false} MarkMeans(m: State, run: seq<Step>, i: nat, n: Name) returns (j: nat)
    requires Valid(m, run) && i <= |run| && m.marks == map[]
    requires n in At(m, run, i).marks && At(m, run, i).marks[n].clean
    ensures var k := At(m, run, i).marks[n]; IdleSince(m, run, i, n, j, k.since, k.delay, k.seconds)
    decreases i
  {
    AtZero(m, run);
    j := 0;
    if i > 0 {
      AtStep(m, run, i - 1);
      var p := At(m, run, i - 1);
      MarkStep(p, run[i - 1], n);
      if Decides(p, run[i - 1], n) {
        j := i - 1;
        JustIdle(m, run, j, n);
      } else {
        j := MarkMeans(m, run, i - 1, n);
        StillIdle(m, run, i - 1, n, j, p.marks[n].since, p.marks[n].delay, p.marks[n].seconds);
      }
    }
  }

  /** The step deletes pod `n` for idleness, on a judgement that rests on what is stored. */
  ghost predicate DeletesIdle(m: State, st: Step, n: Name) {
    && st.Go? && st.tid in m.threads && m.threads[st.tid].IdleDelete? && Sure(m.threads[st.tid].op)
    && m.threads[st.tid].name == n && n in m.server.pods
  }

  /** The idle-time bound: a pod deleted for idleness that was judged on a copy with a valid delay had been found
      idle at some t0 with some delay d, has stored no reference since, and is deleted no earlier than t0 + d
      rounded down to the second. */
  lemma IdleTimeBound(now: int, hash: Hash, run: seq<Step>, i: nat, n: Name) returns (j: nat, t0: int, d: int, seconds: int)
    requires Valid(Init(now, hash), run) && i < |run| && ClashFree(Init(now, hash), run, i, n)
    requires var m := At(Init(now, hash), run, i);
      DeletesIdle(m, run[i], n) && ValidDelay(m.threads[run[i].tid].copy.annotations)
    ensures IdleSince(Init(now, hash), run, i, n, j, t0, d, seconds)
    ensures At(Init(now, hash), run, i).now >= seconds * SECOND > t0 + d - SECOND
  {
    DatedAlways(now, hash, run, i, n);
    var m := At(Init(now, hash), run, i);
    assert ThreadDated(m.server, m.marks, m.now, m.threads[run[i].tid]);
    j := MarkMeans(Init(now, hash), run, i, n);
    t0, d, seconds := m.marks[n].since, m.marks[n].delay, m.marks[n].seconds;
  }
}
