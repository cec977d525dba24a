/** How pods descend from one another, and what stripping does to them. */
module Lineage {
  import opened Pods
  import opened ApiServer
  import opened Machine
  import opened Invariant
  import opened Safety
  import opened Node

  /** `q` carries on with what `p` was: the same containers, or those of a pod with requests, stripped. */
  ghost predicate Descends(p: Pod, q: Pod) {
    p.labels == q.labels && (q.containers == p.containers || Stripping(p, q))
  }

  ghost predicate Stripping(p: Pod, q: Pod) {
    HasRequests(p) && q.containers == WithoutResources(p.containers)
  }

  /** Write `i` of the log continues write `j`. */
  ghost predicate Parent(log: seq<Write>, j: nat, i: nat) {
    j < i < |log| && log[j].name == log[i].name && Descends(log[j].pod, log[i].pod)
  }

  ghost predicate HasParent(log: seq<Write>, i: nat) {
    exists j :: Parent(log, j, i)
  }

  lemma PutHasParent(s: Server, n: Name, p: Pod, w: Writer, c: Pod)
    requires ServerOk(s) && Logged(s, n, c) && Descends(c, p)
    ensures HasParent(Put(s, n, p, w).log, |s.log|)
  {
    assert Parent(Put(s, n, p, w).log, c.version, |s.log|);
  }

  /** The call writes nothing, or one pod that descends from one on record. */
  ghost predicate AddsChild(s: Server, s': Server) {
    s'.log == s.log || (|s'.log| == |s.log| + 1 && s.log <= s'.log && HasParent(s'.log, |s.log|))
  }

  lemma UpdateAddsChild(s: Server, n: Name, c: Pod, p: Pod, w: Writer)
    requires ServerOk(s) && Logged(s, n, c) && p.version == c.version && p.labels == c.labels && p.containers == c.containers
    ensures AddsChild(s, UpdatePod(s, n, p, w).0)
  {
    if UpdatePod(s, n, p, w).1.Accepted? {
      PutHasParent(s, n, p.(deleting := s.pods[n].deleting, status := s.pods[n].status), w, c);
    }
  }

  lemma CreateAddsChild(s: Server, n: Name, c: Pod, p: Pod, w: Writer)
    requires ServerOk(s) && Logged(s, n, c) && Descends(c, p)
    ensures AddsChild(s, CreatePod(s, n, p, w).0)
  {
    if n !in s.pods {
      PutHasParent(s, n, p.(deleting := false, status := Status(false, false, false)), w, c);
    }
  }

  lemma DeleteAddsChild(s: Server, n: Name, w: Writer)
    requires ServerOk(s)
    ensures AddsChild(s, DeletePod(s, n, w).0)
  {
    if n in s.pods && !s.pods[n].deleting {
      PutHasParent(s, n, s.pods[n].(deleting := true), w, s.pods[n]);
    }
  }

  lemma ActAddsChild(s: Server, vs: Volumes, pc: Pc, now: int, me: Writer)
    requires ServerOk(s) && CallsApi(pc) && ThreadOk(s, vs, pc) && !pc.AddCreate?
    requires pc.IdleStamp? ==> Logged(s, pc.name, pc.copy) || UpdatePod(s, pc.name, Stamped(pc.copy, pc.seconds), me).0 == s
    ensures AddsChild(s, Act(pc, s, now, me).server)
  {
    var n := pc.name;
    if Payload(pc).Some? {
      PayloadIsWritten(pc, s, now, me);
      if pc.MergeWrite? {
        UpdateAddsChild(s, n, pc.other, Payload(pc).value, me);
      } else if !pc.IdleStamp? || Logged(s, n, pc.copy) {
        UpdateAddsChild(s, n, pc.copy, Payload(pc).value, me);
      }
    } else if Creation(pc).Some? {
      CreationIsCreated(pc, s, now, me);
      CreateAddsChild(s, n, pc.copy, Creation(pc).value, me);
    } else if pc.IdleDelete? || pc.StripDelete? {
      DeletionIsDeleted(pc, s, now, me);
      DeleteAddsChild(s, n, me);
    }
  }

  lemma SpentIsRefused(s: Server, n: Name, c: Pod, k: int, me: Writer)
    requires IdleCopy(s, n, c) || StaleCopy(s, n, c)
    ensures Logged(s, n, c) || UpdatePod(s, n, Stamped(c, k), me).0 == s
  {
  }

  lemma RewriteAddsChild(s: Server, n: Name, p: Pod)
    requires ServerOk(s) && n in s.pods && p.labels == s.pods[n].labels && p.containers == s.pods[n].containers
    ensures AddsChild(s, Rewrite(s, n, p))
  {
    PutHasParent(s, n, p, Outside, s.pods[n]);
  }

  lemma EnvAddsChild(m: State, a: Action)
    requires ServerOk(m.server) && Allowed(m, a)
    ensures AddsChild(m.server, Happen(m, a).server)
  {
    var s := m.server;
    match a
    case KubeletStatus(n, status) => RewriteAddsChild(s, n, s.pods[n].(status := status));
    case UserDelete(n) => DeleteAddsChild(s, n, Outside);
    case SetFinalizers(n, fs) => RewriteAddsChild(s, n, s.pods[n].(finalizers := fs));
    case Annotate(n, k, v) =>
      var a := s.pods[n].annotations;
      RewriteAddsChild(s, n, AnnotatedWith(s.pods[n], if v.Some? then a[k := v.value] else a - {k}));
    case _ =>
  }

  /** The step is createOrAddRef building a new pod. */
  ghost predicate Builds(m: State, st: Step) {
    st.Go? && st.tid in m.threads && m.threads[st.tid].AddCreate?
  }

  /** Whatever a step stores, unless createOrAddRef builds it anew, descends from a pod of that name that
      was stored before: every update keeps labels and containers, and a created pod has those of the pod
      it replaces, all of them or, from podErrorHandler, stripped. */
  lemma StoredPodsDescend(m: State, st: Step)
    requires Inv(m) && Enabled(m, st) && !Builds(m, st)
    ensures AddsChild(m.server, Next(m, st).server)
  {
    if st.Env? {
      EnvAddsChild(m, st.action);
    } else if st.Go? && CallsApi(m.threads[st.tid]) {
      var pc := m.threads[st.tid];
      assert ThreadOk(m.server, m.volume, pc);
      if pc.IdleStamp? {
        SpentIsRefused(m.server, pc.name, pc.copy, pc.seconds, Thread(st.tid));
      }
      ActAddsChild(m.server, m.volume, pc, m.now, Thread(st.tid));
    } else {
      QuietServer(m, st);
    }
  }

  // ----- stripping

  function Requesting(cs: seq<Container>): nat {
    if cs == [] then 0 else Requesting(cs[1..]) + (if |cs[0].requests| != 0 then 1 else 0)
  }

  lemma {:induction false} RequestingIsCount(p: Pod, cs: seq<Container>)
    ensures Requesting(cs) == 0 <==> !HasRequests(p.(containers := cs))
  {
    if cs != [] {
      RequestingIsCount(p, cs[1..]);
      var q, r := p.(containers := cs), p.(containers := cs[1..]);
      if HasRequests(r) {
        var i :| 0 <= i < |cs[1..]| && |cs[1..][i].requests| != 0;
        assert |cs[i + 1].requests| != 0;
      }
      if HasRequests(q) && |cs[0].requests| == 0 {
        var i :| 0 <= i < |cs| && |cs[i].requests| != 0;
        assert |cs[1..][i - 1].requests| != 0;
      }
    }
  }

  /** Recreation by podErrorHandler takes the number of requesting containers from positive to zero. */
  lemma StrippingReachesZero(p: Pod, q: Pod)
    requires Stripping(p, q)
    ensures Requesting(p.containers) > 0 && Requesting(q.containers) == 0
  {
    RequestingIsCount(p, p.containers);
    RequestingIsCount(q, q.containers);
  }
}
