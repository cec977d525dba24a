/** The Kubernetes API server as the driver sees it: a map of pods with optimistic concurrency.

Every accepted write is logged, and a pod's resource version is the position of the write that stored
it, so `log` holds every version of every pod that ever existed. */
module ApiServer {
  import opened Wrappers
  import opened Pods

  datatype Container = Container(command: seq<string>, requests: map<string, int>, limits: map<string, int>)

  /** What IsPodReady, IsPodError and IsPodResourceError say about the status block. */
  datatype Status = Status(ready: bool, error: bool, resourceError: bool)

  datatype Pod = Pod(
    version: nat,
    labels: map<string, string>,
    annotations: Annotations,
    finalizers: set<string>,
    deleting: bool,
    status: Status,
    containers: seq<Container>)

  /** The agents that write: a driver thread, or anything outside the driver's locks. */
  type Tid = nat
  datatype Writer = Thread(tid: Tid) | Outside

  datatype Write = Write(name: Name, pod: Pod, prev: Option<Pod>, who: Writer)

  datatype Server = Server(pods: map<Name, Pod>, log: seq<Write>)

  datatype Reply = Accepted | NotFound | Conflict | AlreadyExists

  function Lookup(s: Server, n: Name): Option<Pod> {
    if n in s.pods then Some(s.pods[n]) else None
  }

  function Put(s: Server, n: Name, p: Pod, who: Writer): Server {
    var q := p.(version := |s.log|);
    Server(s.pods[n := q], s.log + [Write(n, q, Lookup(s, n), who)])
  }

  /** Conflicts on a stale version. The caller's copy is not refreshed. Status and deletion mark are
      not the caller's to change. */
  function UpdatePod(s: Server, n: Name, copy: Pod, who: Writer): (Server, Reply) {
    if n !in s.pods then (s, NotFound)
    else if s.pods[n].version != copy.version then (s, Conflict)
    else (Put(s, n, copy.(deleting := s.pods[n].deleting, status := s.pods[n].status), who), Accepted)
  }

  /** Goes by name, with no version precondition. The pod is marked; it leaves the server when it has
      no finalizer left, see `Reap`. */
  function DeletePod(s: Server, n: Name, who: Writer): (Server, Reply) {
    if n !in s.pods then (s, NotFound)
    else if s.pods[n].deleting then (s, Accepted)
    else (Put(s, n, s.pods[n].(deleting := true), who), Accepted)
  }

  function CreatePod(s: Server, n: Name, p: Pod, who: Writer): (Server, Reply) {
    if n in s.pods then (s, AlreadyExists)
    else (Put(s, n, p.(deleting := false, status := Status(false, false, false)), who), Accepted)
  }

  function Reap(s: Server, n: Name): Server {
    s.(pods := s.pods - {n})
  }

  predicate Logged(s: Server, n: Name, p: Pod) {
    p.version < |s.log| && s.log[p.version].name == n && s.log[p.version].pod == p
  }

  ghost predicate ServerOk(s: Server) {
    && (forall n | n in s.pods :: Logged(s, n, s.pods[n]))
    && (forall i | 0 <= i < |s.log| :: s.log[i].pod.version == i)
  }

  /** `p` was on the server at some time, so if it carries the current version it is the current pod. */
  lemma CurrentCopy(s: Server, n: Name, p: Pod)
    requires ServerOk(s) && Logged(s, n, p)
    ensures n in s.pods && s.pods[n].version == p.version ==> s.pods[n] == p
  {
  }

  /** The accepted writes of `who` from log position `from` on. */
  function WritesBy(log: seq<Write>, from: nat, who: Writer): seq<Write>
    requires from <= |log|
  {
    if from == |log| then []
    else
      var w := log[|log| - 1];
      WritesBy(log[..|log| - 1], from, who) + (if w.who == who then [w] else [])
  }

  lemma {:induction false} ForeignWrites(log: seq<Write>, log': seq<Write>, from: nat, who: Writer)
    requires from <= |log| && log <= log'
    requires forall i | |log| <= i < |log'| :: log'[i].who != who
    ensures WritesBy(log', from, who) == WritesBy(log, from, who)
    decreases |log'|
  {
    if |log'| > |log| {
      ForeignWrites(log, log'[..|log'| - 1], from, who);
    } else {
      assert log' == log;
    }
  }

  lemma {:induction false} WritesSplit(log: seq<Write>, from: nat, at: nat, who: Writer)
    requires from <= at <= |log|
    ensures WritesBy(log, from, who) == WritesBy(log[..at], from, who) + WritesBy(log, at, who)
    decreases |log|
  {
    if at == |log| {
      assert log[..at] == log;
    } else {
      var shorter := log[..|log| - 1];
      WritesSplit(shorter, from, at, who);
      assert shorter[..at] == log[..at];
    }
  }

  lemma OwnWrite(log: seq<Write>, w: Write, from: nat)
    requires from <= |log|
    ensures WritesBy(log + [w], from, w.who) == WritesBy(log, from, w.who) + [w]
  {
  }
}
