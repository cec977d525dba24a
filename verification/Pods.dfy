/** Mount pods and their annotations.

The annotations of a mount pod are its reference count: the entry GetReferenceKey(target) -> target
says that `target` uses the volume. Two more entries drive the delayed deletion. */
module Pods {
  import opened CsiPath

  type Name = string
  type Target = string

  /** Annotation keys. `Ref(t)` stands for GetReferenceKey(t), a truncated SHA-256 digest taken to be
      injective and distinct from every other key. */
  datatype Key = Ref(target: Target) | DeleteDelay | DeleteAt | Other(name: string)

  /** Annotation values, told apart by what the code can read out of them: a target path, a string
      time.ParseDuration accepts (in nanoseconds), a formatted instant (in seconds), anything else. */
  datatype Value = Path(target: Target) | Duration(nanos: int) | Stamp(seconds: int) | Text(text: string)

  type Annotations = map<Key, Value>

  const SECOND := 1_000_000_000
  const FINALIZER := "juicefs.com/finalizer"

  predicate IsRef(k: Key, v: Value) {
    v.Path? && k == Ref(v.target)
  }

  function Refs(a: Annotations): (r: set<Target>)
    ensures forall t :: t in r <==> Ref(t) in a && a[Ref(t)] == Path(t)
  {
    set k | k in a && IsRef(k, a[k]) :: a[k].target
  }

  predicate HasRef(a: Annotations) {
    exists k | k in a :: IsRef(k, a[k])
  }

  /** No reference key maps to anything but its own target. */
  ghost predicate WellKeyed(a: Annotations) {
    forall t | Ref(t) in a :: a[Ref(t)] == Path(t)
  }

  /** A reference and a deletion instant are never stored together. */
  ghost predicate Exclusive(a: Annotations) {
    Refs(a) == {} || DeleteAt !in a
  }

  /** Entries only the driver writes; every other writer leaves them alone. */
  ghost predicate SameProtocol(a: Annotations, b: Annotations) {
    && (forall t :: Ref(t) in a <==> Ref(t) in b)
    && (forall t | Ref(t) in a :: a[Ref(t)] == b[Ref(t)])
    && (DeleteAt in a <==> DeleteAt in b)
    && (DeleteAt in a ==> a[DeleteAt] == b[DeleteAt])
  }

  /** The same, as a test on two maps. */
  predicate Agrees(a: Annotations, b: Annotations) {
    && (forall k | k in a && (k.Ref? || k.DeleteAt?) :: k in b && b[k] == a[k])
    && (forall k | k in b && (k.Ref? || k.DeleteAt?) :: k in a && a[k] == b[k])
  }

  lemma AgreesIsSame(a: Annotations, b: Annotations)
    ensures Agrees(a, b) <==> SameProtocol(a, b)
  {
    if Agrees(a, b) {
      forall t ensures Ref(t) in a <==> Ref(t) in b {
        assert Ref(t) in a ==> Ref(t) in b && b[Ref(t)] == a[Ref(t)];
      }
    }
  }

  lemma SameProtocolRefs(a: Annotations, b: Annotations)
    requires SameProtocol(a, b)
    ensures Refs(a) == Refs(b)
  {
  }

  /** AddRefOfMount's change: add the reference, drop the pending deletion. */
  function InsertRef(a: Annotations, t: Target): Annotations {
    a[Ref(t) := Path(t)] - {DeleteAt}
  }

  function RemoveRef(a: Annotations, t: Target): Annotations {
    a - {Ref(t)}
  }

  /** The liveness table maps the UID of each pod on the node to "is being deleted". */
  type Liveness = map<string, bool>

  predicate Alive(table: Liveness, t: Target) {
    GetPodUid(t) in table && !table[GetPodUid(t)]
  }

  predicate Kept(table: Liveness, k: Key, v: Value) {
    IsRef(k, v) ==> Alive(table, v.target)
  }

  /** checkAnnotations' change: references of dead app pods go, and the pending deletion goes with the
      first live one. */
  function Prune(a: Annotations, table: Liveness): Annotations {
    var kept := map k | k in a && Kept(table, k, a[k]) :: a[k];
    if HasRef(kept) then kept - {DeleteAt} else kept
  }

  /** What ShouldDelay decides at clock reading `now` for a pod without references. */
  datatype Verdict = DeleteNow | Wait | StampAt(seconds: int)

  function ShouldDelay(a: Annotations, now: int): Verdict {
    if DeleteDelay !in a then DeleteNow
    else if DeleteAt !in a then
      if a[DeleteDelay].Duration? then StampAt((now + a[DeleteDelay].nanos) / SECOND) else DeleteNow
    else if a[DeleteAt].Stamp? && now < a[DeleteAt].seconds * SECOND then Wait
    else DeleteNow
  }

  /** Exactly when an idle pod goes at once: without a delay, with one nobody can read, or with an instant that is
      over or that nobody can read, whatever the delay says by then. */
  lemma DeletedAtOnce(a: Annotations, now: int)
    ensures ShouldDelay(a, now).DeleteNow? <==>
      || DeleteDelay !in a
      || (DeleteAt !in a && forall d :: a[DeleteDelay] != Duration(d))
      || (DeleteAt in a && forall at :: a[DeleteAt] == Stamp(at) ==> at * SECOND <= now)
  {
    if DeleteDelay in a {
      if a[DeleteDelay].Duration? {
        assert a[DeleteDelay] == Duration(a[DeleteDelay].nanos);
      }
      if DeleteAt in a && a[DeleteAt].Stamp? {
        assert a[DeleteAt] == Stamp(a[DeleteAt].seconds);
      }
    }
  }

  /** The countdown: stamped at `now`, the pod waits until the delay, rounded down to a second, is over, and
      is deleted at any later look. */
  lemma CountdownEnds(a: Annotations, now: int, later: int)
    requires DeleteDelay in a && a[DeleteDelay].Duration? && DeleteAt !in a
    ensures var due := (now + a[DeleteDelay].nanos) / SECOND;
      && ShouldDelay(a, now) == StampAt(due)
      && now + a[DeleteDelay].nanos - SECOND < due * SECOND <= now + a[DeleteDelay].nanos
      && ShouldDelay(a[DeleteAt := Stamp(due)], later) == if later < due * SECOND then Wait else DeleteNow
  {
    var due := (now + a[DeleteDelay].nanos) / SECOND;
    var b := a[DeleteAt := Stamp(due)];
    assert DeleteDelay in b && DeleteAt in b && b[DeleteAt] == Stamp(due);
  }

  /** A reference that comes and goes starts the countdown anew, however far it had run. */
  lemma ReferenceRestartsCountdown(a: Annotations, t: Target, later: int)
    requires DeleteDelay in a && a[DeleteDelay].Duration?
    ensures ShouldDelay(RemoveRef(InsertRef(a, t), t), later) == StampAt((later + a[DeleteDelay].nanos) / SECOND)
  {
    var b := RemoveRef(InsertRef(a, t), t);
    assert DeleteDelay in b && b[DeleteDelay] == a[DeleteDelay] && DeleteAt !in b;
  }

  lemma HasRefIffRefs(a: Annotations)
    ensures HasRef(a) <==> Refs(a) != {}
  {
    if HasRef(a) {
      var k :| k in a && IsRef(k, a[k]);
      assert k.target in Refs(a);
    }
    if Refs(a) != {} {
      var t :| t in Refs(a);
      assert IsRef(Ref(t), a[Ref(t)]);
    }
  }

  /** AddRefOfMount is set insertion: every other annotation is kept, only the deletion instant goes. */
  lemma InsertIsSetInsert(a: Annotations, t: Target)
    ensures Refs(InsertRef(a, t)) == Refs(a) + {t}
    ensures forall k | k != Ref(t) && k != DeleteAt :: (k in InsertRef(a, t) <==> k in a) && (k in a ==> InsertRef(a, t)[k] == a[k])
    ensures Exclusive(InsertRef(a, t)) && (WellKeyed(a) ==> WellKeyed(InsertRef(a, t)))
    ensures InsertRef(InsertRef(a, t), t) == InsertRef(a, t)
  {
    forall u ensures u in Refs(InsertRef(a, t)) <==> u in Refs(a) + {t} {
      assert Ref(u) in InsertRef(a, t) <==> Ref(u) in a || u == t;
    }
  }

  /** JUmount's removal is set removal, and doing it twice is doing it once. */
  lemma RemoveIsSetRemove(a: Annotations, t: Target)
    requires WellKeyed(a)
    ensures Refs(RemoveRef(a, t)) == Refs(a) - {t}
    ensures forall k | k != Ref(t) :: (k in RemoveRef(a, t) <==> k in a) && (k in a ==> RemoveRef(a, t)[k] == a[k])
    ensures RemoveRef(RemoveRef(a, t), t) == RemoveRef(a, t)
    ensures WellKeyed(RemoveRef(a, t)) && (Exclusive(a) ==> Exclusive(RemoveRef(a, t)))
  {
    forall u ensures u in Refs(RemoveRef(a, t)) <==> u in Refs(a) - {t} {
      assert Ref(u) in RemoveRef(a, t) <==> Ref(u) in a && u != t;
    }
  }

  /** Pruning keeps exactly the live references and leaves an exclusive pod whatever it started from. */
  lemma PruneKeepsLive(a: Annotations, table: Liveness)
    ensures Refs(Prune(a, table)) == (set t | t in Refs(a) && Alive(table, t))
    ensures Exclusive(Prune(a, table))
    ensures WellKeyed(a) ==> WellKeyed(Prune(a, table))
    ensures forall k | k in Prune(a, table) :: k in a && Prune(a, table)[k] == a[k]
    ensures forall k | k in a && k !in Prune(a, table) ::
      (IsRef(k, a[k]) && !Alive(table, a[k].target)) || (k == DeleteAt && Refs(Prune(a, table)) != {})
  {
    var kept: Annotations := map k | k in a && Kept(table, k, a[k]) :: a[k];
    HasRefIffRefs(kept);
    forall t ensures t in Refs(kept) <==> t in Refs(a) && Alive(table, t) {
    }
    forall t ensures t in Refs(kept - {DeleteAt}) <==> t in Refs(kept) {
      assert Ref(t) in kept - {DeleteAt} <==> Ref(t) in kept;
    }
  }

  /** Comparing lengths, as the code does, is comparing maps: the pruned map is a submap. */
  lemma LengthTestIsExact(a: Annotations, table: Liveness)
    ensures |a| != |Prune(a, table)| <==> a != Prune(a, table)
    ensures Refs(Prune(a, table)) == {} ==> (a == Prune(a, table) <==> Refs(a) == {})
  {
    PruneKeepsLive(a, table);
    var b := Prune(a, table);
    assert b.Keys <= a.Keys;
    if b != a {
      assert b.Keys == a.Keys ==> b == a;
      SubsetSize(b.Keys, a.Keys);
    }
    assert |b| == |b.Keys| && |a| == |a.Keys|;
    if Refs(b) == {} && b != a {
      var k :| k in a && k !in b;
      assert a[k].target in Refs(a);
    }
  }

  lemma {:induction false} SubsetSize<T>(x: set<T>, y: set<T>)
    requires x <= y && x != y
    ensures |x| < |y|
  {
    assert y == x + (y - x);
    assert |y - x| > 0;
  }
}
