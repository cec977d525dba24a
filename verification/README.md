# Mount pods of the JuiceFS CSI driver, modelled and proved

Every JuiceFS volume on a node is served by one mount pod. Its annotations are a reference count: the entry
`GetReferenceKey(target) -> target` says that `target` uses the volume, `juicefs-delete-delay` and
`juicefs-delete-at` drive the delayed deletion of an unused pod. The node service adds and drops references; a
reconciler in the same process prunes the references of dead app pods, deletes idle pods, recreates deleted ones,
strips resources from pods the node refuses, and repairs broken bind mounts. Kubelet and users write the same
objects. Correctness rests on one mutex per pod name and on the API server's optimistic concurrency; neither is
enough alone.

Check everything with `dafny verify dfyconfig.toml`.

## How it is built

- `Pods`, `ApiServer`: annotations as a reference count, pods, and an API server that logs every accepted write; a
  resource version is the position of a write in the log.
- `Machine`: the driver as a transition system. A step is one API call or mount operation of one thread, or one
  action of kubelet, a user, the clock or the container orchestrator. Locks are part of the state, and which lock a
  name hashes to is a parameter of the run.
- `Invariant`, `Safety`, `IdleTime`, `Bound`: what holds in every state of every run, for all interleavings.
- `Node`: the class `World` holds the state and an arbitrary schedule of what the others attempt before each call;
  every call of a method is a step of the transition system, so the whole-run theorems apply to it. Its history
  `seen` keeps the state and the answer of every call, so contracts can say why an operation failed.
- `IdleTail`, `PodMount`, `PodDriver`, `Handlers`, `Reconciler`: the driver's operations as methods on `World`,
  branch by branch and retry by retry. A contract states what an operation may write under any interference
  (`Mine` is the log restricted to its writes), that it gives up only for a reason found in the history, such as 120
  polls that all saw the pod being deleted, and, for an empty schedule, the exact resulting server.
- `Convergence`, `Scenarios`: where undisturbed checks end, what stale input does, and runs that reach what the
  theorems exclude.
- `Lineage`, `Stripping`: how pods descend from one another, and how often resources are stripped over a run.
- `MountTable`, `Kernel`: the snapshot of the mount table, stacks of bind mounts, recovery and the umount loop.
- `ProcessMount`, `MountInfo`: mounting without pods, where the mount table is the reference count, and its parser.
- `CsiPath`, `Command`, `Builder`, `Strings`, `Paths`: target paths, mount commands, pod volumes, and the library
  functions they rest on.

## What the results assume

- Nothing is assumed of the pod copies and liveness tables checkAnnotations starts from. A check keeps as history
  whether its copy agreed with the stored pod on references and delete-at when it took the lock; the code does not
  look at that, and the theorems name it where it matters.
- The local time zone is UTC: the deletion instant is formatted in local time and parsed as UTC
  (pkg/util/util.go:245-257). The clock does not go back.
- `GetReferenceKey` is injective and no other annotation key looks like it; settings name no protocol annotation.
- The container orchestrator overlaps no publish, unpublish and recovery of one target, and a target never changes
  its volume. Users and kubelet leave reference entries and delete-at alone.
- Under the lock a pod found missing cannot appear, so its creation is not refused for a taken name. When it fails
  otherwise, `createOrAddRef` dereferences a missing result (pkg/juicefs/mount/pod_mount.go:237-241); in the model the
  operation ends there.

## Model

| member | source | states |
|---|---|---|
| `Pods.InsertIsSetInsert` | pkg/juicefs/mount/pod_mount.go:326-338 | the change AddRefOfMount makes is a set insertion: the target joins the references, every other annotation is kept, only delete-at goes, doing it twice is doing it once |
| `Pods.RemoveIsSetRemove` | pkg/juicefs/mount/pod_mount.go:84-91 | the change JUmount makes is a set removal and idempotent; every other annotation is kept |
| `Pods.HasRefIffRefs` | pkg/juicefs/mount/pod_mount.go:411-418 | HasRef is non-emptiness of the set of referenced targets |
| `Pods.CountdownEnds` | pkg/util/util.go:245-286 | stamped at one look, an idle pod waits exactly until the delay, rounded down to a second, is over, and is deleted at any later look |
| `Pods.DeletedAtOnce` | pkg/util/util.go:259-286 | an idle pod is deleted at once exactly if it has no delay, an unreadable one and no instant, or an instant that is over or unreadable |
| `Pods.ReferenceRestartsCountdown` | pkg/util/util.go:259-286 | a reference that comes and goes starts the countdown anew |
| `Pods.PruneKeepsLive` | pkg/controller/pod_driver.go:129-145 | pruning keeps exactly the references whose app pod the table lists as live; whatever else goes is delete-at, and only if a reference stays |
| `Pods.LengthTestIsExact` | pkg/controller/pod_driver.go:146 | comparing the lengths of the two annotation maps decides whether the maps differ |
| `ApiServer.CurrentCopy` | pkg/juicefs/k8sclient/client.go:133-141 | a copy once read that carries the stored version is the stored pod |
| `Machine.Bucket` | pkg/config/config.go:78-85 | every pod name has one of 1024 locks, whatever the hash |
| `Invariant.InvStep` | pkg/controller/pod_driver.go:123-169 | every step of publish, unpublish, check, recreate, strip, recovery and the outside world keeps the invariant, whatever copies and tables the checks work on: locks held by exactly the threads in their sections, stored reference keys proper, no idle decision on a referenced pod from a copy that agreed with it |
| `Invariant.InvAlways` | pkg/controller/pod_driver.go:76-105 | the invariant holds in every state of every run |
| `Invariant.MergeIsUnion` | pkg/controller/pod_driver.go:359-366 | the merged annotations refer to the union of both reference sets |
| `Invariant.HolderCanMove` | pkg/config/config.go:78-85 | no deadlock: whoever holds a pod lock can take its next step, also when names share a lock |
| `Safety.IdleDeletionsAreSafe` | pkg/juicefs/mount/pod_mount.go:119-126 | in every interleaving of every run, no deletion for idleness by JUmount hits a pod whose stored annotations hold any reference, and none by a checkAnnotations whose copy, when it took the lock, agreed with the stored pod on references and delete-at, or which has written its pruned copy back; only a check of an outdated copy can |
| `Safety.RefsSurvive` | pkg/controller/pod_driver.go:129-145 | in one step, as long as its pod stays, a stored reference goes if and only if the step is an accepted commit of its own unpublish or an accepted prune whose table does not list its app pod as live |
| `Safety.RefsSurviveAlways` | pkg/juicefs/mount/pod_mount.go:76-92 | in every run, a reference stored at one point is stored at every later one up to another, its pod being there, if and only if no step between is such a commit or prune |
| `Scenarios.LivePruneHappens` | pkg/controller/pod_driver.go:76-89 | a run of the transition system up to a prune that takes the reference of a live, bound target and leaves the target unreferenced: the pod copy is the stored version, the table older than the app pod |
| `Safety.ExclusiveStep` | pkg/juicefs/mount/pod_mount.go:334-338 | for each pod, a step keeps "no version ever stored holds both a reference and delete-at" if and only if it is not an accepted merge into that pod while it stores delete-at |
| `Safety.MergeExclusion` | pkg/controller/pod_driver.go:355-366 | the merge of references into a pod stores both if and only if that pod stores delete-at |
| `Safety.ExclusiveAlways` | pkg/controller/pod_driver.go:129-152 | for each pod, in every run, no version ever stored holds both if and only if no step of it is such a merge into that pod |
| `Scenarios.ClashHappens` | pkg/controller/pod_driver.go:355-366 | a run of the transition system that ends before such a merge: the handler of a deleted pod waits while a new pod of that name is created, falls idle and gets its delete-at |
| `Safety.CheckRestoresExclusive` | pkg/controller/pod_driver.go:143-152 | after a merge, the next checkAnnotations on the stored version leaves the pod with at most one of the two |
| `IdleTime.IdleTimeBound` | pkg/util/util.go:259-286 | in every run without a merge into this pod while it stores delete-at: whenever the pod is deleted for idleness on a copy with a valid delay, by JUmount or by a check whose copy agreed with the stored pod, it was found idle at some t0 with a delay d, has stored no reference since, and the deletion is no earlier than floor_seconds(t0 + d), so later than t0 + d - 1s |
| `Scenarios.EarlyDeletionHappens` | pkg/juicefs/mount/pod_mount.go:98-129 | after such a merge the bound fails: a run of the transition system in which a pod with a delay of one hour is deleted for idleness at the clock reading at which it still stored a reference |
| `IdleTime.MarkMeans` | pkg/util/util.go:245-253 | a pending countdown was started at one decision and the pod has stored no reference since that step |
| `IdleTime.DatedAlways` | pkg/util/util.go:265-285 | in every run without a merge into this pod while it stores delete-at, every stored delete-at of it is the outcome of a decision taken while the pod was idle |
| `Bound.BoundImpliesReferenced` | pkg/juicefs/juicefs.go:284-318 | in every run in which so far no step deleted a pod storing the reference of a live target and no check pruned such a reference, a live target with a non-empty bind stack is referenced by its existing mount pod: the reference is written before the bind and dropped after the last umount |
| `Bound.BoundStep` | pkg/driver/node.go:151-164 | each other step keeps it, for publishes, unpublishes, prunes, deletions, recreations, redeployments and recoveries |
| `Node.RelyStep` | pkg/juicefs/mount/pod_mount.go:55-59 | one step of any other actor leaves the protocol annotations of a pod alone whose lock a thread holds, and writes nothing in its name |
| `Node.StillWithout` | pkg/controller/pod_driver.go:295-297 | under the lock a pod neither appears nor gains a reference while others run |
| `Node.World.Interleave` | pkg/config/config.go:78-85 | the others' batch of attempts takes effect in order, what is not enabled in its turn is skipped, and amounts to what the lock and the versions allow them |
| `Node.World.GetPod` | pkg/juicefs/k8sclient/client.go:74-82 | a read returns the stored pod, or none |
| `Node.World.UpdatePod` | pkg/juicefs/k8sclient/client.go:133-141 | an update is the API server's versioned update, in a state the others left |
| `Node.World.DeletePod` | pkg/juicefs/k8sclient/client.go:143-150 | a deletion goes by name and checks no version |
| `Node.World.CreatePod` | pkg/juicefs/k8sclient/client.go:60-72 | a creation fails if the name is taken |
| `Node.World.Lock` | pkg/config/config.go:80-85 | the lock is granted if and only if no one holds the bucket of the name, in a state the others left |
| `IdleTail.ShouldDelayPod` | pkg/util/util.go:259-286 | at most one write, a stamp of an idle pod; false exactly if the pod is to be deleted now; a copy changed since it was read is never stamped |
| `IdleTail.DeleteIdle` | pkg/juicefs/mount/pod_mount.go:119-126 | at most one write, and it marks a pod that stores no reference |
| `PodMount.AddRefOfMount` | pkg/juicefs/mount/pod_mount.go:313-345 | under any pattern of conflicts either one set insertion on the pod as stored at that moment or no write; success means the reference is stored, failure that all four attempts conflicted or one of them found the pod gone or being deleted; alone, exactly AddRefAlone |
| `PodMount.CreateWithRef` | pkg/juicefs/mount/pod_mount.go:229-245 | under the lock, a pod found missing is created with exactly this reference, the builder's annotations and the finalizer |
| `PodMount.CreateOrAddRef` | pkg/juicefs/mount/pod_mount.go:210-259 | waits out a deletion, then one creation or one insertion, written only on success; it fails only if all 120 polls found the pod being deleted, or one found it in use and adding the reference failed as above |
| `PodMount.PublishAlone` | pkg/juicefs/mount/pod_mount.go:221-258 | undisturbed, publishing succeeds unless the pod is being deleted, adds the target to what was stored and cancels a pending deletion |
| `PodMount.DropRef` | pkg/juicefs/mount/pod_mount.go:79-96 | under any pattern of conflicts either one set removal on the pod as stored at that moment or no write; success means the reference is gone, failure that all four attempts conflicted or one of them found the pod gone |
| `PodMount.DeleteMountPod` | pkg/juicefs/mount/pod_mount.go:98-129 | at most one write, a stamp or a mark of a pod without references; without a write it failed, on four conflicting stamps or a pod gone, or found the pod gone, referenced, being deleted or not yet due |
| `PodMount.JUmount` | pkg/juicefs/mount/pod_mount.go:55-144 | writes at most the removal and then one stamp or mark of an unreferenced pod; success means the reference is gone and the pod stamped or marked, unless found gone, referenced, being deleted or not yet due; failure has one of the reasons above; alone, exactly DropAlone |
| `PodMount.UnpublishAlone` | pkg/juicefs/mount/pod_mount.go:76-143 | undisturbed, exactly the target leaves the references; if none is left the pod is marked for deletion if ShouldDelay says now, and otherwise has its deletion instant |
| `PodDriver.LiveAnnotations` | pkg/controller/pod_driver.go:129-145 | the loop computes the pruned annotations and counts the references left |
| `PodDriver.CheckAnnotations` | pkg/controller/pod_driver.go:123-169 | for every copy and table and whatever others do: if the copy agreed with the stored pod when the lock was taken, one prune, stamp or mark, or a prune of the last reference and a mark, never a prune and a stamp; otherwise nothing but at most one deletion mark; alone, exactly CheckAlone |
| `PodDriver.CheckTwice` | pkg/controller/pod_driver.go:76-89 | a conflict is retried once on a fresh copy with the old table, and the second attempt gives up only where its lock is taken; alone, exactly CheckTwiceAlone |
| `Convergence.CheckIsMachine` | pkg/controller/pod_driver.go:123-169 | for every copy, current or stale, the steps of the transition system taken without interference amount to CheckAlone |
| `Convergence.StampAfterPruneConflicts` | pkg/controller/pod_driver.go:146-158 | pruning the last dead reference and stamping in one call always conflicts with itself, leaving only the prune |
| `Convergence.OneRunSettles` | pkg/controller/pod_driver.go:76-89 | one Run from a current copy without live references succeeds, leaves no reference, and marks the pod exactly if ShouldDelay says so; otherwise delete-at is stored |
| `Convergence.StaleAttempt` | pkg/juicefs/k8sclient/client.go:133-141 | exactly what a first attempt from a stale copy leads to: a conflict and no write if it prunes something or wants to stamp, a deletion mark if it has no reference, is not marked and its own verdict is now, and otherwise nothing |
| `Convergence.StaleRun` | pkg/controller/pod_driver.go:76-89 | one Run from any stale copy of a pod without live references marks it if and only if, where the copy prunes something, ShouldDelay says now of the stored pod, and where it does not, the copy is unreferenced and unmarked and its own verdict is now, or a stamp while the stored pod's is now |
| `Convergence.TwoRunsSettle` | pkg/controller/pod_driver.go:76-89 | from any copy ever stored, current or stale, two Runs settle a pod without live references: the second succeeds, no reference is left, and the pod is marked or has its delete-at; which of them marks it is stated exactly |
| `Convergence.StaleDeletionExactly` | pkg/controller/pod_driver.go:146-166 | checkAnnotations marks a referenced pod if and only if its copy has no reference, is not marked, and its delay is over |
| `Convergence.CurrentNeverMarksReferenced` | pkg/controller/pod_driver.go:153-166 | with the stored version in hand that never happens |
| `Scenarios.StaleDeletionHappens` | pkg/controller/pod_driver.go:153-166 | a run of the transition system up to a check that deletes a referenced pod: its copy was stored between two publishes |
| `Convergence.TableDecides` | pkg/controller/pod_driver.go:76-89 | a reference of a current pod survives a Run if and only if the table lists the pod of its uid, and not as being deleted |
| `Handlers.PodDeletedHandler` | pkg/controller/pod_driver.go:235-375 | for every sequence of polls: the finalizer goes, then at most one pod comes back, with all old annotations, labels and containers and the finalizer, or as the union of both pods' references with all else unchanged; with references to bring back it succeeds only if the pod came back or the merge was refused, and fails only if the release was not accepted, the lock is taken, or all 120 polls found the pod being deleted; if all that happens otherwise is that the released pod is removed before some poll, it comes back with its references |
| `Handlers.Recreate` | pkg/controller/pod_driver.go:294-374 | under the lock: without success all 120 polls found the old pod being deleted; a pod removed before any of them is created again |
| `Handlers.PollAndRecreate` | pkg/controller/pod_driver.go:303-371 | what one poll leads to: waiting only if it found the pod being deleted, a refusal only if the pod was in use and then gone or changed; under the lock a missing pod is always created again |
| `Handlers.ExistTargets` | pkg/controller/pod_driver.go:276-281 | the loop collects exactly the reference entries |
| `Handlers.PodErrorHandler` | pkg/controller/pod_driver.go:171-233 | finalizer, mark and stripped pod are written at most once each and in this order; the stripped pod keeps labels, annotations and commands and requests nothing; a pod without requests is left alone; if no pod is created, the release was not accepted, the pod was gone before the mark, or all 120 polls found it; if all that happens otherwise is that the marked pod is removed before some poll, all three are written |
| `Handlers.AwaitDeletion` | pkg/controller/pod_driver.go:192-211 | gives up only if all 120 polls found the pod; sees every removal before one of them |
| `Handlers.HasResource` | pkg/util/pod.go:78-85 | true if and only if some container requests something |
| `Handlers.DeleteResources` | pkg/util/pod.go:71-76 | clears requests and limits of every container and nothing else |
| `Lineage.StoredPodsDescend` | pkg/controller/pod_driver.go:213-227 | whatever a step of any run stores, unless createOrAddRef builds it, has the labels and containers of a pod stored before under that name, or those of one with requests, stripped |
| `Lineage.StrippingReachesZero` | pkg/util/pod.go:71-85 | a stripping recreation takes the number of requesting containers from positive to zero |
| `Stripping.StripsBounded` | pkg/controller/pod_driver.go:179-231 | in every run podErrorHandler creates stripped pods of a name at most as often as createOrAddRef creates one of that name and an outsider puts the driver's finalizer back on one that has requests and is marked or released, together |
| `Stripping.StepSettles` | pkg/controller/pod_driver.go:245-257 | what can still be stripped, the pods threads have released with requests and a stored pod that can still be released, grows by a step only with a pod createOrAddRef builds or a finalizer put back, and a strip uses one up |
| `Stripping.PuttingBackUnsettles` | pkg/controller/pod_driver.go:245-257 | putting the finalizer back makes exactly one more pod strippable |
| `Reconciler.Handle` | pkg/controller/pod_driver.go:107-121 | the handler is chosen by the pod's state, writes only what that handler may and ends as it does; alone, exactly as that handler alone; bind stacks change only for a ready pod, by podReadyHandler's rounds |
| `Reconciler.Run` | pkg/controller/pod_driver.go:76-105 | all a Run writes is what its one or two checks and one handler write; of a deleted or failed pod, exactly the copy the server held when it was fetched after the checks is handled, its deletion told to the table first, and Run ends as the handler does; not-found means it was gone then; a pod that is ready when its check is done has exactly the references the check kept recovered; alone, exactly RunAlone |
| `Reconciler.DeletedPodReleased` | pkg/controller/pod_driver.go:91-121 | an undisturbed Run on a stored pod that is being deleted, failed or ready besides, prunes it and takes the driver's finalizer off; it ends well if and only if no live reference is left to bring back |
| `Reconciler.FailedPodMarked` | pkg/controller/pod_driver.go:107-121 | one on a stored, used pod that failed for its resources prunes it and, under the lock, takes the finalizer off and marks it |
| `Reconciler.OtherPodOnlyPruned` | pkg/controller/pod_driver.go:91-121 | one on any other stored pod that is used prunes it and does nothing else |
| `Reconciler.OnlyReadyRecovers` | pkg/controller/pod_driver.go:107-121 | bind mounts are touched only for a pod that is ready, not failed and not being deleted |
| `Reconciler.RunRepairsKept` | pkg/controller/pod_driver.go:408-421 | a Run on a ready pod never leaves the target of a reference its check kept bare, and rebinds it on its lowest layer if its mount is dead, provided no other reference shares the path and the table counts its layers right |
| `MountTable.MountInfoTable.SetPodsStatus` | pkg/controller/mountinfo.go:52-64 | the table lists exactly the pods given, each with its last deletion mark |
| `MountTable.MountInfoTable.ResolveTargetItem` | pkg/controller/mountinfo.go:112-152 | one item for each distinct matching mount point, with its multiplicity, the trimmed root of its first entry, and inconsistent if and only if two of its entries trim differently; counts sum to the matching entries; exact mode yields at most one |
| `MountTable.SubpathIsDirectory` | pkg/controller/mountinfo.go:129-130 | the subpath of a bind of any directory of the volume is the path of that directory, whether it was deleted since or not, and of the volume itself the empty one |
| `MountTable.DirectoriesShown` | pkg/controller/mountinfo.go:129-144 | a path on which directories are bound shows the first of them and is inconsistent if and only if two of them differ |
| `MountTable.CountsAddUp` | pkg/controller/mountinfo.go:112-152 | for every table, counting by distinct mount points counts every matching entry once |
| `MountTable.DifferWith` | pkg/controller/mountinfo.go:140-142 | comparing each entry with the first finds a difference if and only if some two entries differ |
| `MountTable.MountInfoTable.ResolveTarget` | pkg/controller/mountinfo.go:74-110 | none if and only if the path has no pod uid or no pv name; otherwise the base item and the items of every mount point that starts with the subpath prefix, all with different paths, each with the count, subpath, consistency and status that the table and stat give its path |
| `MountTable.BaseIsNoSubpath` | pkg/controller/mountinfo.go:74-107 | no target lies below the subpath prefix of its own pod and volume |
| `Kernel.OwnPathsOfCsiTarget` | pkg/controller/mountinfo.go:74-107 | the paths of <root>/<uid>/volumes/kubernetes.io~csi/<pv>/<tail> are itself and exactly the mount points that start with <root>/<uid>/volume-subpaths/<pv> |
| `MountTable.TargetItem.Check` | pkg/controller/mountinfo.go:171-198 | mounted if stat succeeds and the table lists the path, not mounted if only stat does, missing if and only if stat says so, corrupt if and only if stat finds a dead mount |
| `Kernel.Stacks.RecoverTarget` | pkg/controller/pod_driver.go:427-478 | the exact stack left on the target, and no other stack changes |
| `Kernel.Stacks.UmountTarget` | pkg/controller/pod_driver.go:480-485 | takes count layers off, or all there are |
| `Kernel.RepairedHeight` | pkg/controller/pod_driver.go:447-473 | a repaired target ends at max(h - max(c - 1, 0), 0) + 1 layers with the new source on top, two if the count is right |
| `Kernel.LayerStaysExactly` | pkg/controller/pod_driver.go:458-468 | without the bind a layer stays if and only if the table counts no more layers than there are |
| `Kernel.RoundsStayBounded` | pkg/controller/pod_driver.go:458-474 | over any rounds with right counts the stack never exceeds max(initial, 2) and a live target never loses its bottom layer |
| `Kernel.StaleCountGrows` | pkg/controller/pod_driver.go:458-474 | with a count of one that is never renewed the stack grows by a layer each round |
| `Kernel.Stacks.UnmountAll` | pkg/juicefs/juicefs.go:288-309 | the loop ends after height + 1 umounts with no layer left |
| `Kernel.RecoverThenUnmount` | pkg/juicefs/juicefs.go:288-309 | after any recovery rounds, unpublishing takes at most max(initial, 2) + 1 umounts and leaves none |
| `Kernel.Stacks.RecoverItems` | pkg/controller/pod_driver.go:417-420 | the base target and every subpath target of a reference get exactly one round, each by what the table and stat say of its path, and nothing else is touched |
| `Kernel.PodReadyHandler` | pkg/controller/pod_driver.go:382-425 | every path gets exactly one round for each reference it belongs to, in the order in which the references come, every reference comes once, and without a readable mount path nothing happens |
| `Kernel.RecoveredOnce` | pkg/controller/pod_driver.go:408-421 | for every order: a path that belongs to one reference alone is recovered once, with that reference's app pod |
| `Kernel.OthersStay` | pkg/controller/pod_driver.go:408-421 | for every order: a path that belongs to no reference keeps its stack |
| `Kernel.LiveTargetRepaired` | pkg/controller/pod_driver.go:447-474 | such a path, of a live app pod and with its layers counted right, is never bare, has at most two layers or what it had, keeps its lowest, and if its mount is dead and can be bound ends as that layer with the new mount on top |
| `Kernel.OnlyBrokenTouched` | pkg/controller/pod_driver.go:427-478 | for every order of references: a path keeps its stack if stat succeeds on it or fails in an unknown way, if its mount is dead but its entries differ or its app pods are all deleted, and if it is missing and none of them is |
| `Kernel.GoneTargetCleared` | pkg/controller/pod_driver.go:429-439 | a missing path of one reference, of a deleted app pod, loses exactly as many layers as the table counts, or all |
| `Kernel.DeadBindRepaired` | pkg/controller/pod_driver.go:458-474 | a dead bind of a directory, deleted since or not, is recovered on that directory of the mounted volume |
| `CsiPath.MarkersApart` | pkg/controller/mountinfo.go:66-71 | occurrences of the marker never overlap |
| `CsiPath.SplitAtMarker` | pkg/controller/mountinfo.go:74-78 | splitting at the marker gives the two sides if and only if neither contains it |
| `CsiPath.CsiPathRoundTrip` | pkg/controller/mountinfo.go:207-233 | pod uid and pv name are read back if the marker occurs nowhere else in the path, and otherwise both are empty |
| `CsiPath.MarkerAcrossRootAndUid` | pkg/controller/mountinfo.go:207-219 | a marker-free root is not enough: a concrete path whose root and uid form a marker |
| `Command.GetCommand` | pkg/juicefs/mount/builder/pod.go:179-201 | the quoted line of binary, source, mount path and the options with those the driver adds |
| `Command.MountCommand` | pkg/juicefs/juicefs.go:434-450 | the pod runs sh -c on the quoted line for /jfs/<id>, which leads back to ("/jfs/" + id, id) if and only if the id has neither white space nor parentheses |
| `Command.CommandReadBack` | pkg/juicefs/mount/builder/pod.go:179-201 | after the shell's unquoting and splitting the line is the edition's binary, the source, the mount path, "-o" and a list that splits at commas into the user's options followed by exactly those the driver adds |
| `Command.CommandRoundTrip` | pkg/util/util.go:232-243 | the same for every list of options |
| `Command.NoSourceNoMountPath` | pkg/util/pod.go:87-100 | without a source the driver does not recognise its own mount pod |
| `Command.QuoteHasLeftInverse` | pkg/util/util.go:288-296 | quoting has a left inverse on all commands |
| `Command.QuoteIsQuoted` | pkg/util/util.go:288-296 | the two replacements together put a backslash before each parenthesis and nothing else |
| `Command.ContainsString` | pkg/util/util.go:217-224 | true if and only if the string is an element |
| `MountInfo.ParseLine` | pkg/util/util.go:109-148 | accepts a line if and only if its fields are six, any number of optional ones, "-" and at least three, with integers first, and reads exactly those |
| `MountInfo.EntryShape` | pkg/util/util.go:135-144 | the first "-" from the seventh field on is the only possible separator |
| `MountInfo.ParseMountInfo` | pkg/util/util.go:101-151 | the entries of all non-empty lines in order, or an error if and only if some line is none |
| `MountInfo.LineRoundTrip` | pkg/util/util.go:114-148 | parsing a printed entry gives the entry back |
| `MountInfo.FileRoundTrip` | pkg/util/util.go:101-151 | parsing what the kernel prints for any list of entries gives the list back |
| `MountInfo.AtoiItoa` | pkg/util/util.go:119-126 | printed 64-bit numbers are read back |
| `Paths.WithinIsPrefix` | pkg/util/util.go:88-99 | a path lies within a base if and only if the base's components are its first ones |
| `Paths.ComponentsOneMore` | pkg/util/util.go:88-99 | a name behind a path adds a component, an empty one or "." changes nothing, ".." takes the last one off |
| `Paths.ComponentsOfRendered` | pkg/util/util.go:88-99 | the components of the path made of clean components are those |
| `ProcessMount.CoversBelow` | pkg/util/util.go:164-165 | a mount covers a path if and only if the path begins with its components |
| `ProcessMount.SearchMountPoints` | pkg/util/util.go:153-194 | fails if and only if no mount covers the path; otherwise returns the other mounts of the group of the last covering mount |
| `ProcessMount.Mounts.JUmount` | pkg/juicefs/mount/process_mount.go:118-160 | unmounts the target, and the one mount of its group that is left, if just one is |
| `ProcessMount.LastBind` | pkg/juicefs/mount/process_mount.go:151-158 | just one other mount is left if and only if this is the last bind, and then it is the base |
| `ProcessMount.StepCounts` | pkg/juicefs/mount/process_mount.go:118-160 | each operation on the mount table is a step of a reference counter for every volume |
| `ProcessMount.TableIsReferenceCount` | pkg/juicefs/mount/process_mount.go:118-160 | over any run the mount table shows for every volume the binds and the base a reference counter would have: the base goes with the last bind, no other bind is ever unmounted |
| `Builder.PodVolumes` | pkg/juicefs/mount/builder/pod.go:30-40 | for every setting each mount of the main and the init container names a volume of the pod; own directories, secrets, config secrets and the cache directories of the mount command are mounted where they belong, and nothing else is |
| `Builder.GenerateJuicePod` | pkg/juicefs/mount/builder/common.go:33-70 | the same before cache directories are added; the init container mounts exactly its own secrets and all the main container has so far |
| `Builder.ConfigVolumes` | pkg/juicefs/mount/builder/common.go:38-53 | for every iteration order: config-1 to config-n, volume and mount alike, each secret once and at its path |
| `Builder.GetCacheDirVolumes` | pkg/juicefs/mount/builder/pod.go:110-177 | volumes and mounts agree index by index in name and path, the paths are the directories the command names, in order, and each name is the path with dashes for slashes |
| `Builder.CacheDirsReadBack` | pkg/juicefs/mount/builder/pod.go:140-150 | whatever the other options, the cache directories read out of the mount command are those of the setting's cache-dir option, in order |
| `Builder.DefaultCacheDir` | pkg/juicefs/mount/builder/pod.go:122-139 | a command that names no cache directory gets /var/jfsCache |
| `Builder.SpaceIgnored` | pkg/juicefs/mount/builder/pod.go:140-148 | white space around an option does not change the directories it names |

## Left out

- Bound.BoundImpliesReferenced: excludes runs that delete a pod with the reference of a live target, because references survive such a deletion only if the recreation succeeds, which pkg/controller/pod_driver.go:213-230 and 349-374 do not ensure, and runs that prune such a reference, see Scenarios.LivePruneHappens.
- IdleTime.IdleTimeBound: excludes runs with a merge into the pod while it stores delete-at (pkg/controller/pod_driver.go:359-370), see Scenarios.EarlyDeletionHappens, and deletions on a copy that disagreed with the stored pod.
- Kernel.RoundsStayBounded: assumes that umounts of a mounted path succeed; a busy mount is not modelled.
- Kernel.PodReadyHandler: stat answers stay the same during one call.
- ProcessMount.TableIsReferenceCount: assumes one base mount for each group, distinct mount points and nothing mounted over a target later; symbolic links are not resolved.
- Command.CommandRoundTrip: outside the community edition the source must be one word.
- MountTable.MountInfoTable.ResolveTarget: subpath targets are matched by string prefix, as the code does, so those of a volume whose name continues this one are included.
- Handlers.PodDeletedHandler: references are lost when the wait runs out or the merge is refused, and a refused merge is not reported (pkg/controller/pod_driver.go:367-370); the contract says when they are kept.
- API errors other than not-found, conflict and already-exists end an operation and have no effect on the server; an update whose reply is lost is not modelled.
- Waiting for a mount pod to become ready, sleeps and the real durations of polls; the 120 polls and 4 tries are kept.
- The lazy umount of pkg/juicefs/juicefs.go:298-307, CleanupMountPoint and the umount of the source path before a recreation.
- Pod status details: readiness, failure and resource errors are three flags that kubelet sets. Pod UIDs: the table's key is the uid in the target path, and Run takes its mount pod's as a parameter.
- parsePodResources writing into the global container resources (pkg/juicefs/mount/builder/pod.go:86-103), environment, probes, labels and the secret of a mount pod.
- Uniqueness of cache volume names: two directories that differ in "/" and "-" get one name (pkg/juicefs/mount/builder/pod.go:152-153).
- MountFs's process-mode path, JMount of process mounts, CreateVol, settings parsing, jobs, secrets, capability lists and the identity service.
- SHA-256, FNV-1a, time formatting, YAML and JSON: library functions, replaced by an injective key, an arbitrary hash and a floor to seconds.
- Kubelet client, gRPC server, command line and environment handling; running juicefs, format, auth and upgrade commands.
