# Deferred-save coordinator of the global build stats plugin

This project models `GlobalBuildStatsPluginSaver`, the single access point
through which the global build stats plugin changes and persists its store.
Callers never write the store directly: `updatePlugin` lets them append build
results to a queue of records to add or to a queue of records to remove and
edit the live list of chart configurations, and then submits one job to a
one-thread writer. Each job drains both queues, copies the configuration
list, skips if nothing changed, and otherwise removes then adds results in
the plugin's store, replaces its configurations and calls `save()`, which may
fail. `getJobBuildResults` is the merged read view: store results minus the
queued removals, followed by the queued additions.

Two modules:

- `Reconcile` (`reconcile.dfy`): the list semantics as functions. `RemoveAll`
  is Java's `List.removeAll` (every occurrence of every listed element goes,
  the rest keep their order) and `RemoveThenAdd` is `removeAll` followed by
  `addAll`. That one function is both what a flush writes and what the read
  view shows, and the lemmas relate the two.
- `Saver` (`saver.dfy`): the state. `Plugin` is the external store, holding
  the in-memory lists, the copy last written to disk and a count of `save()`
  attempts. `Saver` is the coordinator, with fields `addQ`, `removeQ`,
  `configs` and `pendingJobs`, and its methods change them in place as the
  source does.

Properties proved:

- A flush leaves the merged read view unchanged (`RunPendingJob`, through
  `FlushKeepsMergedView`).
- After any flush, a second flush with no edit in between would write
  nothing (`Settled`).
- Removal happens before addition, so a record that is both removed and
  added ends up present.
- A failed save keeps the store's in-memory changes and leaves the queues
  drained.
- An edit is visible in the merged view as soon as `updatePlugin` returns.

Batching is also characterised. Two edits reaching one flush give the same
store as a flush after each edit, provided the second edit removes nothing
the first one added (`CoalescedFlushAgrees`). Without that proviso they can
differ: a record added and then removed before any flush runs stays in the
store (`CoalescedFlushCanKeepRemovedRecord`). The read view behaves the same
way, since it applies the same remove-then-add.

## Model

| member | source | states |
|---|---|---|
| `Reconcile.RemoveAll` | src/main/java/hudson/plugins/global_build_stats/business/GlobalBuildStatsPluginSaver.java:133 | `removeAll` keeps an element iff it was in the list and is not in the argument. The result is never longer than the input. |
| `Reconcile.RemoveAllCounts` | src/main/java/hudson/plugins/global_build_stats/business/GlobalBuildStatsPluginSaver.java:133 | `removeAll` deletes every copy of each listed element and keeps every copy of each other element. |
| `Reconcile.RemoveAllAbsent` | src/main/java/hudson/plugins/global_build_stats/business/GlobalBuildStatsPluginSaver.java:133 | `removeAll` of elements none of which is present returns the list unchanged, in the same order. |
| `Reconcile.RemoveAllNothing` | src/main/java/hudson/plugins/global_build_stats/business/GlobalBuildStatsPluginSaver.java:153 | `removeAll` of an empty queue is the identity. |
| `Reconcile.RemoveAllAppend` | src/main/java/hudson/plugins/global_build_stats/business/GlobalBuildStatsPluginSaver.java:133 | `removeAll` distributes over concatenation, so the surviving elements keep their relative order. |
| `Reconcile.RemoveAllTwice` | src/main/java/hudson/plugins/global_build_stats/business/GlobalBuildStatsPluginSaver.java:153 | Removing one batch and then another is the same as removing the two batches concatenated. |
| `Reconcile.RemoveThenAdd` | src/main/java/hudson/plugins/global_build_stats/business/GlobalBuildStatsPluginSaver.java:133-134 | The result ends with the added records in order. A record is present iff it is added, or it is in the store and not removed. So a record both removed and added is present. |
| `Reconcile.RemoveThenAddCounts` | src/main/java/hudson/plugins/global_build_stats/business/GlobalBuildStatsPluginSaver.java:133-134 | After remove-then-add, each record's count is its store count, or 0 when it is listed for removal, plus its count among the additions. |
| `Reconcile.FlushKeepsMergedView` | src/main/java/hudson/plugins/global_build_stats/business/GlobalBuildStatsPluginSaver.java:151-156 | The merged view over a store the flush has written, with empty queues, equals the merged view before the flush. |
| `Reconcile.EditVisibleInMergedView` | src/main/java/hudson/plugins/global_build_stats/business/GlobalBuildStatsPluginSaver.java:151-156 | Appending an edit's removals and additions to the queues gives this merged view: the store minus the old removals, minus the new removals, then the old additions, then the new additions. |
| `Reconcile.KeepAddedRecords` | src/main/java/hudson/plugins/global_build_stats/business/GlobalBuildStatsPluginSaver.java:133-134 | A removal that spares every appended record acts only on the part before them. |
| `Reconcile.CoalescedFlushAgrees` | src/main/java/hudson/plugins/global_build_stats/business/GlobalBuildStatsPluginSaver.java:106-134 | Two edits in one flush give the same store results as a flush after each, when the second edit removes none of the first edit's additions. |
| `Reconcile.CoalescedFlushCanKeepRemovedRecord` | src/main/java/hudson/plugins/global_build_stats/business/GlobalBuildStatsPluginSaver.java:133-134 | Counterexample without that proviso: a record added then removed is gone after two flushes and present after one. |
| `Saver.Plugin.Save` | src/main/java/hudson/plugins/global_build_stats/business/GlobalBuildStatsPluginSaver.java:138 | `save()` counts one attempt. It copies the in-memory lists to disk iff it succeeds, and never changes the in-memory lists. |
| `Saver.Plugin.Load` | src/main/java/hudson/plugins/global_build_stats/business/GlobalBuildStatsPluginSaver.java:82 | `load()` replaces the in-memory lists with the disk copy iff it succeeds. |
| `Saver.Saver.constructor` | src/main/java/hudson/plugins/global_build_stats/business/GlobalBuildStatsPluginSaver.java:70-73 | Keeps the plugin and makes the configuration buffer equal to the plugin's configuration list. Both queues start empty and no job is pending. |
| `Saver.Saver.SynchronizeWithPlugin` | src/main/java/hudson/plugins/global_build_stats/business/GlobalBuildStatsPluginSaver.java:75-78 | Afterwards the configuration buffer equals the store's configuration list exactly. Nothing else changes. |
| `Saver.Saver.ReloadPlugin` | src/main/java/hudson/plugins/global_build_stats/business/GlobalBuildStatsPluginSaver.java:80-88 | The store reloads from disk, keeping its lists when the load fails. The configuration buffer then equals the store's configuration list in both cases. |
| `Saver.Saver.UpdatePlugin` | src/main/java/hudson/plugins/global_build_stats/business/GlobalBuildStatsPluginSaver.java:98-102 | The edit's records are appended to the queues and the configuration list is replaced. Exactly one job is submitted, even for an edit that changes nothing. The merged view immediately reflects the edit. |
| `Saver.Saver.RunPendingJob` | src/main/java/hudson/plugins/global_build_stats/business/GlobalBuildStatsPluginSaver.java:103-143 | One job runs and both queues end empty. The configuration buffer is copied, not cleared. When nothing changed, the store and its disk copy are untouched and `save()` is not called. Otherwise the store gets remove-then-add results and the copied configurations, and exactly one `save()` is attempted. A failed save keeps those changes and the drained queues. The merged view is unchanged, and a next job would find nothing to write. |
| `Saver.Saver.BuildStatConfigs` | src/main/java/hudson/plugins/global_build_stats/business/GlobalBuildStatsPluginSaver.java:147-149 | Returns the live configuration list as a value. |
| `Saver.Saver.JobBuildResults` | src/main/java/hudson/plugins/global_build_stats/business/GlobalBuildStatsPluginSaver.java:151-156 | Reads only. The view ends with the queued additions in order. A record is in it iff it is queued for addition, or it is in the store and not queued for removal. |

## Left out

- The thread pool, `DaemonThreadFactory` and the `synchronized` blocks. Submitted jobs are a counter (`pendingJobs`), and `RunPendingJob` runs one job as a single atomic step. The single-writer and lock-interleaving guarantees are concurrency properties, and this sequential model does not capture them.
- Disk I/O inside the plugin's `save()` and `load()`. Whether either fails is a `diskFails` parameter. The disk copy is two lists, with no file format.
- Logging (every `LOGGER.log` call).
- The contents of `JobBuildResult` and `BuildStatConfiguration`. They are type parameters compared only by equality, standing in for Java's `equals`.
- `BeforeSavePluginCallback`. An `Edit` value stands in for it: records appended to each queue and a function from the old configuration list to the new one. A callback that deletes from or reorders the queues is not modelled.
- `afterPluginSaved`. It is an empty hook that nothing calls.
- The `unmodifiableList` wrappers. The getters return values, so a caller cannot observe later changes through a returned view.
