/** The deferred-save coordinator of the global build stats plugin
    (GlobalBuildStatsPluginSaver): callers queue build results to add or
    remove and edit the chart configurations; a single writer later folds
    everything queued into the plugin's store and saves it. The thread pool
    is reduced to a count of submitted jobs, each of which runs atomically. */
module Saver {
  import opened Reconcile

  /** What one call of the plugin's save()/load() came to. */
  datatype FlushOutcome = Skipped | Saved | SaveFailed

  /** A caller's edit, in place of the callback that receives the three
      buffers: records to append to each queue, and the new configuration
      list as a function of the current one. */
  datatype Edit<R, !C> = Edit(adds: seq<R>, removes: seq<R>, reconfigure: seq<C> -> seq<C>)

  /** The plugin object: the store the coordinator writes into. It holds the
      in-memory lists and the copy last written to disk; save() and load()
      move data between the two and may fail with an I/O error, which the
      caller's environment decides through `diskFails`. */
  class Plugin<R, C> {
    var results: seq<R>
    var configs: seq<C>
    var diskResults: seq<R>
    var diskConfigs: seq<C>
    /** Number of save() attempts, failed ones included. */
    var saveCalls: nat

    constructor (results: seq<R>, configs: seq<C>, diskResults: seq<R>, diskConfigs: seq<C>)
      ensures this.results == results && this.configs == configs
      ensures this.diskResults == diskResults && this.diskConfigs == diskConfigs
      ensures saveCalls == 0
    {
      this.results := results;
      this.configs := configs;
      this.diskResults := diskResults;
      this.diskConfigs := diskConfigs;
      saveCalls := 0;
    }

    /** save(): writes the in-memory lists to disk unless the write fails. */
    method Save(diskFails: bool) returns (ok: bool)
      modifies this
      ensures ok == !diskFails
      ensures results == old(results) && configs == old(configs)
      ensures saveCalls == old(saveCalls) + 1
      ensures diskResults == (if ok then results else old(diskResults))
      ensures diskConfigs == (if ok then configs else old(diskConfigs))
    {
      saveCalls := saveCalls + 1;
      ok := !diskFails;
      if ok {
        diskResults, diskConfigs := results, configs;
      }
    }

    /** load(): reads the in-memory lists back from disk unless the read fails. */
    method Load(diskFails: bool) returns (ok: bool)
      modifies this`results, this`configs
      ensures ok == !diskFails
      ensures results == (if ok then diskResults else old(results))
      ensures configs == (if ok then diskConfigs else old(configs))
    {
      ok := !diskFails;
      if ok {
        results, configs := diskResults, diskConfigs;
      }
    }
  }

  class Saver<R(==,!new), C(==,!new)> {
    const plugin: Plugin<R, C>
    /** Hand-off queue of results to add to the store. */
    var addQ: seq<R>
    /** Hand-off queue of results to remove from the store. */
    var removeQ: seq<R>
    /** The live configuration list, shared whole rather than as deltas. */
    var configs: seq<C>
    /** Flush jobs submitted to the writer and not yet run. */
    var pendingJobs: nat

    /** True when a flush run now would find nothing to write. */
    predicate Settled()
      reads this, plugin
    {
      NothingChanged(Snapshot(addQ, removeQ, configs), plugin.configs)
    }

    /** The constructor stores the plugin and synchronizes the configuration
        buffer with it; both queues start empty. */
    constructor (plugin: Plugin<R, C>)
      ensures this.plugin == plugin
      ensures addQ == [] && removeQ == [] && pendingJobs == 0
      ensures configs == plugin.configs
    {
      this.plugin := plugin;
      addQ, removeQ, configs, pendingJobs := [], [], [], 0;
      new;
      SynchronizeWithPlugin();
    }

    /** Replaces the configuration buffer by the store's configuration list. */
    method SynchronizeWithPlugin()
      modifies this`configs
      ensures configs == plugin.configs
    {
      configs := [];
      configs := configs + plugin.configs;
    }

    /** Reloads the store from disk, ignoring a failure, then resynchronizes. */
    method ReloadPlugin(diskFails: bool)
      modifies plugin`results, plugin`configs, this`configs
      ensures plugin.results == (if diskFails then old(plugin.results) else plugin.diskResults)
      ensures plugin.configs == (if diskFails then old(plugin.configs) else plugin.diskConfigs)
      ensures configs == plugin.configs
    {
      var _ := plugin.Load(diskFails);
      SynchronizeWithPlugin();
    }

    /** Applies the edit to the buffers at once and always submits one flush
        job, whether or not the edit changed anything. */
    method UpdatePlugin(edit: Edit<R, C>)
      modifies this`addQ, this`removeQ, this`configs, this`pendingJobs
      ensures addQ == old(addQ) + edit.adds
      ensures removeQ == old(removeQ) + edit.removes
      ensures configs == edit.reconfigure(old(configs))
      ensures pendingJobs == old(pendingJobs) + 1
      ensures JobBuildResults() ==
              RemoveAll(RemoveAll(plugin.results, old(removeQ)), edit.removes) + old(addQ) + edit.adds
    {
      EditVisibleInMergedView(plugin.results, removeQ, addQ, edit.removes, edit.adds);
      addQ := addQ + edit.adds;
      removeQ := removeQ + edit.removes;
      configs := edit.reconfigure(configs);
      pendingJobs := pendingJobs + 1;
    }

    /** One run of the submitted job: drain both queues into snapshots, copy
        the configuration list, skip if nothing changed, otherwise remove then
        add in the store, replace its configurations and save. A failed save
        is swallowed: nothing is rolled back and nothing is queued again. */
    method RunPendingJob(diskFails: bool) returns (outcome: FlushOutcome)
      requires pendingJobs > 0
      modifies this`addQ, this`removeQ, this`pendingJobs, plugin
      ensures pendingJobs == old(pendingJobs) - 1
      ensures addQ == [] && removeQ == [] && configs == old(configs)
      ensures NothingChanged(Snapshot(old(addQ), old(removeQ), old(configs)), old(plugin.configs)) ==>
                outcome == Skipped &&
                plugin.results == old(plugin.results) && plugin.configs == old(plugin.configs) &&
                plugin.diskResults == old(plugin.diskResults) &&
                plugin.diskConfigs == old(plugin.diskConfigs) &&
                plugin.saveCalls == old(plugin.saveCalls)
      ensures !NothingChanged(Snapshot(old(addQ), old(removeQ), old(configs)), old(plugin.configs)) ==>
                outcome == (if diskFails then SaveFailed else Saved) &&
                plugin.results == RemoveThenAdd(old(plugin.results), old(removeQ), old(addQ)) &&
                plugin.configs == old(configs) &&
                plugin.saveCalls == old(plugin.saveCalls) + 1 &&
                plugin.diskResults == (if diskFails then old(plugin.diskResults) else plugin.results) &&
                plugin.diskConfigs == (if diskFails then old(plugin.diskConfigs) else plugin.configs)
      ensures JobBuildResults() == old(JobBuildResults())
      ensures Settled()
    {
      pendingJobs := pendingJobs - 1;
      var resultsToAdd := addQ;
      addQ := [];
      var resultsToRemove := removeQ;
      removeQ := [];
      var configsState := configs;

      if resultsToAdd == [] && resultsToRemove == [] && configsState == plugin.configs {
        RemoveAllNothing(plugin.results);
        return Skipped;
      }

      plugin.results := RemoveAll(plugin.results, resultsToRemove);
      plugin.results := plugin.results + resultsToAdd;
      plugin.configs := [];
      plugin.configs := plugin.configs + configsState;
      var ok := plugin.Save(diskFails);
      outcome := if ok then Saved else SaveFailed;
      FlushKeepsMergedView(old(plugin.results), resultsToRemove, resultsToAdd);
    }

    /** The configuration list as callers read it. */
    function BuildStatConfigs(): (r: seq<C>)
      reads this
      ensures r == configs
    {
      configs
    }

    /** The merged read view: the store's results minus every queued removal,
        followed by every queued addition. */
    function JobBuildResults(): (r: seq<R>)
      reads this, plugin
      ensures |r| >= |addQ| && r[|r| - |addQ|..] == addQ
      ensures forall x :: x in r <==> x in addQ || (x in plugin.results && x !in removeQ)
    {
      RemoveThenAdd(plugin.results, removeQ, addQ)
    }
  }
}
