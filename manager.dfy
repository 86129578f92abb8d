/** The scheduler of `clientui/mission.py` (`MissionManager`): it keeps a FIFO list of waiting
    jobs and a list of running ones, fans a job out into one sub-job per sub-folder, finalises
    jobs whose worker process has exited and starts waiting jobs up to the thread count, one at a
    time or merged into a batch. */
module MissionManager {
  import opened Wrappers
  import opened Strings
  import opened Paths
  import opened Disk
  import opened Queues
  import opened TaskProgress
  import opened CommandExecutor
  import opened Missions

  /** The status record `get_status` returns. */
  datatype Status = Status(threadCount: int, batchMode: bool, forceBatchMode: bool,
                           waitingTasks: nat, runningTasks: nat, totalTasks: nat)

  /** The queue head, as a set (empty for an empty queue). */
  function HeadOf(ms: seq<Mission>): set<Mission> {
    if ms == [] then {} else {ms[0]}
  }

  /** The executor of the queue head, as a set. */
  function HeadExecutor(ms: seq<Mission>): set<Executor>
    reads ms
  {
    if ms == [] then {} else ExecutorOf(ms[0])
  }

  /** One job of `check`'s pass, with what the pass relies on: the observation `o` of the job
      decides whether it finished, and its executor and the folders stay as they were. */
  method ReconcileJob(m: Mission, ghost o: Observation, store: ProgressStore, disk: Disk, now: int) returns (finished: bool)
    requires m.outputFile.Some? && o == Observe(m, disk.dirs)
    modifies m, store, disk
    ensures finished == Finishes(o)
    ensures m.executor == old(m.executor)
    ensures finished ==> m.state == "completed" && !m.running
    ensures DiskKept(disk)
  {
    finished := Reconcile(m, store, disk, now);
  }

  /** The reconciling loop of `check`: the `k`th job is finished exactly when its observation
      `obs[k]`, taken before the loop, says so. */
  method ReconcileEach(rs: seq<Mission>, ghost obs: seq<Observation>, store: ProgressStore, disk: Disk, now: int)
    returns (fins: seq<bool>)
    requires Distinct(rs) && forall m :: m in rs ==> m.outputFile.Some?
    requires |obs| == |rs| && forall k :: 0 <= k < |rs| ==> obs[k] == Observe(rs[k], disk.dirs)
    modifies store, disk, set m | m in rs
    ensures |fins| == |rs| && forall k :: 0 <= k < |rs| ==> fins[k] == Finishes(obs[k])
    ensures forall k :: 0 <= k < |rs| && fins[k] ==> rs[k].state == "completed" && !rs[k].running
    ensures DiskKept(disk)
  {
    ghost var dirs := disk.dirs;
    fins := [];
    var i := 0;
    while i < |rs|
      invariant 0 <= i <= |rs| && |fins| == i
      invariant forall k :: i <= k < |rs| ==> Observe(rs[k], dirs) == obs[k]
      invariant forall k :: 0 <= k < i ==> fins[k] == Finishes(obs[k])
      invariant forall k :: 0 <= k < i && fins[k] ==> rs[k].state == "completed" && !rs[k].running
      invariant DiskKept(disk)
    {
      var m := rs[i];
      assert forall k :: 0 <= k < |rs| && k != i ==> rs[k] != m;
      var finished := ReconcileJob(m, obs[i], store, disk, now);
      fins := fins + [finished];
      i := i + 1;
    }
  }

  /** `check`'s pass over the copy `rs` of the running jobs: each is reconciled in turn, and the
      finished ones (`done`, in order) are taken off the list with `list.remove`, leaving `rest`.
      A job is finished exactly when the observation of it before the pass says so. The removals
      are made after the pass: nothing in the pass reads the list, so the outcome is the same. */
  method ReconcileAll(rs: seq<Mission>, store: ProgressStore, disk: Disk, now: int)
    returns (rest: seq<Mission>, ghost done: seq<Mission>)
    requires Distinct(rs) && forall m :: m in rs ==> m.outputFile.Some?
    modifies store, disk, set m | m in rs
    ensures rest == FilterOut(rs, done) && Distinct(rest)
    ensures forall j :: j in done ==> j in rs
    ensures forall k :: 0 <= k < |rs| ==> (rs[k] in done <==> Finishes(old(Observe(rs[k], disk.dirs))))
    ensures forall j :: j in done ==> j.state == "completed" && !j.running
    ensures DiskKept(disk)
  {
    ghost var dirs := disk.dirs;
    // what `check` will observe of each job, before the pass changes anything
    ghost var obs: seq<Observation> := [];
    while |obs| < |rs|
      invariant |obs| <= |rs|
      invariant forall k :: 0 <= k < |obs| ==> obs[k] == Observe(rs[k], dirs)
    {
      obs := obs + [Observe(rs[|obs|], dirs)];
    }
    assert forall k :: 0 <= k < |rs| ==> obs[k] == old(Observe(rs[k], disk.dirs));
    var fins := ReconcileEach(rs, obs, store, disk, now);
    done := Picked(rs, fins);
    PickedFlags(rs, fins);
    PickedDistinct(rs, fins);
    rest := RemoveEach(rs, Picked(rs, fins));
    FilterOutDistinct(rs, done);
  }

  /** The collecting loop of `_start_batch_if_available`, over a copy of the queue `ms`. */
  method CollectMatching(ms: seq<Mission>, presetName: string, outputFormat: string, debug: bool)
    returns (batch: seq<Mission>)
    ensures batch == Matching(ms, presetName, outputFormat, debug)
  {
    batch := [];
    var k := 0;
    while k < |ms|
      invariant 0 <= k <= |ms|
      invariant batch == Matching(ms[..k], presetName, outputFormat, debug)
    {
      assert ms[..k + 1][..k] == ms[..k];
      if Matches(ms[k], presetName, outputFormat, debug) {
        batch := batch + [ms[k]];
      }
      k := k + 1;
    }
    assert ms[..|ms|] == ms;
  }

  // ---------------------------------------------------------------- the scheduler

  class Manager {
    var missions: seq<Mission>
    var running: seq<Mission>
    var threadCount: int
    var batchMode: bool
    var forceBatchMode: bool
    /** The working folder the worker command is built from. */
    const cwd: string

    /** The queues are lists of distinct jobs, no job is both waiting and running, and every
        queued job has a descriptor file to write. */
    predicate Valid()
      reads this
    {
      Queues() && Addressed()
    }

    /** No job occurs twice, and none is both waiting and running. */
    predicate Queues()
      reads this
    {
      Distinct(missions) && Distinct(running) && (forall m :: m in missions ==> m !in running)
    }

    /** Every queued job has a descriptor file. */
    predicate Addressed()
      reads this
    {
      (forall m :: m in missions ==> m.outputFile.Some?) && (forall m :: m in running ==> m.outputFile.Some?)
    }

    constructor(disk: Disk, cwd: string)
      modifies disk
      ensures Valid() && missions == [] && running == [] && !batchMode && !forceBatchMode
      ensures this.cwd == cwd
      ensures old(disk.threadConfig).None? ==> threadCount == 1 && disk.threadConfig == Some(1)
      ensures old(disk.threadConfig).Some? ==> threadCount == old(disk.threadConfig).value
    {
      var n := ReadThreadCount(disk);
      missions, running, threadCount := [], [], n;
      batchMode, forceBatchMode := false, false;
      this.cwd := cwd;
    }

    /** The scheduler's settings are as they were. */
    twostate predicate Settings()
      reads this
    {
      threadCount == old(threadCount) && batchMode == old(batchMode) && forceBatchMode == old(forceBatchMode)
    }

    /** `get_status`. */
    function GetStatus(): (s: Status)
      reads this
      ensures s.waitingTasks == |missions| && s.runningTasks == |running|
      ensures s.totalTasks == s.waitingTasks + s.runningTasks
      ensures s.threadCount == threadCount && s.batchMode == batchMode && s.forceBatchMode == forceBatchMode
    {
      Status(threadCount, batchMode, forceBatchMode, |missions|, |running|, |missions| + |running|)
    }

    method SetBatchMode(enabled: bool)
      modifies this
      ensures batchMode == enabled && forceBatchMode == old(forceBatchMode)
      ensures missions == old(missions) && running == old(running) && threadCount == old(threadCount)
    {
      batchMode := enabled;
    }

    method SetForceBatchMode(enabled: bool)
      modifies this
      ensures forceBatchMode == enabled && batchMode == old(batchMode)
      ensures missions == old(missions) && running == old(running) && threadCount == old(threadCount)
    {
      forceBatchMode := enabled;
    }

    /** The sub-job half of `add`: one new job per sub-folder of `es`, appended in listing order. */
    method EnqueueSubMissions(m: Mission, es: seq<Entry>) returns (count: nat)
      requires Valid()
      modifies this
      ensures Valid() && running == old(running) && count == SubdirCount(es)
      ensures threadCount == old(threadCount) && batchMode == old(batchMode) && forceBatchMode == old(forceBatchMode)
      ensures |missions| == |old(missions)| + count && missions[..|old(missions)|] == old(missions)
      ensures forall k :: |old(missions)| <= k < |missions| ==> fresh(missions[k])
      ensures QueuedSubs(missions, |old(missions)|, m, Subdirs(es))
    {
      var subs := SubMissions(m, es);
      ghost var before := missions;
      missions := missions + subs;
      assert forall k :: 0 <= k < |subs| ==> missions[|before| + k] == subs[k];
      count := |subs|;
    }

    /** The queueing half of `add`, for a job whose directory is settled. */
    method Enqueue(m: Mission, store: ProgressStore, disk: Disk, now: int)
      requires Valid() && m !in missions && m !in running && m.outputFile.Some?
      modifies this, store
      ensures Valid() && running == old(running)
      ensures threadCount == old(threadCount) && batchMode == old(batchMode) && forceBatchMode == old(forceBatchMode)
      ensures store.State() == EnqueuedStore(old(store.State()), disk.View(), m.missionDir, m.inputDir, now)
      ensures m.inputDir !in disk.dirs ==> missions == old(missions)
      ensures m.inputDir in disk.dirs && AudioCount(disk.dirs[m.inputDir]) > 0 ==> missions == old(missions) + [m]
      ensures m.inputDir in disk.dirs && AudioCount(disk.dirs[m.inputDir]) == 0 ==>
                |missions| >= |old(missions)| && missions[..|old(missions)|] == old(missions)
                && (forall k :: |old(missions)| <= k < |missions| ==> fresh(missions[k]))
                && QueuedSubs(missions, |old(missions)|, m, Subdirs(disk.dirs[m.inputDir]))
    {
      if m.inputDir !in disk.dirs {
        return;
      }
      var es := disk.dirs[m.inputDir];
      var audio := CountAudio(es);
      if m.missionDir != "" && audio > 0 {
        var _ := store.UpdateProgress(m.missionDir, NoChange.(totalFiles := Some(audio), locked := Some(true)), disk, now);
      }
      if audio > 0 {
        missions := missions + [m];
        return;
      }
      var count := EnqueueSubMissions(m, es);
      if m.missionDir != "" {
        var _ := store.UpdateProgress(m.missionDir, NoChange.(totalFiles := Some(count)), disk, now);
      }
    }

    /** `add`: a job whose input folder holds audio files is queued as it is, with its total
        locked to the number of those files; otherwise one sub-job per sub-folder is queued, in
        listing order, each with its own descriptor file in the input folder and the parent's job
        directory. A folder that cannot be listed queues nothing. */
    method Add(m: Mission, store: ProgressStore, disk: Disk, now: int)
      requires Valid() && m !in missions && m !in running && m.outputFile.Some?
      modifies this, m, store
      ensures Valid() && running == old(running)
      ensures threadCount == old(threadCount) && batchMode == old(batchMode) && forceBatchMode == old(forceBatchMode)
      ensures m.missionDir == AddedDir(old(m.missionDir), m.outputFile.value)
      ensures m.state == old(m.state) && m.running == old(m.running) && m.executor == old(m.executor)
      ensures store.State() == AddedStore(old(store.State()), disk.View(), old(m.missionDir), m.outputFile.value, m.inputDir, now)
      ensures m.inputDir !in disk.dirs ==> missions == old(missions)
      ensures m.inputDir in disk.dirs && AudioCount(disk.dirs[m.inputDir]) > 0 ==> missions == old(missions) + [m]
      ensures m.inputDir in disk.dirs && AudioCount(disk.dirs[m.inputDir]) == 0 ==>
                |missions| >= |old(missions)| && missions[..|old(missions)|] == old(missions)
                && (forall k :: |old(missions)| <= k < |missions| ==> fresh(missions[k]))
                && QueuedSubs(missions, |old(missions)|, m, Subdirs(disk.dirs[m.inputDir]))
    {
      m.SettleDir(store, disk, now);
      Enqueue(m, store, disk, now);
    }

    /** `_start_single_if_available`: the head of the queue moves to `running` and is launched
        with its own command, whether or not the launch succeeds. */
    method StartSingle(store: ProgressStore, disk: Disk, now: int, spawnFails: bool) returns (ok: bool)
      requires Valid() && |missions| > 0
      modifies this, missions[0], ExecutorOf(missions[0]), store, disk
      ensures Valid() && Settings() && (!spawnFails ==> ok)
      ensures missions == old(missions[1..]) && running == old(running) + [old(missions[0])]
      ensures DiskKept(disk) && SingleStarted(old(missions[0]), cwd, store, disk, now, spawnFails, ok)
    {
      var first := missions[0];
      MoveHead();
      assert first.executor == old(first.executor) && ExecutorProcess(first) == old(ExecutorProcess(first));
      assert (first.executor != null && first.executor.Busy()) == old(first.executor != null && first.executor.Busy());
      assert store.State() == old(store.State()) && disk.View() == old(disk.View());
      ok := StartOne(first, cwd, store, disk, now, spawnFails);
    }

    /** `_start_single_if_available` moves the queue head to the end of the running list. */
    method MoveHead()
      requires Valid() && |missions| > 0
      modifies this
      ensures missions == old(missions[1..]) && running == old(running) + [old(missions[0])]
      ensures Valid() && Settings()
    {
      var first := missions[0];
      DistinctTail(missions);
      running := running + [first];
      missions := RemoveFirst(missions, first);
      assert missions == old(missions)[1..];
      assert Queues();
    }

    /** The queue head and the jobs `_start_batch_if_available` would merge with it. */
    function HeadBatch(): seq<Mission>
      requires |missions| > 0
      reads this
    {
      Matching(missions, missions[0].presetName, missions[0].outputFormat, missions[0].debug)
    }

    /** `_start_batch_if_available`: every waiting job that shares the head's preset, format and
        debug flag is merged into one new batch job (its input folders in queue order, output in
        `batch_output` beside the head's output folder, job directory the folder of the head's
        descriptor file), taken off the queue and launched with the batch command. A head with no
        partner is started on its own. */
    method StartBatch(store: ProgressStore, disk: Disk, now: int, spawnFails: bool) returns (ok: bool)
      requires Valid()
      modifies this, HeadOf(missions), HeadExecutor(missions), store, disk
      ensures Valid() && Settings() && DiskKept(disk)
      ensures old(missions) == [] ==> !ok && missions == old(missions) && running == old(running) && unchanged(store, disk)
      ensures old(missions) != [] && !spawnFails ==> ok
      ensures forall m :: m in missions ==> m in old(missions) && m.executor == old(m.executor)
      ensures old(missions) != [] && old(|HeadBatch()|) == 1 ==>
                missions == old(missions[1..]) && running == old(running) + [old(missions[0])]
                && SingleStarted(old(missions[0]), cwd, store, disk, now, spawnFails, ok)
      ensures old(missions) != [] && old(|HeadBatch()|) != 1 ==>
                missions == FilterOut(old(missions), old(HeadBatch()))
                && |running| == old(|running|) + 1 && running[..old(|running|)] == old(running)
                && BatchStarted(running[|running| - 1], old(missions[0]), old(HeadBatch()), cwd, store, disk, now, spawnFails, ok)
    {
      if |missions| == 0 {
        return false;
      }
      var first := missions[0];
      var batch := CollectMatching(missions, first.presetName, first.outputFormat, first.debug);
      if |batch| == 1 {
        ok := StartSingle(store, disk, now, spawnFails);
        return;
      }
      MatchingDistinct(missions, first.presetName, first.outputFormat, first.debug);
      var bm;
      bm, ok := StartMerged(first, batch, store, disk, now, spawnFails);
    }

    /** The merging half of `_start_batch_if_available`. */
    method StartMerged(first: Mission, batch: seq<Mission>, store: ProgressStore, disk: Disk, now: int, spawnFails: bool)
      returns (bm: Mission, ok: bool)
      requires Valid() && first.outputFile.Some? && Distinct(batch)
      modifies this, ExecutorOf(first), store, disk
      ensures Valid() && Settings() && DiskKept(disk)
      ensures missions == FilterOut(old(missions), batch) && running == old(running) + [bm]
      ensures forall m :: m in missions ==> m in old(missions)
      ensures BatchStarted(bm, first, batch, cwd, store, disk, now, spawnFails, ok)
    {
      bm := MakeBatchMission(first, batch);
      MoveBatch(batch, bm);
      assert bm.executor == old(first.executor) && bm.running == old(first.running) && bm.state == old(first.state);
      assert (bm.executor != null && bm.executor.Busy()) == old(first.executor != null && first.executor.Busy());
      assert ExecutorProcess(bm) == old(ExecutorProcess(first));
      assert store.State() == old(store.State()) && disk.View() == old(disk.View());
      ok := LaunchBatch(bm, cwd, store, disk, now, spawnFails);
    }

    /** `_start_batch_if_available` takes the collected jobs off the queue, with `list.remove`,
        and puts the batch job `bm` at the end of the running list. */
    method MoveBatch(batch: seq<Mission>, bm: Mission)
      requires Valid() && Distinct(batch) && bm !in missions && bm !in running && bm.outputFile.Some?
      modifies this
      ensures missions == FilterOut(old(missions), batch) && running == old(running) + [bm]
      ensures forall m :: m in missions ==> m in old(missions)
      ensures Valid() && Settings()
    {
      var orig := missions;
      missions := RemoveEach(missions, batch);
      FilterOutDistinct(orig, batch);
      forall x | x in missions
        ensures x in orig
      {
        FilterOutMembers(orig, batch, x);
      }
      DisjointAppend(missions, running, bm);
      running := running + [bm];
    }

    /** `start_nxt_if_available`: nothing happens on an empty queue; otherwise one job is
        started, merged with its partners when both batch switches are on, and on its own (the
        queue head, first in first out) when either is off. */
    method StartNext(store: ProgressStore, disk: Disk, now: int, spawnFails: bool) returns (ok: bool)
      requires Valid()
      modifies this, HeadOf(missions), HeadExecutor(missions), store, disk
      ensures Valid() && Settings() && DiskKept(disk)
      ensures old(missions) == [] ==> !ok && missions == old(missions) && running == old(running) && unchanged(store, disk)
      ensures old(missions) != [] ==>
                |missions| < old(|missions|) && |running| == old(|running|) + 1 && running[..old(|running|)] == old(running)
      ensures old(missions) != [] && !spawnFails ==> ok
      ensures old(missions) != [] ==> running[|running| - 1] in old(missions) || fresh(running[|running| - 1])
      ensures old(missions) != [] && !(batchMode && forceBatchMode) ==>
                missions == old(missions[1..]) && running == old(running) + [old(missions[0])]
      ensures old(missions) != [] && batchMode && forceBatchMode && old(|HeadBatch()|) != 1 ==>
                missions == FilterOut(old(missions), old(HeadBatch()))
      ensures forall m :: m in missions ==> m in old(missions) && m.executor == old(m.executor)
    {
      if |missions| == 0 {
        return false;
      }
      if batchMode && forceBatchMode {
        ghost var batch := HeadBatch();
        assert missions[0] in batch;
        ok := StartBatch(store, disk, now, spawnFails);
        if |batch| != 1 {
          FilterOutShrinks(old(missions), batch, old(missions[0]));
        }
      } else {
        ok := StartSingle(store, disk, now, spawnFails);
      }
    }

    /** The pass of `check` over the running jobs: each is reconciled, and the finished ones
        (`done`) leave the running list. */
    method ReconcileRunning(store: ProgressStore, disk: Disk, now: int) returns (ghost done: seq<Mission>)
      requires Valid()
      modifies this, (set m | m in running), store, disk
      ensures Valid() && Settings() && DiskKept(disk) && missions == old(missions)
      ensures running == FilterOut(old(running), done)
      ensures forall j :: j in done ==> j in old(running) && j.state == "completed" && !j.running
      ensures forall k :: 0 <= k < old(|running|) ==>
                (old(running[k]) in done <==> Finishes(old(Observe(running[k], disk.dirs))))
    {
      var rest;
      rest, done := ReconcileAll(running, store, disk, now);
      running := rest;
      assert Queues();
    }

    /** The closing loop of `check`: start waiting jobs while fewer than `threadCount` run and the
        previous start succeeded. The running list only grows at its end, never past the thread
        count when it starts below it, and the loop stops early only on an empty queue or a
        failed start. */
    method Backfill(store: ProgressStore, disk: Disk, now: int, spawnFails: bool)
      requires Valid()
      modifies this, (set m | m in missions), ExecutorsOf(missions), store, disk
      ensures Valid() && Settings() && DiskKept(disk)
      ensures |running| >= old(|running|) && running[..old(|running|)] == old(running)
      ensures old(|running|) < threadCount ==> |running| <= threadCount
      ensures old(|running|) >= threadCount ==> missions == old(missions) && running == old(running)
      ensures !spawnFails ==> |running| >= threadCount || missions == []
      ensures forall m :: m in missions ==> m in old(missions)
      ensures forall k :: old(|running|) <= k < |running| ==> running[k] in old(missions) || fresh(running[k])
    {
      var goon := true;
      while |running| < threadCount && goon
        invariant Valid() && Settings() && DiskKept(disk)
        invariant |running| >= old(|running|) && running[..old(|running|)] == old(running)
        invariant old(|running|) < threadCount ==> |running| <= threadCount
        invariant old(|running|) >= threadCount ==> missions == old(missions) && running == old(running)
        invariant !goon && !spawnFails ==> missions == []
        invariant forall m :: m in missions ==> m in old(missions) && m.executor == old(m.executor)
        invariant forall k :: old(|running|) <= k < |running| ==> running[k] in old(missions) || fresh(running[k])
        decreases |missions| + (if goon then 1 else 0)
      {
        if missions != [] {
          assert missions[0] in old(missions);
          assert HeadExecutor(missions) <= old(ExecutorsOf(missions));
        }
        ghost var before := running;
        goon := StartNext(store, disk, now, spawnFails);
        assert running[..|before|] == before;
      }
    }

    /** `check`: with both lists empty nothing happens; otherwise the running jobs are
        reconciled (the finished ones, `done`, leave the list) and the queue is drained into the
        freed slots. */
    method Check(store: ProgressStore, disk: Disk, now: int, spawnFails: bool) returns (ghost done: seq<Mission>)
      requires Valid()
      modifies this, (set m | m in running), (set m | m in missions), ExecutorsOf(missions), store, disk
      ensures Valid() && Settings() && DiskKept(disk)
      ensures old(missions) == [] && old(running) == [] ==>
                done == [] && missions == [] && running == [] && unchanged(store, disk)
      ensures forall j :: j in done ==> j in old(running) && j !in running && j.state == "completed" && !j.running
      ensures forall k :: 0 <= k < old(|running|) ==>
                (old(running[k]) in done <==> Finishes(old(Observe(running[k], disk.dirs))))
      ensures var kept := FilterOut(old(running), done);
                |running| >= |kept| && running[..|kept|] == kept
                && (|kept| < threadCount ==> |running| <= threadCount)
      ensures !spawnFails ==> |running| >= threadCount || missions == []
    {
      if |missions| == 0 && |running| == 0 {
        return [];
      }
      done := ReconcileRunning(store, disk, now);
      ghost var kept := running;
      assert forall j :: j in done ==> j !in missions;
      Backfill(store, disk, now, spawnFails);
      forall j | j in done
        ensures j !in running
      {
        FilterOutMembers(old(running), done, j);
        forall k | 0 <= k < |running|
          ensures running[k] != j
        {
          if k < |kept| {
            assert running[k] == running[..|kept|][k];
          }
        }
      }
    }
  }
}
