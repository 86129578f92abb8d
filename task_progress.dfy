/** The per-job progress store (`clientui/task_progress.py`): one `progress.json` per job
    directory, an in-memory cache with a 30-second freshness window, a recount of finished songs
    from the output files, and a lock that freezes the total once it has been established. */
module TaskProgress {
  import opened Wrappers
  import opened Strings
  import opened Paths
  import opened Disk

  /** Seconds a cached record stays fresh. */
  const CacheWindow: int := 30

  /** One entry of `step_progress`. */
  datatype StepEntry = StepEntry(name: string, processed: int, total: int)

  /** One entry of `details`. */
  datatype Detail = Detail(fileName: string, status: string, updateTime: int)

  /** The content of `progress.json`. Absent numeric keys read as 0 (so `endTime == 0` means the
      job has not ended); `step_progress` uses the step number i for the key `step<i>`. */
  datatype Record = Record(
    totalFiles: int,
    processedFiles: int,
    status: string,
    locked: bool,
    startTime: int,
    endTime: int,
    processingStartTime: int,
    lastUpdate: int,
    details: seq<Detail>,
    stepProgress: map<int, StepEntry>,
    totalSteps: int)

  /** A partial record passed to `update_progress`: only the present keys are merged. */
  datatype Update = Update(
    totalFiles: Option<int>,
    processedFiles: Option<int>,
    status: Option<string>,
    locked: Option<bool>,
    startTime: Option<int>,
    endTime: Option<int>,
    processingStartTime: Option<int>,
    details: Option<seq<Detail>>,
    stepProgress: Option<map<int, StepEntry>>,
    totalSteps: Option<int>)

  const NoChange: Update := Update(None, None, None, None, None, None, None, None, None, None)

  /** The whole record passed back as an update, as `update_file_progress` does. */
  function Full(r: Record): Update {
    Update(Some(r.totalFiles), Some(r.processedFiles), Some(r.status), Some(r.locked),
           Some(r.startTime), Some(r.endTime), Some(r.processingStartTime), Some(r.details),
           Some(r.stepProgress), Some(r.totalSteps))
  }

  /** A `progress.json` that exists, with its modification time. */
  datatype ProgressFile = ProgressFile(doc: Doc<Record>, mtime: int)

  /** The store's whole state: the progress files on disk, the cache, the cache timestamps and
      the set of directories being verified. */
  datatype Store = Store(
    files: map<string, ProgressFile>,
    cache: map<string, Record>,
    lastUpdate: map<string, int>,
    verifying: set<string>)

  function GetOrZero(m: map<string, int>, k: string): int {
    if k in m then m[k] else 0
  }

  // ---------------------------------------------------------------- merging

  /** `current_progress.update(progress_update)` with the lock rule: when the total is locked and
      the update carries a total, the old total is kept and the lock stays set. */
  function Merge(cur: Record, u: Update, now: int): Record {
    var keepTotal := cur.locked && u.totalFiles.Some?;
    Record(
      if keepTotal then cur.totalFiles else u.totalFiles.GetOr(cur.totalFiles),
      u.processedFiles.GetOr(cur.processedFiles),
      u.status.GetOr(cur.status),
      if keepTotal then true else u.locked.GetOr(cur.locked),
      u.startTime.GetOr(cur.startTime),
      u.endTime.GetOr(cur.endTime),
      u.processingStartTime.GetOr(cur.processingStartTime),
      now,
      u.details.GetOr(cur.details),
      u.stepProgress.GetOr(cur.stepProgress),
      u.totalSteps.GetOr(cur.totalSteps))
  }

  /** Once locked, a total survives every update that does not itself clear the lock, whether or
      not the update carries a total; and the lock stays set. */
  lemma MergeKeepsLockedTotal(cur: Record, u: Update, now: int)
    requires cur.locked && u.locked != Some(false)
    ensures Merge(cur, u, now).locked
    ensures Merge(cur, u, now).totalFiles == cur.totalFiles
  {
  }

  /** An unlocked record takes every key the update carries. */
  lemma MergeUnlocked(cur: Record, u: Update, now: int)
    requires !cur.locked
    ensures Merge(cur, u, now).totalFiles == u.totalFiles.GetOr(cur.totalFiles)
    ensures Merge(cur, u, now).locked == u.locked.GetOr(false)
    ensures Merge(cur, u, now).processedFiles == u.processedFiles.GetOr(cur.processedFiles)
    ensures Merge(cur, u, now).status == u.status.GetOr(cur.status)
  {
  }

  /** Merging a record's own content back leaves it as it was, apart from the timestamp. */
  lemma MergeFullSelf(r: Record, now: int)
    ensures Merge(r, Full(r), now) == r.(lastUpdate := now)
  {
  }

  /** Applying a series of updates in order. */
  function MergeAll(cur: Record, us: seq<Update>, now: int): Record
    decreases |us|
  {
    if us == [] then cur else MergeAll(Merge(cur, us[0], now), us[1..], now)
  }

  /** The lock is permanent across any series of updates none of which clears it: the total
      established when the lock was set is the total after all of them. */
  lemma {:induction false} LockedTotalIsFinal(cur: Record, us: seq<Update>, now: int)
    requires cur.locked
    requires forall k :: 0 <= k < |us| ==> us[k].locked != Some(false)
    ensures MergeAll(cur, us, now).locked
    ensures MergeAll(cur, us, now).totalFiles == cur.totalFiles
    decreases |us|
  {
    if us != [] {
      MergeKeepsLockedTotal(cur, us[0], now);
      var next := Merge(cur, us[0], now);
      forall k | 0 <= k < |us[1..]| ensures us[1..][k].locked != Some(false) {
        assert us[1..][k] == us[k + 1];
      }
      LockedTotalIsFinal(next, us[1..], now);
    }
  }

  // ---------------------------------------------------------------- recount from disk

  /** `mission.json` in the job directory parses and says the job is completed. */
  predicate MissionCompleted(v: FsView, dir: string) {
    var mj := Join(dir, "mission.json");
    mj in v.docs && v.docs[mj].Parsed? && v.docs[mj].value.state == "completed"
  }

  /** Output files under `<dir>/inputs/<sub>/outputs` for each sub-directory `sub`. */
  function SubtaskOutputs(dirs: map<string, seq<Entry>>, inputsDir: string, es: seq<Entry>): nat
    decreases |es|
  {
    if es == [] then 0
    else
      var e := es[|es| - 1];
      SubtaskOutputs(dirs, inputsDir, es[..|es| - 1])
        + (if e.isFile then 0 else OutputCount(ListingIn(dirs, Join(Join(inputsDir, e.name), "outputs"))))
  }

  /** All output files the recount sees: `outputs`, `batch_output` and every sub-task's `outputs`. */
  function CollectedOutputs(v: FsView, dir: string): nat {
    var inputsDir := Join(dir, "inputs");
    OutputCount(v.ListingOrEmpty(Join(dir, "outputs")))
      + OutputCount(v.ListingOrEmpty(Join(dir, "batch_output")))
      + SubtaskOutputs(v.dirs, inputsDir, v.ListingOrEmpty(inputsDir))
  }

  /** The steps whose outputs are counted: `steps` when present and non-empty, else `flow`. */
  function OutputSteps(p: PresetDoc): seq<Step> {
    if p.steps.Some? && p.steps.value != [] then p.steps.value else p.flow.GetOr([])
  }

  /** Sum of `len(output_to_storage)` over the steps. */
  function SumOutputs(steps: seq<Step>): nat
    decreases |steps|
  {
    if steps == [] then 0 else SumOutputs(steps[..|steps| - 1]) + |steps[|steps| - 1].outputToStorage|
  }

  /** `_get_outputs_per_song`: how many output files one song produces under the job's preset. */
  function OutputsPerSong(v: FsView, dir: string): (n: int)
    ensures n >= 1
  {
    var mj := Join(dir, "mission.json");
    if mj !in v.docs || v.docs[mj].Corrupt? then 1
    else
      var name := v.docs[mj].value.presetName;
      if name == "" || name !in v.presets || v.presets[name].Corrupt? then 1
      else Max(1, SumOutputs(OutputSteps(v.presets[name].value)))
  }

  /** When the job's preset can be read, one song yields exactly the preset's output count
      (or one, when the preset stores nothing). */
  lemma OutputsPerSongFromPreset(v: FsView, dir: string, d: Descriptor, p: PresetDoc)
    requires Join(dir, "mission.json") in v.docs && v.docs[Join(dir, "mission.json")] == Parsed(d)
    requires d.presetName != "" && d.presetName in v.presets && v.presets[d.presetName] == Parsed(p)
    ensures SumOutputs(OutputSteps(p)) > 0 ==> OutputsPerSong(v, dir) == SumOutputs(OutputSteps(p))
    ensures SumOutputs(OutputSteps(p)) == 0 ==> OutputsPerSong(v, dir) == 1
  {
  }

  /** `_count_input_songs`: the audio files directly in `<dir>/inputs`, else its sub-directories,
      else 1. The branch that would read `mission.json` always ends with 1. */
  function InputSongs(v: FsView, dir: string): (n: int)
    ensures n >= 1
  {
    var inputsDir := Join(dir, "inputs");
    if inputsDir in v.dirs && AudioCount(v.dirs[inputsDir]) > 0 then AudioCount(v.dirs[inputsDir])
    else if inputsDir in v.dirs && SubdirCount(v.dirs[inputsDir]) > 0 then SubdirCount(v.dirs[inputsDir])
    else 1
  }

  /** The songs-finished recount of `_verify_status`, from `produced` output files, `ops` outputs
      per song and `songs` input songs. */
  function Recount(rec: Record, produced: nat, ops: int, songs: int, now: int): (r: Record)
    requires ops >= 1
    ensures r.locked
    ensures rec.locked && rec.totalFiles > 0 ==> r.totalFiles == rec.totalFiles
    ensures !(rec.locked && rec.totalFiles > 0) ==> r.totalFiles == songs
    ensures rec.totalFiles > 0 ==> r.processedFiles <= rec.totalFiles
    ensures r.processedFiles <= produced / ops
    ensures rec.totalFiles > 0 && produced / ops >= rec.totalFiles ==> r.processedFiles == rec.totalFiles
    ensures rec.totalFiles <= 0 || produced / ops < rec.totalFiles ==>
              r.processedFiles * ops <= produced < (r.processedFiles + 1) * ops
    ensures r.status == "completed" <==> (r.processedFiles >= r.totalFiles && r.totalFiles > 0)
    ensures r.status != "completed" ==> r.status == "running"
    ensures rec.endTime != 0 ==> r.endTime == rec.endTime
    ensures r.status == "completed" && rec.endTime == 0 ==> r.endTime == now
    ensures r.status != "completed" ==> r.endTime == rec.endTime
    ensures r.startTime == rec.startTime && r.details == rec.details && r.stepProgress == rec.stepProgress
    ensures r.lastUpdate == now
  {
    var processed := if rec.totalFiles > 0 then Min(produced / ops, rec.totalFiles) else produced / ops;
    var total := if rec.locked && rec.totalFiles > 0 then rec.totalFiles else songs;
    var done := processed >= total && total > 0;
    rec.(processedFiles := processed, totalFiles := total, locked := true,
         status := if done then "completed" else "running",
         endTime := if done && rec.endTime == 0 then now else rec.endTime,
         lastUpdate := now)
  }

  /** `_verify_status` on a record read from disk: the new record, and whether it was saved. */
  function Verified(v: FsView, dir: string, rec: Record, now: int): (Record, bool) {
    if rec.status != "running" then (rec, false)
    else if MissionCompleted(v, dir) then (rec.(status := "completed", lastUpdate := now), true)
    else if Join(dir, "inputs") in v.dirs then
      (Recount(rec, CollectedOutputs(v, dir), OutputsPerSong(v, dir), InputSongs(v, dir), now), true)
    else (rec, false)
  }

  /** Verification touches only running records. */
  lemma VerifiedOnlyRunning(v: FsView, dir: string, rec: Record, now: int)
    requires rec.status != "running"
    ensures Verified(v, dir, rec, now) == (rec, false)
  {
  }

  /** Completion is final: a record that verification has moved out of `running` is left as it
      is by every later verification, whatever the disk then holds, and its end time with it. */
  lemma VerifiedCompletionIsFinal(v: FsView, v': FsView, dir: string, rec: Record, now: int, later: int)
    requires Verified(v, dir, rec, now).0.status != "running"
    ensures Verified(v', dir, Verified(v, dir, rec, now).0, later) == (Verified(v, dir, rec, now).0, false)
  {
  }

  /** Verification never overwrites an end time that is already set. */
  lemma VerifiedKeepsEndTime(v: FsView, dir: string, rec: Record, now: int)
    requires rec.endTime != 0
    ensures Verified(v, dir, rec, now).0.endTime == rec.endTime
  {
  }

  /** The recount reports a job as completed exactly when every input song has its outputs. */
  lemma RecountCompletion(v: FsView, dir: string, rec: Record, now: int)
    requires rec.status == "running" && !MissionCompleted(v, dir) && Join(dir, "inputs") in v.dirs
    ensures Verified(v, dir, rec, now).1
    ensures Verified(v, dir, rec, now).0.status == "completed" <==>
              (Verified(v, dir, rec, now).0.processedFiles >= Verified(v, dir, rec, now).0.totalFiles
               && Verified(v, dir, rec, now).0.totalFiles > 0)
    ensures Verified(v, dir, rec, now).0.locked
  {
  }

  // ---------------------------------------------------------------- store transitions

  /** Writing `r` to `<dir>/progress.json` at `now` and caching it. */
  function Put(s: Store, dir: string, r: Record, now: int): Store {
    s.(files := s.files[dir := ProgressFile(Parsed(r), now)],
       cache := s.cache[dir := r],
       lastUpdate := s.lastUpdate[dir := now])
  }

  /** The cache may answer: the entry is younger than the window and the file has not been
      modified after it (or is gone). */
  predicate CacheValid(s: Store, dir: string, now: int) {
    dir in s.cache && now - GetOrZero(s.lastUpdate, dir) < CacheWindow
    && (dir in s.files ==> s.files[dir].mtime <= GetOrZero(s.lastUpdate, dir))
  }

  /** `_verify_status` on the store: skipped while the directory is already being verified. */
  function VerifyStep(s: Store, v: FsView, dir: string, rec: Record, now: int): (Record, Store) {
    if dir in s.verifying then (rec, s)
    else
      var (r, saved) := Verified(v, dir, rec, now);
      (r, if saved then Put(s, dir, r, now) else s)
  }

  /** `get_progress`: the record, and the store after the call. */
  function Lookup(s: Store, v: FsView, dir: string, now: int): (Option<Record>, Store) {
    if CacheValid(s, dir, now) then (Some(s.cache[dir]), s)
    else if dir !in s.files then (None, s)
    else match s.files[dir].doc
      case Corrupt => (None, s.(files := s.files - {dir}))
      case Parsed(rec) =>
        var (r, s1) := if dir in s.verifying then (rec, s) else VerifyStep(s, v, dir, rec, now);
        (Some(r), s1.(cache := s1.cache[dir := r], lastUpdate := s1.lastUpdate[dir := now]))
  }

  /** Lookup never leaves a directory marked as being verified. */
  lemma LookupKeepsVerifying(s: Store, v: FsView, dir: string, now: int)
    ensures Lookup(s, v, dir, now).1.verifying == s.verifying
  {
  }

  /** A fresh cache entry answers without touching the disk. */
  lemma LookupFromCache(s: Store, v: FsView, dir: string, now: int)
    requires CacheValid(s, dir, now)
    ensures Lookup(s, v, dir, now) == (Some(s.cache[dir]), s)
  {
  }

  /** A corrupt file that the cache cannot stand in for is deleted and reported as no record. */
  lemma LookupDeletesCorrupt(s: Store, v: FsView, dir: string, now: int)
    requires !CacheValid(s, dir, now) && dir in s.files && s.files[dir].doc.Corrupt?
    ensures Lookup(s, v, dir, now).0.None?
    ensures dir !in Lookup(s, v, dir, now).1.files
    ensures Lookup(s, v, dir, now).1.cache == s.cache
  {
  }

  /** A record is found exactly when the cache answers or a parseable file exists; after a read
      from disk the cache holds what was returned. */
  lemma LookupFound(s: Store, v: FsView, dir: string, now: int)
    ensures Lookup(s, v, dir, now).0.Some? <==>
              (CacheValid(s, dir, now) || (dir in s.files && s.files[dir].doc.Parsed?))
    ensures Lookup(s, v, dir, now).0.Some? ==>
              dir in Lookup(s, v, dir, now).1.cache
              && Lookup(s, v, dir, now).1.cache[dir] == Lookup(s, v, dir, now).0.value
  {
  }

  /** `update_progress`: whether a record was written, and the store after the call. */
  function UpdateSpec(s: Store, v: FsView, dir: string, u: Update, now: int): (bool, Store) {
    var (cur, s1) := Lookup(s, v, dir, now);
    if cur.None? then (false, s1) else (true, Put(s1, dir, Merge(cur.value, u, now), now))
  }

  /** An update succeeds exactly when there is a record; without one nothing is written beyond
      what the lookup itself did, and with one the file and the cache hold the merged record. */
  lemma UpdateWritesMerged(s: Store, v: FsView, dir: string, u: Update, now: int)
    ensures UpdateSpec(s, v, dir, u, now).0 <==> Lookup(s, v, dir, now).0.Some?
    ensures !UpdateSpec(s, v, dir, u, now).0 ==> UpdateSpec(s, v, dir, u, now).1 == Lookup(s, v, dir, now).1
    ensures UpdateSpec(s, v, dir, u, now).0 ==>
              var merged := Merge(Lookup(s, v, dir, now).0.value, u, now);
              var s' := UpdateSpec(s, v, dir, u, now).1;
              s'.files[dir] == ProgressFile(Parsed(merged), now) && s'.cache[dir] == merged
  {
  }

  /** An update of a locked record that does not clear the lock cannot change its total. */
  lemma UpdateRespectsLock(s: Store, v: FsView, dir: string, u: Update, now: int)
    requires Lookup(s, v, dir, now).0.Some? && Lookup(s, v, dir, now).0.value.locked
    requires u.locked != Some(false)
    ensures UpdateSpec(s, v, dir, u, now).1.cache[dir].totalFiles == Lookup(s, v, dir, now).0.value.totalFiles
    ensures UpdateSpec(s, v, dir, u, now).1.cache[dir].locked
  {
    MergeKeepsLockedTotal(Lookup(s, v, dir, now).0.value, u, now);
  }

  // ---------------------------------------------------------------- initialisation

  /** `init_progress`'s total: the audio files directly in the input folder, otherwise its
      sub-directories, and never less than 1. */
  function InitialTotal(listing: Option<seq<Entry>>): (n: int)
    ensures n >= 1
    ensures listing.Some? && AudioCount(listing.value) > 0 ==> n == AudioCount(listing.value)
    ensures listing.Some? && AudioCount(listing.value) == 0 && SubdirCount(listing.value) > 0 ==>
              n == SubdirCount(listing.value)
  {
    if listing.None? then 1
    else if AudioCount(listing.value) > 0 then AudioCount(listing.value)
    else Max(1, SubdirCount(listing.value))
  }

  /** The steps that step progress is kept for: `flow` when the key exists, else `steps`. */
  function PresetFlow(p: PresetDoc): seq<Step> {
    if p.flow.Some? then p.flow.value else p.steps.GetOr([])
  }

  function StepName(step: Step, i: nat): string {
    step.modelName.GetOr("步骤 " + NatToString(i))
  }

  /** The step numbers 1 .. n. */
  function StepNumbers(n: nat): (ks: set<int>)
    ensures forall j :: j in ks <==> 1 <= j <= n
  {
    if n == 0 then {} else StepNumbers(n - 1) + {n}
  }

  /** The entries `step1 .. step<n>`, each with nothing processed yet. */
  function StepMap(flow: seq<Step>, total: int, n: nat): (m: map<int, StepEntry>)
    requires n <= |flow|
  {
    map j | j in StepNumbers(n) :: StepEntry(StepName(flow[j - 1], j as nat), 0, total)
  }

  /** `_init_step_progress`: None for a missing or corrupt preset and for a flow of at most one step. */
  function StepProgressFor(v: FsView, presetName: string, total: int): (r: Option<map<int, StepEntry>>)
    ensures r.Some? <==> presetName in v.presets && v.presets[presetName].Parsed?
                         && |PresetFlow(v.presets[presetName].value)| >= 2
    ensures r.Some? ==>
              var n := |PresetFlow(v.presets[presetName].value)|;
              (forall j :: j in r.value <==> 1 <= j <= n)
              && (forall j :: j in r.value ==> r.value[j].processed == 0 && r.value[j].total == total)
  {
    if presetName !in v.presets || v.presets[presetName].Corrupt? then None
    else
      var flow := PresetFlow(v.presets[presetName].value);
      if |flow| <= 1 then None else Some(StepMap(flow, total, |flow|))
  }

  /** The record `init_progress` writes. */
  function InitRecord(v: FsView, inputDir: string, presetName: string, now: int): (r: Record)
    ensures r.status == "waiting" && r.processedFiles == 0 && !r.locked && r.totalFiles >= 1
    ensures r.startTime == now && r.endTime == 0 && r.details == []
    ensures r.totalFiles == InitialTotal(v.Listing(inputDir))
    ensures r.stepProgress == (if presetName == "" then map[]
                               else StepProgressFor(v, presetName, r.totalFiles).GetOr(map[]))
  {
    var total := InitialTotal(v.Listing(inputDir));
    var steps := if presetName == "" then None else StepProgressFor(v, presetName, total);
    Record(total, 0, "waiting", false, now, 0, 0, now, [], steps.GetOr(map[]),
           if steps.Some? then |PresetFlow(v.presets[presetName].value)| else 0)
  }

  /** With step progress, the number of steps recorded matches the step entries. */
  lemma InitRecordSteps(v: FsView, inputDir: string, presetName: string, now: int)
    requires presetName != "" && StepProgressFor(v, presetName, InitialTotal(v.Listing(inputDir))).Some?
    ensures var r := InitRecord(v, inputDir, presetName, now);
            r.totalSteps >= 2 && forall j :: j in r.stepProgress <==> 1 <= j <= r.totalSteps
  {
  }

  // ---------------------------------------------------------------- per-step and per-file updates

  /** `update_step_progress` on the record: Some only when step `i` is present. */
  function StepUpdated(cur: Record, i: int, processed: int, now: int): (r: Option<Record>)
    ensures r.Some? <==> i in cur.stepProgress
    ensures r.Some? ==>
              r.value.stepProgress.Keys == cur.stepProgress.Keys
              && r.value.stepProgress[i] == cur.stepProgress[i].(processed := processed)
              && (forall j :: j in cur.stepProgress && j != i ==> r.value.stepProgress[j] == cur.stepProgress[j])
              && r.value.totalFiles == cur.totalFiles && r.value.processedFiles == cur.processedFiles
              && r.value.status == cur.status
  {
    if i in cur.stepProgress
    then Some(cur.(stepProgress := cur.stepProgress[i := cur.stepProgress[i].(processed := processed)],
                   lastUpdate := now))
    else None
  }

  function StepUpdateSpec(s: Store, v: FsView, dir: string, i: int, processed: int, now: int): (bool, Store) {
    var (cur, s1) := Lookup(s, v, dir, now);
    if cur.None? then (false, s1)
    else
      var r := StepUpdated(cur.value, i, processed, now);
      if r.None? then (false, s1) else (true, Put(s1, dir, r.value, now))
  }

  /** The first detail about `name`, or -1. */
  function FindDetail(ds: seq<Detail>, name: string): (i: int)
    ensures -1 <= i < |ds|
    ensures i >= 0 ==> ds[i].fileName == name && forall j :: 0 <= j < i ==> ds[j].fileName != name
    ensures i == -1 ==> forall j :: 0 <= j < |ds| ==> ds[j].fileName != name
    decreases |ds|
  {
    if ds == [] then -1
    else if ds[0].fileName == name then 0
    else var k := FindDetail(ds[1..], name); if k == -1 then -1 else k + 1
  }

  /** `update_file_progress` on the record: one more processed file when the file completed, and its
      detail updated in place or appended. */
  function FileUpdated(cur: Record, name: string, status: string, now: int): (r: Record)
    ensures r.processedFiles == cur.processedFiles + (if status == "completed" then 1 else 0)
    ensures FindDetail(cur.details, name) >= 0 ==>
              |r.details| == |cur.details|
              && r.details[FindDetail(cur.details, name)].status == status
              && forall j :: 0 <= j < |cur.details| && j != FindDetail(cur.details, name) ==> r.details[j] == cur.details[j]
    ensures FindDetail(cur.details, name) == -1 ==> r.details == cur.details + [Detail(name, status, now)]
  {
    var i := FindDetail(cur.details, name);
    cur.(processedFiles := if status == "completed" then cur.processedFiles + 1 else cur.processedFiles,
         details := if i >= 0 then cur.details[i := cur.details[i].(status := status)]
                    else cur.details + [Detail(name, status, now)])
  }

  function FileUpdateSpec(s: Store, v: FsView, dir: string, path: string, status: string, now: int): (bool, Store) {
    var (cur, s1) := Lookup(s, v, dir, now);
    if cur.None? then (false, s1)
    else UpdateSpec(s1, v, dir, Full(FileUpdated(cur.value, Basename(path), status, now)), now)
  }

  /** The record written back by a per-file update is the touched record itself: passing the
      whole record through the lock rule changes nothing. */
  lemma FileUpdateStoresTouched(s: Store, v: FsView, dir: string, path: string, status: string, now: int)
    requires CacheValid(s, dir, now)
    ensures FileUpdateSpec(s, v, dir, path, status, now).0
    ensures FileUpdateSpec(s, v, dir, path, status, now).1.cache[dir]
              == FileUpdated(s.cache[dir], Basename(path), status, now).(lastUpdate := now)
  {
    var touched := FileUpdated(s.cache[dir], Basename(path), status, now);
    assert CacheValid(s, dir, now);
    assert Lookup(s, v, dir, now) == (Some(s.cache[dir]), s);
    assert Merge(s.cache[dir], Full(touched), now) == touched.(lastUpdate := now);
  }

  // ---------------------------------------------------------------- durations

  /** `get_total_duration` of a record: frozen once the job has ended, running time while it runs. */
  function TotalDuration(r: Option<Record>, now: int): int {
    if r.None? || r.value.startTime == 0 then 0
    else if r.value.endTime > 0 && (r.value.status == "completed" || r.value.status == "stopped")
    then r.value.endTime - r.value.startTime
    else if r.value.status == "running" then now - r.value.startTime
    else 0
  }

  /** A finished job's duration no longer depends on the clock; a running one's grows with it. */
  lemma TotalDurationFrozen(r: Record, t1: int, t2: int)
    requires r.startTime != 0 && t1 <= t2
    ensures r.endTime > 0 && (r.status == "completed" || r.status == "stopped") ==>
              TotalDuration(Some(r), t1) == TotalDuration(Some(r), t2) == r.endTime - r.startTime
    ensures r.status == "running" ==> TotalDuration(Some(r), t2) - TotalDuration(Some(r), t1) == t2 - t1
  {
  }

  /** The unit `format_duration` picks and the amount shown in it (the one-decimal rendering is
      not modelled). */
  datatype DurationText = DurationText(amount: real, unit: string)

  function FormatDuration(seconds: real): (t: DurationText)
    ensures t.unit == "秒" <==> seconds < 60.0
    ensures t.unit == "分钟" <==> 60.0 <= seconds < 3600.0
    ensures t.unit == "小时" <==> seconds >= 3600.0
    ensures t.unit == "秒" ==> t.amount == seconds
    ensures t.unit == "分钟" ==> t.amount * 60.0 == seconds
    ensures t.unit == "小时" ==> t.amount * 3600.0 == seconds
  {
    if seconds < 60.0 then DurationText(seconds, "秒")
    else if seconds < 3600.0 then DurationText(seconds / 60.0, "分钟")
    else DurationText(seconds / 3600.0, "小时")
  }

  // ---------------------------------------------------------------- the store object

  /** The `TaskProgress` object: progress files, cache, cache timestamps and the verification
      guard, with one operation per public method of the source. */
  class ProgressStore {
    var files: map<string, ProgressFile>
    var cache: map<string, Record>
    var lastUpdate: map<string, int>
    var verifying: set<string>

    constructor(files: map<string, ProgressFile>)
      ensures State() == Store(files, map[], map[], {})
    {
      this.files := files;
      cache := map[];
      lastUpdate := map[];
      verifying := {};
    }

    function State(): Store
      reads this
    {
      Store(files, cache, lastUpdate, verifying)
    }

    /** `_save_progress_directly`. */
    method SaveDirectly(dir: string, data: Record, now: int) returns (saved: Record)
      modifies this
      ensures saved == data.(lastUpdate := now)
      ensures State() == Put(old(State()), dir, saved, now)
    {
      saved := data.(lastUpdate := now);
      files := files[dir := ProgressFile(Parsed(saved), now)];
      cache := cache[dir := saved];
      lastUpdate := lastUpdate[dir := now];
    }

    /** `init_progress`. */
    method InitProgress(dir: string, inputDir: string, presetName: string, disk: Disk, now: int) returns (r: Record)
      modifies this
      ensures r == InitRecord(disk.View(), inputDir, presetName, now)
      ensures State() == Put(old(State()), dir, r, now)
    {
      var total := CountInitialTotal(disk.View().Listing(inputDir));
      r := Record(total, 0, "waiting", false, now, 0, 0, now, [], map[], 0);
      if presetName != "" {
        var steps := InitStepProgress(presetName, total, disk);
        if steps.Some? {
          r := r.(stepProgress := steps.value, totalSteps := |PresetFlow(disk.presets[presetName].value)|);
        }
      }
      files := files[dir := ProgressFile(Parsed(r), now)];
      cache := cache[dir := r];
      lastUpdate := lastUpdate[dir := now];
    }

    /** `get_progress`. */
    method GetProgress(dir: string, disk: Disk, now: int) returns (r: Option<Record>)
      modifies this
      ensures (r, State()) == Lookup(old(State()), disk.View(), dir, now)
    {
      if CacheValid(State(), dir, now) {
        return Some(cache[dir]);
      }
      if dir !in files {
        return None;
      }
      match files[dir].doc {
        case Corrupt =>
          files := files - {dir};
          return None;
        case Parsed(rec) =>
          var data := rec;
          if dir !in verifying {
            data := VerifyStatus(dir, rec, disk, now);
          }
          cache := cache[dir := data];
          lastUpdate := lastUpdate[dir := now];
          return Some(data);
      }
    }

    /** `_verify_status`: the record after verification. */
    method VerifyStatus(dir: string, data: Record, disk: Disk, now: int) returns (out: Record)
      modifies this
      ensures (out, State()) == VerifyStep(old(State()), disk.View(), dir, data, now)
    {
      if dir in verifying {
        return data;
      }
      verifying := verifying + {dir};
      out := data;
      if out.status == "running" {
        if MissionCompleted(disk.View(), dir) {
          out := SaveDirectly(dir, out.(status := "completed"), now);
          assert (out, true) == Verified(disk.View(), dir, data, now);
        }
        if out.status == "running" && Join(dir, "inputs") in disk.dirs {
          out := RecountRecord(dir, out, disk, now);
          out := SaveDirectly(dir, out, now);
          assert (out, true) == Verified(disk.View(), dir, data, now);
        }
      }
      verifying := verifying - {dir};
    }

    /** `update_progress`. */
    method UpdateProgress(dir: string, u: Update, disk: Disk, now: int) returns (ok: bool)
      modifies this
      ensures (ok, State()) == UpdateSpec(old(State()), disk.View(), dir, u, now)
    {
      var cur := GetProgress(dir, disk, now);
      if cur.None? {
        return false;
      }
      var merged := Merge(cur.value, u, now);
      files := files[dir := ProgressFile(Parsed(merged), now)];
      cache := cache[dir := merged];
      lastUpdate := lastUpdate[dir := now];
      return true;
    }

    /** `update_step_progress`. */
    method UpdateStepProgress(dir: string, i: int, processed: int, disk: Disk, now: int) returns (ok: bool)
      modifies this
      ensures (ok, State()) == StepUpdateSpec(old(State()), disk.View(), dir, i, processed, now)
    {
      var cur := GetProgress(dir, disk, now);
      if cur.None? || cur.value.stepProgress == map[] {
        return false;
      }
      var sp := cur.value.stepProgress;
      if i in sp {
        sp := sp[i := sp[i].(processed := processed)];
        var saved := SaveDirectly(dir, cur.value.(stepProgress := sp), now);
        return true;
      }
      return false;
    }

    /** `update_file_progress`. */
    method UpdateFileProgress(dir: string, path: string, status: string, disk: Disk, now: int) returns (ok: bool)
      modifies this
      ensures (ok, State()) == FileUpdateSpec(old(State()), disk.View(), dir, path, status, now)
    {
      var cur := GetProgress(dir, disk, now);
      if cur.None? {
        return false;
      }
      var progress := cur.value;
      if status == "completed" {
        progress := progress.(processedFiles := progress.processedFiles + 1);
      }
      var name := Basename(path);
      var ds := progress.details;
      var k := 0;
      var found := false;
      while k < |ds| && !found
        invariant 0 <= k <= |ds|
        invariant !found ==> forall j :: 0 <= j < k ==> ds[j].fileName != name
        invariant found ==> k > 0 && FindDetail(ds, name) == k - 1
        invariant found ==> progress.details == ds[k - 1 := ds[k - 1].(status := status)]
        invariant !found ==> progress.details == ds
        invariant progress.processedFiles == cur.value.processedFiles + (if status == "completed" then 1 else 0)
        invariant progress == cur.value.(processedFiles := progress.processedFiles, details := progress.details)
        decreases |ds| - k, !found
      {
        if ds[k].fileName == name {
          progress := progress.(details := ds[k := ds[k].(status := status)]);
          found := true;
        }
        k := k + 1;
      }
      if !found {
        progress := progress.(details := ds + [Detail(name, status, now)]);
      }
      assert progress == FileUpdated(cur.value, name, status, now);
      ok := UpdateProgress(dir, Full(progress), disk, now);
    }

    /** `get_total_duration`. */
    method GetTotalDuration(dir: string, disk: Disk, now: int) returns (d: int)
      modifies this
      ensures d == TotalDuration(Lookup(old(State()), disk.View(), dir, now).0, now)
      ensures State() == Lookup(old(State()), disk.View(), dir, now).1
    {
      var r := GetProgress(dir, disk, now);
      d := TotalDuration(r, now);
    }

    /** `clear_progress`: the file, the cache entry and its timestamp go. */
    method ClearProgress(dir: string) returns (ok: bool)
      modifies this
      ensures ok
      ensures files == old(files) - {dir} && cache == old(cache) - {dir}
      ensures lastUpdate == old(lastUpdate) - {dir} && verifying == old(verifying)
    {
      files := files - {dir};
      cache := cache - {dir};
      lastUpdate := lastUpdate - {dir};
      return true;
    }
  }

  // ---------------------------------------------------------------- loops that only compute

  /** The counting loops of `init_progress`. */
  method CountInitialTotal(listing: Option<seq<Entry>>) returns (total: int)
    ensures total == InitialTotal(listing)
  {
    total := 0;
    if listing.Some? {
      var es := listing.value;
      var direct := 0;
      var i := 0;
      while i < |es|
        invariant 0 <= i <= |es|
        invariant direct == AudioCount(es[..i])
      {
        assert es[..i + 1][..i] == es[..i];
        if IsAudioFile(es[i]) {
          direct := direct + 1;
        }
        i := i + 1;
      }
      assert es[..|es|] == es;
      if direct > 0 {
        total := direct;
      } else {
        var subdirs := 0;
        i := 0;
        while i < |es|
          invariant 0 <= i <= |es|
          invariant subdirs == SubdirCount(es[..i])
        {
          assert es[..i + 1][..i] == es[..i];
          if !es[i].isFile {
            subdirs := subdirs + 1;
          }
          i := i + 1;
        }
        total := subdirs;
      }
    }
    if total <= 0 {
      total := 1;
    }
  }

  /** `_init_step_progress`. */
  method InitStepProgress(presetName: string, total: int, disk: Disk) returns (r: Option<map<int, StepEntry>>)
    ensures r == StepProgressFor(disk.View(), presetName, total)
  {
    if presetName !in disk.presets || disk.presets[presetName].Corrupt? {
      return None;
    }
    var flow := PresetFlow(disk.presets[presetName].value);
    if |flow| <= 1 {
      return None;
    }
    var m: map<int, StepEntry> := map[];
    var i := 1;
    while i <= |flow|
      invariant 1 <= i <= |flow| + 1
      invariant m == StepMap(flow, total, i - 1)
    {
      m := m[i := StepEntry(StepName(flow[i - 1], i), 0, total)];
      i := i + 1;
    }
    return Some(m);
  }

  /** The recount of `_verify_status` for a running job whose inputs folder exists: processed
      songs from the outputs on disk, the total from the record when locked and else from the
      inputs folder, and the status that follows from the two. */
  method RecountRecord(dir: string, rec: Record, disk: Disk, now: int) returns (out: Record)
    ensures out.(lastUpdate := now) == Recount(rec, CollectedOutputs(disk.View(), dir), OutputsPerSong(disk.View(), dir),
                                             InputSongs(disk.View(), dir), now)
  {
    out := rec;
    var produced := CollectOutputs(dir, disk);
    var ops := GetOutputsPerSong(dir, disk);
    var processed := produced / ops;
    if out.totalFiles > 0 {
      processed := Min(processed, out.totalFiles);
    }
    var isLocked, currentTotal := out.locked, out.totalFiles;
    var totalSongs;
    if isLocked && currentTotal > 0 {
      totalSongs := currentTotal;
    } else {
      totalSongs := CountInputSongs(dir, disk);
      out := out.(locked := true);
    }
    out := out.(processedFiles := processed);
    if !isLocked || currentTotal <= 0 {
      out := out.(totalFiles := totalSongs, locked := true);
    }
    if processed >= totalSongs && totalSongs > 0 {
      out := out.(status := "completed");
      if out.endTime == 0 {
        out := out.(endTime := now);
      }
    } else {
      out := out.(status := "running");
    }
  }

  /** `_get_outputs_per_song`. */
  method GetOutputsPerSong(dir: string, disk: Disk) returns (n: int)
    ensures n == OutputsPerSong(disk.View(), dir)
  {
    var mj := Join(dir, "mission.json");
    if mj !in disk.docs || disk.docs[mj].Corrupt? {
      return 1;
    }
    var name := disk.docs[mj].value.presetName;
    if name == "" || name !in disk.presets || disk.presets[name].Corrupt? {
      return 1;
    }
    var steps := OutputSteps(disk.presets[name].value);
    var total := 0;
    var i := 0;
    while i < |steps|
      invariant 0 <= i <= |steps|
      invariant total == SumOutputs(steps[..i])
    {
      assert steps[..i + 1][..i] == steps[..i];
      total := total + |steps[i].outputToStorage|;
      i := i + 1;
    }
    assert steps[..|steps|] == steps;
    return Max(1, total);
  }

  /** `_count_input_songs`. */
  method CountInputSongs(dir: string, disk: Disk) returns (n: int)
    ensures n == InputSongs(disk.View(), dir)
  {
    var inputsDir := Join(dir, "inputs");
    if inputsDir in disk.dirs {
      var es := disk.dirs[inputsDir];
      var audio, subdirs := 0, 0;
      var i := 0;
      while i < |es|
        invariant 0 <= i <= |es|
        invariant audio == AudioCount(es[..i]) && subdirs == SubdirCount(es[..i])
      {
        assert es[..i + 1][..i] == es[..i];
        if !es[i].isFile {
          subdirs := subdirs + 1;
        } else if IsAudioFile(es[i]) {
          audio := audio + 1;
        }
        i := i + 1;
      }
      assert es[..|es|] == es;
      if audio > 0 {
        return audio;
      }
      if subdirs > 0 {
        return subdirs;
      }
    }
    return 1;
  }

  /** The output-file gathering of `_verify_status`. */
  method CollectOutputs(dir: string, disk: Disk) returns (n: nat)
    ensures n == CollectedOutputs(disk.View(), dir)
  {
    var v := disk.View();
    n := OutputCount(v.ListingOrEmpty(Join(dir, "outputs"))) + OutputCount(v.ListingOrEmpty(Join(dir, "batch_output")));
    var inputsDir := Join(dir, "inputs");
    var es := v.ListingOrEmpty(inputsDir);
    var sub := 0;
    var i := 0;
    while i < |es|
      invariant 0 <= i <= |es|
      invariant sub == SubtaskOutputs(v.dirs, inputsDir, es[..i])
    {
      assert es[..i + 1][..i] == es[..i];
      if !es[i].isFile {
        sub := sub + OutputCount(v.ListingOrEmpty(Join(Join(inputsDir, es[i].name), "outputs")));
      }
      i := i + 1;
    }
    assert es[..|es|] == es;
    n := n + sub;
  }
}
