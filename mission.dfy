/** Jobs (`clientui/mission.py`): a job (`Mission`) with its settings and state, how its progress
    is reported and its descriptor written, how a finished worker process is reconciled, and how
    a job is launched with the single or the batch worker command. */
module Missions {
  import opened Wrappers
  import opened Strings
  import opened Paths
  import opened Disk
  import opened Queues
  import opened TaskProgress
  import opened CommandExecutor

  /** `read_thread_count`: a missing `config.json` is created with one thread. The stored value is
      returned as it is, without clamping. */
  method ReadThreadCount(disk: Disk) returns (n: int)
    modifies disk
    ensures old(disk.threadConfig).None? ==> n == 1 && disk.threadConfig == Some(1)
    ensures old(disk.threadConfig).Some? ==> n == old(disk.threadConfig).value && disk.threadConfig == old(disk.threadConfig)
    ensures disk.dirs == old(disk.dirs) && disk.docs == old(disk.docs) && disk.presets == old(disk.presets)
  {
    if disk.threadConfig.None? {
      disk.threadConfig := Some(1);
      return 1;
    }
    return disk.threadConfig.value;
  }

  /** `write_thread_count`: `config.json` holds the new count. */
  method WriteThreadCount(disk: Disk, n: int)
    modifies disk
    ensures disk.threadConfig == Some(n)
    ensures disk.dirs == old(disk.dirs) && disk.docs == old(disk.docs) && disk.presets == old(disk.presets)
  {
    disk.threadConfig := Some(n);
  }

  /** The `progress` part of a descriptor: processed and total of the record, when there is one. */
  function Summarize(r: Option<Record>): (p: Option<Summary>)
    ensures p.Some? <==> r.Some?
    ensures p.Some? ==> p.value.processedFiles == r.value.processedFiles && p.value.totalFiles == r.value.totalFiles
  {
    if r.None? then None else Some(Summary(r.value.processedFiles, r.value.totalFiles))
  }

  /** The progress summary `dump` puts in a descriptor, read through the progress store. */
  function DumpSummary(s: Store, v: FsView, md: string, now: int): Option<Summary> {
    if md == "" then None else Summarize(Lookup(s, v, md, now).0)
  }

  /** The progress store after `dump`'s read. */
  function DumpStore(s: Store, v: FsView, md: string, now: int): Store {
    if md == "" then s else Lookup(s, v, md, now).1
  }

  /** The update `Mission.update_progress` sends: only the arguments that were given. */
  function Forwarded(processed: Option<int>, total: Option<int>, status: Option<string>): (u: Update)
    ensures u.processedFiles == processed && u.totalFiles == total && u.status == status
    ensures u.locked.None? && u.endTime.None? && u.startTime.None? && u.details.None?
    ensures u.stepProgress.None? && u.totalSteps.None? && u.processingStartTime.None?
  {
    NoChange.(processedFiles := processed, totalFiles := total, status := status)
  }

  /** The progress store after `Mission.update_progress`: untouched without a job directory or
      without any argument. */
  function Reported(s: Store, v: FsView, md: string, processed: Option<int>, total: Option<int>,
                    status: Option<string>, now: int): Store
  {
    if md == "" || (processed.None? && total.None? && status.None?) then s
    else UpdateSpec(s, v, md, Forwarded(processed, total, status), now).1
  }

  /** A job: what to process and how (its settings, fixed once the job is made up), and where
      the job stands (its state, running flag, executor and job directory). */
  class Mission {
    const inputDir: string
    const inputDirs: seq<string>
    const outputDir: string
    const presetName: string
    const outputFormat: string
    const skipExistingFiles: bool
    const identity: string
    const debug: bool
    const outputFile: Option<string>
    var state: string
    var running: bool
    var executor: Executor?
    var missionDir: string

    constructor()
      ensures inputDir == "" && inputDirs == [] && outputDir == "" && presetName == ""
      ensures outputFormat == "wav" && skipExistingFiles && state == "waiting" && identity == ""
      ensures !running && !debug && outputFile.None? && executor == null && missionDir == ""
    {
      inputDir, inputDirs, outputDir, presetName := "", [], "", "";
      outputFormat, skipExistingFiles, state, identity := "wav", true, "waiting", "";
      running, debug, outputFile, executor, missionDir := false, false, None, null, "";
    }

    /** A job with every field given. */
    constructor Of(inputDir: string, inputDirs: seq<string>, outputDir: string, presetName: string,
                   outputFormat: string, skipExistingFiles: bool, state: string, identity: string,
                   running: bool, debug: bool, outputFile: Option<string>, executor: Executor?, missionDir: string)
      ensures this.inputDir == inputDir && this.inputDirs == inputDirs && this.outputDir == outputDir
      ensures this.presetName == presetName && this.outputFormat == outputFormat
      ensures this.skipExistingFiles == skipExistingFiles && this.state == state && this.identity == identity
      ensures this.running == running && this.debug == debug && this.outputFile == outputFile
      ensures this.executor == executor && this.missionDir == missionDir
    {
      this.inputDir, this.inputDirs, this.outputDir, this.presetName := inputDir, inputDirs, outputDir, presetName;
      this.outputFormat, this.skipExistingFiles, this.state, this.identity := outputFormat, skipExistingFiles, state, identity;
      this.running, this.debug, this.outputFile, this.executor := running, debug, outputFile, executor;
      this.missionDir := missionDir;
    }

    /** Every field but `missionDir` agrees with `other`'s. */
    predicate SameSettings(other: Mission)
      reads this, other
    {
      inputDir == other.inputDir && inputDirs == other.inputDirs && outputDir == other.outputDir
      && presetName == other.presetName && outputFormat == other.outputFormat
      && skipExistingFiles == other.skipExistingFiles && state == other.state
      && identity == other.identity && running == other.running && debug == other.debug
      && outputFile == other.outputFile && executor == other.executor
    }

    /** `cp`: a new job with the same settings, sharing the executor, with no job directory. */
    method Cp() returns (c: Mission)
      ensures fresh(c) && c.SameSettings(this) && c.missionDir == ""
    {
      c := new Mission.Of(inputDir, inputDirs, outputDir, presetName, outputFormat, skipExistingFiles,
                          state, identity, running, debug, outputFile, executor, "");
    }

    /** The descriptor `dump` produces for a given progress summary. */
    function Describe(p: Option<Summary>): (d: Descriptor)
      reads this
      ensures d.inputDir == inputDir && d.outputDir == outputDir && d.presetName == presetName
      ensures d.outputFormat == outputFormat && d.skipExistingFiles == skipExistingFiles
      ensures d.state == state && d.progress == p
    {
      Descriptor(inputDir, outputDir, presetName, outputFormat, skipExistingFiles, state, p)
    }

    /** `dump`. */
    method Dump(store: ProgressStore, disk: Disk, now: int) returns (d: Descriptor)
      modifies store
      ensures d == Describe(DumpSummary(old(store.State()), disk.View(), missionDir, now))
      ensures store.State() == DumpStore(old(store.State()), disk.View(), missionDir, now)
    {
      var p: Option<Summary> := None;
      if missionDir != "" {
        var info := store.GetProgress(missionDir, disk, now);
        if info.Some? {
          p := Some(Summary(info.value.processedFiles, info.value.totalFiles));
        }
      }
      d := Describe(p);
    }

    /** `write`: the descriptor goes to `output_file`. */
    method Write(store: ProgressStore, disk: Disk, now: int)
      requires outputFile.Some?
      modifies store, disk
      ensures disk.docs == old(disk.docs)[outputFile.value :=
                Parsed(Describe(DumpSummary(old(store.State()), old(disk.View()), missionDir, now)))]
      ensures disk.dirs == old(disk.dirs) && disk.presets == old(disk.presets)
      ensures disk.threadConfig == old(disk.threadConfig)
      ensures store.State() == DumpStore(old(store.State()), old(disk.View()), missionDir, now)
    {
      var d := Dump(store, disk, now);
      disk.docs := disk.docs[outputFile.value := Parsed(d)];
    }

    /** The first step of `add`: a job without a directory gets the folder of its descriptor file,
        and a fresh progress record there. */
    method SettleDir(store: ProgressStore, disk: Disk, now: int)
      requires outputFile.Some?
      modifies this, store
      ensures missionDir == (if old(missionDir) == "" && outputFile.value != "" then Dirname(outputFile.value) else old(missionDir))
      ensures state == old(state) && running == old(running) && executor == old(executor)
      ensures store.State() == (if old(missionDir) == "" && outputFile.value != ""
                                then Put(old(store.State()), missionDir, InitRecord(disk.View(), inputDir, "", now), now)
                                else old(store.State()))
    {
      if missionDir == "" && outputFile.value != "" {
        missionDir := Dirname(outputFile.value);
        var _ := store.InitProgress(missionDir, inputDir, "", disk, now);
      }
    }

    /** `update_progress`. */
    method UpdateProgress(processed: Option<int>, total: Option<int>, status: Option<string>,
                          store: ProgressStore, disk: Disk, now: int)
      modifies store
      ensures store.State() == Reported(old(store.State()), disk.View(), missionDir, processed, total, status, now)
    {
      if missionDir == "" {
        return;
      }
      if processed.None? && total.None? && status.None? {
        return;
      }
      var ok := store.UpdateProgress(missionDir, Forwarded(processed, total, status), disk, now);
    }
  }

  /** An update that carries nothing leaves the store as the lookup left it, and an update that
      carries a total on a locked record keeps that total. */
  lemma ReportedRespectsLock(s: Store, v: FsView, md: string, processed: Option<int>, total: Option<int>,
                             status: Option<string>, now: int)
    requires md != "" && (processed.Some? || total.Some? || status.Some?)
    requires Lookup(s, v, md, now).0.Some? && Lookup(s, v, md, now).0.value.locked
    ensures Reported(s, v, md, processed, total, status, now).cache[md].totalFiles == Lookup(s, v, md, now).0.value.totalFiles
  {
    UpdateRespectsLock(s, v, md, Forwarded(processed, total, status), now);
  }

  // ---------------------------------------------------------------- what `check` observes

  /** What `check` learns about a running job before acting on it. */
  datatype Observation = Observation(ended: bool, batch: bool, expected: int, raw: nat)

  /** Whether a job is a batch (several uploaded sub-folders, or several input audio files) and
      how many songs it should produce. */
  function Expected(dirs: map<string, seq<Entry>>, missionDir: string, inputDir: string): (r: (bool, int))
    ensures r.1 >= 1
    ensures r.0 <==> r.1 > 1
  {
    var inputs := Join(missionDir, "inputs");
    if missionDir != "" && inputs in dirs && SubdirCount(dirs[inputs]) > 1 then (true, SubdirCount(dirs[inputs]))
    else if inputDir != "" && inputDir in dirs && AudioCount(dirs[inputDir]) > 1 then (true, AudioCount(dirs[inputDir]))
    else (false, 1)
  }

  /** Output files `check` counts: the job's output folder, `batch_output` and every sub-task's
      `outputs`. */
  function RawOutputs(dirs: map<string, seq<Entry>>, outputDir: string, missionDir: string): nat {
    var inputs := Join(missionDir, "inputs");
    (if outputDir != "" then OutputCount(ListingIn(dirs, outputDir)) else 0)
    + (if missionDir != "" then OutputCount(ListingIn(dirs, Join(missionDir, "batch_output")))
                               + SubtaskOutputs(dirs, inputs, ListingIn(dirs, inputs))
       else 0)
  }

  function ExecutorProcess(m: Mission): Process?
    reads m, m.executor
  {
    if m.executor == null then null else m.executor.process
  }

  /** The observation of one running job. */
  function Observe(m: Mission, dirs: map<string, seq<Entry>>): Observation
    reads m, m.executor, ExecutorProcess(m)
  {
    var p := ExecutorProcess(m);
    var (batch, expected) := Expected(dirs, m.missionDir, m.inputDir);
    Observation(p != null && !p.Alive(), batch, expected, RawOutputs(dirs, m.outputDir, m.missionDir))
  }

  /** The job leaves `running`: its process has exited and it is not a batch short of outputs. */
  predicate Finishes(o: Observation) {
    o.ended && !(o.batch && o.raw < o.expected)
  }

  /** Songs finished: output files divided by outputs per song, capped at the expected count. */
  function SongsDone(o: Observation, ops: int): (n: int)
    requires ops >= 1
    ensures n <= o.expected && n <= o.raw / ops
    ensures n == o.raw / ops || n == o.expected
  {
    Min(o.raw / ops, o.expected)
  }

  /** The progress update `check` sends when output files exist. */
  function ProgressReport(o: Observation, ops: int, now: int): (u: Update)
    requires ops >= 1
    ensures u.status == Some("completed") <==> o.ended && (!o.batch || SongsDone(o, ops) >= o.expected)
    ensures u.status != Some("completed") ==> u.status == Some("running")
    ensures u.endTime.Some? <==> u.status == Some("completed")
    ensures u.endTime.Some? ==> u.endTime.value == now
    ensures u.processedFiles == Some(SongsDone(o, ops)) && u.totalFiles == Some(o.expected)
    ensures u.locked.None?
  {
    var completed := o.ended && (!o.batch || SongsDone(o, ops) >= o.expected);
    NoChange.(processedFiles := Some(SongsDone(o, ops)), totalFiles := Some(o.expected),
              status := Some(if completed then "completed" else "running"),
              endTime := if completed then Some(now) else None)
  }

  /** A job that is not a batch is reported completed as soon as its process has exited, and a
      job whose process is still running is never reported completed. */
  lemma ReportCompletion(o: Observation, ops: int, now: int)
    requires ops >= 1
    ensures !o.batch && o.ended ==> ProgressReport(o, ops, now).status == Some("completed")
    ensures !o.ended ==> ProgressReport(o, ops, now).status == Some("running")
  {
  }

  /** The store and the descriptor files after `write`; `final` is the descriptor without its
      progress summary. */
  function WriteEffect(s: Store, v: FsView, md: string, outputFile: string, final: Descriptor, now: int)
    : (Store, map<string, Doc<Descriptor>>)
  {
    (DumpStore(s, v, md, now), v.docs[outputFile := Parsed(final.(progress := DumpSummary(s, v, md, now)))])
  }

  /** The store and the descriptor files after `check` has reported the progress it sees in a
      running job's output folders: only when outputs exist and the job has a directory, in which
      case the job's `mission.json` (when readable) takes the reported state. */
  function ReportEffect(s: Store, v: FsView, md: string, o: Observation, now: int): (Store, map<string, Doc<Descriptor>>)
  {
    var ops := if md != "" then OutputsPerSong(v, md) else 1;
    var u := ProgressReport(o, ops, now);
    var mj := Join(md, "mission.json");
    if o.raw == 0 || md == "" then (s, v.docs)
    else (UpdateSpec(s, v, md, u, now).1,
          if mj in v.docs && v.docs[mj].Parsed? then v.docs[mj := Parsed(v.docs[mj].value.(state := u.status.value))] else v.docs)
  }

  /** The store and the descriptor files after `check` has dealt with a job whose process has
      exited; `final` is the job's descriptor with its new state. */
  function EndEffect(s: Store, v: FsView, md: string, outputFile: string, final: Descriptor,
                     o: Observation, now: int): (Store, map<string, Doc<Descriptor>>)
  {
    var s1 := if Finishes(o) then Reported(s, v, md, None, None, Some("completed"), now)
              else Reported(s, v, md, Some(o.raw), Some(o.expected), Some("running"), now);
    WriteEffect(s1, v, md, outputFile, final, now)
  }

  /** Both steps of `check` for one running job. */
  function ReconcileEffect(s: Store, v: FsView, md: string, outputFile: string, final: Descriptor,
                           o: Observation, now: int): (Store, map<string, Doc<Descriptor>>)
  {
    var (s1, docs1) := ReportEffect(s, v, md, o, now);
    if !o.ended then (s1, docs1) else EndEffect(s1, v.(docs := docs1), md, outputFile, final, o, now)
  }

  /** The progress-report half of `check`'s loop body. */
  method ReportOutputs(m: Mission, o: Observation, store: ProgressStore, disk: Disk, now: int)
    modifies store, disk
    ensures disk.dirs == old(disk.dirs) && disk.presets == old(disk.presets) && disk.threadConfig == old(disk.threadConfig)
    ensures (store.State(), disk.docs) == ReportEffect(old(store.State()), old(disk.View()), m.missionDir, o, now)
  {
    var md := m.missionDir;
    var ops := 1;
    if md != "" {
      ops := GetOutputsPerSong(md, disk);
    }
    if o.raw > 0 && md != "" {
      var u := ProgressReport(o, ops, now);
      var ok := store.UpdateProgress(md, u, disk, now);
      var mj := Join(md, "mission.json");
      if mj in disk.docs && disk.docs[mj].Parsed? {
        disk.docs := disk.docs[mj := Parsed(disk.docs[mj].value.(state := u.status.value))];
      }
    }
  }

  /** The exit half of `check`'s loop body, for a job whose process has exited: the job is
      finalised (`finished`) unless it is a batch short of output files, which stays running. */
  method Finalize(m: Mission, o: Observation, store: ProgressStore, disk: Disk, now: int) returns (finished: bool)
    requires m.outputFile.Some?
    modifies m, store, disk
    ensures finished == Finishes(o)
    ensures disk.dirs == old(disk.dirs) && disk.presets == old(disk.presets) && disk.threadConfig == old(disk.threadConfig)
    ensures m.executor == old(m.executor) && m.missionDir == old(m.missionDir)
    ensures finished ==> m.state == "completed" && !m.running
    ensures !finished ==> m.state == "running" && m.running == old(m.running)
    ensures (store.State(), disk.docs) == EndEffect(old(store.State()), old(disk.View()), m.missionDir,
                                                    m.outputFile.value, m.Describe(None), o, now)
  {
    finished := Finishes(o);
    if finished {
      m.state := "completed";
      m.UpdateProgress(None, None, Some("completed"), store, disk, now);
      m.running := false;
      m.Write(store, disk, now);
    } else {
      m.state := "running";
      m.UpdateProgress(Some(o.raw), Some(o.expected), Some("running"), store, disk, now);
      m.Write(store, disk, now);
    }
  }

  /** One pass of `check`'s loop body over the running job `m`: reports the progress seen in the
      output folders and, once the process has exited, either finalises the job (`finished`) or,
      for a batch that is short of outputs, keeps it running. */
  method Reconcile(m: Mission, store: ProgressStore, disk: Disk, now: int) returns (finished: bool)
    requires m.outputFile.Some?
    modifies m, store, disk
    ensures finished == Finishes(old(Observe(m, disk.dirs)))
    ensures Observe(m, disk.dirs) == old(Observe(m, disk.dirs))
    ensures disk.dirs == old(disk.dirs) && disk.presets == old(disk.presets) && disk.threadConfig == old(disk.threadConfig)
    ensures m.executor == old(m.executor) && m.missionDir == old(m.missionDir)
    ensures finished ==> m.state == "completed" && !m.running
    ensures old(Observe(m, disk.dirs)).ended && !finished ==> m.state == "running" && m.running == old(m.running)
    ensures !old(Observe(m, disk.dirs)).ended ==> m.state == old(m.state) && m.running == old(m.running)
    ensures (store.State(), disk.docs) == ReconcileEffect(old(store.State()), old(disk.View()), m.missionDir,
                                                          m.outputFile.value, m.Describe(None), old(Observe(m, disk.dirs)), now)
  {
    var o := Observe(m, disk.dirs);
    ReportOutputs(m, o, store, disk, now);
    finished := false;
    if o.ended {
      finished := Finalize(m, o, store, disk, now);
    }
  }

  // ---------------------------------------------------------------- commands

  function Quote(s: string): string {
    "\"" + s + "\""
  }

  /** The quoted worker interpreter, worker script and preset path under the working folder. */
  function Interpreter(cwd: string): string {
    Quote(Join(Join(cwd, "workenv"), "python.exe"))
  }

  function WorkerScript(cwd: string): string {
    Quote(Join(Join(cwd, "clientui"), "preset_infer_cli.py"))
  }

  function PresetPath(cwd: string, presetName: string): string {
    Quote(Join(Join(cwd, "presets"), presetName))
  }

  /** The worker invocation and the preset of a single start. */
  function SingleHead(cwd: string, presetName: string): seq<string> {
    [Interpreter(cwd), WorkerScript(cwd), "-p", PresetPath(cwd, presetName)]
  }

  function DebugFlag(debug: bool): seq<string> {
    if debug then ["--debug"] else []
  }

  /** The output folder, format and debug flag of a single start. */
  function SingleTail(outputDir: string, outputFormat: string, debug: bool): seq<string> {
    ["-o", Quote(outputDir), "-f", outputFormat] + DebugFlag(debug)
  }

  /** The command parts of a single start. */
  function SingleCommandParts(cwd: string, presetName: string, inputDir: string, outputDir: string,
                              outputFormat: string, debug: bool): seq<string>
  {
    SingleHead(cwd, presetName) + ["-i", Quote(inputDir)] + SingleTail(outputDir, outputFormat, debug)
  }

  /** One `-i "<dir>"` pair per input folder, in order. */
  function InputArgs(inputs: seq<string>): (r: seq<string>)
    ensures |r| == 2 * |inputs|
    decreases |inputs|
  {
    if inputs == [] then [] else ["-i", Quote(inputs[0])] + InputArgs(inputs[1..])
  }

  lemma {:induction false} InputArgsSnoc(inputs: seq<string>, d: string)
    ensures InputArgs(inputs + [d]) == InputArgs(inputs) + ["-i", Quote(d)]
    decreases |inputs|
  {
    if inputs != [] {
      assert (inputs + [d])[1..] == inputs[1..] + [d];
      InputArgsSnoc(inputs[1..], d);
    }
  }

  function BatchCommandHead(cwd: string, presetName: string, outputDir: string, outputFormat: string): seq<string> {
    [Interpreter(cwd), WorkerScript(cwd), "--batch", "-p", PresetPath(cwd, presetName),
     "-o", Quote(outputDir), "-f", outputFormat]
  }

  /** The command parts of a batch start. */
  function BatchCommandParts(cwd: string, presetName: string, outputDir: string, outputFormat: string,
                             inputs: seq<string>, debug: bool): seq<string>
  {
    BatchCommandHead(cwd, presetName, outputDir, outputFormat) + InputArgs(inputs) + DebugFlag(debug)
  }

  /** The values that follow each occurrence of `flag`, as an append-style argument parser
      collects them. */
  function FlagValues(parts: seq<string>, flag: string): seq<string>
    decreases |parts|
  {
    if |parts| < 2 then []
    else if parts[0] == flag then [parts[1]] + FlagValues(parts[2..], flag)
    else FlagValues(parts[1..], flag)
  }

  predicate NoFlag(parts: seq<string>, flag: string) {
    forall k :: 0 <= k < |parts| ==> parts[k] != flag
  }

  lemma {:induction false} FlagValuesSkip(h: seq<string>, rest: seq<string>, flag: string)
    requires NoFlag(h, flag)
    ensures FlagValues(h + rest, flag) == FlagValues(rest, flag)
    decreases |h|
  {
    if h != [] {
      if |h + rest| >= 2 {
        assert (h + rest)[0] == h[0] != flag;
        assert FlagValues(h + rest, flag) == FlagValues((h + rest)[1..], flag);
        assert (h + rest)[1..] == h[1..] + rest;
        FlagValuesSkip(h[1..], rest, flag);
      } else {
        assert |rest| <= 1;
        assert FlagValues(rest, flag) == [];
      }
    } else {
      assert h + rest == rest;
    }
  }

  /** A pair `flag v` in front contributes `v`. */
  lemma FlagValuesPair(flag: string, v: string, rest: seq<string>)
    ensures FlagValues([flag, v] + rest, flag) == [v] + FlagValues(rest, flag)
  {
    assert ([flag, v] + rest)[2..] == rest;
  }

  function QuoteAll(ds: seq<string>): (r: seq<string>)
    ensures |r| == |ds|
    decreases |ds|
  {
    if ds == [] then [] else [Quote(ds[0])] + QuoteAll(ds[1..])
  }

  lemma {:induction false} FlagValuesInputArgs(inputs: seq<string>, rest: seq<string>)
    requires NoFlag(rest, "-i")
    ensures FlagValues(InputArgs(inputs) + rest, "-i") == QuoteAll(inputs)
    decreases |inputs|
  {
    if inputs == [] {
      FlagValuesSkip(rest, [], "-i");
      assert rest + [] == rest;
      assert InputArgs(inputs) + rest == rest;
    } else {
      var tail := InputArgs(inputs[1..]) + rest;
      assert InputArgs(inputs) + rest == ["-i", Quote(inputs[0])] + tail;
      FlagValuesPair("-i", Quote(inputs[0]), tail);
      FlagValuesInputArgs(inputs[1..], rest);
    }
  }

  /** A quoted value is never taken for a flag. */
  lemma QuoteNotFlag(s: string, flag: string)
    requires |flag| > 0 && flag[0] == '-'
    ensures Quote(s) != flag
  {
    assert Quote(s)[0] == '"';
  }

  /** The other flags of a worker command differ from `-i`. */
  lemma FlagsDiffer()
    ensures "-p" != "-i" && "-o" != "-i" && "-f" != "-i" && "--batch" != "-i" && "--debug" != "-i"
  {
    assert "-p"[1] != "-i"[1] && "-o"[1] != "-i"[1] && "-f"[1] != "-i"[1];
    assert "--batch"[1] != "-i"[1] && "--debug"[1] != "-i"[1];
  }

  /** Apart from the input folders, no part of a worker command is the flag `-i`, unless the output
      format is itself that text. */
  lemma OtherPartsNotInputFlag(cwd: string, presetName: string, outputDir: string, outputFormat: string, debug: bool)
    requires outputFormat != "-i"
    ensures NoFlag(SingleHead(cwd, presetName), "-i")
    ensures NoFlag(SingleTail(outputDir, outputFormat, debug), "-i")
    ensures NoFlag(BatchCommandHead(cwd, presetName, outputDir, outputFormat), "-i")
    ensures NoFlag(DebugFlag(debug), "-i")
  {
    FlagsDiffer();
    QuoteNotFlag(Join(Join(cwd, "workenv"), "python.exe"), "-i");
    QuoteNotFlag(Join(Join(cwd, "clientui"), "preset_infer_cli.py"), "-i");
    QuoteNotFlag(Join(Join(cwd, "presets"), presetName), "-i");
    QuoteNotFlag(outputDir, "-i");
  }

  /** The worker reads back, as its `-i` values, exactly the quoted input folders of a batch, in
      order, unless the output format is itself the text `-i`. */
  lemma BatchCommandInputs(cwd: string, presetName: string, outputDir: string, outputFormat: string,
                           inputs: seq<string>, debug: bool)
    requires outputFormat != "-i"
    ensures FlagValues(BatchCommandParts(cwd, presetName, outputDir, outputFormat, inputs, debug), "-i") == QuoteAll(inputs)
  {
    var head := BatchCommandHead(cwd, presetName, outputDir, outputFormat);
    var rest := DebugFlag(debug);
    OtherPartsNotInputFlag(cwd, presetName, outputDir, outputFormat, debug);
    AppendAssoc(head, InputArgs(inputs), rest);
    FlagValuesSkip(head, InputArgs(inputs) + rest, "-i");
    FlagValuesInputArgs(inputs, rest);
  }

  /** A single start passes exactly one input folder, the job's own. */
  lemma SingleCommandInput(cwd: string, presetName: string, inputDir: string, outputDir: string,
                           outputFormat: string, debug: bool)
    requires outputFormat != "-i"
    ensures FlagValues(SingleCommandParts(cwd, presetName, inputDir, outputDir, outputFormat, debug), "-i") == [Quote(inputDir)]
  {
    var head := SingleHead(cwd, presetName);
    var pair := ["-i", Quote(inputDir)];
    var rest := SingleTail(outputDir, outputFormat, debug);
    OtherPartsNotInputFlag(cwd, presetName, outputDir, outputFormat, debug);
    AppendAssoc(head, pair, rest);
    FlagValuesSkip(head, pair + rest, "-i");
    FlagValuesPair("-i", Quote(inputDir), rest);
    FlagValuesSkip(rest, [], "-i");
    assert rest + [] == rest;
  }

  // ---------------------------------------------------------------- batch grouping

  predicate Matches(m: Mission, presetName: string, outputFormat: string, debug: bool)
  {
    m.presetName == presetName && m.outputFormat == outputFormat && m.debug == debug
  }

  /** The waiting jobs that share the head's preset, format and debug flag, in queue order. */
  function Matching(ms: seq<Mission>, presetName: string, outputFormat: string, debug: bool): (r: seq<Mission>)
    ensures forall k :: 0 <= k < |r| ==> r[k] in ms && Matches(r[k], presetName, outputFormat, debug)
    ensures forall k :: 0 <= k < |ms| && Matches(ms[k], presetName, outputFormat, debug) ==> ms[k] in r
    decreases |ms|
  {
    if ms == [] then []
    else
      var last := ms[|ms| - 1];
      Matching(ms[..|ms| - 1], presetName, outputFormat, debug)
        + (if Matches(last, presetName, outputFormat, debug) then [last] else [])
  }

  lemma {:induction false} MatchingDistinct(ms: seq<Mission>, presetName: string, outputFormat: string, debug: bool)
    requires Distinct(ms)
    ensures Distinct(Matching(ms, presetName, outputFormat, debug))
    decreases |ms|
  {
    if ms != [] {
      var init := ms[..|ms| - 1];
      assert Distinct(init);
      MatchingDistinct(init, presetName, outputFormat, debug);
      var last := ms[|ms| - 1];
      assert last !in init;
      var prev := Matching(init, presetName, outputFormat, debug);
      assert last !in prev;
    }
  }

  function InputDirsOf(ms: seq<Mission>): (r: seq<string>)
    ensures |r| == |ms| && forall k :: 0 <= k < |ms| ==> r[k] == ms[k].inputDir
    decreases |ms|
  {
    if ms == [] then [] else InputDirsOf(ms[..|ms| - 1]) + [ms[|ms| - 1].inputDir]
  }

  function ExecutorOf(m: Mission): set<Executor>
    reads m
  {
    if m.executor == null then {} else {m.executor}
  }

  function ExecutorsOf(ms: seq<Mission>): set<Executor>
    reads set m | m in ms
  {
    set m | m in ms && m.executor != null :: m.executor as Executor
  }

  // ---------------------------------------------------------------- adding jobs

  /** The number of audio files among the entries of a listing, counted one entry at a time. */
  method CountAudio(es: seq<Entry>) returns (audio: nat)
    ensures audio == AudioCount(es)
  {
    audio := 0;
    var i := 0;
    while i < |es|
      invariant 0 <= i <= |es|
      invariant audio == AudioCount(es[..i])
    {
      assert es[..i + 1][..i] == es[..i];
      if IsAudioFile(es[i]) {
        audio := audio + 1;
      }
      i := i + 1;
    }
    assert es[..|es|] == es;
  }

  /** A sub-job of `m` for the sub-folder `d` of its input folder. */
  predicate IsSubMission(sub: Mission, m: Mission, d: Entry)
    reads sub, m
  {
    sub.inputDir == Join(m.inputDir, d.name)
    && sub.outputFile == Some(Join(m.inputDir, "mission_" + d.name + ".json"))
    && sub.missionDir == m.missionDir && sub.presetName == m.presetName
    && sub.outputFormat == m.outputFormat && sub.debug == m.debug && sub.executor == m.executor
    && sub.outputDir == m.outputDir && sub.state == m.state
  }

  /** `ms` from position `from` on holds one sub-job of `m` per entry of `ds`, in order. */
  predicate QueuedSubs(ms: seq<Mission>, from: nat, m: Mission, ds: seq<Entry>)
    reads m, set x | x in ms
  {
    from + |ds| == |ms| && forall k :: 0 <= k < |ds| ==> IsSubMission(ms[from + k], m, ds[k])
  }

  lemma QueuedSubsSnoc(ms: seq<Mission>, m: Mission, ds: seq<Entry>, sub: Mission, d: Entry)
    requires QueuedSubs(ms, 0, m, ds) && IsSubMission(sub, m, d)
    ensures QueuedSubs(ms + [sub], 0, m, ds + [d])
  {
    assert forall k :: 0 <= k < |ds| ==> (ms + [sub])[k] == ms[k] && (ds + [d])[k] == ds[k];
  }

  /** `cp` of `m` retargeted at the sub-folder `d`. */
  method MakeSubMission(m: Mission, d: Entry) returns (sub: Mission)
    ensures fresh(sub) && IsSubMission(sub, m, d)
  {
    // `cp` followed by the three assignments of `add`
    sub := new Mission.Of(Join(m.inputDir, d.name), m.inputDirs, m.outputDir, m.presetName, m.outputFormat,
                          m.skipExistingFiles, m.state, m.identity, m.running, m.debug,
                          Some(Join(m.inputDir, "mission_" + d.name + ".json")), m.executor, m.missionDir);
  }

  /** One sub-folder step of `add`: the new sub-job `sub` goes at the end of `subs`. */
  method AppendSub(m: Mission, e: Entry, subs: seq<Mission>, ghost ds: seq<Entry>) returns (sub: Mission)
    requires Distinct(subs) && QueuedSubs(subs, 0, m, ds)
    ensures fresh(sub) && Distinct(subs + [sub]) && QueuedSubs(subs + [sub], 0, m, ds + [e])
  {
    sub := MakeSubMission(m, e);
    DistinctSnoc(subs, sub);
    QueuedSubsSnoc(subs, m, ds, sub, e);
  }

  /** The sub-jobs `add` creates, one per sub-folder, in listing order. */
  method SubMissions(m: Mission, es: seq<Entry>) returns (subs: seq<Mission>)
    ensures |subs| == SubdirCount(es) && Distinct(subs)
    ensures forall k :: 0 <= k < |subs| ==> fresh(subs[k]) && IsSubMission(subs[k], m, Subdirs(es)[k])
  {
    subs := [];
    ghost var ds: seq<Entry> := [];
    var i := 0;
    while i < |es|
      invariant 0 <= i <= |es| && ds == Subdirs(es[..i])
      invariant |subs| == |ds| && Distinct(subs)
      invariant forall k :: 0 <= k < |subs| ==> fresh(subs[k])
      invariant QueuedSubs(subs, 0, m, ds)
    {
      SubdirsSnoc(es, i);
      if !es[i].isFile {
        var sub := AppendSub(m, es[i], subs, ds);
        subs, ds := subs + [sub], ds + [es[i]];
      }
      i := i + 1;
    }
    assert es[..|es|] == es;
  }

  /** The job directory `add` settles on. */
  function AddedDir(missionDir: string, outputFile: string): string {
    if missionDir == "" && outputFile != "" then Dirname(outputFile) else missionDir
  }

  /** The progress store after `add` has queued a job with a settled directory: the total is
      locked to the number of audio files directly in the folder, or set to the number of
      sub-jobs otherwise. */
  function EnqueuedStore(s: Store, v: FsView, md: string, inputDir: string, now: int): Store {
    if inputDir !in v.dirs || md == "" then s
    else if AudioCount(v.dirs[inputDir]) > 0
    then UpdateSpec(s, v, md, NoChange.(totalFiles := Some(AudioCount(v.dirs[inputDir])), locked := Some(true)), now).1
    else UpdateSpec(s, v, md, NoChange.(totalFiles := Some(SubdirCount(v.dirs[inputDir]))), now).1
  }

  /** The progress store after `add`: a new record when the job directory is derived from the
      descriptor file, then the queued total. */
  function AddedStore(s: Store, v: FsView, missionDir: string, outputFile: string, inputDir: string, now: int): Store {
    var md := AddedDir(missionDir, outputFile);
    var s1 := if missionDir == "" && outputFile != "" then Put(s, md, InitRecord(v, inputDir, "", now), now) else s;
    EnqueuedStore(s1, v, md, inputDir, now)
  }

  /** A fresh job over a folder of audio files ends up with its total locked to the number of
      those files, so that later reports cannot overwrite it. */
  lemma AddLocksTotal(s: Store, v: FsView, outputFile: string, inputDir: string, now: int)
    requires outputFile != "" && Dirname(outputFile) != "" && inputDir in v.dirs && AudioCount(v.dirs[inputDir]) > 0
    ensures var md := Dirname(outputFile);
            var rec := AddedStore(s, v, "", outputFile, inputDir, now).cache[md];
            rec.totalFiles == AudioCount(v.dirs[inputDir]) && rec.locked
  {
    var md := Dirname(outputFile);
    var s1 := Put(s, md, InitRecord(v, inputDir, "", now), now);
    assert CacheValid(s1, md, now);
    LookupFromCache(s1, v, md, now);
    var u := NoChange.(totalFiles := Some(AudioCount(v.dirs[inputDir])), locked := Some(true));
    UpdateWritesMerged(s1, v, md, u, now);
  }

  // ---------------------------------------------------------------- starting jobs

  /** A job's directory is as it was (its settings cannot change). */
  twostate predicate KeptDir(j: Mission)
    reads j
  {
    j.missionDir == old(j.missionDir)
  }

  /** Only descriptor files change on the disk. */
  twostate predicate DiskKept(disk: Disk)
    reads disk
  {
    disk.dirs == old(disk.dirs) && disk.presets == old(disk.presets) && disk.threadConfig == old(disk.threadConfig)
  }

  /** The job `j` has been through a start with command `cmd`: it holds an executor (`prev`, or a
      new one when there was none), a new process runs `cmd` unless the previous process
      (`prevProcess`) was still running (`wasBusy`) or spawning failed, and the start counts as
      successful (`ok`) unless spawning failed. */
  twostate predicate Started(new j: Mission, prev: Executor?, wasBusy: bool, prevProcess: Process?,
                             cmd: string, spawnFails: bool, ok: bool)
    reads j, j.executor, ExecutorProcess(j)
  {
    j.executor != null
    && (prev != null ==> j.executor == prev)
    && (prev == null ==> fresh(j.executor))
    && (ok <==> wasBusy || !spawnFails)
    && (!wasBusy && !spawnFails ==>
          fresh(j.executor.process) && j.executor.process.command == cmd && j.executor.process.Alive())
    && (wasBusy || spawnFails ==> j.executor.process == prevProcess)
    && (ok ==> j.running && j.state == "running")
  }

  /** The store and the descriptor files after a successful start: the `running` status is
      reported and the descriptor written. */
  function LaunchEffect(s: Store, v: FsView, md: string, outputFile: string, final: Descriptor, now: int)
    : (Store, map<string, Doc<Descriptor>>)
  {
    WriteEffect(Reported(s, v, md, None, None, Some("running"), now), v, md, outputFile, final, now)
  }

  /** The common tail of `_start_single_if_available` and `_start_batch_if_available`: create the
      executor when missing, run `cmd`, and on success mark the job running, report and write it. */
  method Launch(j: Mission, cmd: string, store: ProgressStore, disk: Disk, now: int, spawnFails: bool) returns (ok: bool)
    requires j.outputFile.Some?
    modifies j, ExecutorOf(j), store, disk
    ensures Started(j, old(j.executor), old(j.executor != null && j.executor.Busy()), old(ExecutorProcess(j)), cmd, spawnFails, ok)
    ensures !ok ==> j.running == old(j.running) && j.state == old(j.state)
    ensures KeptDir(j) && DiskKept(disk) && LaunchOutcome(j, store, disk, now, ok)
  {
    if j.executor == null {
      j.executor := new Executor();
    }
    var raised := j.executor.ExecuteCommand(cmd, spawnFails);
    if raised {
      return false;
    }
    j.running := true;
    j.state := "running";
    j.UpdateProgress(None, None, Some("running"), store, disk, now);
    j.Write(store, disk, now);
    return true;
  }

  /** The store and the descriptor files after a start of `j`: changed only when it succeeded. */
  twostate predicate LaunchOutcome(new j: Mission, store: ProgressStore, disk: Disk, now: int, ok: bool)
    reads j, store, disk
  {
    j.outputFile.Some?
    && (store.State(), disk.docs) == (if ok then LaunchEffect(old(store.State()), old(disk.View()), j.missionDir,
                                                              j.outputFile.value, j.Describe(None), now)
                                      else (old(store.State()), old(disk.docs)))
  }

  /** `j` has been started on its own with the single-job command built from its settings. */
  twostate predicate SingleStarted(j: Mission, cwd: string, store: ProgressStore, disk: Disk, now: int,
                                   spawnFails: bool, ok: bool)
    reads j, j.executor, ExecutorProcess(j), store, disk
  {
    KeptDir(j)
    && Started(j, old(j.executor), old(j.executor != null && j.executor.Busy()), old(ExecutorProcess(j)),
               JoinWith(SingleCommandParts(cwd, j.presetName, j.inputDir, j.outputDir, j.outputFormat, j.debug), " "),
               spawnFails, ok)
    && (!ok ==> j.running == old(j.running) && j.state == old(j.state))
  }

  /** `bm` is a new batch job merging `batch` behind the head `first`, started with the batch
      command. */
  twostate predicate BatchStarted(new bm: Mission, first: Mission, batch: seq<Mission>, cwd: string,
                                  store: ProgressStore, disk: Disk, now: int, spawnFails: bool, ok: bool)
    reads bm, bm.executor, ExecutorProcess(bm), store, disk
  {
    fresh(bm) && first.outputFile.Some?
    && bm.inputDirs == InputDirsOf(batch)
    && bm.outputDir == Join(Dirname(first.outputDir), "batch_output")
    && bm.outputFile == first.outputFile && bm.missionDir == Dirname(first.outputFile.value)
    && bm.inputDir == first.inputDir && bm.presetName == first.presetName
    && bm.outputFormat == first.outputFormat && bm.debug == first.debug
    && bm.skipExistingFiles == first.skipExistingFiles && bm.identity == first.identity
    && Started(bm, old(first.executor), old(first.executor != null && first.executor.Busy()), old(ExecutorProcess(first)),
               JoinWith(BatchCommandParts(cwd, bm.presetName, bm.outputDir, bm.outputFormat, bm.inputDirs, bm.debug), " "),
               spawnFails, ok)
    && (!ok ==> bm.running == old(first.running) && bm.state == old(first.state))
  }

  /** The removing loop of `_start_batch_if_available`: `list.remove` of each collected job. */
  method RemoveEach(xs: seq<Mission>, batch: seq<Mission>) returns (r: seq<Mission>)
    requires Distinct(xs) && Distinct(batch)
    ensures r == FilterOut(xs, batch)
  {
    r := xs;
    FilterOutNothing(xs);
    var k := 0;
    while k < |batch|
      invariant 0 <= k <= |batch|
      invariant r == FilterOut(xs, batch[..k])
    {
      assert batch[k] !in batch[..k];
      RemoveFirstFilterOut(xs, batch[..k], batch[k]);
      assert batch[..k + 1] == batch[..k] + [batch[k]];
      r := RemoveFirst(r, batch[k]);
      k := k + 1;
    }
    assert batch[..|batch|] == batch;
  }

  /** The launching tail of `_start_batch_if_available`: the batch command is built from the
      batch job's settings and run. */
  method LaunchBatch(bm: Mission, cwd: string, store: ProgressStore, disk: Disk, now: int, spawnFails: bool) returns (ok: bool)
    requires bm.outputFile.Some?
    modifies bm, ExecutorOf(bm), store, disk
    ensures Started(bm, old(bm.executor), old(bm.executor != null && bm.executor.Busy()), old(ExecutorProcess(bm)),
                    JoinWith(BatchCommandParts(cwd, bm.presetName, bm.outputDir, bm.outputFormat, bm.inputDirs, bm.debug), " "),
                    spawnFails, ok)
    ensures !ok ==> bm.running == old(bm.running) && bm.state == old(bm.state)
    ensures KeptDir(bm) && DiskKept(disk) && LaunchOutcome(bm, store, disk, now, ok)
  {
    var parts := BatchCommand(cwd, bm.presetName, bm.outputDir, bm.outputFormat, bm.inputDirs, bm.debug);
    ok := Launch(bm, JoinWith(parts, " "), store, disk, now, spawnFails);
  }

  /** `cp` of the queue head turned into the batch job over `batch`. */
  method MakeBatchMission(first: Mission, batch: seq<Mission>) returns (bm: Mission)
    requires first.outputFile.Some?
    ensures fresh(bm) && bm.inputDirs == InputDirsOf(batch)
    ensures bm.outputDir == Join(Dirname(first.outputDir), "batch_output")
    ensures bm.missionDir == Dirname(first.outputFile.value)
    ensures bm.inputDir == first.inputDir && bm.presetName == first.presetName && bm.outputFormat == first.outputFormat
    ensures bm.skipExistingFiles == first.skipExistingFiles && bm.state == first.state && bm.identity == first.identity
    ensures bm.running == first.running && bm.debug == first.debug && bm.outputFile == first.outputFile
    ensures bm.executor == first.executor
  {
    // `cp` followed by the three assignments of `_start_batch_if_available`
    bm := new Mission.Of(first.inputDir, InputDirsOf(batch), Join(Dirname(first.outputDir), "batch_output"),
                         first.presetName, first.outputFormat, first.skipExistingFiles, first.state, first.identity,
                         first.running, first.debug, first.outputFile, first.executor, Dirname(first.outputFile.value));
  }

  /** The command-building loop of `_start_batch_if_available`. */
  method BatchCommand(cwd: string, presetName: string, outputDir: string, outputFormat: string,
                      inputs: seq<string>, debug: bool) returns (parts: seq<string>)
    ensures parts == BatchCommandParts(cwd, presetName, outputDir, outputFormat, inputs, debug)
  {
    var args: seq<string> := [];
    var i := 0;
    while i < |inputs|
      invariant 0 <= i <= |inputs|
      invariant args == InputArgs(inputs[..i])
    {
      InputArgsSnoc(inputs[..i], inputs[i]);
      TakeSnoc(inputs, i);
      args := args + ["-i", Quote(inputs[i])];
      i := i + 1;
    }
    assert inputs[..|inputs|] == inputs;
    parts := BatchCommandHead(cwd, presetName, outputDir, outputFormat) + args;
    if debug {
      parts := parts + ["--debug"];
    }
  }

  /** The launching part of `_start_single_if_available`. */
  method StartOne(j: Mission, cwd: string, store: ProgressStore, disk: Disk, now: int, spawnFails: bool) returns (ok: bool)
    requires j.outputFile.Some?
    modifies j, ExecutorOf(j), store, disk
    ensures DiskKept(disk) && SingleStarted(j, cwd, store, disk, now, spawnFails, ok)
    ensures LaunchOutcome(j, store, disk, now, ok)
  {
    var parts := SingleCommandParts(cwd, j.presetName, j.inputDir, j.outputDir, j.outputFormat, j.debug);
    ok := Launch(j, JoinWith(parts, " "), store, disk, now, spawnFails);
  }
}
