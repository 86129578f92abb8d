/** The worker pipeline `clientui/preset_infer_cli.py`: it picks the inputs whose final results are
    still missing, routes each preset step from the previous step's output to the next step's
    folder, stops at the first failed step, and reports progress to the job folder. Filesystem
    effects are returned as a trace of events; the inference calls are opaque and their success
    flags are parameters. */
module PresetCli {
  import opened Wrappers
  import opened Strings
  import opened Paths
  import opened Disk
  import opened Queues
  import opened TaskProgress

  /** What the pipeline does to the filesystem and the models, in order. `Infer` runs step `step`
      reading `input` and writing the stem passed on to the next step to `output` (the stems kept
      for storage always go to the final folder). */
  datatype Event =
    | MakeDirs(path: string)
    | RemoveTree(path: string)
    | Copy(src: string, dst: string)
    | Infer(step: nat, input: string, output: string)

  /** How a run of `main` ends: an exception, the early return when every result exists, the
      return after a failed step, or the end of the flow. */
  datatype Outcome = Raised | Skipped | Failed(step: nat) | Done

  // ---------------------------------------------------------------- job folder discovery

  /** A name the glob `mission*.json` matches. */
  predicate IsDescriptorName(name: string) {
    StartsWith(name, "mission") && EndsWith(name, ".json")
  }

  predicate HasDescriptor(dirs: map<string, seq<Entry>>, d: string) {
    exists e :: e in ListingIn(dirs, d) && IsDescriptorName(e.name)
  }

  /** The job folder `update_progress` reports to: the input folder when it holds a descriptor,
      else its parent when that does, else none. */
  function JobDirOf(dirs: map<string, seq<Entry>>, folder: string): (d: Option<string>)
    ensures d.Some? ==> HasDescriptor(dirs, d.value) && (d.value == folder || d.value == Parent(folder))
    ensures HasDescriptor(dirs, folder) ==> d == Some(folder)
    ensures d.None? <==> !HasDescriptor(dirs, folder) && !HasDescriptor(dirs, Parent(folder))
  {
    if HasDescriptor(dirs, folder) then Some(folder)
    else if HasDescriptor(dirs, Parent(folder)) then Some(Parent(folder))
    else None
  }

  /** `update_progress(input_folder, processed_count)`: the processed count goes to the job
      folder's record when a job folder is found; otherwise nothing happens. */
  method ReportProgress(store: ProgressStore, disk: Disk, folder: string, count: int, now: int)
    modifies store
    ensures JobDirOf(disk.dirs, folder).None? ==> store.State() == old(store.State())
    ensures JobDirOf(disk.dirs, folder).Some? ==>
              store.State() == UpdateSpec(old(store.State()), disk.View(), JobDirOf(disk.dirs, folder).value,
                                          NoChange.(processedFiles := Some(count)), now).1
  {
    var missionDir := None;
    if HasDescriptor(disk.dirs, folder) {
      missionDir := Some(folder);
    } else if HasDescriptor(disk.dirs, Parent(folder)) {
      missionDir := Some(Parent(folder));
    }
    if missionDir.Some? {
      var _ := store.UpdateProgress(missionDir.value, NoChange.(processedFiles := Some(count)), disk, now);
    }
  }

  // ---------------------------------------------------------------- final names

  /** What the steps add to a name: `_<input_to_next>` for every step that has one, in order. */
  function Suffixes(flow: seq<Step>): string
    decreases |flow|
  {
    if flow == [] then ""
    else
      Suffixes(flow[..|flow| - 1]) + Suffix(flow[|flow| - 1])
  }

  /** What one step adds to the names: `_<input_to_next>` when it passes something on. */
  function Suffix(s: Step): string {
    if s.inputToNext != "" then "_" + s.inputToNext else ""
  }

  lemma SuffixesSnoc(flow: seq<Step>, s: Step)
    ensures Suffixes(flow + [s]) == Suffixes(flow) + Suffix(s)
  {
    assert (flow + [s])[..|flow|] == flow;
  }

  /** Regrouping a concatenation of names, stated on its own to keep the file-name proofs small. */
  lemma StringAssoc(x: string, y: string, z: string)
    ensures x + y + z == x + (y + z)
  {
  }

  /** The suffixes of two flows run one after the other are those of the first, then the second. */
  lemma {:induction false} SuffixesAppend(a: seq<Step>, b: seq<Step>)
    ensures Suffixes(a + b) == Suffixes(a) + Suffixes(b)
    decreases |b|
  {
    if b == [] {
      assert a + b == a;
    } else {
      var front, last := b[..|b| - 1], b[|b| - 1];
      var af := a + front;
      assert b == front + [last];
      assert a + b == af + [last];
      SuffixesSnoc(af, last);
      SuffixesAppend(a, front);
      SuffixesSnoc(front, last);
      StringAssoc(Suffixes(a), Suffixes(front), Suffix(last));
    }
  }

  /** A flow whose steps pass nothing on leaves names as they are. */
  lemma {:induction false} SuffixesNone(flow: seq<Step>)
    requires forall k :: 0 <= k < |flow| ==> flow[k].inputToNext == ""
    ensures Suffixes(flow) == ""
    decreases |flow|
  {
    if flow != [] {
      SuffixesNone(flow[..|flow| - 1]);
    }
  }

  /** The name a file has after every step: the suffixes appended to `base` one step at a time. */
  method FinalFilename(base: string, flow: seq<Step>) returns (name: string)
    ensures name == base + Suffixes(flow)
  {
    name := base;
    for i := 0 to |flow|
      invariant name == base + Suffixes(flow[..i])
    {
      assert flow[..i + 1][..i] == flow[..i];
      if flow[i].inputToNext != "" {
        name := name + "_" + flow[i].inputToNext;
      }
    }
    assert flow[..|flow|] == flow;
  }

  /** The final result of input `x`: its base name, the suffixes and the output format. */
  function ExpectedOutput(x: string, flow: seq<Step>, fmt: string): string {
    SplitextRoot(x) + Suffixes(flow) + "." + fmt
  }

  /** `os.path.exists(join(dir, name))`, read from `dir`'s listing. */
  predicate Present(dirs: map<string, seq<Entry>>, dir: string, name: string) {
    exists e :: e in ListingIn(dirs, dir) && e.name == name
  }

  // ---------------------------------------------------------------- missing inputs

  /** The names of a listing the pipeline takes for input audio (by suffix, files or not). */
  function AudioNames(es: seq<Entry>): seq<string>
    decreases |es|
  {
    if es == [] then []
    else
      var e := es[|es| - 1];
      AudioNames(es[..|es| - 1]) + (if HasExt(e.name, WorkerAudioExts) then [e.name] else [])
  }

  /** A name is an input exactly when the listing has it and it carries an audio suffix. */
  lemma {:induction false} AudioNamesMembers(es: seq<Entry>, x: string)
    ensures x in AudioNames(es) <==> HasExt(x, WorkerAudioExts) && exists e :: e in es && e.name == x
    decreases |es|
  {
    if es != [] {
      var n := |es| - 1;
      AudioNamesMembers(es[..n], x);
      SplitLast(es);
    }
  }

  /** The inputs of `names` whose final result is absent, in listing order. */
  function Missing(names: seq<string>, dirs: map<string, seq<Entry>>, store: string, flow: seq<Step>, fmt: string): seq<string>
    decreases |names|
  {
    if names == [] then []
    else
      var x := names[|names| - 1];
      Missing(names[..|names| - 1], dirs, store, flow, fmt)
        + (if Present(dirs, store, ExpectedOutput(x, flow, fmt)) then [] else [x])
  }

  /** An input is missing exactly when it is listed and its final result is absent. */
  lemma {:induction false} MissingMembers(names: seq<string>, dirs: map<string, seq<Entry>>, store: string,
                                          flow: seq<Step>, fmt: string, x: string)
    ensures x in Missing(names, dirs, store, flow, fmt) <==>
              x in names && !Present(dirs, store, ExpectedOutput(x, flow, fmt))
    decreases |names|
  {
    if names != [] {
      var n := |names| - 1;
      MissingMembers(names[..n], dirs, store, flow, fmt, x);
      SplitLast(names);
    }
  }

  /** The missing-result loop of `main`: every input whose final result is absent is recorded, and
      `allExist` stays set exactly when none is. */
  method MissingInputs(names: seq<string>, dirs: map<string, seq<Entry>>, store: string, flow: seq<Step>, fmt: string)
    returns (missing: seq<string>, allExist: bool)
    ensures missing == Missing(names, dirs, store, flow, fmt)
    ensures allExist <==> missing == []
  {
    allExist := true;
    missing := [];
    for i := 0 to |names|
      invariant missing == Missing(names[..i], dirs, store, flow, fmt)
      invariant allExist <==> missing == []
    {
      assert names[..i + 1][..i] == names[..i];
      var finalName := FinalFilename(SplitextRoot(names[i]), flow);
      var outputFile := finalName + "." + fmt;
      if !Present(dirs, store, outputFile) {
        allExist := false;
        missing := missing + [names[i]];
      }
    }
    assert names[..|names|] == names;
  }

  /** What the skip check of `main` decides: inputs to process (none meaning the whole input
      folder), that every result exists, or an exception. */
  datatype Plan = Raises | AllPresent | Process(missing: seq<string>)

  /** The skip check: it runs only with skip on; the last step of an empty flow raises; without
      stored outputs in the last step nothing is skipped; listing a missing folder raises. */
  function PlanOf(dirs: map<string, seq<Entry>>, folder: string, store: string, flow: seq<Step>, fmt: string,
                  skip: bool): Plan
  {
    if !skip then Process([])
    else if flow == [] then Raises
    else if flow[|flow| - 1].outputToStorage == [] then Process([])
    else if folder !in dirs then Raises
    else
      var names := AudioNames(dirs[folder]);
      if names == [] then Process([])
      else
        var m := Missing(names, dirs, store, flow, fmt);
        if m == [] then AllPresent else Process(m)
  }

  /** `main` returns early exactly when skip is on, the last step stores outputs, the input folder
      has audio inputs, and every one of them has its final result. */
  lemma PlanAllPresent(dirs: map<string, seq<Entry>>, folder: string, store: string, flow: seq<Step>, fmt: string,
                       skip: bool)
    ensures PlanOf(dirs, folder, store, flow, fmt, skip) == AllPresent <==>
              skip && flow != [] && flow[|flow| - 1].outputToStorage != [] && folder in dirs
              && AudioNames(dirs[folder]) != []
              && forall x :: x in AudioNames(dirs[folder]) ==> Present(dirs, store, ExpectedOutput(x, flow, fmt))
  {
    if skip && flow != [] && flow[|flow| - 1].outputToStorage != [] && folder in dirs {
      var names := AudioNames(dirs[folder]);
      forall x
        ensures x in Missing(names, dirs, store, flow, fmt) <==>
                  x in names && !Present(dirs, store, ExpectedOutput(x, flow, fmt))
      {
        MissingMembers(names, dirs, store, flow, fmt, x);
      }
      if Missing(names, dirs, store, flow, fmt) != [] {
        var x := Missing(names, dirs, store, flow, fmt)[0];
        assert x in Missing(names, dirs, store, flow, fmt);
      }
    }
  }

  /** Inputs are singled out only with skip on, and then they are exactly the audio inputs whose
      final result is absent (none singled out means the whole input folder is processed). */
  lemma PlanProcess(dirs: map<string, seq<Entry>>, folder: string, store: string, flow: seq<Step>, fmt: string,
                    skip: bool, x: string)
    requires PlanOf(dirs, folder, store, flow, fmt, skip).Process?
    requires PlanOf(dirs, folder, store, flow, fmt, skip).missing != []
    ensures skip && folder in dirs
    ensures x in PlanOf(dirs, folder, store, flow, fmt, skip).missing <==>
              x in AudioNames(dirs[folder]) && !Present(dirs, store, ExpectedOutput(x, flow, fmt))
  {
    MissingMembers(AudioNames(dirs[folder]), dirs, store, flow, fmt, x);
  }

  /** The skip check of `main`, one input at a time. */
  method PlanInputs(dirs: map<string, seq<Entry>>, folder: string, store: string, flow: seq<Step>, fmt: string,
                    skip: bool) returns (plan: Plan)
    ensures plan == PlanOf(dirs, folder, store, flow, fmt, skip)
  {
    if !skip {
      return Process([]);
    }
    if flow == [] {
      return Raises;
    }
    var finalOutputs := flow[|flow| - 1].outputToStorage;
    if finalOutputs == [] {
      return Process([]);
    }
    if folder !in dirs {
      return Raises;
    }
    var inputFiles := AudioInputs(dirs[folder]);
    if inputFiles == [] {
      return Process([]);
    }
    var missing, allExist := MissingInputs(inputFiles, dirs, store, flow, fmt);
    if allExist {
      return AllPresent;
    }
    return Process(missing);
  }

  // ---------------------------------------------------------------- the working folders

  /** `<cache>/preset_task_<id>`, the run's scratch folder. */
  function TempPath(cacheDir: string, taskId: string): string {
    Join(cacheDir, "preset_task_" + taskId)
  }

  function TempInput(temp: string): string {
    Join(temp, "temp_input")
  }

  /** `step_<k>_output` under the scratch folder. */
  function StepDir(temp: string, k: nat): string {
    Join(temp, "step_" + NatToString(k) + "_output")
  }

  /** The copies of the missing inputs into `temp_input`, one per input, in order. */
  function CopyEvents(folder: string, tin: string, files: seq<string>): (r: seq<Event>)
    ensures |r| == |files|
    ensures forall k :: 0 <= k < |files| ==> r[k] == Copy(Join(folder, files[k]), Join(tin, files[k]))
    decreases |files|
  {
    if files == [] then []
    else CopyEvents(folder, tin, files[..|files| - 1]) + [Copy(Join(folder, files[|files| - 1]), Join(tin, files[|files| - 1]))]
  }

  /** The copy loop of `main`. */
  method CopyMissing(folder: string, tin: string, files: seq<string>) returns (copies: seq<Event>)
    ensures copies == CopyEvents(folder, tin, files)
  {
    copies := [];
    for i := 0 to |files|
      invariant copies == CopyEvents(folder, tin, files[..i])
    {
      assert files[..i + 1][..i] == files[..i];
      copies := copies + [Copy(Join(folder, files[i]), Join(tin, files[i]))];
    }
    assert files[..|files|] == files;
  }

  /** Where the first step reads: the copied inputs when some are missing, else the input folder. */
  function InitialInput(folder: string, temp: string, missing: seq<string>): string {
    if missing == [] then folder else TempInput(temp)
  }

  /** The scratch folder is made afresh; with missing inputs, `temp_input` is made and holds copies
      of exactly those inputs. */
  function SetupEvents(dirs: map<string, seq<Entry>>, folder: string, temp: string, missing: seq<string>): seq<Event> {
    (if temp in dirs then [RemoveTree(temp)] else []) + [MakeDirs(temp)]
      + (if missing == [] then [] else [MakeDirs(TempInput(temp))] + CopyEvents(folder, TempInput(temp), missing))
  }

  // ---------------------------------------------------------------- step routing

  /** The folders a run routes its `n` steps through: the input folder, `temp_input`, where the
      first step reads, the scratch folders (`stepDir(k)` is `step_<k>_output`) and the final
      folder. */
  datatype Route = Route(n: nat, folder: string, tempInput: string, initial: string, stepDir: nat -> string, store: string)

  /** The scratch step folders under `temp`. */
  function StepDirs(temp: string): nat -> string {
    (k: nat) => StepDir(temp, k)
  }

  /** The route of `main` over `n` steps, with scratch folder `temp` and the missing inputs found. */
  function RouteOf(n: nat, folder: string, temp: string, store: string, missing: seq<string>): Route {
    Route(n, folder, TempInput(temp), InitialInput(folder, temp, missing), StepDirs(temp), store)
  }

  /** Where step `k` reads: the first step reads the initial input, every later one the folder the
      step before it wrote. */
  function RoutedInput(r: Route, k: nat): string {
    if k == 0 then r.initial else r.stepDir(k)
  }

  /** Where step `k` writes what it passes on: the last step writes to the final folder, every
      other one to `step_<k+1>_output`. */
  function RoutedOutput(r: Route, k: nat): string {
    if k + 1 == r.n then r.store else r.stepDir(k + 1)
  }

  /** The folders routing never removes: the input folder and `temp_input`. */
  predicate Kept(r: Route, d: string) {
    d == r.folder || d == r.tempInput
  }

  /** What step `k` does: a middle step first removes the folder the step before it read (unless
      it must be kept), then the step runs. */
  function StepEvents(r: Route, k: nat): seq<Event> {
    (if 0 < k && k + 1 < r.n && !Kept(r, RoutedInput(r, k - 1)) then [RemoveTree(RoutedInput(r, k - 1))] else [])
      + [Infer(k, RoutedInput(r, k), RoutedOutput(r, k))]
  }

  /** The first `upto` steps, in order. */
  function RunEvents(r: Route, upto: nat): seq<Event>
    decreases upto
  {
    if upto == 0 then [] else RunEvents(r, upto - 1) + StepEvents(r, upto - 1)
  }

  lemma RunEventsNext(r: Route, k: nat)
    ensures RunEvents(r, k + 1) == RunEvents(r, k) + StepEvents(r, k)
  {
  }

  /** Every one of the first `upto` steps runs, reading and writing where it is routed. */
  lemma {:induction false} RunEventsSteps(r: Route, upto: nat)
    ensures forall k :: 0 <= k < upto ==> Infer(k, RoutedInput(r, k), RoutedOutput(r, k)) in RunEvents(r, upto)
    decreases upto
  {
    if upto > 0 {
      RunEventsSteps(r, upto - 1);
      var prev := RunEvents(r, upto - 1);
      var step := StepEvents(r, upto - 1);
      assert RunEvents(r, upto) == prev + step;
      assert step[|step| - 1] == Infer(upto - 1, RoutedInput(r, upto - 1), RoutedOutput(r, upto - 1));
      forall k | 0 <= k < upto
        ensures Infer(k, RoutedInput(r, k), RoutedOutput(r, k)) in prev + step
      {
        if k < upto - 1 {
          assert Infer(k, RoutedInput(r, k), RoutedOutput(r, k)) in prev;
        }
      }
    }
  }

  /** Every step that runs is one of the first `upto` and reads and writes where it is routed. */
  lemma {:induction false} RunEventsRouted(r: Route, upto: nat)
    ensures forall e :: e in RunEvents(r, upto) && e.Infer? ==>
              e.step < upto && e.input == RoutedInput(r, e.step) && e.output == RoutedOutput(r, e.step)
    decreases upto
  {
    if upto > 0 {
      RunEventsRouted(r, upto - 1);
      var prev := RunEvents(r, upto - 1);
      var step := StepEvents(r, upto - 1);
      assert RunEvents(r, upto) == prev + step;
      forall e: Event | e in prev + step && e.Infer?
        ensures e.step < upto && e.input == RoutedInput(r, e.step) && e.output == RoutedOutput(r, e.step)
      {
        if e !in prev {
          assert e in step;
        }
      }
    }
  }

  /** Routing never removes the input folder or `temp_input`. */
  lemma {:induction false} RunEventsKeep(r: Route, upto: nat)
    ensures forall e :: e in RunEvents(r, upto) && e.RemoveTree? ==> !Kept(r, e.path)
    decreases upto
  {
    if upto > 0 {
      RunEventsKeep(r, upto - 1);
      var prev := RunEvents(r, upto - 1);
      var step := StepEvents(r, upto - 1);
      assert RunEvents(r, upto) == prev + step;
      forall e: Event | e in prev + step && e.RemoveTree?
        ensures !Kept(r, e.path)
      {
        if e !in prev {
          assert e in step;
        }
      }
    }
  }

  /** Each step after the first reads what the step before it wrote. */
  lemma RoutingChains(r: Route)
    ensures forall k :: 0 < k < r.n ==> RoutedInput(r, k) == RoutedOutput(r, k - 1)
  {
  }

  /** The index of the first failed step, if any. */
  function FirstFailure(results: seq<bool>): (f: Option<nat>)
    ensures f.Some? ==> f.value < |results| && !results[f.value] && forall k :: 0 <= k < f.value ==> results[k]
    ensures f.None? ==> forall k :: 0 <= k < |results| ==> results[k]
    decreases |results|
  {
    if results == [] then None
    else if !results[0] then Some(0)
    else
      var t := FirstFailure(results[1..]);
      if t.None? then None else Some(t.value + 1)
  }

  /** How many steps run: up to and including the first failed one. */
  function Reached(results: seq<bool>): nat {
    if FirstFailure(results).Some? then FirstFailure(results).value + 1 else |results|
  }

  /** The first step whose flag is 0 is the failure, and the steps up to it are run. */
  lemma FailureAt(results: seq<bool>, k: nat)
    requires k < |results| && !results[k] && forall j :: 0 <= j < k ==> results[j]
    ensures FirstFailure(results) == Some(k) && Reached(results) == k + 1
  {
  }

  /** Without a 0 flag there is no failure and every step runs. */
  lemma FailureNone(results: seq<bool>)
    requires forall j :: 0 <= j < |results| ==> results[j]
    ensures FirstFailure(results) == None && Reached(results) == |results|
  {
  }

  /** The rerouting at the head of step `k` and the step itself, appended to the trace: a middle
      step removes the folder the step before it read (unless it must be kept) and moves one folder
      on; the last step reads what the step before it wrote and writes to the final folder. */
  method Reroute(r: Route, k: nat, inputToUse: string, tmpStoreDir: string, events: seq<Event>)
    returns (events': seq<Event>, input: string, output: string)
    requires k < r.n
    requires k == 0 ==> inputToUse == r.initial && tmpStoreDir == r.stepDir(1)
    requires k > 0 ==> inputToUse == RoutedInput(r, k - 1) && tmpStoreDir == RoutedOutput(r, k - 1)
    requires events == RunEvents(r, k)
    ensures input == RoutedInput(r, k) && output == RoutedOutput(r, k)
    ensures events' == RunEvents(r, k + 1)
  {
    var removal := [];
    input, output := inputToUse, tmpStoreDir;
    if 0 < k < r.n - 1 {
      if input != r.folder && input != r.tempInput {
        removal := [RemoveTree(input)];
      }
      input := output;
      output := r.stepDir(k + 1);
    }
    if r.n == 1 {
      output := r.store;
    } else if k == r.n - 1 {
      input := output;
      output := r.store;
    }
    RunEventsNext(r, k);
    events' := events + (removal + [Infer(k, input, output)]);
  }

  /** The step loop of `main`: `input_to_use` and `tmp_store_dir` are rerouted before each step, and
      the loop ends at the first step whose flag is 0. `results` holds the flags of the inference
      calls. The source's `step` and `current_step` are always equal; one counter stands for both. */
  method RouteSteps(r: Route, results: seq<bool>) returns (events: seq<Event>, failed: Option<nat>)
    requires |results| == r.n
    ensures failed == FirstFailure(results)
    ensures events == RunEvents(r, Reached(results))
  {
    var inputToUse := r.initial;
    var tmpStoreDir := r.stepDir(1);
    events := [];
    var currentStep := 0;
    while currentStep < r.n
      invariant currentStep <= r.n
      invariant forall k :: 0 <= k < currentStep ==> results[k]
      invariant events == RunEvents(r, currentStep)
      invariant currentStep == 0 ==> inputToUse == r.initial && tmpStoreDir == r.stepDir(1)
      invariant currentStep > 0 ==> inputToUse == RoutedInput(r, currentStep - 1) && tmpStoreDir == RoutedOutput(r, currentStep - 1)
    {
      events, inputToUse, tmpStoreDir := Reroute(r, currentStep, inputToUse, tmpStoreDir, events);
      if !results[currentStep] {
        FailureAt(results, currentStep);
        return events, Some(currentStep);
      }
      currentStep := currentStep + 1;
    }
    FailureNone(results);
    return events, None;
  }

  /** The first step reads the initial input: without missing inputs that is the input folder, and
      with some it is `temp_input`, which holds copies of exactly those; a single step writes
      straight to the final folder. */
  lemma FirstStepReadsPlan(n: nat, folder: string, temp: string, store: string, missing: seq<string>)
    requires n > 0
    ensures var r := RouteOf(n, folder, temp, store, missing);
            RunEvents(r, 1) == [Infer(0, InitialInput(folder, temp, missing), RoutedOutput(r, 0))]
    ensures n == 1 ==> RoutedOutput(RouteOf(n, folder, temp, store, missing), 0) == store
  {
  }

  // ---------------------------------------------------------------- main

  /** The preparation of the scratch folder in `main`. */
  method Prepare(dirs: map<string, seq<Entry>>, folder: string, temp: string, missing: seq<string>)
    returns (events: seq<Event>)
    ensures events == SetupEvents(dirs, folder, temp, missing)
  {
    events := [];
    if temp in dirs {
      events := [RemoveTree(temp)];
    }
    events := events + [MakeDirs(temp)];
    if missing != [] {
      var tin := TempInput(temp);
      var copies := CopyMissing(folder, tin, missing);
      events := events + ([MakeDirs(tin)] + copies);
    }
  }

  /** `main(input_folder, store_dir, preset_path, output_format, skip_existing_files)` over the
      preset's `flow`: the final folder is made, the skip check may end the run, the scratch folder
      is prepared (the first step then reads `temp_input` when inputs were found missing), the steps
      run until one fails, and the scratch folder is removed after the last.
      `cacheDir` and `taskId` stand for the configured cache folder and the random task id, and
      `results` for the flags the inference calls return. */
  method RunMain(dirs: map<string, seq<Entry>>, folder: string, store: string, flow: seq<Step>, fmt: string,
              skip: bool, cacheDir: string, taskId: string, results: seq<bool>)
    returns (outcome: Outcome, events: seq<Event>)
    requires |results| == |flow|
    ensures var plan := PlanOf(dirs, folder, store, flow, fmt, skip);
            plan.Raises? ==> outcome == Raised && events == [MakeDirs(store)]
    ensures var plan := PlanOf(dirs, folder, store, flow, fmt, skip);
            plan.AllPresent? ==> outcome == Skipped && events == [MakeDirs(store)]
    ensures var plan := PlanOf(dirs, folder, store, flow, fmt, skip);
            var temp := TempPath(cacheDir, taskId);
            plan.Process? ==>
              outcome == (if FirstFailure(results).Some? then Failed(FirstFailure(results).value) else Done)
              && events == [MakeDirs(store)] + SetupEvents(dirs, folder, temp, plan.missing) + [MakeDirs(StepDir(temp, 1))]
                           + RunEvents(RouteOf(|flow|, folder, temp, store, plan.missing), Reached(results))
                           + (if outcome.Done? then [RemoveTree(temp)] else [])
    ensures outcome.Skipped? ==> forall e :: e in events ==> !e.Infer? && !e.Copy? && !e.RemoveTree?
  {
    events := [MakeDirs(store)];
    var plan := PlanInputs(dirs, folder, store, flow, fmt, skip);
    if plan.Raises? {
      return Raised, events;
    }
    if plan.AllPresent? {
      return Skipped, events;
    }
    var temp := TempPath(cacheDir, taskId);
    var setup := Prepare(dirs, folder, temp, plan.missing);
    var steps, failed := RouteSteps(RouteOf(|flow|, folder, temp, store, plan.missing), results);
    events := events + setup + [MakeDirs(StepDir(temp, 1))] + steps;
    if failed.Some? {
      return Failed(failed.value), events;
    }
    events := events + [RemoveTree(temp)];
    return Done, events;
  }

  // ---------------------------------------------------------------- main_batch and the command line

  /** The result `main_batch` expects for input `x` and stored stem `s`: `<base>_<stem>.<format>`. */
  function BatchOutput(x: string, s: string, fmt: string): string {
    SplitextRoot(x) + "_" + s + "." + fmt
  }

  /** Every audio input of `folder` has its result for every stored stem. */
  predicate FolderDone(dirs: map<string, seq<Entry>>, folder: string, store: string, outs: seq<string>, fmt: string)
    requires folder in dirs
  {
    var names := AudioNames(dirs[folder]);
    forall j, s :: 0 <= j < |names| && 0 <= s < |outs| ==> Present(dirs, store, BatchOutput(names[j], outs[s], fmt))
  }

  /** The folder loop of the batch skip check: it stops at the first folder with a missing result,
      and listing a folder that does not exist raises (None). */
  function BatchCheck(dirs: map<string, seq<Entry>>, folders: seq<string>, store: string, outs: seq<string>, fmt: string): Option<bool>
    decreases |folders|
  {
    if folders == [] then Some(true)
    else if folders[0] !in dirs then None
    else if !FolderDone(dirs, folders[0], store, outs, fmt) then Some(false)
    else BatchCheck(dirs, folders[1..], store, outs, fmt)
  }

  /** The batch is skipped exactly when every folder exists and every result of every folder does. */
  lemma {:induction false} BatchCheckAll(dirs: map<string, seq<Entry>>, folders: seq<string>, store: string, outs: seq<string>, fmt: string)
    ensures BatchCheck(dirs, folders, store, outs, fmt) == Some(true) <==>
              forall i :: 0 <= i < |folders| ==> folders[i] in dirs && FolderDone(dirs, folders[i], store, outs, fmt)
    decreases |folders|
  {
    if folders != [] {
      BatchCheckAll(dirs, folders[1..], store, outs, fmt);
      assert forall i :: 1 <= i < |folders| ==> folders[1..][i - 1] == folders[i];
    }
  }

  /** The input audio of a listing, by suffix, in listing order. */
  method AudioInputs(es: seq<Entry>) returns (names: seq<string>)
    ensures names == AudioNames(es)
  {
    names := [];
    for i := 0 to |es|
      invariant names == AudioNames(es[..i])
    {
      assert es[..i + 1][..i] == es[..i];
      if HasExt(es[i].name, WorkerAudioExts) {
        names := names + [es[i].name];
      }
    }
    assert es[..|es|] == es;
  }

  /** The result loops for one folder; they stop at the first missing result. */
  method FolderOutputsExist(dirs: map<string, seq<Entry>>, folder: string, store: string, outs: seq<string>, fmt: string)
    returns (all: bool)
    requires folder in dirs
    ensures all == FolderDone(dirs, folder, store, outs, fmt)
  {
    var inputFiles := AudioInputs(dirs[folder]);
    all := true;
    var j := 0;
    while j < |inputFiles| && all
      invariant 0 <= j <= |inputFiles|
      invariant all ==> forall a, s :: 0 <= a < j && 0 <= s < |outs| ==> Present(dirs, store, BatchOutput(inputFiles[a], outs[s], fmt))
      invariant !all ==> !FolderDone(dirs, folder, store, outs, fmt)
    {
      var s := 0;
      while s < |outs| && all
        invariant 0 <= s <= |outs|
        invariant all ==> forall t :: 0 <= t < s ==> Present(dirs, store, BatchOutput(inputFiles[j], outs[t], fmt))
        invariant !all ==> !FolderDone(dirs, folder, store, outs, fmt)
      {
        if !Present(dirs, store, BatchOutput(inputFiles[j], outs[s], fmt)) {
          assert !FolderDone(dirs, folder, store, outs, fmt) by {
            assert inputFiles == AudioNames(dirs[folder]);
          }
          all := false;
        }
        s := s + 1;
      }
      j := j + 1;
    }
  }

  /** The skip check of `main_batch` over the input folders, stopping at the first folder with a
      missing result. */
  method BatchOutputsExist(dirs: map<string, seq<Entry>>, folders: seq<string>, store: string, outs: seq<string>, fmt: string)
    returns (r: Option<bool>)
    ensures r == BatchCheck(dirs, folders, store, outs, fmt)
  {
    var all := true;
    var i := 0;
    while i < |folders| && all
      invariant 0 <= i <= |folders|
      invariant all ==> BatchCheck(dirs, folders, store, outs, fmt) == BatchCheck(dirs, folders[i..], store, outs, fmt)
      invariant !all ==> BatchCheck(dirs, folders, store, outs, fmt) == Some(false)
    {
      if folders[i] !in dirs {
        return None;
      }
      all := FolderOutputsExist(dirs, folders[i], store, outs, fmt);
      assert folders[i..][1..] == folders[i + 1..];
      i := i + 1;
    }
    return Some(all);
  }

  /** What `main_batch` decides before any step: skip (Some(true)), run (Some(false)), or raise
      (None, for an empty flow or a missing folder). */
  function BatchSkip(dirs: map<string, seq<Entry>>, folders: seq<string>, store: string, flow: seq<Step>, fmt: string,
                     skip: bool): Option<bool>
  {
    if !skip then Some(false)
    else if flow == [] then None
    else if flow[|flow| - 1].outputToStorage == [] then Some(false)
    else BatchCheck(dirs, folders, store, flow[|flow| - 1].outputToStorage, fmt)
  }

  /** What the command line runs: `main_batch` over every `-i` folder, or `main` over one folder. */
  datatype Invocation = Single(folder: string, skip: bool) | Batch(folders: seq<string>, skip: bool)

  /** The dispatch at the end of the script: batch mode needs `--batch` and more than one `-i`;
      otherwise the first `-i` (or `input`) is processed; no skip flag is passed to either. */
  function Dispatch(batch: bool, inputs: seq<string>): (inv: Invocation)
    ensures inv.Batch? <==> batch && |inputs| > 1
    ensures inv.Batch? ==> inv.folders == inputs
    ensures inv.Single? ==> inv.folder == (if inputs != [] then inputs[0] else "input")
    ensures !inv.skip
  {
    if batch && |inputs| > 1 then Batch(inputs, false)
    else Single(if inputs != [] then inputs[0] else "input", false)
  }

  /** Run from the command line, neither entry point ever skips: skip is off, so `main` processes
      the whole input folder and `main_batch` runs. */
  lemma CommandLineNeverSkips(batch: bool, inputs: seq<string>, dirs: map<string, seq<Entry>>, store: string,
                              flow: seq<Step>, fmt: string)
    ensures var inv := Dispatch(batch, inputs);
            inv.Single? ==> PlanOf(dirs, inv.folder, store, flow, fmt, inv.skip) == Process([])
    ensures var inv := Dispatch(batch, inputs);
            inv.Batch? ==> BatchSkip(dirs, inv.folders, store, flow, fmt, inv.skip) == Some(false)
  {
  }
}
