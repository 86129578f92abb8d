/** The older stand-alone worker `scripts/preset_infer_cli.py`. It always checks for existing
    results, keeps its scratch folders under a fixed cache root, and does not make
    `step_1_output` beforehand. Its step loop tests for the last step before it tests for a
    one-step preset, so a one-step preset reads `step_1_output` instead of its input. The step loop
    is kept here as written, and `RunMain` runs it; the worker in `clientui` orders the two tests
    the other way round. */
module ScriptsPresetCli {
  import opened Wrappers
  import opened Strings
  import opened Paths
  import opened Disk
  import opened PresetCli

  /** The cache folder the scratch folders live under. */
  const CacheRoot: string := "E:/MSSTcache"

  /** Where step `k` reads as written: a one-step preset reads `step_1_output`. */
  function AsWrittenInput(r: Route, k: nat): string {
    if r.n == 1 then r.stepDir(1) else RoutedInput(r, k)
  }

  /** The first `upto` steps as written: only a one-step preset differs from the routing of
      `RunEvents`, by the folder its step reads. */
  function AsWrittenEvents(r: Route, upto: nat): seq<Event> {
    if r.n == 1 && upto > 0 then [Infer(0, r.stepDir(1), r.store)] else RunEvents(r, upto)
  }

  /** The rerouting of step `k` as written, with its step appended to the trace. */
  method RerouteAsWritten(r: Route, k: nat, inputToUse: string, tmpStoreDir: string, events: seq<Event>)
    returns (events': seq<Event>, input: string, output: string)
    requires k < r.n
    requires k == 0 ==> inputToUse == r.initial && tmpStoreDir == r.stepDir(1)
    requires k > 0 ==> inputToUse == AsWrittenInput(r, k - 1) && tmpStoreDir == RoutedOutput(r, k - 1)
    requires events == AsWrittenEvents(r, k)
    ensures input == AsWrittenInput(r, k) && output == RoutedOutput(r, k)
    ensures events' == AsWrittenEvents(r, k + 1)
  {
    var removal := [];
    input, output := inputToUse, tmpStoreDir;
    if 0 < k < r.n - 1 {
      if input != r.folder && input != r.tempInput {
        removal := [RemoveTree(input)];
      }
      input := output;
      output := r.stepDir(k + 1);
    }
    if k == r.n - 1 {
      input := output;
      output := r.store;
    }
    if r.n == 1 {
      output := r.store;
    } else {
      RunEventsNext(r, k);
    }
    events' := events + (removal + [Infer(k, input, output)]);
  }

  /** The step loop as written; it ends at the first step whose flag is 0. */
  method RouteStepsAsWritten(r: Route, results: seq<bool>) returns (events: seq<Event>, failed: Option<nat>)
    requires |results| == r.n
    ensures failed == FirstFailure(results)
    ensures events == AsWrittenEvents(r, Reached(results))
  {
    var inputToUse := r.initial;
    var tmpStoreDir := r.stepDir(1);
    events := [];
    var currentStep := 0;
    while currentStep < r.n
      invariant currentStep <= r.n
      invariant forall k :: 0 <= k < currentStep ==> results[k]
      invariant events == AsWrittenEvents(r, currentStep)
      invariant currentStep == 0 ==> inputToUse == r.initial && tmpStoreDir == r.stepDir(1)
      invariant currentStep > 0 ==> inputToUse == AsWrittenInput(r, currentStep - 1) && tmpStoreDir == RoutedOutput(r, currentStep - 1)
    {
      events, inputToUse, tmpStoreDir := RerouteAsWritten(r, currentStep, inputToUse, tmpStoreDir, events);
      if !results[currentStep] {
        FailureAt(results, currentStep);
        return events, Some(currentStep);
      }
      currentStep := currentStep + 1;
    }
    FailureNone(results);
    return events, None;
  }

  /** With more than one step the loop as written routes like `RouteSteps`. */
  lemma AsWrittenAgrees(r: Route, upto: nat)
    requires r.n != 1
    ensures AsWrittenEvents(r, upto) == RunEvents(r, upto)
    ensures forall k :: AsWrittenInput(r, k) == RoutedInput(r, k)
  {
  }

  /** A one-step preset over the default input folder `input`, whatever the task id and the final
      folder: as written, the step reads the scratch folder `step_1_output`, which nothing has made,
      and not `input`; the routing of `RouteSteps` reads `input`. */
  lemma OneStepReadsScratch(taskId: string, store: string)
    ensures var r := RouteOf(1, "input", TempPath(CacheRoot, taskId), store, []);
            AsWrittenEvents(r, 1)[0].input != "input" && RunEvents(r, 1)[0].input == "input"
  {
    var temp := TempPath(CacheRoot, taskId);
    var name := "step_" + NatToString(1) + "_output";
    assert |Join(temp, name)| >= |name| >= 13;
  }

  /** `main(input_folder, store_dir, preset_path, output_format)` over the preset's `flow`: the
      final folder is made, the existing-result check may end the run, the scratch folder is
      prepared, the steps run until one fails, and the scratch folder is removed after the last.
      `taskId` stands for the random task id and `results` for the flags the inference calls
      return. */
  method RunMain(dirs: map<string, seq<Entry>>, folder: string, store: string, flow: seq<Step>, fmt: string,
              taskId: string, results: seq<bool>)
    returns (outcome: Outcome, events: seq<Event>)
    requires |results| == |flow|
    ensures var plan := PlanOf(dirs, folder, store, flow, fmt, true);
            plan.Raises? ==> outcome == Raised && events == [MakeDirs(store)]
    ensures var plan := PlanOf(dirs, folder, store, flow, fmt, true);
            plan.AllPresent? ==> outcome == Skipped && events == [MakeDirs(store)]
    ensures var plan := PlanOf(dirs, folder, store, flow, fmt, true);
            var temp := TempPath(CacheRoot, taskId);
            plan.Process? ==>
              outcome == (if FirstFailure(results).Some? then Failed(FirstFailure(results).value) else Done)
              && events == [MakeDirs(store)] + SetupEvents(dirs, folder, temp, plan.missing)
                           + AsWrittenEvents(RouteOf(|flow|, folder, temp, store, plan.missing), Reached(results))
                           + (if outcome.Done? then [RemoveTree(temp)] else [])
    ensures outcome.Skipped? ==> forall e :: e in events ==> !e.Infer? && !e.Copy? && !e.RemoveTree?
  {
    events := [MakeDirs(store)];
    var plan := PlanInputs(dirs, folder, store, flow, fmt, true);
    if plan.Raises? {
      return Raised, events;
    }
    if plan.AllPresent? {
      return Skipped, events;
    }
    var temp := TempPath(CacheRoot, taskId);
    var setup := Prepare(dirs, folder, temp, plan.missing);
    var steps, failed := RouteStepsAsWritten(RouteOf(|flow|, folder, temp, store, plan.missing), results);
    events := events + setup + steps;
    if failed.Some? {
      return Failed(failed.value), events;
    }
    events := events + [RemoveTree(temp)];
    return Done, events;
  }
}
