/** The administrative actions of `clientui/actions.py` on the scheduler and the user table: the
    thread-count setting, deleting a job from both queues (killing it when it runs), the queue
    standing and the progress a job page shows, and the user list. */
module Actions {
  import opened Wrappers
  import opened Paths
  import opened Disk
  import opened Queues
  import opened TaskProgress
  import opened CommandExecutor
  import opened Missions
  import opened MissionManager
  import opened Client

  // ---------------------------------------------------------------- thread count

  const MinThreads: int := 1
  const MaxThreads: int := 10

  /** The thread count `thread_count_change` keeps: None counts as one, and the value is clamped
      to the range one to ten. */
  function ClampThreads(requested: Option<int>): (n: int)
    ensures MinThreads <= n <= MaxThreads
    ensures requested.None? ==> n == 1
    ensures requested.Some? && MinThreads <= requested.value <= MaxThreads ==> n == requested.value
    ensures requested.Some? && requested.value < MinThreads ==> n == MinThreads
    ensures requested.Some? && requested.value > MaxThreads ==> n == MaxThreads
  {
    var t := if requested.None? then 1 else requested.value;
    Min(Max(t, MinThreads), MaxThreads)
  }

  /** Clamping a clamped count changes nothing. */
  lemma ClampThreadsIdempotent(requested: Option<int>)
    ensures ClampThreads(Some(ClampThreads(requested))) == ClampThreads(requested)
  {
  }

  /** `thread_count_change`: the clamped count is written to `config.json` and becomes the
      scheduler's. */
  method ThreadCountChange(mgr: Manager, disk: Disk, requested: Option<int>)
    requires mgr.Valid()
    modifies mgr, disk
    ensures mgr.Valid() && mgr.threadCount == ClampThreads(requested) && disk.threadConfig == Some(mgr.threadCount)
    ensures mgr.missions == old(mgr.missions) && mgr.running == old(mgr.running)
    ensures mgr.batchMode == old(mgr.batchMode) && mgr.forceBatchMode == old(mgr.forceBatchMode)
    ensures disk.dirs == old(disk.dirs) && disk.docs == old(disk.docs) && disk.presets == old(disk.presets)
  {
    var n := ClampThreads(requested);
    WriteThreadCount(disk, n);
    mgr.threadCount := n;
  }

  // ---------------------------------------------------------------- users

  /** `get_user_list`: every user name but `admin`, in table order; `list.remove` raises when
      there is no `admin`. */
  function UserList(d: Dict<User>): (r: Result<seq<string>>)
    requires d.Valid()
    ensures r.Ok? <==> "admin" in d.values
    ensures r.Ok? ==> r.value == FilterOut(d.keys, ["admin"])
                      && forall n :: n in r.value <==> n in d.values && n != "admin"
  {
    if "admin" !in d.keys then Err("ValueError")
    else
      RemoveFirstDrops(d.keys, "admin");
      forall n ensures n in FilterOut(d.keys, ["admin"]) <==> n in d.keys && n != "admin" {
        FilterOutMembers(d.keys, ["admin"], n);
      }
      Ok(RemoveFirst(d.keys, "admin"))
  }

  /** `delete_user`: a user may not delete themself; otherwise the name leaves the table (nothing
      happens for an unknown name) and the table is written out. `choices` is the list offered
      afterwards. */
  method DeleteUser(t: UserTable, caller: string, name: string) returns (refused: bool, choices: Result<seq<string>>)
    requires t.Valid()
    modifies t
    ensures t.Valid() && choices == UserList(t.users)
    ensures refused <==> name == caller
    ensures refused ==> t.users == old(t.users) && t.file == old(t.file)
    ensures !refused ==> t.users == old(t.users).Pop(name) && t.file == t.users
  {
    if name == caller {
      return true, UserList(t.users);
    }
    t.users := t.users.Pop(name);
    t.file := t.users;
    return false, UserList(t.users);
  }

  // ---------------------------------------------------------------- deleting a job

  /** The job directory of each job, in order. */
  function DirsOf(ms: seq<Mission>): (ds: seq<string>)
    reads set m | m in ms
    ensures |ds| == |ms| && forall k :: 0 <= k < |ms| ==> ds[k] == ms[k].missionDir
    decreases |ms|
  {
    if ms == [] then [] else DirsOf(ms[..|ms| - 1]) + [ms[|ms| - 1].missionDir]
  }

  /** For each directory, whether it differs from `dir`. */
  function Keeps(ds: seq<string>, dir: string): (keep: seq<bool>)
    ensures |keep| == |ds| && forall k :: 0 <= k < |ds| ==> keep[k] == (ds[k] != dir)
    decreases |ds|
  {
    if ds == [] then [] else Keeps(ds[..|ds| - 1], dir) + [ds[|ds| - 1] != dir]
  }

  /** The jobs of `ms` whose job directory is not `dir`, in order. */
  function Unmatched(ms: seq<Mission>, dir: string): seq<Mission>
    reads set m | m in ms
  {
    Picked(ms, Keeps(DirsOf(ms), dir))
  }

  /** In a queue without repeats, a job stays exactly when its directory is not `dir`. */
  lemma UnmatchedMeaning(ms: seq<Mission>, dir: string)
    requires Distinct(ms)
    ensures forall k :: 0 <= k < |ms| ==> (ms[k] in Unmatched(ms, dir) <==> ms[k].missionDir != dir)
  {
    PickedFlags(ms, Keeps(DirsOf(ms), dir));
  }

  /** What is left of a queue without repeats has none, and comes from the queue. */
  lemma UnmatchedSub(ms: seq<Mission>, dir: string)
    requires Distinct(ms)
    ensures Distinct(Unmatched(ms, dir)) && forall m :: m in Unmatched(ms, dir) ==> m in ms
  {
    PickedDistinct(ms, Keeps(DirsOf(ms), dir));
  }

  /** An entry of a list without repeats is not picked from the part before it. */
  lemma PickedBefore<T>(xs: seq<T>, keep: seq<bool>, i: nat)
    requires |keep| == i < |xs| && Distinct(xs)
    ensures xs[i] !in Picked(xs, keep)
  {
    if xs[i] in Picked(xs, keep) {
      PickedFrom(xs, keep, xs[i]);
    }
  }

  /** Removing the first occurrence of `x` when the entries before it differ from it. */
  lemma {:induction false} RemoveFirstAt<T>(a: seq<T>, x: T, b: seq<T>)
    requires x !in a
    ensures RemoveFirst(a + [x] + b, x) == a + b
    decreases |a|
  {
    if a != [] {
      assert (a + [x] + b)[1..] == a[1..] + [x] + b;
      RemoveFirstAt(a[1..], x, b);
      assert [a[0]] + (a[1..] + b) == a + b;
    }
  }

  /** Flagging one more entry picks it or not, after what was picked before. */
  lemma PickedNext<T>(xs: seq<T>, keep: seq<bool>, i: nat)
    requires |keep| == |xs| && i < |xs|
    ensures Picked(xs, keep[..i + 1]) == Picked(xs, keep[..i]) + (if keep[i] then [xs[i]] else [])
  {
    assert keep[..i + 1][..i] == keep[..i] && keep[..i + 1][i] == keep[i];
  }

  /** One step of a removal loop over the copy `xs` of a queue: the `i`th entry is removed
      (`drop`) or kept, and the queue is the kept part of the visited prefix followed by the rest. */
  lemma RemovalStep<T>(xs: seq<T>, keep: seq<bool>, i: nat, drop: bool)
    requires |keep| == |xs| && i < |xs| && Distinct(xs) && keep[i] == !drop
    ensures drop ==> RemoveFirst(Picked(xs, keep[..i]) + xs[i..], xs[i]) == Picked(xs, keep[..i + 1]) + xs[i + 1..]
    ensures !drop ==> Picked(xs, keep[..i]) + xs[i..] == Picked(xs, keep[..i + 1]) + xs[i + 1..]
  {
    PickedNext(xs, keep, i);
    var p := Picked(xs, keep[..i]);
    var rest := xs[i + 1..];
    assert p + xs[i..] == p + [xs[i]] + rest by {
      assert xs[i..] == [xs[i]] + rest;
    }
    if drop {
      assert Picked(xs, keep[..i + 1]) == p;
      PickedBefore(xs, keep[..i], i);
      RemoveFirstAt(p, xs[i], rest);
    } else {
      assert Picked(xs, keep[..i + 1]) == p + [xs[i]];
    }
  }

  /** The process each job holds, in order. */
  function ProcessList(ms: seq<Mission>): (ps: seq<Process?>)
    reads (set m | m in ms), ExecutorsOf(ms)
    ensures |ps| == |ms| && forall k :: 0 <= k < |ms| ==> ps[k] == ExecutorProcess(ms[k])
    decreases |ms|
  {
    if ms == [] then [] else ProcessList(ms[..|ms| - 1]) + [ExecutorProcess(ms[|ms| - 1])]
  }

  /** The executor of each job, in order. */
  ghost function ExecutorList(ms: seq<Mission>): (es: seq<Executor?>)
    reads set m | m in ms
    ensures |es| == |ms| && forall k :: 0 <= k < |ms| ==> es[k] == ms[k].executor
    decreases |ms|
  {
    if ms == [] then [] else ExecutorList(ms[..|ms| - 1]) + [ms[|ms| - 1].executor]
  }

  /** Each job's process is the one its executor holds. */
  lemma ProcessesOfExecutors(ms: seq<Mission>)
    ensures forall k :: 0 <= k < |ms| ==>
              ProcessList(ms)[k] == (if ExecutorList(ms)[k] == null then null else ExecutorList(ms)[k].process)
  {
  }

  /** What killing the jobs of `ms` may touch: their processes and the descendants of those. */
  function KillFootprints(ms: seq<Mission>): set<Process>
    reads (set m | m in ms), ExecutorsOf(ms)
  {
    set k, p | 0 <= k < |ms| && p in Footprint(ExecutorProcess(ms[k])) :: p
  }

  /** Every process of `ps`, with its descendants, is in `procs`. */
  predicate Covers(ps: seq<Process?>, procs: set<Process>) {
    forall k :: 0 <= k < |ps| ==> Footprint(ps[k]) <= procs
  }

  /** The kill footprints of a list cover its processes. */
  lemma KillFootprintsCover(ms: seq<Mission>)
    ensures Covers(ProcessList(ms), KillFootprints(ms))
  {
    forall k | 0 <= k < |ms|
      ensures Footprint(ProcessList(ms)[k]) <= KillFootprints(ms)
    {
      forall p | p in Footprint(ExecutorProcess(ms[k]))
        ensures p in KillFootprints(ms)
      {
      }
    }
  }

  /** The processes, with their descendants, held by the entries of `rs` whose folder is `dir`;
      `ps` are the processes the entries hold. */
  ghost function DirProcesses(rs: seq<Mission>, ps: seq<Process?>, dir: string): set<Process>
    requires |ps| == |rs|
    reads set m | m in rs
    decreases |rs|
  {
    if rs == [] then {}
    else DirProcesses(rs[..|rs| - 1], ps[..|rs| - 1], dir)
         + (if rs[|rs| - 1].missionDir == dir then Footprint(ps[|rs| - 1]) else {})
  }

  /** The processes of every entry in `dir` are among them. */
  lemma {:induction false} DirProcessesHas(rs: seq<Mission>, ps: seq<Process?>, dir: string, i: int)
    requires |ps| == |rs| && 0 <= i < |rs| && rs[i].missionDir == dir
    ensures Footprint(ps[i]) <= DirProcesses(rs, ps, dir)
    decreases |rs|
  {
    if i < |rs| - 1 {
      DirProcessesHas(rs[..|rs| - 1], ps[..|rs| - 1], dir, i);
    }
  }

  /** What killing the jobs of `ms` that are in `dir` may touch. */
  ghost function DirFootprints(ms: seq<Mission>, dir: string): set<Process>
    reads (set m | m in ms), ExecutorsOf(ms)
  {
    DirProcesses(ms, ProcessList(ms), dir)
  }

  /** Every process of `procs` that is not in `hit` has the exit state it had before. */
  twostate predicate Spared(procs: set<Process>, hit: set<Process>)
    reads procs
  {
    forall p :: p in procs && p !in hit ==> p.exitCode == old(p.exitCode)
  }

  /** A job has stopped when it holds no process or its process has ended. */
  predicate Stopped(m: Mission)
    reads m, m.executor, ExecutorProcess(m)
  {
    ExecutorProcess(m) == null || !ExecutorProcess(m).Alive()
  }

  /** The removal loop of `delete_mission` over a copy of a queue: each entry whose flag is clear
      is removed with `list.remove`; `removed` says whether there was one. */
  method RemoveUnflagged<T(==)>(xs: seq<T>, keep: seq<bool>) returns (q: seq<T>, removed: bool)
    requires |keep| == |xs| && Distinct(xs)
    ensures q == Picked(xs, keep)
    ensures removed <==> exists k :: 0 <= k < |keep| && !keep[k]
  {
    q := xs;
    removed := false;
    var i := 0;
    while i < |xs|
      invariant 0 <= i <= |xs| && q == Picked(xs, keep[..i]) + xs[i..]
      invariant removed == (false in keep[..i])
    {
      assert keep[..i + 1] == keep[..i] + [keep[i]];
      if !keep[i] {
        RemovalStep(xs, keep, i, true);
        q := RemoveFirst(q, xs[i]);
        removed := true;
      } else {
        RemovalStep(xs, keep, i, false);
      }
      i := i + 1;
    }
    assert keep[..i] == keep;
  }

  /** The kills of `delete_mission`: `kill_command` on the executor of every job in `dir`, when
      that executor holds a process. `es` and `ps` are the executors and processes the jobs hold,
      and `procs` what the kills may touch. */
  method StopMatching(rs: seq<Mission>, dir: string, ghost es: seq<Executor?>, ghost ps: seq<Process?>,
                      ghost procs: set<Process>)
    requires |es| == |rs| && |ps| == |rs| && Covers(ps, procs)
    requires forall k :: 0 <= k < |rs| ==> rs[k].executor == es[k]
    requires forall k :: 0 <= k < |rs| ==> ps[k] == (if es[k] == null then null else es[k].process)
    modifies procs
    ensures forall m :: m in rs && m.missionDir == dir ==> Stopped(m)
    ensures forall p :: p in procs && p !in DirProcesses(rs, ps, dir) ==> p.exitCode == old(p.exitCode)
  {
    ghost var mine := DirProcesses(rs, ps, dir);
    var i := 0;
    while i < |rs|
      invariant 0 <= i <= |rs|
      invariant forall k :: 0 <= k < |rs| ==> rs[k].executor == es[k]
      invariant forall k :: 0 <= k < |rs| ==> ps[k] == (if es[k] == null then null else es[k].process)
      invariant forall k :: 0 <= k < i && rs[k].missionDir == dir && ps[k] != null ==> !ps[k].Alive()
      invariant forall p :: p in procs && p !in mine ==> p.exitCode == old(p.exitCode)
    {
      var e := rs[i].executor;
      if rs[i].missionDir == dir && e != null && e.process != null {
        assert Footprint(ps[i]) <= procs;
        DirProcessesHas(rs, ps, dir, i);
        var _ := e.KillCommand();
      }
      i := i + 1;
    }
    forall m | m in rs && m.missionDir == dir
      ensures Stopped(m)
    {
      var k :| 0 <= k < |rs| && rs[k] == m;
      assert ExecutorProcess(rs[k]) == ps[k];
    }
  }

  /** `delete_mission` on the running list: every job in `dir` is stopped and taken off the list,
      and `terminated` says whether there was one. The removals are made on a copy and the kills
      touch only processes, so the two are done in separate passes. */
  method StopRunning(mgr: Manager, dir: string, ghost procs: set<Process>) returns (terminated: bool)
    requires mgr.Valid() && Covers(ProcessList(mgr.running), procs)
    modifies mgr, procs
    ensures mgr.running == old(Unmatched(mgr.running, dir)) && mgr.missions == old(mgr.missions)
    ensures mgr.threadCount == old(mgr.threadCount)
    ensures mgr.batchMode == old(mgr.batchMode) && mgr.forceBatchMode == old(mgr.forceBatchMode)
    ensures terminated <==> dir in old(DirsOf(mgr.running))
    ensures forall m :: m in old(mgr.running) && m.missionDir == dir ==> Stopped(m)
    ensures forall p :: p in procs && p !in old(DirFootprints(mgr.running, dir)) ==> p.exitCode == old(p.exitCode)
  {
    var rs := mgr.running;
    ghost var es, ps := ExecutorList(rs), ProcessList(rs);
    ProcessesOfExecutors(rs);
    terminated := DropRunning(mgr, dir);
    StopMatching(rs, dir, es, ps, procs);
  }

  /** The removals of `delete_mission` from the running list: every job in `dir` is taken off
      it, and `terminated` says whether there was one. */
  method DropRunning(mgr: Manager, dir: string) returns (terminated: bool)
    requires Distinct(mgr.running)
    modifies mgr
    ensures mgr.running == old(Unmatched(mgr.running, dir)) && mgr.missions == old(mgr.missions)
    ensures mgr.threadCount == old(mgr.threadCount)
    ensures mgr.batchMode == old(mgr.batchMode) && mgr.forceBatchMode == old(mgr.forceBatchMode)
    ensures terminated <==> dir in old(DirsOf(mgr.running))
  {
    var rs := mgr.running;
    var ds := DirsOf(rs);
    var keep := Keeps(ds, dir);
    ghost var u := Unmatched(rs, dir);
    assert u == Picked(rs, keep);
    var q;
    q, terminated := RemoveUnflagged(rs, keep);
    mgr.running := q;
  }

  /** `delete_mission` on the waiting queue: every waiting job in `dir` is taken off it. */
  method DropWaiting(mgr: Manager, dir: string)
    requires Distinct(mgr.missions)
    modifies mgr
    ensures mgr.missions == old(Unmatched(mgr.missions, dir)) && mgr.running == old(mgr.running)
    ensures mgr.threadCount == old(mgr.threadCount)
    ensures mgr.batchMode == old(mgr.batchMode) && mgr.forceBatchMode == old(mgr.forceBatchMode)
  {
    var ws := mgr.missions;
    var keep := Keeps(DirsOf(ws), dir);
    ghost var u := Unmatched(ws, dir);
    assert u == Picked(ws, keep);
    var q, _ := RemoveUnflagged(ws, keep);
    mgr.missions := q;
  }

  /** The queue part of `delete_mission` for the job folder `dir`: the running jobs in it are
      stopped and taken off the running list, then the waiting ones leave the waiting queue. */
  method DeleteQueued(mgr: Manager, dir: string) returns (terminated: bool)
    requires mgr.Valid()
    modifies mgr, KillFootprints(mgr.running)
    ensures mgr.Valid()
    ensures mgr.threadCount == old(mgr.threadCount)
    ensures mgr.batchMode == old(mgr.batchMode) && mgr.forceBatchMode == old(mgr.forceBatchMode)
    ensures mgr.running == old(Unmatched(mgr.running, dir))
    ensures mgr.missions == old(Unmatched(mgr.missions, dir))
    ensures terminated <==> dir in old(DirsOf(mgr.running))
    ensures forall m :: m in old(mgr.running) && m.missionDir == dir ==> Stopped(m)
    ensures Spared(old(KillFootprints(mgr.running)), old(DirFootprints(mgr.running, dir)))
  {
    ghost var ur, uw := Unmatched(mgr.running, dir), Unmatched(mgr.missions, dir);
    UnmatchedSub(mgr.running, dir);
    UnmatchedSub(mgr.missions, dir);
    ghost var procs := KillFootprints(mgr.running);
    ghost var hit := DirFootprints(mgr.running, dir);
    KillFootprintsCover(mgr.running);
    terminated := StopRunning(mgr, dir, procs);
    assert Spared(procs, hit);
    DropWaiting(mgr, dir);
    assert Spared(procs, hit);
    assert mgr.running == ur && mgr.missions == uw;
  }

  /** `delete_mission` for the job folder `dir` (nothing happens without one): the jobs in it
      leave both queues, running ones being stopped first, and its progress record is cleared. */
  method DeleteMission(mgr: Manager, store: ProgressStore, dir: Option<string>) returns (terminated: bool)
    requires mgr.Valid()
    modifies mgr, KillFootprints(mgr.running), store
    ensures mgr.Valid()
    ensures mgr.threadCount == old(mgr.threadCount)
    ensures mgr.batchMode == old(mgr.batchMode) && mgr.forceBatchMode == old(mgr.forceBatchMode)
    ensures dir.None? ==> !terminated && mgr.running == old(mgr.running) && mgr.missions == old(mgr.missions)
                          && store.State() == old(store.State())
                          && Spared(old(KillFootprints(mgr.running)), {})
    ensures dir.Some? ==>
              mgr.running == old(Unmatched(mgr.running, dir.value))
              && mgr.missions == old(Unmatched(mgr.missions, dir.value))
              && (terminated <==> dir.value in old(DirsOf(mgr.running)))
              && (forall m :: m in old(mgr.running) && m.missionDir == dir.value ==> Stopped(m))
              && Spared(old(KillFootprints(mgr.running)), old(DirFootprints(mgr.running, dir.value)))
              && store.files == old(store.files) - {dir.value} && store.cache == old(store.cache) - {dir.value}
              && store.lastUpdate == old(store.lastUpdate) - {dir.value} && store.verifying == old(store.verifying)
  {
    if dir.None? {
      return false;
    }
    ghost var procs, hit := KillFootprints(mgr.running), DirFootprints(mgr.running, dir.value);
    terminated := DeleteQueued(mgr, dir.value);
    assert Spared(procs, hit);
    var _ := store.ClearProgress(dir.value);
    assert Spared(procs, hit);
  }

  // ---------------------------------------------------------------- the job page

  /** The index of the first occurrence of `x`. */
  function IndexOf<T(==)>(xs: seq<T>, x: T): (i: nat)
    requires x in xs
    ensures i < |xs| && xs[i] == x && forall k :: 0 <= k < i ==> xs[k] != x
    decreases |xs|
  {
    if xs[0] == x then 0 else 1 + IndexOf(xs[1..], x)
  }

  /** The queue position `select_mission` shows for `dir`: none while a job in it runs or when
      none waits; otherwise the running jobs plus the index of the first waiting job in it, plus
      one. */
  function Standing(running: seq<string>, waiting: seq<string>, dir: string): (pos: Option<nat>)
    ensures pos.Some? <==> dir !in running && dir in waiting
    ensures pos.Some? ==> pos.value > |running| && var i := pos.value - |running| - 1;
                          i < |waiting| && waiting[i] == dir && forall k :: 0 <= k < i ==> waiting[k] != dir
  {
    if dir in running || dir !in waiting then None else Some(|running| + IndexOf(waiting, dir) + 1)
  }

  /** `Path(p).parent.name` of a job directory, or "" for an empty one. */
  function UserOf(p: string): string {
    if p == "" then "" else ParentName(p)
  }

  /** The user name of each job, in order. */
  function UserNames(ms: seq<Mission>): (ns: seq<string>)
    reads set m | m in ms
    ensures |ns| == |ms| && forall k :: 0 <= k < |ms| ==> ns[k] == UserOf(ms[k].missionDir)
    decreases |ms|
  {
    if ms == [] then [] else UserNames(ms[..|ms| - 1]) + [UserOf(ms[|ms| - 1].missionDir)]
  }

  /** `acc` followed by the non-empty names of `names` it does not hold yet, each once, in the
      order they are met. */
  function Collect(acc: seq<string>, names: seq<string>): seq<string>
    decreases |names|
  {
    if names == [] then acc
    else
      var r := Collect(acc, names[..|names| - 1]);
      var x := names[|names| - 1];
      if x != "" && x !in r then r + [x] else r
  }

  lemma CollectSnoc(acc: seq<string>, names: seq<string>, x: string)
    ensures Collect(acc, names + [x]) == var r := Collect(acc, names); if x != "" && x !in r then r + [x] else r
  {
    assert (names + [x])[..|names|] == names;
  }

  /** Collecting two lists one after the other is collecting their concatenation. */
  lemma {:induction false} CollectAppend(acc: seq<string>, a: seq<string>, b: seq<string>)
    ensures Collect(Collect(acc, a), b) == Collect(acc, a + b)
    decreases |b|
  {
    if b != [] {
      var n := |b| - 1;
      CollectAppend(acc, a, b[..n]);
      assert (a + b)[..|a + b| - 1] == a + b[..n] && (a + b)[|a + b| - 1] == b[n];
    } else {
      assert a + b == a;
    }
  }

  /** The names come out once each, non-empty, and are exactly those met. */
  lemma {:induction false} CollectMembers(acc: seq<string>, names: seq<string>)
    requires Distinct(acc) && "" !in acc
    ensures Distinct(Collect(acc, names)) && "" !in Collect(acc, names)
    ensures forall x :: x in Collect(acc, names) <==> x in acc || (x in names && x != "")
    decreases |names|
  {
    if names != [] {
      var n := |names| - 1;
      CollectMembers(acc, names[..n]);
      SplitLast(names);
    }
  }

  /** The non-empty names of `names`, each once, in the order they are first seen. */
  function FirstSeen(names: seq<string>): seq<string> {
    Collect([], names)
  }

  /** The names come out once each, and are the non-empty names met. */
  lemma FirstSeenMembers(names: seq<string>)
    ensures Distinct(FirstSeen(names))
    ensures forall x :: x in FirstSeen(names) <==> x in names && x != ""
  {
    CollectMembers([], names);
  }

  /** The names come out in the order of their first occurrence. */
  lemma {:induction false} FirstSeenOrder(names: seq<string>)
    ensures var r := FirstSeen(names);
            forall x :: x in r ==> x in names
    ensures var r := FirstSeen(names);
            forall i, j :: 0 <= i < j < |r| ==> IndexOf(names, r[i]) < IndexOf(names, r[j])
    decreases |names|
  {
    FirstSeenMembers(names);
    if names != [] {
      var n := |names| - 1;
      var pre := names[..n];
      var x := names[n];
      assert names == pre + [x];
      FirstSeenOrder(pre);
      FirstSeenMembers(pre);
      var r0 := FirstSeen(pre);
      var r := FirstSeen(names);
      forall y | y in pre
        ensures IndexOf(names, y) == IndexOf(pre, y) < n
      {
        IndexOfPrefix(names, n, y);
      }
      if r != r0 {
        assert r == r0 + [x] && x !in pre;
        assert forall k :: 0 <= k < n ==> names[k] == pre[k];
        assert IndexOf(names, x) == n;
      }
    }
  }

  /** The first occurrence of an entry of a prefix lies in the prefix. */
  lemma {:induction false} IndexOfPrefix(xs: seq<string>, n: nat, x: string)
    requires n <= |xs| && x in xs[..n]
    ensures IndexOf(xs, x) == IndexOf(xs[..n], x)
    decreases n
  {
    if xs[0] != x {
      assert xs[1..][..n - 1] == xs[..n][1..];
      IndexOfPrefix(xs[1..], n - 1, x);
    }
  }

  /** Collecting one more name of `names`. */
  lemma CollectStep(acc: seq<string>, names: seq<string>, i: nat)
    requires i < |names|
    ensures Collect(acc, names[..i + 1])
            == var r := Collect(acc, names[..i]); if names[i] != "" && names[i] !in r then r + [names[i]] else r
  {
    TakeSnoc(names, i);
    CollectSnoc(acc, names[..i], names[i]);
  }

  /** One preceding-users loop of `select_mission`: the users of `ms` not yet in `users` are
      appended, each once, in order. */
  method AddUsers(users: seq<string>, ms: seq<Mission>) returns (r: seq<string>)
    ensures r == Collect(users, UserNames(ms))
  {
    ghost var names := UserNames(ms);
    r := users;
    var i := 0;
    while i < |ms|
      invariant 0 <= i <= |ms| && r == Collect(users, names[..i])
    {
      var name := UserOf(ms[i].missionDir);
      CollectStep(users, names, i);
      if name != "" && name !in r {
        r := r + [name];
      }
      i := i + 1;
    }
    assert names[..i] == names;
  }

  /** The preceding-users loops of `select_mission`: the users of the running jobs and then of
      the first `first` waiting jobs, each once, in the order met. */
  method PrecedingUsers(running: seq<Mission>, waiting: seq<Mission>, first: nat) returns (users: seq<string>)
    requires first <= |waiting|
    ensures users == FirstSeen(UserNames(running) + UserNames(waiting[..first]))
  {
    users := AddUsers([], running);
    users := AddUsers(users, waiting[..first]);
    CollectAppend([], UserNames(running), UserNames(waiting[..first]));
  }

  /** The queue line of `select_mission` for `dir`: the position, when the job waits and does not
      run, and the users ahead of it. */
  method QueueStanding(mgr: Manager, dir: string) returns (pos: Option<nat>, users: seq<string>)
    ensures pos == Standing(DirsOf(mgr.running), DirsOf(mgr.missions), dir)
    ensures pos.None? ==> users == []
    ensures pos.Some? ==> users == FirstSeen(UserNames(mgr.running) + UserNames(mgr.missions[..pos.value - |mgr.running| - 1]))
  {
    var waiting, running := mgr.missions, mgr.running;
    pos := Standing(DirsOf(running), DirsOf(waiting), dir);
    users := [];
    if pos.Some? {
      users := PrecedingUsers(running, waiting, pos.value - |running| - 1);
    }
  }

  /** The progress `select_mission` shows for a job without a record. */
  datatype Shown = Shown(processed: int, total: int, status: string)

  /** With no progress record the produced files count as processed out of at least one, and the
      job counts as completed exactly when there is one. */
  function Fallback(count: nat): (f: Shown)
    ensures f.processed == count && f.total >= 1 && (count > 0 ==> f.total == count)
    ensures f.status == "completed" <==> count > 0
    ensures f.status == "running" <==> count == 0
  {
    Shown(count, Max(1, count), if count > 0 then "completed" else "running")
  }

  /** The fallback as the update `select_mission` sends. */
  function FallbackUpdate(count: nat): Update {
    var f := Fallback(count);
    NoChange.(processedFiles := Some(f.processed), totalFiles := Some(f.total), status := Some(f.status))
  }

  /** `select_mission` without a progress record, as written: the inferred progress is passed to
      `update_progress` when files were produced. */
  method NoRecordFallback(store: ProgressStore, disk: Disk, dir: string, count: nat, now: int) returns (f: Shown)
    modifies store
    ensures f == Fallback(count)
    ensures count == 0 ==> store.State() == old(store.State())
    ensures count > 0 ==> store.State() == UpdateSpec(old(store.State()), disk.View(), dir, FallbackUpdate(count), now).1
  {
    f := Fallback(count);
    if count > 0 {
      var _ := store.UpdateProgress(dir, FallbackUpdate(count), disk, now);
    }
  }

  /** The fallback is reached when the look-up finds no record; with nothing cached for the
      directory `update_progress` finds none either, so nothing is written and the directory
      still has no record. */
  lemma FallbackNotPersisted(s: Store, v: FsView, dir: string, count: nat, now: int)
    requires Lookup(s, v, dir, now).0.None? && dir !in s.cache
    ensures var s1 := Lookup(s, v, dir, now).1;
            !UpdateSpec(s1, v, dir, FallbackUpdate(count), now).0
            && UpdateSpec(s1, v, dir, FallbackUpdate(count), now).1 == s1
            && Lookup(s1, v, dir, now).0.None?
  {
    var s1 := Lookup(s, v, dir, now).1;
    assert dir !in s1.files && dir !in s1.cache;
  }

  /** The record the fallback stands for: the three keys it carries, the others absent. */
  function FallbackRecord(count: nat, now: int): Record {
    var f := Fallback(count);
    Record(f.total, f.processed, f.status, false, 0, 0, 0, now, [], map[], 0)
  }

  /** The fallback as evidently intended: the inferred progress is saved when files were
      produced, so that the next look-up finds it. */
  method NoRecordFallbackSaved(store: ProgressStore, dir: string, count: nat, now: int) returns (f: Shown)
    modifies store
    ensures f == Fallback(count)
    ensures count == 0 ==> store.State() == old(store.State())
    ensures count > 0 ==> store.State() == Put(old(store.State()), dir, FallbackRecord(count, now), now)
  {
    f := Fallback(count);
    if count > 0 {
      var _ := store.SaveDirectly(dir, FallbackRecord(count, now), now);
    }
  }

  /** After the saved fallback the record is there, with the progress that was shown. */
  lemma FallbackSavedFound(s: Store, v: FsView, dir: string, count: nat, now: int)
    requires count > 0
    ensures var r := Lookup(Put(s, dir, FallbackRecord(count, now), now), v, dir, now).0;
            r == Some(FallbackRecord(count, now))
            && r.value.processedFiles == count && r.value.totalFiles == count && r.value.status == "completed"
  {
  }

  // ---------------------------------------------------------------- parent and sub-jobs

  /** What the sub-job loop of `select_mission` counts: descriptor files, the completed ones, and
      whether one is running. */
  datatype SubTally = SubTally(all: nat, completed: nat, anyRunning: bool)

  predicate IsCompleted(d: Doc<Descriptor>) {
    d.Parsed? && d.value.state == "completed"
  }

  predicate IsRunning(d: Doc<Descriptor>) {
    d.Parsed? && d.value.state == "running"
  }

  /** Counting one more descriptor; one that cannot be parsed counts only towards the total. */
  function Count(t: SubTally, d: Doc<Descriptor>): SubTally {
    if IsRunning(d) then t.(all := t.all + 1, anyRunning := true)
    else if IsCompleted(d) then t.(all := t.all + 1, completed := t.completed + 1)
    else t.(all := t.all + 1)
  }

  /** The counts over the sub-job descriptors `docs`. */
  function TallyOf(docs: seq<Doc<Descriptor>>): (t: SubTally)
    ensures t.all == |docs| && t.completed <= t.all
    decreases |docs|
  {
    if docs == [] then SubTally(0, 0, false) else Count(TallyOf(docs[..|docs| - 1]), docs[|docs| - 1])
  }

  lemma TallySnoc(docs: seq<Doc<Descriptor>>, d: Doc<Descriptor>)
    ensures TallyOf(docs + [d]) == Count(TallyOf(docs), d)
  {
    assert (docs + [d])[..|docs|] == docs;
  }

  /** Every descriptor is counted as completed exactly when every one is completed. */
  lemma {:induction false} TallyAllCompleted(docs: seq<Doc<Descriptor>>)
    ensures TallyOf(docs).completed == |docs| <==> forall k :: 0 <= k < |docs| ==> IsCompleted(docs[k])
    decreases |docs|
  {
    if docs != [] {
      var n := |docs| - 1;
      TallyAllCompleted(docs[..n]);
      assert forall k :: 0 <= k < n ==> docs[..n][k] == docs[k];
    }
  }

  /** A sub-job counts as running exactly when one of the descriptors says so. */
  lemma {:induction false} TallyRunning(docs: seq<Doc<Descriptor>>)
    ensures TallyOf(docs).anyRunning <==> exists k :: 0 <= k < |docs| && IsRunning(docs[k])
    decreases |docs|
  {
    if docs != [] {
      var n := |docs| - 1;
      TallyRunning(docs[..n]);
      assert forall k :: 0 <= k < n ==> docs[..n][k] == docs[k];
    }
  }

  /** The status the parent job is given: completed when no sub-job runs, there is at least one
      and all are completed; running otherwise. */
  function ParentStatus(t: SubTally): string {
    if !t.anyRunning && t.all > 0 && t.completed == t.all then "completed" else "running"
  }

  /** The parent is completed exactly when it has sub-job descriptors and every one of them says
      completed, and is running otherwise. */
  lemma ParentCompletedIff(docs: seq<Doc<Descriptor>>)
    ensures ParentStatus(TallyOf(docs)) == "completed" <==> docs != [] && forall k :: 0 <= k < |docs| ==> IsCompleted(docs[k])
    ensures ParentStatus(TallyOf(docs)) != "completed" ==> ParentStatus(TallyOf(docs)) == "running"
  {
    TallyAllCompleted(docs);
    TallyRunning(docs);
  }

  /** The descriptor file of the sub-job folder named `name` under `inputs`. */
  function SubDescriptor(inputs: string, name: string): string {
    Join(Join(inputs, name), "mission.json")
  }

  /** The sub-job descriptors that exist, in listing order. */
  function SubDocs(docs: map<string, Doc<Descriptor>>, inputs: string, es: seq<Entry>): seq<Doc<Descriptor>>
    decreases |es|
  {
    if es == [] then []
    else
      var f := SubDescriptor(inputs, es[|es| - 1].name);
      SubDocs(docs, inputs, es[..|es| - 1]) + (if f in docs then [docs[f]] else [])
  }

  lemma SubDocsSnoc(docs: map<string, Doc<Descriptor>>, inputs: string, es: seq<Entry>, i: nat)
    requires i < |es|
    ensures var f := SubDescriptor(inputs, es[i].name);
            SubDocs(docs, inputs, es[..i + 1]) == SubDocs(docs, inputs, es[..i]) + (if f in docs then [docs[f]] else [])
  {
    assert es[..i + 1][..i] == es[..i];
  }

  /** The sub-job loop of `select_mission` over `<dir>/inputs`. */
  method TallySubTasks(disk: Disk, dir: string) returns (t: SubTally)
    ensures t == TallyOf(SubDocs(disk.docs, Join(dir, "inputs"), ListingIn(disk.dirs, Join(dir, "inputs"))))
  {
    var inputs := Join(dir, "inputs");
    var es := ListingIn(disk.dirs, inputs);
    ghost var docs: seq<Doc<Descriptor>> := [];
    var all, completed, anyRunning := 0, 0, false;
    var i := 0;
    while i < |es|
      invariant 0 <= i <= |es| && docs == SubDocs(disk.docs, inputs, es[..i])
      invariant SubTally(all, completed, anyRunning) == TallyOf(docs)
    {
      SubDocsSnoc(disk.docs, inputs, es, i);
      var f := SubDescriptor(inputs, es[i].name);
      if f in disk.docs {
        var d := disk.docs[f];
        TallySnoc(docs, d);
        all := all + 1;
        if IsRunning(d) {
          anyRunning := true;
        } else if IsCompleted(d) {
          completed := completed + 1;
        }
        docs := docs + [d];
      }
      i := i + 1;
    }
    assert es[..i] == es;
    t := SubTally(all, completed, anyRunning);
  }

  /** The update carrying the sub-job count: processed is the completed count, the total is
      locked, and the total itself is sent only when the record has none. */
  function SubTaskUpdate(cur: Option<Record>, t: SubTally): (u: Update)
    ensures u.processedFiles == Some(t.completed) && u.locked == Some(true)
    ensures u.totalFiles.Some? <==> cur.None? || cur.value.totalFiles <= 0
    ensures u.totalFiles.Some? ==> u.totalFiles.value == t.all
  {
    NoChange.(processedFiles := Some(t.completed), locked := Some(true),
              totalFiles := if cur.None? || cur.value.totalFiles <= 0 then Some(t.all) else None)
  }

  /** The progress store after the sub-job block of `select_mission`. */
  function ParentStore(s: Store, v: FsView, dir: string, t: SubTally, now: int): Store {
    var s1 := if t.all > 0 then
                var (cur, sa) := Lookup(s, v, dir, now);
                UpdateSpec(sa, v, dir, SubTaskUpdate(cur, t), now).1
              else s;
    UpdateSpec(s1, v, dir, NoChange.(status := Some(ParentStatus(t))), now).1
  }

  /** The sub-job block of `select_mission` for the job folder `dir`, run when files were
      produced while the shown status is running and the job has a readable `mission.json`: the
      sub-job counts go into the progress record, and the parent's record and descriptor are
      given the parent status, which is what the page then shows. */
  method AggregateParent(store: ProgressStore, disk: Disk, dir: string, count: nat, status: string, now: int)
    returns (shown: Option<string>)
    modifies store, disk
    ensures disk.dirs == old(disk.dirs) && disk.presets == old(disk.presets) && disk.threadConfig == old(disk.threadConfig)
    ensures var mj := Join(dir, "mission.json");
            (count == 0 || status != "running" || mj !in old(disk.docs) || old(disk.docs)[mj].Corrupt?) ==>
              shown.None? && store.State() == old(store.State()) && disk.docs == old(disk.docs)
    ensures var mj := Join(dir, "mission.json");
            var t := TallyOf(SubDocs(old(disk.docs), Join(dir, "inputs"), ListingIn(disk.dirs, Join(dir, "inputs"))));
            count > 0 && status == "running" && mj in old(disk.docs) && old(disk.docs)[mj].Parsed? ==>
              shown == Some(ParentStatus(t))
              && store.State() == ParentStore(old(store.State()), old(disk.View()), dir, t, now)
              && disk.docs == old(disk.docs)[mj := Parsed(old(disk.docs)[mj].value.(state := ParentStatus(t)))]
  {
    var mj := Join(dir, "mission.json");
    if count == 0 || status != "running" || mj !in disk.docs || disk.docs[mj].Corrupt? {
      return None;
    }
    var main := disk.docs[mj].value;
    var t := TallySubTasks(disk, dir);
    if t.all > 0 {
      var cur := store.GetProgress(dir, disk, now);
      var _ := store.UpdateProgress(dir, SubTaskUpdate(cur, t), disk, now);
    }
    var verdict := ParentStatus(t);
    var _ := store.UpdateProgress(dir, NoChange.(status := Some(verdict)), disk, now);
    disk.docs := disk.docs[mj := Parsed(main.(state := verdict))];
    shown := Some(verdict);
  }
}
