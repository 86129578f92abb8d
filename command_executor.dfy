/** The worker-process holder of each job (`clientui/class_command_executor.py`): at most one
    live process, replaced only once the previous one has exited, and a kill that takes every
    descendant process before the parent. */
module CommandExecutor {
  import opened Wrappers

  /** The exit code a killed process reports. */
  const KilledExitCode: int := -9

  /** An operating-system process: it is alive exactly while it has no exit code. `descendants`
      is what `children(recursive=True)` enumerates; it is fixed when the process is made. */
  class Process {
    const command: string
    var exitCode: Option<int>
    const descendants: seq<Process>

    constructor(command: string, descendants: seq<Process>)
      ensures this.command == command && exitCode.None? && this.descendants == descendants
    {
      this.command := command;
      exitCode := None;
      this.descendants := descendants;
    }

    predicate Alive()
      reads this
    {
      exitCode.None?
    }

    /** `poll()`: None while the process runs, its exit code after. */
    function Poll(): (code: Option<int>)
      reads this
      ensures code.None? <==> Alive()
    {
      exitCode
    }

    /** The process ends on its own with `code` (an event of the environment). */
    method Exit(code: int)
      requires Alive()
      modifies this
      ensures exitCode == Some(code)
    {
      exitCode := Some(code);
    }

    /** `kill()`; killing a process that has already exited leaves its exit code. */
    method Kill()
      modifies this
      ensures !Alive()
      ensures old(Alive()) ==> exitCode == Some(KilledExitCode)
      ensures !old(Alive()) ==> exitCode == old(exitCode)
    {
      if exitCode.None? {
        exitCode := Some(KilledExitCode);
      }
    }
  }

  /** A process together with its descendants; nothing for no process. */
  function Footprint(p: Process?): set<Process> {
    if p == null then {} else {p} + set d | d in p.descendants
  }

  class Executor {
    var process: Process?

    constructor()
      ensures process == null
    {
      process := null;
    }

    /** A process is held and still running. */
    predicate Busy()
      reads this, process
    {
      process != null && process.Alive()
    }

    /** The objects `KillCommand` may change: the held process and its descendants. */
    function KillFootprint(): set<Process>
      reads this
    {
      Footprint(process)
    }

    /** `execute_command`: while a process is running nothing happens; otherwise a new process is
        spawned for `cmd`. `spawnFails` says whether spawning raises, in which case nothing changes
        and `raised` is true. */
    method ExecuteCommand(cmd: string, spawnFails: bool) returns (raised: bool)
      modifies this
      ensures old(Busy()) ==> !raised && process == old(process)
      ensures !old(Busy()) && spawnFails ==> raised && process == old(process)
      ensures !old(Busy()) && !spawnFails ==>
                !raised && fresh(process) && process.command == cmd && process.Alive() && process.descendants == []
    {
      if process != null && process.Poll().None? {
        return false;
      }
      if spawnFails {
        return true;
      }
      process := new Process(cmd, []);
      return false;
    }

    /** `kill_command`: when the held process is alive, every descendant is killed, in
        enumeration order, and then the process itself; `killed` is that order. Otherwise nothing
        is done. The `process` field is never reassigned. */
    method KillCommand() returns (killed: seq<Process>)
      modifies KillFootprint()
      ensures process == old(process)
      ensures !old(Busy()) ==> killed == [] && forall p :: p in old(KillFootprint()) ==> p.exitCode == old(p.exitCode)
      ensures old(Busy()) ==> killed == process.descendants + [process]
      ensures forall p :: p in killed ==> !p.Alive()
      ensures forall p :: p in old(KillFootprint()) && !old(p.Alive()) ==> !p.Alive()
    {
      if process == null || process.Poll().Some? {
        return [];
      }
      var parent := process;
      var children := parent.descendants;
      killed := [];
      var i := 0;
      while i < |children|
        invariant 0 <= i <= |children|
        invariant process == parent && parent.descendants == children
        invariant killed == children[..i]
        invariant forall p :: p in killed ==> !p.Alive()
        invariant forall p :: p in old(KillFootprint()) && !old(p.Alive()) ==> !p.Alive()
      {
        children[i].Kill();
        killed := killed + [children[i]];
        i := i + 1;
      }
      parent.Kill();
      killed := killed + [parent];
    }
  }
}
