/** The errors a process reports. Each carries the id of the process that raised it. */
module Errors {

  /** `DivisionByZero` and `BadAddress` are declared but no instruction raises them. */
  datatype VMError =
    | TypeMisMatch(pid: nat)
    | DivisionByZero(pid: nat)
    | BadAddress(pid: nat)
    | UndefinedVariable(pid: nat, name: string)
}

/** The process host: it owns every process and hands out ids in spawn order. */
module Vm {
  import opened Processes

  class ByteCodeVM {
    var processes: seq<Process>

    /** Each process's id is its position in the host's list. */
    predicate Valid()
      reads this
    {
      forall i | 0 <= i < |processes| :: processes[i].pid == i
    }

    /** `ByteCodeVM::new`. */
    constructor ()
      ensures processes == [] && Valid()
    {
      processes := [];
    }

    /** `spawn`: appends one new process, whose id is the number of processes before
        the call, and returns it; the earlier processes are the same objects in the
        same state. */
    method Spawn() returns (process: Process)
      requires Valid()
      modifies this
      ensures fresh(process)
      ensures processes == old(processes) + [process]
      ensures process.pid == |old(processes)| && process.State() == Fresh(|old(processes)|)
      ensures Valid()
      ensures forall i | 0 <= i < |old(processes)| :: processes[i].State() == old(processes[i].State())
    {
      process := new Process(|processes|);
      processes := processes + [process];
    }
  }

  /** In a valid host, different positions hold different processes with different ids. */
  lemma ValidIdsAreDistinct(vm: ByteCodeVM, i: nat, j: nat)
    requires vm.Valid() && i < |vm.processes| && j < |vm.processes| && i != j
    ensures vm.processes[i].pid != vm.processes[j].pid && vm.processes[i] != vm.processes[j]
  {
  }
}
