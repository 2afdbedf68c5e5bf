/** The execution engine: a process owns a register file, a name-to-value store, a
    loaded program, an instruction pointer and a halt flag, and runs the program one
    instruction at a time. */
module Processes {
  import opened Wrappers
  import opened Values
  import opened Instructions
  import opened Errors

  /** A snapshot of every field of a process. */
  datatype Machine = Machine(
    pid: nat,
    registers: seq<Value>,
    ip: nat,
    program: seq<Instruction>,
    variables: map<string, Value>,
    halt: bool)

  /** What executing one instruction does: it continues with a new state, returns an
      error (changing nothing), or panics. A panic stands for Rust's run-time checks
      aborting the process: a register index out of range, the `usize` subtraction
      `dest - 1` underflowing, or `unwrap` on a missing variable. */
  datatype StepResult = Continue(next: Machine) | Raise(error: VMError) | Panic

  /** How a run ends. `OutOfFuel` is the model's own: the fuel bounds the number of
      instructions executed, since a compiled loop need not terminate. */
  datatype Status = Completed | Failed(error: VMError) | Panicked | OutOfFuel

  datatype Ran = Ran(status: Status, final: Machine)

  /** The result of `execute` as the Rust code returns it. */
  datatype Outcome = Ok | Err(error: VMError)

  /** A new process: no registers, no program, no variables, and so nothing to run. */
  function Fresh(pid: nat): (m: Machine)
    ensures m.pid == pid && !Running(m)
    ensures m.registers == [] && m.variables == map[] && m.ip == 0 && !m.halt
  {
    Machine(pid, [], 0, [], map[], false)
  }

  /** `load_program`: replaces the program and fills a new register file of the given
      size with `Empty`; the variables, the halt flag and the pointer stay as they were. */
  function Loaded(m: Machine, program: seq<Instruction>, maxRegisters: nat): (r: Machine)
    ensures |r.registers| == maxRegisters && (forall i | 0 <= i < maxRegisters :: r.registers[i] == Empty)
    ensures r.program == program
    ensures r.pid == m.pid && r.variables == m.variables && r.halt == m.halt && r.ip == m.ip
  {
    m.(program := program, registers := seq(maxRegisters, _ => Empty))
  }

  /** The condition test of `JmpFalse`: a number is true when it is positive, a
      boolean is itself, and every other value is false. */
  predicate Truthy(v: Value)
    ensures Truthy(v) ==> v.Number? || v == Boolean(true)
  {
    match v
    case Number(x) => x > 0.0
    case Boolean(b) => b
    case _ => false
  }

  /** `Add` on two values: numbers add, strings concatenate, and a string with a
      number, in either order, gives the string followed by the formatted number.
      Any other pair has no sum. */
  function AddValues(ops: NumberOps, a: Value, b: Value): (r: Option<Value>)
    ensures r.Some? <==> (a.Number? || a.String?) && (b.Number? || b.String?)
    ensures r.Some? ==> (r.value.Number? <==> a.Number? && b.Number?) && (r.value.Number? || r.value.String?)
    ensures r.Some? && a.String? ==> r.value.String? && a.s <= r.value.s
    ensures r.Some? && b.String? && !a.String? ==> r.value.String? && b.s <= r.value.s
  {
    match (a, b)
    case (Number(x), Number(y)) => Some(Number(x + y))
    case (String(s), String(t)) => Some(String(s + t))
    case (String(s), Number(n)) => Some(String(s + ops.format(n)))
    case (Number(n), String(s)) => Some(String(s + ops.format(n)))
    case _ => None
  }

  /** The three number-only operations. */
  datatype NumericOp = Minus | Times | Quotient

  /** The arithmetic of `Sub`, `Mul` and `Div`; division is the supplied one, with no
      zero test. */
  function Apply(ops: NumberOps, op: NumericOp, x: real, y: real): (z: real)
    ensures op == Minus ==> z + y == x
    ensures op == Times ==> z == y * x
    ensures op == Quotient ==> z == ops.divide(x, y)
  {
    match op
    case Minus => x - y
    case Times => x * y
    case Quotient => ops.divide(x, y)
  }

  /** `registers[r.index] = v`. */
  function Write(m: Machine, r: Register, v: Value): (s: StepResult)
    ensures s.Continue? <==> r.index < |m.registers|
    ensures s.Continue? ==>
      && |s.next.registers| == |m.registers| && s.next.registers[r.index] == v
      && (forall i | 0 <= i < |m.registers| && i != r.index :: s.next.registers[i] == m.registers[i])
      && s.next == m.(registers := s.next.registers)
  {
    if r.index < |m.registers| then Continue(m.(registers := m.registers[r.index := v])) else Panic
  }

  /** `Sub`, `Mul` and `Div`: the left operand is read and tested before the right
      one, and only two numbers are combined. There is no zero test for `Div`. */
  function Numeric(ops: NumberOps, m: Machine, op: NumericOp, dest: Register, left: Register, right: Register): (s: StepResult)
    ensures s.Raise? ==>
      && s.error == TypeMisMatch(m.pid) && left.index < |m.registers|
      && (m.registers[left.index].Number? ==> right.index < |m.registers| && !m.registers[right.index].Number?)
    ensures s.Continue? ==>
      && dest.index < |m.registers| && left.index < |m.registers| && right.index < |m.registers|
      && m.registers[left.index].Number? && m.registers[right.index].Number?
      && |s.next.registers| == |m.registers|
      && s.next.registers[dest.index] == Number(Apply(ops, op, m.registers[left.index].n, m.registers[right.index].n))
  {
    if left.index >= |m.registers| then Panic
    else if !m.registers[left.index].Number? then Raise(TypeMisMatch(m.pid))
    else if right.index >= |m.registers| then Panic
    else if !m.registers[right.index].Number? then Raise(TypeMisMatch(m.pid))
    else Write(m, dest, Number(Apply(ops, op, m.registers[left.index].n, m.registers[right.index].n)))
  }

  /** `execute`: the effect of one instruction. Jumps only set the pointer; the run
      loop adds 1 afterwards. */
  function Step(ops: NumberOps, m: Machine, instr: Instruction): (s: StepResult)
    ensures s.Raise? ==> s.error.pid == m.pid
    ensures s.Continue? ==> s.next.pid == m.pid && s.next.program == m.program && |s.next.registers| == |m.registers|
  {
    match instr
    case Halt => Continue(m.(halt := true))
    case Load(r, v) => Write(m, r, v)
    case Add(dest, left, right) =>
      if left.index >= |m.registers| || right.index >= |m.registers| then Panic
      else (
        match AddValues(ops, m.registers[left.index], m.registers[right.index])
        case None => Raise(TypeMisMatch(m.pid))
        case Some(v) => Write(m, dest, v))
    case Sub(dest, left, right) => Numeric(ops, m, Minus, dest, left, right)
    case Mul(dest, left, right) => Numeric(ops, m, Times, dest, left, right)
    case Div(dest, left, right) => Numeric(ops, m, Quotient, dest, left, right)
    case Jmp(target) => Continue(m.(ip := target))
    case JmpFalse(r, target) =>
      if r.index >= |m.registers| then Panic
      else if Truthy(m.registers[r.index]) then Continue(m)
      else if target == 0 then Panic
      else Continue(m.(ip := target - 1))
    case Store(name, r) =>
      if r.index < |m.registers| then Continue(m.(variables := m.variables[name := m.registers[r.index]]))
      else Panic
    case LoadVar(r, name) =>
      if name in m.variables then Write(m, r, m.variables[name])
      else Raise(UndefinedVariable(m.pid, name))
    case DbgPrintReg(r) => if r.index < |m.registers| then Continue(m) else Panic
    case DbgPrintVar(name) => if name in m.variables then Continue(m) else Panic
  }

  /** Whether the fetch/execute loop goes on: the pointer is inside the program and
      the process has not halted. */
  predicate Running(m: Machine)
  {
    m.ip < |m.program| && !m.halt
  }

  /** The loop of `run_program` from the current pointer, executing at most `fuel`
      instructions. An error or a panic stops it with the state as it was before the
      failing instruction. */
  function Loop(ops: NumberOps, m: Machine, fuel: nat): (r: Ran)
    decreases fuel
  {
    if !Running(m) then Ran(Completed, m)
    else if fuel == 0 then Ran(OutOfFuel, m)
    else
      match Step(ops, m, m.program[m.ip])
      case Panic => Ran(Panicked, m)
      case Raise(e) => Ran(Failed(e), m)
      case Continue(next) => Loop(ops, next.(ip := next.ip + 1), fuel - 1)
  }

  /** `run_program`: the pointer is reset to 0 first, so a halted process executes
      nothing and an empty program completes at once. */
  function Run(ops: NumberOps, m: Machine, fuel: nat): (r: Ran)
    ensures m.halt || m.program == [] ==> r == Ran(Completed, m.(ip := 0))
    ensures r.status == Completed <==> !Running(r.final)
  {
    LoopStops(ops, m.(ip := 0), fuel);
    Loop(ops, m.(ip := 0), fuel)
  }

  /** The register an instruction writes, if any. */
  function Written(instr: Instruction): Option<Register>
  {
    match instr
    case Load(r, _) => Some(r)
    case Add(dest, _, _) => Some(dest)
    case Sub(dest, _, _) => Some(dest)
    case Mul(dest, _, _) => Some(dest)
    case Div(dest, _, _) => Some(dest)
    case LoadVar(r, _) => Some(r)
    case _ => None
  }

  /** A step that goes on changes only what its instruction names: at most the one
      register it writes, the variable a `Store` binds, the pointer of a jump, the
      halt flag of `Halt`. The register file keeps its size, the pid and the program
      stay, and nothing clears `halt`. */
  lemma StepFrame(ops: NumberOps, m: Machine, instr: Instruction)
    requires Step(ops, m, instr).Continue?
    ensures var n := Step(ops, m, instr).next;
      && n.pid == m.pid && n.program == m.program
      && |n.registers| == |m.registers|
      && (forall i | 0 <= i < |m.registers| && (Written(instr) == None || Written(instr).value.index != i) ::
            n.registers[i] == m.registers[i])
      && (!instr.Store? ==> n.variables == m.variables)
      && (!instr.Jmp? && !instr.JmpFalse? ==> n.ip == m.ip)
      && (instr.Halt? ==> n.halt)
      && (!instr.Halt? ==> n.halt == m.halt)
  {
  }

  /** `Jmp(t)` sets the pointer to `t` and the loop then adds 1: the next instruction
      executed is the one at `t + 1`. */
  lemma JmpResumesAfterTarget(ops: NumberOps, m: Machine, fuel: nat, t: nat)
    requires Running(m) && m.program[m.ip] == Jmp(t) && fuel > 0
    ensures Loop(ops, m, fuel) == Loop(ops, m.(ip := t + 1), fuel - 1)
  {
  }

  /** `JmpFalse(r, t)` falls through when register `r` is truthy; otherwise it sets the
      pointer to `t - 1`, so the next instruction executed is the one at `t`, and a
      target of 0 underflows. */
  lemma JmpFalseLanding(ops: NumberOps, m: Machine, fuel: nat, r: Register, t: nat)
    requires Running(m) && m.program[m.ip] == JmpFalse(r, t) && fuel > 0
    requires r.index < |m.registers|
    ensures Truthy(m.registers[r.index]) ==> Loop(ops, m, fuel) == Loop(ops, m.(ip := m.ip + 1), fuel - 1)
    ensures !Truthy(m.registers[r.index]) && t > 0 ==> Loop(ops, m, fuel) == Loop(ops, m.(ip := t), fuel - 1)
    ensures !Truthy(m.registers[r.index]) && t == 0 ==> Loop(ops, m, fuel) == Ran(Panicked, m)
  {
  }

  /** `Add` is defined exactly on pairs of numbers and strings; a string and a number
      give the same string in either order; and two numbers add commutatively. */
  lemma AddSemantics(ops: NumberOps, a: Value, b: Value)
    ensures AddValues(ops, a, b).Some? <==> (a.Number? || a.String?) && (b.Number? || b.String?)
    ensures AddValues(ops, a, b) == AddValues(ops, b, a) || (a.String? && b.String?)
    ensures a.String? && b.Number? ==> AddValues(ops, a, b) == Some(String(a.s + ops.format(b.n)))
    ensures a.Number? && b.Number? ==> AddValues(ops, a, b) == Some(Number(a.n + b.n))
    ensures a.String? && b.String? ==> AddValues(ops, a, b) == Some(String(a.s + b.s))
  {
  }

  /** `Sub`, `Mul` and `Div` on registers in range: two numbers always give a result,
      even a division by zero; any other operand gives `TypeMisMatch` with the pid. */
  lemma NumericSemantics(ops: NumberOps, m: Machine, op: NumericOp, dest: Register, left: Register, right: Register)
    requires left.index < |m.registers| && right.index < |m.registers| && dest.index < |m.registers|
    ensures var x, y := m.registers[left.index], m.registers[right.index];
      && (x.Number? && y.Number? <==> Numeric(ops, m, op, dest, left, right).Continue?)
      && (x.Number? && y.Number? ==>
            Numeric(ops, m, op, dest, left, right).next.registers[dest.index] == Number(Apply(ops, op, x.n, y.n)))
      && (!(x.Number? && y.Number?) ==> Numeric(ops, m, op, dest, left, right) == Raise(TypeMisMatch(m.pid)))
  {
  }

  /** The only errors one instruction returns are `TypeMisMatch` and `UndefinedVariable`,
      both carrying the process's pid; `DivisionByZero` and `BadAddress` never occur. An
      undefined variable comes only from a `LoadVar` of an unbound name. */
  lemma StepErrors(ops: NumberOps, m: Machine, instr: Instruction)
    requires Step(ops, m, instr).Raise?
    ensures var e := Step(ops, m, instr).error;
      && e.pid == m.pid
      && (e.TypeMisMatch? || e.UndefinedVariable?)
      && (e.UndefinedVariable? ==> instr == LoadVar(instr.reg, e.name) && e.name !in m.variables)
      && (e.TypeMisMatch? ==> instr.Add? || instr.Sub? || instr.Mul? || instr.Div?)
  {
  }

  /** `Store(name, r)` followed by `LoadVar(q, name)` copies register `r` into `q`, and
      of two stores to one name the later one wins. */
  lemma StoreThenLoadVar(ops: NumberOps, m: Machine, name: string, r: Register, q: Register)
    requires r.index < |m.registers| && q.index < |m.registers|
    ensures var s := Step(ops, m, Store(name, r));
      && s.Continue?
      && Step(ops, s.next, LoadVar(q, name)) == Continue(s.next.(registers := m.registers[q.index := m.registers[r.index]]))
  {
  }

  lemma StoreLastWriteWins(ops: NumberOps, m: Machine, name: string, r1: Register, r2: Register)
    requires r1.index < |m.registers| && r2.index < |m.registers|
    ensures var s := Step(ops, m, Store(name, r1));
      && s.Continue?
      && Step(ops, s.next, Store(name, r2)).Continue?
      && Step(ops, s.next, Store(name, r2)).next.variables[name] == m.registers[r2.index]
      && Step(ops, s.next, Store(name, r2)).next.variables == m.variables[name := m.registers[r2.index]]
  {
  }

  /** A run keeps the pid, the program and the size of the register file, and it never
      clears `halt`. */
  lemma {:induction false} LoopPreservesShape(ops: NumberOps, m: Machine, fuel: nat)
    ensures var f := Loop(ops, m, fuel).final;
      f.pid == m.pid && f.program == m.program && |f.registers| == |m.registers| && (m.halt ==> f.halt)
    decreases fuel
  {
    if Running(m) && fuel > 0 && Step(ops, m, m.program[m.ip]).Continue? {
      var next := Step(ops, m, m.program[m.ip]).next;
      StepFrame(ops, m, m.program[m.ip]);
      LoopPreservesShape(ops, next.(ip := next.ip + 1), fuel - 1);
    }
  }

  /** Where a run stops: past the program or halted exactly when it completed, and
      for an error or a panic at the instruction whose step returned it. */
  lemma {:induction false} LoopStops(ops: NumberOps, m: Machine, fuel: nat)
    ensures var r := Loop(ops, m, fuel);
      && (r.status.Completed? <==> !Running(r.final))
      && (r.status.Failed? ==> Running(r.final) && Step(ops, r.final, r.final.program[r.final.ip]) == Raise(r.status.error))
      && (r.status.Panicked? ==> Running(r.final) && Step(ops, r.final, r.final.program[r.final.ip]).Panic?)
    decreases fuel
  {
    if Running(m) && fuel > 0 {
      match Step(ops, m, m.program[m.ip])
      case Panic =>
      case Raise(_) =>
      case Continue(next) =>
        LoopStops(ops, next.(ip := next.ip + 1), fuel - 1);
    }
  }

  /** How each outcome of a run leaves the process: `Completed` stops with the pointer
      past the program or `halt` set; `Failed` stops at the failing instruction, whose
      step returns exactly that error, so that instruction changed nothing, and the
      error is `TypeMisMatch` or `UndefinedVariable` with the process's pid;
      `Panicked` stops at the instruction that panics. */
  lemma LoopOutcome(ops: NumberOps, m: Machine, fuel: nat)
    ensures var r := Loop(ops, m, fuel);
      && (r.status.Completed? <==> !Running(r.final))
      && (r.status.Failed? ==>
            Running(r.final) && Step(ops, r.final, r.final.program[r.final.ip]) == Raise(r.status.error)
            && r.status.error.pid == m.pid
            && (r.status.error.TypeMisMatch? || r.status.error.UndefinedVariable?))
      && (r.status.Panicked? ==> Running(r.final) && Step(ops, r.final, r.final.program[r.final.ip]).Panic?)
  {
    var r := Loop(ops, m, fuel);
    LoopStops(ops, m, fuel);
    LoopPreservesShape(ops, m, fuel);
    if r.status.Failed? {
      StepErrors(ops, r.final, r.final.program[r.final.ip]);
    }
  }

  /** `halt` is never cleared, not even by `load_program`: once a process has halted,
      every later `run_program` executes no instruction, whatever program is loaded. */
  lemma HaltedProcessRunsNothing(ops: NumberOps, m: Machine, fuel: nat, program: seq<Instruction>,
                                 maxRegisters: nat, laterFuel: nat)
    requires m.halt
    ensures var h := Run(ops, m, fuel).final;
      && h.halt
      && Run(ops, Loaded(h, program, maxRegisters), laterFuel) == Ran(Completed, Loaded(h, program, maxRegisters).(ip := 0))
  {
    LoopPreservesShape(ops, m.(ip := 0), fuel);
  }

  /** The fuel only bounds a run: a run that used up its fuel can be resumed from
      where it stopped, and resuming is the same as having had all the fuel at once. */
  lemma {:induction false} LoopAdditive(ops: NumberOps, m: Machine, a: nat, b: nat)
    requires Loop(ops, m, a).status == OutOfFuel
    ensures Loop(ops, m, a + b) == Loop(ops, Loop(ops, m, a).final, b)
    decreases a
  {
    if a > 0 {
      assert Running(m);
      var s := Step(ops, m, m.program[m.ip]);
      assert s.Continue?;
      var after := s.next.(ip := s.next.ip + 1);
      assert Loop(ops, m, a) == Loop(ops, after, a - 1);
      assert Loop(ops, m, a + b) == Loop(ops, after, a - 1 + b);
      LoopAdditive(ops, after, a - 1, b);
    }
  }

  /** A run that ended on its own (completed, failed or panicked) ends the same way
      with any more fuel. */
  lemma {:induction false} LoopFuelMono(ops: NumberOps, m: Machine, a: nat, b: nat)
    requires Loop(ops, m, a).status != OutOfFuel
    ensures Loop(ops, m, a + b) == Loop(ops, m, a)
    decreases a
  {
    if Running(m) && a > 0 {
      var s := Step(ops, m, m.program[m.ip]);
      if s.Continue? {
        var after := s.next.(ip := s.next.ip + 1);
        assert Loop(ops, m, a) == Loop(ops, after, a - 1);
        assert Loop(ops, m, a + b) == Loop(ops, after, a - 1 + b);
        LoopFuelMono(ops, after, a - 1, b);
      }
    }
  }

  class Process {
    const pid: nat
    var registers: seq<Value>
    var ip: nat
    var program: seq<Instruction>
    var variables: map<string, Value>
    var halt: bool

    function State(): Machine
      reads this
    {
      Machine(pid, registers, ip, program, variables, halt)
    }

    /** `Process::new`. */
    constructor (pid: nat)
      ensures State() == Fresh(pid)
    {
      this.pid := pid;
      registers, ip, program, variables, halt := [], 0, [], map[], false;
    }

    /** `load_program`. */
    method LoadProgram(newProgram: seq<Instruction>, maxRegisters: nat)
      modifies this
      ensures State() == Loaded(old(State()), newProgram, maxRegisters)
    {
      program := newProgram;
      registers := seq(maxRegisters, _ => Empty);
    }

    /** `execute`, for an instruction on which the Rust code does not panic. */
    method Execute(ops: NumberOps, instruction: Instruction) returns (result: Outcome)
      requires !Step(ops, State(), instruction).Panic?
      modifies this
      ensures Step(ops, old(State()), instruction).Continue? ==>
                result == Ok && State() == Step(ops, old(State()), instruction).next
      ensures Step(ops, old(State()), instruction).Raise? ==>
                result == Err(Step(ops, old(State()), instruction).error) && State() == old(State())
    {
      result := Ok;
      match instruction
      case Halt =>
        halt := true;
      case Load(reg, value) =>
        registers := registers[reg.index := value];
      case Add(dest, reg1, reg2) =>
        var value1, value2 := registers[reg1.index], registers[reg2.index];
        match (value1, value2) {
          case (Number(v1), Number(v2)) =>
            registers := registers[dest.index := Number(v1 + v2)];
          case (String(s1), String(s2)) =>
            registers := registers[dest.index := String(s1 + s2)];
          case (String(s), Number(n)) =>
            registers := registers[dest.index := String(s + ops.format(n))];
          case (Number(n), String(s)) =>
            registers := registers[dest.index := String(s + ops.format(n))];
          case _ =>
            return Err(TypeMisMatch(pid));
        }
      case Sub(dest, reg1, reg2) =>
        result := ExecuteNumeric(ops, Minus, dest, reg1, reg2);
      case Mul(dest, reg1, reg2) =>
        result := ExecuteNumeric(ops, Times, dest, reg1, reg2);
      case Div(dest, reg1, reg2) =>
        result := ExecuteNumeric(ops, Quotient, dest, reg1, reg2);
      case Jmp(dest) =>
        ip := dest;
      case JmpFalse(reg, dest) =>
        if !Truthy(registers[reg.index]) {
          ip := dest - 1;
        }
      case Store(name, reg) =>
        variables := variables[name := registers[reg.index]];
      case LoadVar(reg, name) =>
        if name in variables {
          registers := registers[reg.index := variables[name]];
        } else {
          return Err(UndefinedVariable(pid, name));
        }
      case DbgPrintReg(_) =>
      case DbgPrintVar(_) =>
    }

    /** The shared body of `Sub`, `Mul` and `Div`. */
    method ExecuteNumeric(ops: NumberOps, op: NumericOp, dest: Register, reg1: Register, reg2: Register)
      returns (result: Outcome)
      requires !Numeric(ops, State(), op, dest, reg1, reg2).Panic?
      modifies this
      ensures Numeric(ops, old(State()), op, dest, reg1, reg2).Continue? ==>
                result == Ok && State() == Numeric(ops, old(State()), op, dest, reg1, reg2).next
      ensures Numeric(ops, old(State()), op, dest, reg1, reg2).Raise? ==>
                result == Err(Numeric(ops, old(State()), op, dest, reg1, reg2).error) && State() == old(State())
    {
      if !registers[reg1.index].Number? {
        return Err(TypeMisMatch(pid));
      }
      var value1 := registers[reg1.index].n;
      if !registers[reg2.index].Number? {
        return Err(TypeMisMatch(pid));
      }
      var value2 := registers[reg2.index].n;
      registers := registers[dest.index := Number(Apply(ops, op, value1, value2))];
      result := Ok;
    }

    /** `run_program`, executing at most `fuel` instructions. Where the Rust code
        would panic the model stops with `Panicked`. */
    method RunProgram(ops: NumberOps, fuel: nat) returns (status: Status)
      modifies this
      ensures Ran(status, State()) == Run(ops, old(State()), fuel)
    {
      ip := 0;
      var fuelLeft := fuel;
      while ip < |program| && !halt
        invariant Loop(ops, State(), fuelLeft) == Run(ops, old(State()), fuel)
        decreases fuelLeft
      {
        if fuelLeft == 0 {
          return OutOfFuel;
        }
        var instruction := program[ip];
        if Step(ops, State(), instruction).Panic? {
          return Panicked;
        }
        var result := Execute(ops, instruction);
        if result.Err? {
          return Failed(result.error);
        }
        ip := ip + 1;
        fuelLeft := fuelLeft - 1;
      }
      status := Completed;
    }
  }
}
