/** The demonstration program that the driver builds, compiles and runs: it counts
    `x` up to 5 in a `while` loop (setting `temp` to `5 - x` on each pass), sets
    `result` by an `if` on `x - 5`, and concatenates a string with a number. */
module Scenario {
  import opened Wrappers
  import opened Values
  import opened Instructions
  import opened Processes

  // ---------------------------------------------------------------------------
  // The executable: the 32 compiled instructions and the three debug prints the
  // driver appends
  // ---------------------------------------------------------------------------

  /** The instruction at each index of the executable, one statement of the
      program at a time. */
  function MainInstruction(k: nat): Instruction
    requires k < 35
  {
    if k < 2 then InitXInstruction(k)
    else if k < 15 then CountUpInstruction(k)
    else if k < 24 then ChooseInstruction(k)
    else if k < 32 then ConstantsInstruction(k)
    else PrintsInstruction(k)
  }

  /** `x = 0`. */
  function InitXInstruction(k: nat): Instruction
  {
    if k == 0 then Load(Register(1), Number(0.0))
    else Store("x", Register(1))
  }

  /** The `while` loop: its condition, the jump out, the body and the jump back. */
  function CountUpInstruction(k: nat): Instruction
  {
    if k == 2 then Load(Register(2), Number(5.0))
    else if k == 3 then LoadVar(Register(3), "x")
    else if k == 4 then Sub(Register(4), Register(2), Register(3))
    else if k == 5 then JmpFalse(Register(4), 15)
    else if k == 6 then LoadVar(Register(6), "x")
    else if k == 7 then Load(Register(7), Number(1.0))
    else if k == 8 then Instructions.Add(Register(8), Register(6), Register(7))
    else if k == 9 then Store("x", Register(8))
    else if k == 10 then Load(Register(9), Number(5.0))
    else if k == 11 then LoadVar(Register(10), "x")
    else if k == 12 then Sub(Register(11), Register(9), Register(10))
    else if k == 13 then Store("temp", Register(11))
    else Jmp(2)
  }

  /** The `if`: its condition, the jump to the else-branch, the then-branch, the
      jump over the else-branch and the else-branch. */
  function ChooseInstruction(k: nat): Instruction
  {
    if k == 15 then LoadVar(Register(13), "x")
    else if k == 16 then Load(Register(14), Number(5.0))
    else if k == 17 then Sub(Register(15), Register(13), Register(14))
    else if k == 18 then JmpFalse(Register(15), 22)
    else if k == 19 then Load(Register(16), Number(1.0))
    else if k == 20 then Store("result", Register(16))
    else if k == 21 then Jmp(24)
    else if k == 22 then Load(Register(17), Number(0.0))
    else Store("result", Register(17))
  }

  /** `hello = "hello "`, `world = 38` and `str = hello + world`. */
  function ConstantsInstruction(k: nat): Instruction
  {
    if k == 24 then Load(Register(19), String("hello "))
    else if k == 25 then Store("hello", Register(19))
    else if k == 26 then Load(Register(20), Number(38.0))
    else if k == 27 then Store("world", Register(20))
    else if k == 28 then LoadVar(Register(21), "hello")
    else if k == 29 then LoadVar(Register(22), "world")
    else if k == 30 then Instructions.Add(Register(23), Register(21), Register(22))
    else Store("str", Register(23))
  }

  /** The three debug prints the driver appends. */
  function PrintsInstruction(k: nat): Instruction
  {
    if k == 32 then DbgPrintVar("x")
    else if k == 33 then DbgPrintVar("result")
    else DbgPrintVar("str")
  }

  /** `p` is the driver's executable. */
  predicate Listing(p: seq<Instruction>)
  {
    |p| == 35 && forall k {:trigger MainInstruction(k)} | 0 <= k < 35 :: p[k] == MainInstruction(k)
  }

  /** The variables the program leaves behind; `str` is "hello " followed by the
      formatting of 38. */
  function FinalVariables(ops: NumberOps): map<string, Value>
  {
    map["x" := Number(5.0), "temp" := Number(0.0), "result" := Number(0.0),
        "hello" := String("hello "), "world" := Number(38.0),
        "str" := String("hello " + ops.format(38.0))]
  }

  /** The instruction at index `k` of the executable. */
  lemma Fetch(p: seq<Instruction>, k: nat)
    requires Listing(p) && k < 35
    ensures p[k] == MainInstruction(k)
  {
  }

  // ---------------------------------------------------------------------------
  // Stretches of a run that do not stop
  // ---------------------------------------------------------------------------

  /** From `m`, the run loop executes `k` instructions, none of which stops it, and
      arrives at `m'`: with any fuel of at least `k`, running from `m` is running from
      `m'` with `k` less. */
  ghost predicate Reaches(ops: NumberOps, m: Machine, m': Machine, k: nat)
  {
    forall fuel: nat | fuel >= k :: Loop(ops, m, fuel) == Loop(ops, m', fuel - k)
  }

  lemma ReachesRefl(ops: NumberOps, m: Machine)
    ensures Reaches(ops, m, m, 0)
  {
  }

  lemma ReachesTrans(ops: NumberOps, m1: Machine, m2: Machine, m3: Machine, k1: nat, k2: nat)
    requires Reaches(ops, m1, m2, k1) && Reaches(ops, m2, m3, k2)
    ensures Reaches(ops, m1, m3, k1 + k2)
  {
    forall fuel: nat | fuel >= k1 + k2
      ensures Loop(ops, m1, fuel) == Loop(ops, m3, fuel - (k1 + k2))
    {
      assert Loop(ops, m1, fuel) == Loop(ops, m2, fuel - k1);
      assert Loop(ops, m2, fuel - k1) == Loop(ops, m3, fuel - k1 - k2);
    }
  }

  /** One more instruction that goes on. */
  lemma ThenStep(ops: NumberOps, start: Machine, m: Machine, k: nat, next: Machine)
    requires Reaches(ops, start, m, k) && Running(m) && Step(ops, m, m.program[m.ip]) == Continue(next)
    ensures Reaches(ops, start, next.(ip := next.ip + 1), k + 1)
  {
    forall fuel: nat | fuel >= k + 1
      ensures Loop(ops, start, fuel) == Loop(ops, next.(ip := next.ip + 1), fuel - (k + 1))
    {
      assert Loop(ops, start, fuel) == Loop(ops, m, fuel - k);
    }
  }

  lemma ThenLoad(ops: NumberOps, start: Machine, m: Machine, k: nat, r: Register, v: Value)
    requires Reaches(ops, start, m, k) && Running(m) && m.program[m.ip] == Load(r, v)
    requires r.index < |m.registers|
    ensures Reaches(ops, start, m.(registers := m.registers[r.index := v], ip := m.ip + 1), k + 1)
  {
    ThenStep(ops, start, m, k, m.(registers := m.registers[r.index := v]));
  }

  lemma ThenStore(ops: NumberOps, start: Machine, m: Machine, k: nat, name: string, r: Register)
    requires Reaches(ops, start, m, k) && Running(m) && m.program[m.ip] == Store(name, r)
    requires r.index < |m.registers|
    ensures Reaches(ops, start, m.(variables := m.variables[name := m.registers[r.index]], ip := m.ip + 1), k + 1)
  {
    ThenStep(ops, start, m, k, m.(variables := m.variables[name := m.registers[r.index]]));
  }

  lemma ThenLoadVar(ops: NumberOps, start: Machine, m: Machine, k: nat, r: Register, name: string)
    requires Reaches(ops, start, m, k) && Running(m) && m.program[m.ip] == LoadVar(r, name)
    requires r.index < |m.registers| && name in m.variables
    ensures Reaches(ops, start, m.(registers := m.registers[r.index := m.variables[name]], ip := m.ip + 1), k + 1)
  {
    ThenStep(ops, start, m, k, m.(registers := m.registers[r.index := m.variables[name]]));
  }

  lemma ThenSub(ops: NumberOps, start: Machine, m: Machine, k: nat, dest: Register, left: Register, right: Register)
    requires Reaches(ops, start, m, k) && Running(m) && m.program[m.ip] == Sub(dest, left, right)
    requires dest.index < |m.registers| && left.index < |m.registers| && right.index < |m.registers|
    requires m.registers[left.index].Number? && m.registers[right.index].Number?
    ensures var v := Number(m.registers[left.index].n - m.registers[right.index].n);
      Reaches(ops, start, m.(registers := m.registers[dest.index := v], ip := m.ip + 1), k + 1)
  {
    var v := Number(m.registers[left.index].n - m.registers[right.index].n);
    ThenStep(ops, start, m, k, m.(registers := m.registers[dest.index := v]));
  }

  lemma ThenAdd(ops: NumberOps, start: Machine, m: Machine, k: nat, dest: Register, left: Register, right: Register, v: Value)
    requires Reaches(ops, start, m, k) && Running(m) && m.program[m.ip] == Instructions.Add(dest, left, right)
    requires dest.index < |m.registers| && left.index < |m.registers| && right.index < |m.registers|
    requires AddValues(ops, m.registers[left.index], m.registers[right.index]) == Some(v)
    ensures Reaches(ops, start, m.(registers := m.registers[dest.index := v], ip := m.ip + 1), k + 1)
  {
    ThenStep(ops, start, m, k, m.(registers := m.registers[dest.index := v]));
  }

  lemma ThenJmp(ops: NumberOps, start: Machine, m: Machine, k: nat, t: nat)
    requires Reaches(ops, start, m, k) && Running(m) && m.program[m.ip] == Jmp(t)
    ensures Reaches(ops, start, m.(ip := t + 1), k + 1)
  {
    ThenStep(ops, start, m, k, m.(ip := t));
  }

  lemma ThenJmpFalse(ops: NumberOps, start: Machine, m: Machine, k: nat, r: Register, t: nat)
    requires Reaches(ops, start, m, k) && Running(m) && m.program[m.ip] == JmpFalse(r, t)
    requires r.index < |m.registers| && (Truthy(m.registers[r.index]) || t > 0)
    ensures Truthy(m.registers[r.index]) ==> Reaches(ops, start, m.(ip := m.ip + 1), k + 1)
    ensures !Truthy(m.registers[r.index]) ==> Reaches(ops, start, m.(ip := t), k + 1)
  {
    if Truthy(m.registers[r.index]) {
      ThenStep(ops, start, m, k, m);
    } else {
      ThenStep(ops, start, m, k, m.(ip := t - 1));
    }
  }

  lemma ThenDbgPrintVar(ops: NumberOps, start: Machine, m: Machine, k: nat, name: string)
    requires Reaches(ops, start, m, k) && Running(m) && m.program[m.ip] == DbgPrintVar(name)
    requires name in m.variables
    ensures Reaches(ops, start, m.(ip := m.ip + 1), k + 1)
  {
    ThenStep(ops, start, m, k, m);
  }

  // ---------------------------------------------------------------------------
  // The run, stretch by stretch
  // ---------------------------------------------------------------------------

  /** Running the executable, about to execute index `ip`. */
  predicate At(m: Machine, ip: nat)
  {
    Listing(m.program) && |m.registers| == 24 && m.ip == ip && !m.halt
  }

  /** The variables at the loop head after `n` passes. */
  function VarsAfter(n: nat): map<string, Value>
  {
    if n == 0 then map["x" := Number(0.0)]
    else map["x" := Number(n as real), "temp" := Number(5.0 - n as real)]
  }

  lemma VarsAfterX(n: nat)
    ensures "x" in VarsAfter(n) && VarsAfter(n)["x"] == Number(n as real)
  {
  }

  lemma VarsAfterPass(n: nat)
    ensures VarsAfter(n)["x" := Number((n + 1) as real)]["temp" := Number(5.0 - (n + 1) as real)] == VarsAfter(n + 1)
  {
  }

  /** At the loop head (index 3, since the back-jump to 2 resumes at 3) after `n`
      passes, with register 2 still holding the 5 loaded at index 2. */
  predicate AtLoopHead(m: Machine, n: nat)
  {
    At(m, 3) && m.registers[2] == Number(5.0) && m.variables == VarsAfter(n)
  }

  /** Indices 0-2: `x = 0` and the first load of the loop condition. */
  lemma Prologue(ops: NumberOps, pid: nat, p: seq<Instruction>) returns (m': Machine)
    requires Listing(p)
    ensures AtLoopHead(m', 0) && Reaches(ops, Loaded(Fresh(pid), p, 24), m', 3)
  {
    var m0 := Loaded(Fresh(pid), p, 24);
    ReachesRefl(ops, m0);
    Fetch(p, 0);
    ThenLoad(ops, m0, m0, 0, Register(1), Number(0.0));
    var m1 := m0.(registers := m0.registers[1 := Number(0.0)], ip := 1);
    Fetch(p, 1);
    ThenStore(ops, m0, m1, 1, "x", Register(1));
    var m2 := m1.(variables := m1.variables["x" := Number(0.0)], ip := 2);
    Fetch(p, 2);
    ThenLoad(ops, m0, m2, 2, Register(2), Number(5.0));
    m' := m2.(registers := m2.registers[2 := Number(5.0)], ip := 3);
  }

  /** Indices 3-5 while `x < 5`: `5 - x` is positive, so `JmpFalse(r4, 15)` falls
      through into the body. */
  lemma StayInLoop(ops: NumberOps, m: Machine, n: nat) returns (m': Machine)
    requires AtLoopHead(m, n) && n < 5
    ensures At(m', 6) && m'.registers[2] == Number(5.0) && m'.variables == VarsAfter(n)
    ensures Reaches(ops, m, m', 3)
  {
    VarsAfterX(n);
    ReachesRefl(ops, m);
    Fetch(m.program, 3);
    ThenLoadVar(ops, m, m, 0, Register(3), "x");
    var m1 := m.(registers := m.registers[3 := Number(n as real)], ip := 4);
    Fetch(m.program, 4);
    ThenSub(ops, m, m1, 1, Register(4), Register(2), Register(3));
    var m2 := m1.(registers := m1.registers[4 := Number(5.0 - n as real)], ip := 5);
    Fetch(m.program, 5);
    ThenJmpFalse(ops, m, m2, 2, Register(4), 15);
    m' := m2.(ip := 6);
  }

  /** Indices 6-9: `x = x + 1`. */
  lemma Increment(ops: NumberOps, m: Machine, n: nat) returns (m': Machine)
    requires At(m, 6) && m.registers[2] == Number(5.0) && m.variables == VarsAfter(n)
    ensures At(m', 10) && m'.registers[2] == Number(5.0)
    ensures m'.variables == VarsAfter(n)["x" := Number((n + 1) as real)]
    ensures Reaches(ops, m, m', 4)
  {
    VarsAfterX(n);
    ReachesRefl(ops, m);
    Fetch(m.program, 6);
    ThenLoadVar(ops, m, m, 0, Register(6), "x");
    var m1 := m.(registers := m.registers[6 := Number(n as real)], ip := 7);
    Fetch(m.program, 7);
    ThenLoad(ops, m, m1, 1, Register(7), Number(1.0));
    var m2 := m1.(registers := m1.registers[7 := Number(1.0)], ip := 8);
    Fetch(m.program, 8);
    ThenAdd(ops, m, m2, 2, Register(8), Register(6), Register(7), Number((n + 1) as real));
    var m3 := m2.(registers := m2.registers[8 := Number((n + 1) as real)], ip := 9);
    Fetch(m.program, 9);
    ThenStore(ops, m, m3, 3, "x", Register(8));
    m' := m3.(variables := m3.variables["x" := Number((n + 1) as real)], ip := 10);
  }

  /** Indices 10-11: the operands of `5 - x`. */
  lemma TempOperands(ops: NumberOps, m: Machine, n: nat) returns (m': Machine)
    requires At(m, 10) && m.registers[2] == Number(5.0)
    requires m.variables == VarsAfter(n)["x" := Number((n + 1) as real)]
    ensures At(m', 12) && m'.variables == m.variables
    ensures m'.registers[2] == Number(5.0) && m'.registers[9] == Number(5.0) && m'.registers[10] == Number((n + 1) as real)
    ensures Reaches(ops, m, m', 2)
  {
    ReachesRefl(ops, m);
    Fetch(m.program, 10);
    ThenLoad(ops, m, m, 0, Register(9), Number(5.0));
    var m1 := m.(registers := m.registers[9 := Number(5.0)], ip := 11);
    Fetch(m.program, 11);
    ThenLoadVar(ops, m, m1, 1, Register(10), "x");
    m' := m1.(registers := m1.registers[10 := Number((n + 1) as real)], ip := 12);
  }

  /** Indices 10-13: `temp = 5 - x`. */
  lemma SetTemp(ops: NumberOps, m: Machine, n: nat) returns (m': Machine)
    requires At(m, 10) && m.registers[2] == Number(5.0) && n < 5
    requires m.variables == VarsAfter(n)["x" := Number((n + 1) as real)]
    ensures At(m', 14) && m'.registers[2] == Number(5.0) && m'.variables == VarsAfter(n + 1)
    ensures Reaches(ops, m, m', 4)
  {
    var m2 := TempOperands(ops, m, n);
    Fetch(m.program, 12);
    ThenSub(ops, m, m2, 2, Register(11), Register(9), Register(10));
    var t := Number(5.0 - (n + 1) as real);
    var m3 := m2.(registers := m2.registers[11 := t], ip := 13);
    Fetch(m.program, 13);
    ThenStore(ops, m, m3, 3, "temp", Register(11));
    m' := m3.(variables := m3.variables["temp" := t], ip := 14);
    VarsAfterPass(n);
  }

  /** Index 14: the back-jump to 2, which resumes at 3. */
  lemma JumpBack(ops: NumberOps, m: Machine, n: nat) returns (m': Machine)
    requires At(m, 14) && m.registers[2] == Number(5.0) && m.variables == VarsAfter(n)
    ensures AtLoopHead(m', n) && Reaches(ops, m, m', 1)
  {
    ReachesRefl(ops, m);
    Fetch(m.program, 14);
    ThenJmp(ops, m, m, 0, 2);
    m' := m.(ip := 3);
  }

  /** One pass of the loop: indices 3-14. */
  lemma Pass(ops: NumberOps, m: Machine, n: nat) returns (m': Machine)
    requires AtLoopHead(m, n) && n < 5
    ensures AtLoopHead(m', n + 1) && Reaches(ops, m, m', 12)
  {
    var a := StayInLoop(ops, m, n);
    var b := Increment(ops, a, n);
    ReachesTrans(ops, m, a, b, 3, 4);
    var c := SetTemp(ops, b, n);
    ReachesTrans(ops, m, b, c, 7, 4);
    m' := JumpBack(ops, c, n + 1);
    ReachesTrans(ops, m, c, m', 11, 1);
  }

  /** From the loop head after `n` passes, the remaining `5 - n` passes take 12
      instructions each and reach the loop head with `x = 5` and `temp = 0`. */
  lemma {:induction false} Passes(ops: NumberOps, m: Machine, n: nat) returns (m': Machine)
    requires AtLoopHead(m, n) && n <= 5
    ensures AtLoopHead(m', 5) && Reaches(ops, m, m', 12 * (5 - n))
    decreases 5 - n
  {
    if n == 5 {
      m' := m;
      ReachesRefl(ops, m);
    } else {
      var a := Pass(ops, m, n);
      m' := Passes(ops, a, n + 1);
      ReachesTrans(ops, m, a, m', 12, 12 * (5 - (n + 1)));
    }
  }

  /** Indices 3-5 once `x = 5`: `5 - x` is 0, so `JmpFalse(r4, 15)` leaves the loop
      and execution resumes at 15. */
  lemma LeaveLoop(ops: NumberOps, m: Machine) returns (m': Machine)
    requires AtLoopHead(m, 5)
    ensures At(m', 15) && m'.variables == VarsAfter(5) && Reaches(ops, m, m', 3)
  {
    VarsAfterX(5);
    ReachesRefl(ops, m);
    Fetch(m.program, 3);
    ThenLoadVar(ops, m, m, 0, Register(3), "x");
    var m1 := m.(registers := m.registers[3 := Number(5.0)], ip := 4);
    Fetch(m.program, 4);
    ThenSub(ops, m, m1, 1, Register(4), Register(2), Register(3));
    var m2 := m1.(registers := m1.registers[4 := Number(0.0)], ip := 5);
    Fetch(m.program, 5);
    ThenJmpFalse(ops, m, m2, 2, Register(4), 15);
    m' := m2.(ip := 15);
  }

  /** Indices 15-17: the `if`'s condition `x - 5`, which is 0. */
  lemma TestResult(ops: NumberOps, m: Machine) returns (m': Machine)
    requires At(m, 15) && m.variables == VarsAfter(5)
    ensures At(m', 18) && m'.registers[15] == Number(0.0) && m'.variables == VarsAfter(5)
    ensures Reaches(ops, m, m', 3)
  {
    VarsAfterX(5);
    ReachesRefl(ops, m);
    Fetch(m.program, 15);
    ThenLoadVar(ops, m, m, 0, Register(13), "x");
    var m1 := m.(registers := m.registers[13 := Number(5.0)], ip := 16);
    Fetch(m.program, 16);
    ThenLoad(ops, m, m1, 1, Register(14), Number(5.0));
    var m2 := m1.(registers := m1.registers[14 := Number(5.0)], ip := 17);
    Fetch(m.program, 17);
    ThenSub(ops, m, m2, 2, Register(15), Register(13), Register(14));
    m' := m2.(registers := m2.registers[15 := Number(0.0)], ip := 18);
  }

  /** Indices 15-18: `x - 5` is 0, so `JmpFalse(r15, 22)` takes the `if`'s
      else-branch. */
  lemma TakeElse(ops: NumberOps, m: Machine) returns (m': Machine)
    requires At(m, 15) && m.variables == VarsAfter(5)
    ensures At(m', 22) && m'.variables == VarsAfter(5) && Reaches(ops, m, m', 4)
  {
    var t := TestResult(ops, m);
    Fetch(m.program, 18);
    ThenJmpFalse(ops, m, t, 3, Register(15), 22);
    m' := t.(ip := 22);
  }

  /** Indices 22-23: the else-branch, `result = 0`. */
  lemma ElseBranch(ops: NumberOps, m: Machine) returns (m': Machine)
    requires At(m, 22)
    ensures At(m', 24) && m'.variables == m.variables["result" := Number(0.0)]
    ensures Reaches(ops, m, m', 2)
  {
    ReachesRefl(ops, m);
    Fetch(m.program, 22);
    ThenLoad(ops, m, m, 0, Register(17), Number(0.0));
    var m1 := m.(registers := m.registers[17 := Number(0.0)], ip := 23);
    Fetch(m.program, 23);
    ThenStore(ops, m, m1, 1, "result", Register(17));
    m' := m1.(variables := m1.variables["result" := Number(0.0)], ip := 24);
  }

  /** Indices 24-27: `hello = "hello "` and `world = 38`. */
  lemma Constants(ops: NumberOps, m: Machine) returns (m': Machine)
    requires At(m, 24)
    ensures At(m', 28)
    ensures m'.variables == m.variables["hello" := String("hello ")]["world" := Number(38.0)]
    ensures Reaches(ops, m, m', 4)
  {
    ReachesRefl(ops, m);
    Fetch(m.program, 24);
    ThenLoad(ops, m, m, 0, Register(19), String("hello "));
    var m1 := m.(registers := m.registers[19 := String("hello ")], ip := 25);
    Fetch(m.program, 25);
    ThenStore(ops, m, m1, 1, "hello", Register(19));
    var m2 := m1.(variables := m1.variables["hello" := String("hello ")], ip := 26);
    Fetch(m.program, 26);
    ThenLoad(ops, m, m2, 2, Register(20), Number(38.0));
    var m3 := m2.(registers := m2.registers[20 := Number(38.0)], ip := 27);
    Fetch(m.program, 27);
    ThenStore(ops, m, m3, 3, "world", Register(20));
    m' := m3.(variables := m3.variables["world" := Number(38.0)], ip := 28);
  }

  /** Indices 28-31: `str = hello + world`, a string followed by a formatted number. */
  lemma Concatenate(ops: NumberOps, m: Machine) returns (m': Machine)
    requires At(m, 28)
    requires "hello" in m.variables && m.variables["hello"] == String("hello ")
    requires "world" in m.variables && m.variables["world"] == Number(38.0)
    ensures At(m', 32) && m'.variables == m.variables["str" := String("hello " + ops.format(38.0))]
    ensures Reaches(ops, m, m', 4)
  {
    ReachesRefl(ops, m);
    Fetch(m.program, 28);
    ThenLoadVar(ops, m, m, 0, Register(21), "hello");
    var m1 := m.(registers := m.registers[21 := String("hello ")], ip := 29);
    Fetch(m.program, 29);
    ThenLoadVar(ops, m, m1, 1, Register(22), "world");
    var m2 := m1.(registers := m1.registers[22 := Number(38.0)], ip := 30);
    var v := String("hello " + ops.format(38.0));
    Fetch(m.program, 30);
    ThenAdd(ops, m, m2, 2, Register(23), Register(21), Register(22), v);
    var m3 := m2.(registers := m2.registers[23 := v], ip := 31);
    Fetch(m.program, 31);
    ThenStore(ops, m, m3, 3, "str", Register(23));
    m' := m3.(variables := m3.variables["str" := v], ip := 32);
  }

  lemma FinalVariablesDisplay(ops: NumberOps)
    ensures VarsAfter(5)["result" := Number(0.0)]["hello" := String("hello ")]["world" := Number(38.0)]
              ["str" := String("hello " + ops.format(38.0))]
         == FinalVariables(ops)
  {
  }

  /** Indices 32-33: the first two debug prints, whose variables are bound. */
  lemma Prints(ops: NumberOps, m: Machine) returns (m': Machine)
    requires At(m, 32) && m.variables == FinalVariables(ops)
    ensures m' == m.(ip := 34) && Reaches(ops, m, m', 2)
  {
    ReachesRefl(ops, m);
    Fetch(m.program, 32);
    ThenDbgPrintVar(ops, m, m, 0, "x");
    Fetch(m.program, 33);
    ThenDbgPrintVar(ops, m, m.(ip := 33), 1, "result");
    m' := m.(ip := 34);
  }

  /** From the loop head after the fifth pass to the last debug print (index 34):
      the loop exits, the `if` takes its else-branch, and the constants and the
      concatenation are stored. */
  lemma Epilogue(ops: NumberOps, m: Machine) returns (m': Machine)
    requires AtLoopHead(m, 5)
    ensures At(m', 34) && m'.variables == FinalVariables(ops) && Reaches(ops, m, m', 19)
  {
    var l := LeaveLoop(ops, m);
    var e := TakeElse(ops, l);
    ReachesTrans(ops, m, l, e, 3, 4);
    var z := ElseBranch(ops, e);
    ReachesTrans(ops, m, e, z, 7, 2);
    var c := Constants(ops, z);
    ReachesTrans(ops, m, z, c, 9, 4);
    VarsAfterX(5);
    var s := Concatenate(ops, c);
    ReachesTrans(ops, m, c, s, 13, 4);
    FinalVariablesDisplay(ops);
    m' := Prints(ops, s);
    ReachesTrans(ops, m, s, m', 17, 2);
  }

  /** The driver's end-to-end run: loaded into a new process with as many registers as
      the generator allocated (24), the executable completes after exactly 83
      instructions and leaves `x = 5`, `temp = 0`, `result = 0`, `hello = "hello "`,
      `world = 38` and `str = "hello 38"` when 38 formats as "38". */
  lemma MainProgramRun(ops: NumberOps, pid: nat, p: seq<Instruction>, fuel: nat)
    requires Listing(p) && fuel >= 83
    ensures var r := Run(ops, Loaded(Fresh(pid), p, 24), fuel);
      && r.status == Completed
      && r.final.variables == FinalVariables(ops)
      && (ops.format(38.0) == "38" ==> r.final.variables["str"] == String("hello 38"))
    ensures Run(ops, Loaded(Fresh(pid), p, 24), 82).status == OutOfFuel
  {
    var m0 := Loaded(Fresh(pid), p, 24);
    var m1 := Prologue(ops, pid, p);
    var m2 := Passes(ops, m1, 0);
    ReachesTrans(ops, m0, m1, m2, 3, 60);
    var m3 := Epilogue(ops, m2);
    ReachesTrans(ops, m0, m2, m3, 63, 19);
    Fetch(p, 34);
    ThenDbgPrintVar(ops, m0, m3, 82, "str");
    assert m0.(ip := 0) == m0;
    assert Loop(ops, m0, fuel) == Loop(ops, m3.(ip := 35), fuel - 83);
    assert Loop(ops, m0, 82) == Loop(ops, m3, 0);
    assert "hello " + "38" == "hello 38";
  }
}
