module EndToEnd {
  import opened Values
  import opened Instructions
  import opened Generator
  import A = Ast
  import opened Scenario
  import opened DriverProgram
  import opened Processes
  import opened Vm

  /** Indices `lo` to `hi` of `p` hold the executable's instructions. */
  predicate Listed(p: seq<Instruction>, lo: nat, hi: nat)
  {
    lo <= hi <= |p| && hi <= 35 && forall k | lo <= k < hi :: p[k] == MainInstruction(k)
  }

  lemma ListedJoin(p: seq<Instruction>, a: nat, b: nat, c: nat)
    requires Listed(p, a, b) && Listed(p, b, c)
    ensures Listed(p, a, c)
  {
  }

  lemma ListedExtend(p: seq<Instruction>, q: seq<Instruction>, a: nat, b: nat)
    requires Listed(p, a, b) && p <= q && |q| <= 35
    ensures Listed(q, a, b)
  {
    forall k | a <= k < b ensures q[k] == MainInstruction(k) {
      assert q[k] == p[k];
    }
  }

  lemma ListedInitX(g: GenState)
    requires |g.code| == 0 && g.next == 1
    ensures Listed(Gen(InitX, g).st.code, 0, 2)
  {
    CompileInitX(g);
  }

  lemma ListedCountUp(g: GenState)
    requires |g.code| == 2 && g.next == 2
    ensures Listed(Gen(CountUp, g).st.code, 2, 15)
  {
    CompileCountUp(g);
  }

  lemma ChooseInstructions(k: nat)
    requires 15 <= k < 24
    ensures MainInstruction(k) == ChooseCode[k - 15]
  {
  }

  lemma ListedChoose(g: GenState)
    requires |g.code| == 15 && g.next == 13
    ensures Listed(Gen(Choose, g).st.code, 15, 24)
  {
    CompileChoose(g);
    var code := Gen(Choose, g).st.code;
    forall k | 15 <= k < 24 ensures code[k] == MainInstruction(k) {
      ChooseInstructions(k);
    }
  }

  lemma ListedSetHello(g: GenState)
    requires |g.code| == 24 && g.next == 19
    ensures Listed(Gen(SetHello, g).st.code, 24, 26)
  {
    CompileSetHello(g);
  }

  lemma ListedSetWorld(g: GenState)
    requires |g.code| == 26 && g.next == 20
    ensures Listed(Gen(SetWorld, g).st.code, 26, 28)
  {
    CompileSetWorld(g);
  }

  lemma ListedSetStr(g: GenState)
    requires |g.code| == 28 && g.next == 21
    ensures Listed(Gen(SetStr, g).st.code, 28, 32)
  {
    CompileSetStr(g);
  }

  const DebugPrints := [DbgPrintVar("x"), DbgPrintVar("result"), DbgPrintVar("str")]

  lemma ListedDebugPrints(code: seq<Instruction>)
    requires |code| == 32
    ensures Listed(code + DebugPrints, 32, 35)
  {
  }

  /** The first three statements: `x = 0`, the loop and the `if`. */
  lemma CompileFront()
    ensures var st := Gen(A.Block([InitX, CountUp, Choose]), Init).st;
      |st.code| == 24 && st.next == 19 && Listed(st.code, 0, 24)
  {
    var s0 := Allocate(Init).st;
    EmptyBlock(Init);
    assert [InitX] == [] + [InitX];
    BlockAppend([], InitX, Init);
    var s1 := Gen(InitX, s0).st;
    CompileInitX(s0);
    ListedInitX(s0);
    assert [InitX, CountUp] == [InitX] + [CountUp];
    BlockAppend([InitX], CountUp, Init);
    var s2 := Gen(CountUp, s1).st;
    CompileCountUp(s1);
    ListedCountUp(s1);
    ListedExtend(s1.code, s2.code, 0, 2);
    assert [InitX, CountUp, Choose] == [InitX, CountUp] + [Choose];
    BlockAppend([InitX, CountUp], Choose, Init);
    var s3 := Gen(Choose, s2).st;
    CompileChoose(s2);
    ListedChoose(s2);
    ListedExtend(s2.code, s3.code, 0, 15);
    ListedJoin(s3.code, 0, 15, 24);
  }

  /** The whole program compiles, from a new generator, to the 32 instructions of
      the executable and allocates 24 registers; with the driver's three debug prints
      appended it is the executable. */
  lemma CompileMain()
    ensures var r := Gen(MainProgram, Init);
      r.st.next == 24 && Listing(r.st.code + DebugPrints)
  {
    CompileFront();
    var front := [InitX, CountUp, Choose];
    var s3 := Gen(A.Block(front), Init).st;
    assert front + [SetHello] == [InitX, CountUp, Choose, SetHello];
    BlockAppend(front, SetHello, Init);
    var s4 := Gen(SetHello, s3).st;
    CompileSetHello(s3);
    ListedSetHello(s3);
    ListedExtend(s3.code, s4.code, 0, 24);
    ListedJoin(s4.code, 0, 24, 26);
    assert [InitX, CountUp, Choose, SetHello] + [SetWorld] == [InitX, CountUp, Choose, SetHello, SetWorld];
    BlockAppend([InitX, CountUp, Choose, SetHello], SetWorld, Init);
    var s5 := Gen(SetWorld, s4).st;
    CompileSetWorld(s4);
    ListedSetWorld(s4);
    ListedExtend(s4.code, s5.code, 0, 26);
    ListedJoin(s5.code, 0, 26, 28);
    assert [InitX, CountUp, Choose, SetHello, SetWorld] + [SetStr] == [InitX, CountUp, Choose, SetHello, SetWorld, SetStr];
    BlockAppend([InitX, CountUp, Choose, SetHello, SetWorld], SetStr, Init);
    var s6 := Gen(SetStr, s5).st;
    CompileSetStr(s5);
    ListedSetStr(s5);
    ListedExtend(s5.code, s6.code, 0, 28);
    ListedJoin(s6.code, 0, 28, 32);
    ListedDebugPrints(s6.code);
    ListedExtend(s6.code, s6.code + DebugPrints, 0, 32);
    ListedJoin(s6.code + DebugPrints, 0, 32, 35);
  }

  /** `main`: compile the program with a new generator, append the three debug
      prints, load the result into a process with as many registers as were
      allocated, and run it. The run completes after exactly 83 instructions, with
      `x = 5`, `temp = 0`, `result = 0` (the `if` takes its else-branch, since
      `x - 5` is 0), `hello = "hello "`, `world = 38` and `str` the concatenation of
      "hello " and the formatting of 38. */
  lemma DriverOutcome(ops: NumberOps, pid: nat, fuel: nat)
    requires fuel >= 83
    ensures var r := Gen(MainProgram, Init);
      var run := Run(ops, Loaded(Fresh(pid), r.st.code + DebugPrints, r.st.next), fuel);
      && run.status == Completed
      && run.final.variables == FinalVariables(ops)
      && (ops.format(38.0) == "38" ==> run.final.variables["str"] == String("hello 38"))
    ensures var r := Gen(MainProgram, Init);
      Run(ops, Loaded(Fresh(pid), r.st.code + DebugPrints, r.st.next), 82).status == OutOfFuel
  {
    CompileMain();
    var r := Gen(MainProgram, Init);
    MainProgramRun(ops, pid, r.st.code + DebugPrints, fuel);
  }

  /** `main` with the driver's own objects: a new VM spawns a process, a new
      generator compiles the program, the debug prints are pushed onto its
      instruction list, and the process loads and runs it. */
  method Drive(ops: NumberOps, fuel: nat) returns (vm: ByteCodeVM, process: Process, status: Status)
    requires fuel >= 83
    ensures fresh(vm) && fresh(process)
    ensures vm.Valid() && vm.processes == [process] && process.pid == 0
    ensures status == Completed && process.State().variables == FinalVariables(ops)
  {
    vm := new ByteCodeVM();
    process := vm.Spawn();
    var generator := new BytecodeGenerator();
    var _ := generator.Generate(MainProgram);
    generator.instructions := generator.instructions + DebugPrints;
    process.LoadProgram(generator.instructions, generator.nextRegister);
    status := process.RunProgram(ops, fuel);
    DriverOutcome(ops, 0, fuel);
  }
}
