/** What the generator's jumps do when the engine runs them. The generator patches
    `Jmp` targets to the index it means to continue at, while the engine resumes one
    past a `Jmp` target and exactly at a `JmpFalse` target; these lemmas state the
    outcome for compiled `If` and `While` code, as the two files have it. */
module Lowering {
  import opened Values
  import opened Instructions
  import opened Wrappers
  import A = Ast
  import opened Generator
  import opened Processes

  /** Where the then-branch of an `If` with an else-branch ends: the index of the
      `Jmp` over the else-branch. */
  function ElseLabel(condition: A.ASTNode, thenBranch: A.ASTNode, g: GenState): nat
  {
    var c := Gen(condition, g);
    |Gen(thenBranch, Push(c.st, JmpFalse(c.reg, 0))).st.code|
  }

  /** A false condition of an `If` with an else-branch continues at the first
      instruction of the else-branch. */
  lemma FalseConditionEntersElse(ops: NumberOps, condition: A.ASTNode, thenBranch: A.ASTNode, e: A.ASTNode,
                                 g: GenState, m: Machine, fuel: nat)
    requires WellFormed(g)
    requires Gen(A.If(condition, thenBranch, Some(e)), g).st.code <= m.program
    requires m.ip == |Gen(condition, g).st.code| && !m.halt && fuel > 0
    requires Gen(condition, g).reg.index < |m.registers| && !Truthy(m.registers[Gen(condition, g).reg.index])
    ensures Loop(ops, m, fuel) == Loop(ops, m.(ip := ElseLabel(condition, thenBranch, g) + 1), fuel - 1)
  {
    IfElseLayout(condition, thenBranch, e, g);
    var n := Gen(A.If(condition, thenBranch, Some(e)), g);
    assert m.program[m.ip] == n.st.code[m.ip];
    JmpFalseLanding(ops, m, fuel, Gen(condition, g).reg, ElseLabel(condition, thenBranch, g) + 1);
  }

  /** The `Jmp` that ends a then-branch is patched to the end of the `If`, so the
      engine resumes one further on: the first instruction after the `If` is skipped. */
  lemma ThenBranchSkipsNext(ops: NumberOps, condition: A.ASTNode, thenBranch: A.ASTNode, e: A.ASTNode,
                            g: GenState, m: Machine, fuel: nat)
    requires WellFormed(g)
    requires Gen(A.If(condition, thenBranch, Some(e)), g).st.code <= m.program
    requires m.ip == ElseLabel(condition, thenBranch, g) && !m.halt && fuel > 0
    ensures var n := Gen(A.If(condition, thenBranch, Some(e)), g);
      Loop(ops, m, fuel) == Loop(ops, m.(ip := |n.st.code| + 1), fuel - 1)
  {
    IfElseLayout(condition, thenBranch, e, g);
    var n := Gen(A.If(condition, thenBranch, Some(e)), g);
    assert m.program[m.ip] == n.st.code[m.ip];
    JmpResumesAfterTarget(ops, m, fuel, |n.st.code|);
  }

  /** A false loop condition continues just past the back-jump, so the loop is left
      with nothing after it skipped. */
  lemma FalseConditionExitsLoop(ops: NumberOps, condition: A.ASTNode, body: A.ASTNode,
                                g: GenState, m: Machine, fuel: nat)
    requires WellFormed(g)
    requires Gen(A.While(condition, body), g).st.code <= m.program
    requires m.ip == |Gen(condition, g).st.code| && !m.halt && fuel > 0
    requires Gen(condition, g).reg.index < |m.registers| && !Truthy(m.registers[Gen(condition, g).reg.index])
    ensures Loop(ops, m, fuel) == Loop(ops, m.(ip := |Gen(A.While(condition, body), g).st.code|), fuel - 1)
  {
    WhileLayout(condition, body, g);
    var n := Gen(A.While(condition, body), g);
    assert m.program[m.ip] == n.st.code[m.ip];
    JmpFalseLanding(ops, m, fuel, Gen(condition, g).reg, |n.st.code|);
  }

  /** The back-jump at the end of a loop body targets the loop start, so the engine
      resumes at the second instruction of the condition's code: after the first
      pass, the condition's first instruction is never executed again. */
  lemma BackJumpSkipsLoopStart(ops: NumberOps, condition: A.ASTNode, body: A.ASTNode,
                               g: GenState, m: Machine, fuel: nat)
    requires WellFormed(g)
    requires Gen(A.While(condition, body), g).st.code <= m.program
    requires m.ip + 1 == |Gen(A.While(condition, body), g).st.code| && !m.halt && fuel > 0
    ensures Loop(ops, m, fuel) == Loop(ops, m.(ip := |g.code| + 1), fuel - 1)
  {
    WhileLayout(condition, body, g);
    var n := Gen(A.While(condition, body), g);
    assert m.program[m.ip] == n.st.code[m.ip];
    JmpResumesAfterTarget(ops, m, fuel, |g.code|);
  }
}
