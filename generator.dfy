/** The bytecode generator: one recursive walk over the syntax tree that appends
    instructions to a growing vector, allocates registers from a counter that only
    increases, and lowers `If` and `While` by emitting jumps with the placeholder
    target 0 that it later overwrites in place. */
module Generator {
  import opened Values
  import opened Instructions
  import opened Wrappers
  import A = Ast

  /** Everything `generate` reads and writes: the instruction vector, the next free
      register, and the name-to-register table that assignments record. */
  datatype GenState = GenState(code: seq<Instruction>, next: nat, vars: map<string, Register>)

  /** The state after generating a node, and the register holding its result. */
  datatype Emitted = Emitted(st: GenState, reg: Register)

  /** The state of a new generator. */
  const Init: GenState := GenState([], 0, map[])

  /** `allocate_register`: hands out the current counter and bumps it. */
  function Allocate(g: GenState): (r: Emitted)
    ensures r.reg.index == g.next && r.st.next == g.next + 1
    ensures r.st.code == g.code && r.st.vars == g.vars
  {
    Emitted(g.(next := g.next + 1), Register(g.next))
  }

  /** `instructions.push(instr)`. */
  function Push(g: GenState, instr: Instruction): (h: GenState)
    ensures h.code == g.code + [instr] && h.next == g.next && h.vars == g.vars
  {
    g.(code := g.code + [instr])
  }

  /** `instructions[at] = instr`: the in-place overwrite that backpatches a jump. */
  function Patch(g: GenState, at: nat, instr: Instruction): (h: GenState)
    requires at < |g.code|
    ensures h.code == g.code[at := instr] && h.next == g.next && h.vars == g.vars
  {
    g.(code := g.code[at := instr])
  }

  /** The arithmetic instruction an operator lowers to: a three-register instruction
      writing `dest` from `left` and `right`, never a jump, and a different
      instruction for each operator. */
  function Arith(op: A.BinaryOperator, dest: Register, left: Register, right: Register): (i: Instruction)
    ensures (i.Add? || i.Sub? || i.Mul? || i.Div?) && i.dest == dest && i.left == left && i.right == right
    ensures (i.Add? <==> op == A.Add) && (i.Sub? <==> op == A.Subtract)
    ensures (i.Mul? <==> op == A.Multiply) && (i.Div? <==> op == A.Divide)
  {
    match op
    case Add => Instructions.Add(dest, left, right)
    case Subtract => Sub(dest, left, right)
    case Multiply => Mul(dest, left, right)
    case Divide => Div(dest, left, right)
  }

  /** `generate`, as a function of the generator's state. Generation only appends
      (the old code is a prefix of the new), always allocates at least one register,
      and returns a register that has been allocated. */
  function Gen(node: A.ASTNode, g: GenState): (r: Emitted)
    decreases node, 2
    ensures g.code <= r.st.code
    ensures g.next < r.st.next
    ensures r.reg.index < r.st.next
  {
    match node
    case NumberLiteral(v) =>
      var a := Allocate(g);
      Emitted(Push(a.st, Load(a.reg, Number(v))), a.reg)
    case StringLiteral(s) =>
      var a := Allocate(g);
      Emitted(Push(a.st, Load(a.reg, String(s))), a.reg)
    case BinaryOp(left, op, right) => GenBinaryOp(left, op, right, g)
    case Variable(name) =>
      var a := Allocate(g);
      Emitted(Push(a.st, LoadVar(a.reg, name)), a.reg)
    case Assignment(name, value) =>
      var v := Gen(value, g);
      var h := Push(v.st, Store(name, v.reg));
      Emitted(h.(vars := h.vars[name := v.reg]), v.reg)
    case Block(statements) =>
      var a := Allocate(g);
      GenSeq(statements, a.st, a.reg)
    case If(condition, thenBranch, elseBranch) => GenIf(condition, thenBranch, elseBranch, g)
    case While(condition, body) => GenWhile(condition, body, g)
  }

  /** A binary operation: the left operand, the right operand, then the operator
      into a fresh register. */
  function GenBinaryOp(left: A.ASTNode, op: A.BinaryOperator, right: A.ASTNode, g: GenState): (r: Emitted)
    decreases A.BinaryOp(left, op, right), 1
    ensures g.code <= r.st.code
    ensures g.next < r.st.next
    ensures r.reg.index < r.st.next
  {
    var l := Gen(left, g);
    var r := Gen(right, l.st);
    var a := Allocate(r.st);
    Emitted(Push(a.st, Arith(op, a.reg, l.reg, r.reg)), a.reg)
  }

  /** `GenBinaryOp` in terms of the results of its two operands. */
  lemma GenBinaryOpFrom(left: A.ASTNode, op: A.BinaryOperator, right: A.ASTNode, g: GenState, l: Emitted, r: Emitted)
    requires l == Gen(left, g) && r == Gen(right, l.st)
    ensures GenBinaryOp(left, op, right, g)
         == Emitted(Push(r.st.(next := r.st.next + 1), Arith(op, Register(r.st.next), l.reg, r.reg)), Register(r.st.next))
  {
  }

  /** `GenIf` in terms of the results of its condition and its then-branch. */
  lemma GenIfFrom(condition: A.ASTNode, thenBranch: A.ASTNode, elseBranch: Option<A.ASTNode>, g: GenState,
                  c: Emitted, t: GenState, patched: GenState)
    requires c == Gen(condition, g) && t == Gen(thenBranch, Push(c.st, JmpFalse(c.reg, 0))).st
    requires elseBranch.Some? ==> patched == GenElse(|c.st.code|, c.reg, t, elseBranch.value)
    requires elseBranch.None? ==> patched == Patch(t, |c.st.code|, JmpFalse(c.reg, |t.code|))
    ensures GenIf(condition, thenBranch, elseBranch, g) == Allocate(patched)
  {
  }

  /** `If`: the condition, a placeholder `JmpFalse`, the then-branch, and for an
      else-branch a placeholder `Jmp` and the else-branch; then the placeholders are
      overwritten with their targets and a fresh register is returned. */
  function GenIf(condition: A.ASTNode, thenBranch: A.ASTNode, elseBranch: Option<A.ASTNode>, g: GenState): (r: Emitted)
    decreases A.If(condition, thenBranch, elseBranch), 1
    ensures g.code <= r.st.code
    ensures g.next < r.st.next
    ensures r.reg.index < r.st.next
  {
    var c := Gen(condition, g);
    var thenLabel := |c.st.code|;
    var t := Gen(thenBranch, Push(c.st, JmpFalse(c.reg, 0)));
    var endLabel := |t.st.code|;
    var patched :=
      match elseBranch
      case Some(e) => GenElse(thenLabel, c.reg, t.st, e)
      case None => Patch(t.st, thenLabel, JmpFalse(c.reg, endLabel));
    Allocate(patched)
  }

  /** The else half of `If`, from the state `t` after the then-branch: a placeholder
      `Jmp`, the `JmpFalse` of register `cond` at `thenLabel` overwritten to point just
      past it, the else-branch, and the `Jmp` overwritten to point to the end. */
  function GenElse(thenLabel: nat, cond: Register, t: GenState, e: A.ASTNode): (r: GenState)
    requires thenLabel < |t.code|
    decreases e, 3
    ensures t.code[..thenLabel] <= r.code && |t.code| < |r.code|
    ensures t.next < r.next
  {
    var elseLabel := |t.code|;
    var els := Gen(e, Patch(Push(t, Jmp(0)), thenLabel, JmpFalse(cond, elseLabel + 1)));
    Patch(els.st, elseLabel, Jmp(|els.st.code|))
  }

  /** `While`: the condition, a placeholder `JmpFalse`, the body and a jump back to
      the loop start; then the placeholder is overwritten with the index past that
      jump and a fresh register is returned. */
  function GenWhile(condition: A.ASTNode, body: A.ASTNode, g: GenState): (r: Emitted)
    decreases A.While(condition, body), 1
    ensures g.code <= r.st.code
    ensures g.next < r.st.next
    ensures r.reg.index < r.st.next
  {
    var loopStart := |g.code|;
    var c := Gen(condition, g);
    var bodyStart := |c.st.code|;
    var b := Gen(body, Push(c.st, JmpFalse(c.reg, 0)));
    var withJump := Push(b.st, Jmp(loopStart));
    var loopEnd := |withJump.code|;
    Allocate(Patch(withJump, bodyStart, JmpFalse(c.reg, loopEnd)))
  }

  /** The statement loop of a `Block`: each statement in order, keeping only the
      register of the last one (`last` when there are none). */
  function GenSeq(statements: seq<A.ASTNode>, g: GenState, last: Register): (r: Emitted)
    decreases statements, 0
    ensures g.code <= r.st.code
    ensures g.next <= r.st.next
    ensures statements != [] ==> g.next < r.st.next
    ensures last.index < g.next ==> r.reg.index < r.st.next
    ensures statements == [] ==> r == Emitted(g, last)
  {
    if statements == [] then Emitted(g, last)
    else
      var s := Gen(statements[0], g);
      GenSeq(statements[1..], s.st, s.reg)
  }

  /** `BytecodeGenerator`: the same walk, updating the instruction vector, the
      register counter and the variable table in place. */
  class BytecodeGenerator {
    var instructions: seq<Instruction>
    var nextRegister: nat
    var variables: map<string, Register>

    function State(): GenState
      reads this
    {
      GenState(instructions, nextRegister, variables)
    }

    constructor ()
      ensures State() == Init
    {
      instructions, nextRegister, variables := [], 0, map[];
    }

    method AllocateRegister() returns (reg: Register)
      modifies this
      ensures Emitted(State(), reg) == Allocate(old(State()))
    {
      reg := Register(nextRegister);
      nextRegister := nextRegister + 1;
    }

    method Generate(node: A.ASTNode) returns (reg: Register)
      modifies this
      decreases node, 2
      ensures Emitted(State(), reg) == Gen(node, old(State()))
    {
      match node
      case NumberLiteral(v) =>
        reg := AllocateRegister();
        instructions := instructions + [Load(reg, Number(v))];
      case StringLiteral(s) =>
        reg := AllocateRegister();
        instructions := instructions + [Load(reg, String(s))];
      case BinaryOp(left, op, right) =>
        reg := GenerateBinaryOp(left, op, right);
      case Variable(name) =>
        reg := AllocateRegister();
        instructions := instructions + [LoadVar(reg, name)];
      case Assignment(name, value) =>
        reg := Generate(value);
        instructions := instructions + [Store(name, reg)];
        variables := variables[name := reg];
      case Block(statements) =>
        reg := AllocateRegister();
        ghost var start := State();
        ghost var first := reg;
        for i := 0 to |statements|
          invariant GenSeq(statements[i..], State(), reg) == GenSeq(statements, start, first)
        {
          assert statements[i..][1..] == statements[i + 1..];
          reg := Generate(statements[i]);
        }
      case If(condition, thenBranch, elseBranch) =>
        reg := GenerateIf(condition, thenBranch, elseBranch);
      case While(condition, body) =>
        reg := GenerateWhile(condition, body);
    }

    method GenerateBinaryOp(left: A.ASTNode, op: A.BinaryOperator, right: A.ASTNode) returns (reg: Register)
      modifies this
      decreases A.BinaryOp(left, op, right), 1
      ensures Emitted(State(), reg) == GenBinaryOp(left, op, right, old(State()))
    {
      ghost var start := State();
      var leftReg := Generate(left);
      ghost var l := Emitted(State(), leftReg);
      var rightReg := Generate(right);
      ghost var r := Emitted(State(), rightReg);
      reg := AllocateRegister();
      assert reg == Register(r.st.next) && State() == r.st.(next := r.st.next + 1);
      instructions := instructions + [Arith(op, reg, leftReg, rightReg)];
      GenBinaryOpFrom(left, op, right, start, l, r);
    }

    method GenerateIf(condition: A.ASTNode, thenBranch: A.ASTNode, elseBranch: Option<A.ASTNode>)
      returns (reg: Register)
      modifies this
      decreases A.If(condition, thenBranch, elseBranch), 1
      ensures Emitted(State(), reg) == GenIf(condition, thenBranch, elseBranch, old(State()))
    {
      ghost var start := State();
      var conditionReg := Generate(condition);
      ghost var c := Emitted(State(), conditionReg);
      var thenLabel := |instructions|;
      instructions := instructions + [JmpFalse(conditionReg, 0)];
      ghost var c1 := State();
      var _ := Generate(thenBranch);
      ghost var t := State();
      var endLabel := |instructions|;
      match elseBranch {
        case Some(e) =>
          GenerateElse(thenLabel, conditionReg, e);
        case None =>
          instructions := instructions[thenLabel := JmpFalse(conditionReg, endLabel)];
      }
      GenIfFrom(condition, thenBranch, elseBranch, start, c, t, State());
      reg := AllocateRegister();
    }

    method GenerateElse(thenLabel: nat, conditionReg: Register, e: A.ASTNode)
      requires thenLabel < |instructions|
      modifies this
      decreases e, 3
      ensures State() == GenElse(thenLabel, conditionReg, old(State()), e)
    {
      ghost var t := State();
      var elseLabel := |instructions|;
      instructions := instructions + [Jmp(0)];
      instructions := instructions[thenLabel := JmpFalse(conditionReg, elseLabel + 1)];
      ghost var t2 := State();
      assert t2 == Patch(Push(t, Jmp(0)), thenLabel, JmpFalse(conditionReg, elseLabel + 1));
      var _ := Generate(e);
      assert State() == Gen(e, t2).st;
      instructions := instructions[elseLabel := Jmp(|instructions|)];
    }

    method GenerateWhile(condition: A.ASTNode, body: A.ASTNode) returns (reg: Register)
      modifies this
      decreases A.While(condition, body), 1
      ensures Emitted(State(), reg) == GenWhile(condition, body, old(State()))
    {
      ghost var start := State();
      var loopStart := |instructions|;
      var conditionReg := Generate(condition);
      ghost var c := Emitted(State(), conditionReg);
      assert c == Gen(condition, start);
      var bodyStart := |instructions|;
      instructions := instructions + [JmpFalse(conditionReg, 0)];
      ghost var c1 := State();
      var _ := Generate(body);
      assert State() == Gen(body, c1).st;
      instructions := instructions + [Jmp(loopStart)];
      var loopEnd := |instructions|;
      instructions := instructions[bodyStart := JmpFalse(conditionReg, loopEnd)];
      reg := AllocateRegister();
    }
  }

  // ---------------------------------------------------------------------------
  // Properties of generation
  // ---------------------------------------------------------------------------

  /** The instructions `generate` can emit: no `Halt` and no debug printing. */
  predicate Emittable(instr: Instruction)
  {
    !instr.Halt? && !instr.DbgPrintReg? && !instr.DbgPrintVar?
  }

  /** Every instruction is emittable and names only allocated registers, and so
      does the variable table. */
  ghost predicate WellFormed(g: GenState)
  {
    && (forall i | 0 <= i < |g.code| :: Emittable(g.code[i]) && RegistersBelow(g.code[i], g.next))
    && (forall name | name in g.vars :: g.vars[name].index < g.next)
  }

  lemma RegistersBelowMono(instr: Instruction, n: nat, m: nat)
    requires RegistersBelow(instr, n) && n <= m
    ensures RegistersBelow(instr, m)
  {
  }

  lemma WellFormedGrow(g: GenState, m: nat)
    requires WellFormed(g) && g.next <= m
    ensures WellFormed(g.(next := m))
  {
    forall i | 0 <= i < |g.code| ensures RegistersBelow(g.code[i], m) {
      RegistersBelowMono(g.code[i], g.next, m);
    }
  }

  /** Appending an instruction whose registers are all allocated keeps the state
      well formed. */
  lemma WellFormedPush(g: GenState, instr: Instruction)
    requires WellFormed(g) && Emittable(instr) && RegistersBelow(instr, g.next)
    ensures WellFormed(Push(g, instr))
  {
  }

  lemma WellFormedPatch(g: GenState, at: nat, instr: Instruction)
    requires WellFormed(g) && at < |g.code| && Emittable(instr) && RegistersBelow(instr, g.next)
    ensures WellFormed(Patch(g, at, instr))
  {
  }

  /** Registers are never reused: every register index in every emitted instruction,
      and every register the variable table records, lies below the counter after
      the call; and no `Halt` or debug instruction is ever emitted. */
  lemma {:induction false} GenWellFormed(node: A.ASTNode, g: GenState)
    requires WellFormed(g)
    ensures WellFormed(Gen(node, g).st)
    decreases node, 2
  {
    match node
    case NumberLiteral(v) =>
      WellFormedGrow(g, g.next + 1);
      WellFormedPush(g.(next := g.next + 1), Load(Register(g.next), Number(v)));
    case StringLiteral(s) =>
      WellFormedGrow(g, g.next + 1);
      WellFormedPush(g.(next := g.next + 1), Load(Register(g.next), String(s)));
    case Variable(name) =>
      WellFormedGrow(g, g.next + 1);
      WellFormedPush(g.(next := g.next + 1), LoadVar(Register(g.next), name));
    case BinaryOp(left, op, right) =>
      GenBinaryOpWellFormed(left, op, right, g);
    case Assignment(name, value) =>
      GenWellFormed(value, g);
      var v := Gen(value, g);
      WellFormedPush(v.st, Store(name, v.reg));
    case Block(statements) =>
      WellFormedGrow(g, g.next + 1);
      GenSeqWellFormed(statements, g.(next := g.next + 1), Register(g.next));
    case If(condition, thenBranch, elseBranch) =>
      GenIfWellFormed(condition, thenBranch, elseBranch, g);
      var r := Gen(node, g);
      WellFormedGrow(r.st.(next := r.reg.index), r.st.next);
    case While(condition, body) =>
      GenWhileWellFormed(condition, body, g);
      var r := Gen(node, g);
      WellFormedGrow(r.st.(next := r.reg.index), r.st.next);
  }

  lemma ArithWellFormed(op: A.BinaryOperator, dest: Register, left: Register, right: Register, n: nat)
    requires dest.index < n && left.index < n && right.index < n
    ensures Emittable(Arith(op, dest, left, right)) && RegistersBelow(Arith(op, dest, left, right), n)
  {
  }

  lemma {:induction false} GenBinaryOpWellFormed(left: A.ASTNode, op: A.BinaryOperator, right: A.ASTNode, g: GenState)
    requires WellFormed(g)
    ensures WellFormed(GenBinaryOp(left, op, right, g).st)
    decreases A.BinaryOp(left, op, right), 1
  {
    var l := Gen(left, g);
    GenWellFormed(left, g);
    GenWellFormed(right, l.st);
    var r := Gen(right, l.st);
    GenBinaryOpFrom(left, op, right, g, l, r);
    WellFormedArith(r.st, op, l.reg, r.reg);
  }

  /** Appending an operator's instruction into a fresh register keeps the state
      well formed when both operands are below the counter. */
  lemma WellFormedArith(s: GenState, op: A.BinaryOperator, left: Register, right: Register)
    requires WellFormed(s) && left.index < s.next && right.index < s.next
    ensures WellFormed(Push(s.(next := s.next + 1), Arith(op, Register(s.next), left, right)))
  {
    WellFormedGrow(s, s.next + 1);
    ArithWellFormed(op, Register(s.next), left, right, s.next + 1);
    WellFormedPush(s.(next := s.next + 1), Arith(op, Register(s.next), left, right));
  }

  lemma {:induction false} GenIfWellFormed(condition: A.ASTNode, thenBranch: A.ASTNode,
                                           elseBranch: Option<A.ASTNode>, g: GenState)
    requires WellFormed(g)
    ensures var r := GenIf(condition, thenBranch, elseBranch, g); WellFormed(r.st.(next := r.reg.index))
    decreases A.If(condition, thenBranch, elseBranch), 1
  {
    var c := Gen(condition, g);
    GenWellFormed(condition, g);
    WellFormedPush(c.st, JmpFalse(c.reg, 0));
    var t := Gen(thenBranch, Push(c.st, JmpFalse(c.reg, 0)));
    GenWellFormed(thenBranch, Push(c.st, JmpFalse(c.reg, 0)));
    match elseBranch {
      case Some(e) =>
        GenElseWellFormed(c, t.st, e);
      case None =>
        WellFormedPatch(t.st, |c.st.code|, JmpFalse(c.reg, |t.st.code|));
    }
  }

  /** The else-branch half of the `If` lowering, from the state after the then-branch. */
  lemma {:induction false} GenElseWellFormed(c: Emitted, t: GenState, e: A.ASTNode)
    requires WellFormed(t) && c.reg.index < t.next && |c.st.code| < |t.code|
    ensures WellFormed(GenElse(|c.st.code|, c.reg, t, e))
    decreases e, 3
  {
    WellFormedPush(t, Jmp(0));
    var t2 := Patch(Push(t, Jmp(0)), |c.st.code|, JmpFalse(c.reg, |t.code| + 1));
    WellFormedPatch(Push(t, Jmp(0)), |c.st.code|, JmpFalse(c.reg, |t.code| + 1));
    GenWellFormed(e, t2);
    var els := Gen(e, t2);
    WellFormedPatch(els.st, |t.code|, Jmp(|els.st.code|));
    assert GenElse(|c.st.code|, c.reg, t, e) == Patch(els.st, |t.code|, Jmp(|els.st.code|));
  }

  lemma {:induction false} GenWhileWellFormed(condition: A.ASTNode, body: A.ASTNode, g: GenState)
    requires WellFormed(g)
    ensures var r := GenWhile(condition, body, g); WellFormed(r.st.(next := r.reg.index))
    decreases A.While(condition, body), 1
  {
    var c := Gen(condition, g);
    GenWellFormed(condition, g);
    WellFormedPush(c.st, JmpFalse(c.reg, 0));
    var b := Gen(body, Push(c.st, JmpFalse(c.reg, 0)));
    GenWellFormed(body, Push(c.st, JmpFalse(c.reg, 0)));
    WellFormedPush(b.st, Jmp(|g.code|));
    var b1 := Push(b.st, Jmp(|g.code|));
    WellFormedPatch(b1, |c.st.code|, JmpFalse(c.reg, |b1.code|));
    assert GenWhile(condition, body, g) == Allocate(Patch(b1, |c.st.code|, JmpFalse(c.reg, |b1.code|)));
  }

  lemma {:induction false} GenSeqWellFormed(statements: seq<A.ASTNode>, g: GenState, last: Register)
    requires WellFormed(g)
    ensures WellFormed(GenSeq(statements, g, last).st)
    decreases statements, 0
  {
    if statements != [] {
      GenWellFormed(statements[0], g);
      GenSeqWellFormed(statements[1..], Gen(statements[0], g).st, Gen(statements[0], g).reg);
    }
  }

  /** A jump at index `i` of code spanning `lo` to `hi` is resolved: a conditional
      jump goes strictly forward and at most to the end, so its target is never the
      placeholder 0; an unconditional one stays within `lo` to `hi`. */
  ghost predicate JumpOk(instr: Instruction, i: nat, lo: nat, hi: nat)
  {
    match instr
    case JmpFalse(_, target) => i < target <= hi
    case Jmp(target) => lo <= target <= hi
    case _ => true
  }

  /** Every instruction at an index in `from` to `to` is resolved for the code from `lo`. */
  ghost predicate ResolvedBetween(code: seq<Instruction>, lo: nat, from: nat, to: nat)
    requires to <= |code|
  {
    forall i | from <= i < to :: JumpOk(code[i], i, lo, |code|)
  }

  lemma ResolvedWiden(c1: seq<Instruction>, c2: seq<Instruction>, lo1: nat, lo: nat, from: nat, to: nat)
    requires to <= |c1| && c1 <= c2 && lo <= lo1
    requires ResolvedBetween(c1, lo1, from, to)
    ensures ResolvedBetween(c2, lo, from, to)
  {
    forall i | from <= i < to ensures JumpOk(c2[i], i, lo, |c2|) {
      assert c2[i] == c1[i];
    }
  }

  lemma ResolvedAgree(c1: seq<Instruction>, c2: seq<Instruction>, lo: nat, from: nat, to: nat)
    requires to <= |c1| <= |c2|
    requires forall i | from <= i < to :: c1[i] == c2[i]
    requires ResolvedBetween(c1, lo, from, to)
    ensures ResolvedBetween(c2, lo, from, to)
  {
    forall i | from <= i < to ensures JumpOk(c2[i], i, lo, |c2|) {
      assert c2[i] == c1[i];
    }
  }

  lemma ResolvedJoin(code: seq<Instruction>, lo: nat, a: nat, b: nat, c: nat)
    requires a <= b <= c <= |code|
    requires ResolvedBetween(code, lo, a, b) && ResolvedBetween(code, lo, b, c)
    ensures ResolvedBetween(code, lo, a, c)
  {
  }

  /** Code resolved from `lo`, followed by code resolved from where it ends. */
  lemma ResolvedSeq(c1: seq<Instruction>, c2: seq<Instruction>, lo: nat)
    requires c1 <= c2 && lo <= |c1|
    requires ResolvedBetween(c1, lo, lo, |c1|) && ResolvedBetween(c2, |c1|, |c1|, |c2|)
    ensures ResolvedBetween(c2, lo, lo, |c2|)
  {
    ResolvedWiden(c1, c2, lo, lo, lo, |c1|);
  }

  lemma ResolvedAt(code: seq<Instruction>, lo: nat, i: nat)
    requires i < |code| && JumpOk(code[i], i, lo, |code|)
    ensures ResolvedBetween(code, lo, i, i + 1)
  {
  }

  lemma ResolvedPatched(c: seq<Instruction>, at: nat, instr: Instruction, lo: nat, from: nat, to: nat)
    requires to <= |c| && at < |c| && (at < from || to <= at)
    requires ResolvedBetween(c, lo, from, to)
    ensures ResolvedBetween(c[at := instr], lo, from, to)
  {
  }

  /** In the code a call appends, every `JmpFalse` jumps strictly forward to at most
      the end (so never to the placeholder 0), and every `Jmp` stays within the
      node's code or goes to its end. */
  lemma {:induction false} GenResolved(node: A.ASTNode, g: GenState)
    ensures var r := Gen(node, g); ResolvedBetween(r.st.code, |g.code|, |g.code|, |r.st.code|)
    decreases node, 2
  {
    match node
    case NumberLiteral(_) =>
    case StringLiteral(_) =>
    case Variable(_) =>
    case BinaryOp(left, op, right) =>
      GenBinaryOpResolved(left, op, right, g);
    case Assignment(_, value) =>
      var v := Gen(value, g);
      GenResolved(value, g);
      ResolvedWiden(v.st.code, Gen(node, g).st.code, |g.code|, |g.code|, |g.code|, |v.st.code|);
    case Block(statements) =>
      GenSeqResolved(statements, Allocate(g).st, Allocate(g).reg);
    case If(condition, thenBranch, elseBranch) =>
      GenIfResolved(condition, thenBranch, elseBranch, g);
    case While(condition, body) =>
      GenWhileResolved(condition, body, g);
  }

  /** The code of a binary operation: two operands' code, each resolved from where
      it starts, and one instruction that is not a jump. */
  lemma ResolvedOperands(gc: seq<Instruction>, lc: seq<Instruction>, rc: seq<Instruction>, x: Instruction)
    requires gc <= lc <= rc && !x.Jmp? && !x.JmpFalse?
    requires ResolvedBetween(lc, |gc|, |gc|, |lc|) && ResolvedBetween(rc, |lc|, |lc|, |rc|)
    ensures ResolvedBetween(rc + [x], |gc|, |gc|, |rc| + 1)
  {
    ResolvedSeq(lc, rc, |gc|);
    ResolvedAt(rc + [x], |rc|, |rc|);
    ResolvedSeq(rc, rc + [x], |gc|);
  }

  lemma {:induction false} GenBinaryOpResolved(left: A.ASTNode, op: A.BinaryOperator, right: A.ASTNode, g: GenState)
    ensures var r := GenBinaryOp(left, op, right, g); ResolvedBetween(r.st.code, |g.code|, |g.code|, |r.st.code|)
    decreases A.BinaryOp(left, op, right), 1
  {
    var l := Gen(left, g);
    var r := Gen(right, l.st);
    GenBinaryOpFrom(left, op, right, g, l, r);
    GenResolved(left, g);
    GenResolved(right, l.st);
    ResolvedOperands(g.code, l.st.code, r.st.code, Arith(op, Register(r.st.next), l.reg, r.reg));
  }

  lemma {:induction false} GenSeqResolved(statements: seq<A.ASTNode>, g: GenState, last: Register)
    ensures var r := GenSeq(statements, g, last); ResolvedBetween(r.st.code, |g.code|, |g.code|, |r.st.code|)
    decreases statements, 0
  {
    if statements != [] {
      var s := Gen(statements[0], g);
      var r := GenSeq(statements, g, last);
      GenResolved(statements[0], g);
      GenSeqResolved(statements[1..], s.st, s.reg);
      ResolvedWiden(s.st.code, r.st.code, |g.code|, |g.code|, |g.code|, |s.st.code|);
      ResolvedWiden(r.st.code, r.st.code, |s.st.code|, |g.code|, |s.st.code|, |r.st.code|);
    }
  }

  lemma {:induction false} GenIfResolved(condition: A.ASTNode, thenBranch: A.ASTNode,
                                         elseBranch: Option<A.ASTNode>, g: GenState)
    ensures var r := GenIf(condition, thenBranch, elseBranch, g);
      ResolvedBetween(r.st.code, |g.code|, |g.code|, |r.st.code|)
    decreases A.If(condition, thenBranch, elseBranch), 1
  {
    var c := Gen(condition, g);
    var c1 := Push(c.st, JmpFalse(c.reg, 0));
    var t := Gen(thenBranch, c1);
    GenResolved(condition, g);
    GenResolved(thenBranch, c1);
    match elseBranch {
      case Some(e) =>
        GenElseResolved(g, c, t.st, e);
      case None =>
        var patched := Patch(t.st, |c.st.code|, JmpFalse(c.reg, |t.st.code|));
        ResolvedWiden(c.st.code, t.st.code, |g.code|, |g.code|, |g.code|, |c.st.code|);
        ResolvedPatched(t.st.code, |c.st.code|, JmpFalse(c.reg, |t.st.code|), |g.code|, |g.code|, |c.st.code|);
        ResolvedWiden(t.st.code, t.st.code, |c1.code|, |g.code|, |c1.code|, |t.st.code|);
        ResolvedPatched(t.st.code, |c.st.code|, JmpFalse(c.reg, |t.st.code|), |g.code|, |c1.code|, |t.st.code|);
    }
  }

  /** The code of an `if` with an else-branch, as `GenElse` leaves it: the
      condition's code, the patched `JmpFalse`, the then-branch, the patched `Jmp` and
      the else-branch, each part resolved from where it starts. */
  lemma ResolvedElseParts(gc: seq<Instruction>, cc: seq<Instruction>, t: seq<Instruction>, els: seq<Instruction>, cond: Register)
    requires gc <= cc && cc + [JmpFalse(cond, 0)] <= t
    requires ResolvedBetween(cc, |gc|, |gc|, |cc|) && ResolvedBetween(t, |cc| + 1, |cc| + 1, |t|)
    requires (t + [Jmp(0)])[|cc| := JmpFalse(cond, |t| + 1)] <= els
    requires ResolvedBetween(els, |t| + 1, |t| + 1, |els|)
    ensures ResolvedBetween(els[|t| := Jmp(|els|)], |gc|, |gc|, |els|)
  {
    var t2 := (t + [Jmp(0)])[|cc| := JmpFalse(cond, |t| + 1)];
    var final := els[|t| := Jmp(|els|)];
    ResolvedWiden(cc, final, |gc|, |gc|, |gc|, |cc|);
    ResolvedAgree(t, t2, |gc|, |cc| + 1, |t|);
    ResolvedWiden(t2, els, |gc|, |gc|, |cc| + 1, |t|);
    ResolvedPatched(els, |t|, Jmp(|els|), |gc|, |cc| + 1, |t|);
    ResolvedPatched(els, |t|, Jmp(|els|), |gc|, |t2|, |els|);
    assert final[|cc|] == JmpFalse(cond, |t| + 1);
    ResolvedAt(final, |gc|, |cc|);
    ResolvedAt(final, |gc|, |t|);
    ResolvedJoin(final, |gc|, |gc|, |cc|, |cc| + 1);
    ResolvedJoin(final, |gc|, |gc|, |cc| + 1, |t|);
    ResolvedJoin(final, |gc|, |gc|, |t|, |t2|);
    ResolvedJoin(final, |gc|, |gc|, |t2|, |final|);
  }

  lemma {:induction false} GenElseResolved(g: GenState, c: Emitted, t: GenState, e: A.ASTNode)
    requires g.code <= c.st.code && Push(c.st, JmpFalse(c.reg, 0)).code <= t.code
    requires ResolvedBetween(c.st.code, |g.code|, |g.code|, |c.st.code|)
    requires ResolvedBetween(t.code, |c.st.code| + 1, |c.st.code| + 1, |t.code|)
    ensures var r := GenElse(|c.st.code|, c.reg, t, e); ResolvedBetween(r.code, |g.code|, |g.code|, |r.code|)
    decreases e, 3
  {
    var t2 := Patch(Push(t, Jmp(0)), |c.st.code|, JmpFalse(c.reg, |t.code| + 1));
    var els := Gen(e, t2);
    GenResolved(e, t2);
    assert GenElse(|c.st.code|, c.reg, t, e).code == els.st.code[|t.code| := Jmp(|els.st.code|)];
    ResolvedElseParts(g.code, c.st.code, t.code, els.st.code, c.reg);
  }

  /** The code of a `while` loop, as `GenWhile` leaves it: the condition's code,
      the patched `JmpFalse`, the body and the back-jump to the loop start. */
  lemma ResolvedWhileParts(gc: seq<Instruction>, cc: seq<Instruction>, b: seq<Instruction>, cond: Register)
    requires gc <= cc && cc + [JmpFalse(cond, 0)] <= b
    requires ResolvedBetween(cc, |gc|, |gc|, |cc|) && ResolvedBetween(b, |cc| + 1, |cc| + 1, |b|)
    ensures var b1 := b + [Jmp(|gc|)];
      ResolvedBetween(b1[|cc| := JmpFalse(cond, |b1|)], |gc|, |gc|, |b1|)
  {
    var b1 := b + [Jmp(|gc|)];
    var final := b1[|cc| := JmpFalse(cond, |b1|)];
    ResolvedWiden(cc, final, |gc|, |gc|, |gc|, |cc|);
    ResolvedWiden(b, b1, |cc| + 1, |gc|, |cc| + 1, |b|);
    ResolvedPatched(b1, |cc|, JmpFalse(cond, |b1|), |gc|, |cc| + 1, |b|);
    assert final[|cc|] == JmpFalse(cond, |b1|);
    ResolvedAt(final, |gc|, |cc|);
    assert final[|b|] == Jmp(|gc|);
    ResolvedAt(final, |gc|, |b|);
    ResolvedJoin(final, |gc|, |gc|, |cc|, |cc| + 1);
    ResolvedJoin(final, |gc|, |gc|, |cc| + 1, |b|);
    ResolvedJoin(final, |gc|, |gc|, |b|, |final|);
  }

  lemma {:induction false} GenWhileResolved(condition: A.ASTNode, body: A.ASTNode, g: GenState)
    ensures var r := GenWhile(condition, body, g);
      ResolvedBetween(r.st.code, |g.code|, |g.code|, |r.st.code|)
    decreases A.While(condition, body), 1
  {
    var c := Gen(condition, g);
    var c1 := Push(c.st, JmpFalse(c.reg, 0));
    var b := Gen(body, c1);
    GenResolved(condition, g);
    GenResolved(body, c1);
    var b1 := b.st.code + [Jmp(|g.code|)];
    assert GenWhile(condition, body, g).st.code == b1[|c.st.code| := JmpFalse(c.reg, |b1|)];
    ResolvedWhileParts(g.code, c.st.code, b.st.code, c.reg);
  }

  // ---------------------------------------------------------------------------
  // What each node kind emits
  // ---------------------------------------------------------------------------

  /** The value a literal node loads. */
  function LiteralValue(node: A.ASTNode): Value
    requires node.NumberLiteral? || node.StringLiteral?
  {
    if node.NumberLiteral? then Number(node.number) else String(node.text)
  }

  /** A literal emits exactly one `Load` of its value into the register that was
      next, and allocates exactly that register. */
  lemma LiteralEmitsOneLoad(node: A.ASTNode, g: GenState)
    requires node.NumberLiteral? || node.StringLiteral?
    ensures var r := Gen(node, g);
      && r.reg == Register(g.next) && r.st.next == g.next + 1
      && r.st.code == g.code + [Load(Register(g.next), LiteralValue(node))]
      && r.st.vars == g.vars
  {
  }

  /** A binary operation emits all of its left operand's code, then all of its right
      operand's, then one arithmetic instruction that combines the two operand
      registers into a register allocated after both. */
  lemma BinaryOpLayout(left: A.ASTNode, op: A.BinaryOperator, right: A.ASTNode, g: GenState)
    ensures var l := Gen(left, g);
      var r := Gen(right, l.st);
      var n := Gen(A.BinaryOp(left, op, right), g);
      && g.code <= l.st.code <= r.st.code
      && l.reg.index < l.st.next <= r.st.next
      && n.reg == Register(r.st.next) && n.st.next == r.st.next + 1
      && n.st.code == r.st.code + [Arith(op, n.reg, l.reg, r.reg)]
  {
  }

  /** An assignment emits its value's code and then a `Store` of the value's register;
      it records that register for the name and returns it. */
  lemma AssignmentLayout(name: string, value: A.ASTNode, g: GenState)
    ensures var v := Gen(value, g);
      var n := Gen(A.Assignment(name, value), g);
      && n.reg == v.reg
      && n.st.code == v.st.code + [Store(name, v.reg)]
      && n.st.vars == v.st.vars[name := v.reg] && n.st.next == v.st.next
  {
  }

  /** An empty block emits nothing and returns the register it allocated up front,
      which no instruction writes. */
  lemma EmptyBlock(g: GenState)
    ensures Gen(A.Block([]), g) == Emitted(g.(next := g.next + 1), Register(g.next))
  {
  }

  lemma {:induction false} GenSeqAppend(statements: seq<A.ASTNode>, s: A.ASTNode, g: GenState, last: Register)
    ensures GenSeq(statements + [s], g, last) == Gen(s, GenSeq(statements, g, last).st)
    decreases statements
  {
    if statements == [] {
      assert [s][1..] == [];
    } else {
      assert (statements + [s])[1..] == statements[1..] + [s];
      var h := Gen(statements[0], g);
      GenSeqAppend(statements[1..], s, h.st, h.reg);
    }
  }

  /** A block generates its statements in order and yields the last statement's
      register: appending a statement to a block is generating it after the block. */
  lemma BlockAppend(statements: seq<A.ASTNode>, s: A.ASTNode, g: GenState)
    ensures Gen(A.Block(statements + [s]), g) == Gen(s, Gen(A.Block(statements), g).st)
  {
    GenSeqAppend(statements, s, Allocate(g).st, Allocate(g).reg);
  }

  /** `If` with an else-branch: the `JmpFalse` after the condition is patched to the
      index just past the `Jmp` that ends the then-branch, that `Jmp` is patched to the
      end of the else-branch, and the result is a new register no instruction names. */
  lemma IfElseLayout(condition: A.ASTNode, thenBranch: A.ASTNode, e: A.ASTNode, g: GenState)
    requires WellFormed(g)
    ensures var c := Gen(condition, g);
      var thenLabel := |c.st.code|;
      var t := Gen(thenBranch, Push(c.st, JmpFalse(c.reg, 0)));
      var elseLabel := |t.st.code|;
      var n := Gen(A.If(condition, thenBranch, Some(e)), g);
      && |g.code| <= thenLabel < elseLabel < |n.st.code|
      && n.st.code[thenLabel] == JmpFalse(c.reg, elseLabel + 1)
      && n.st.code[elseLabel] == Jmp(|n.st.code|)
      && n.reg == Register(n.st.next - 1)
      && (forall i | 0 <= i < |n.st.code| :: RegistersBelow(n.st.code[i], n.reg.index))
  {
    GenIfWellFormed(condition, thenBranch, Some(e), g);
  }

  /** `If` without an else-branch: the `JmpFalse` is patched to the end of the
      then-branch. */
  lemma IfThenLayout(condition: A.ASTNode, thenBranch: A.ASTNode, g: GenState)
    requires WellFormed(g)
    ensures var c := Gen(condition, g);
      var thenLabel := |c.st.code|;
      var n := Gen(A.If(condition, thenBranch, None), g);
      && |g.code| <= thenLabel < |n.st.code|
      && n.st.code[thenLabel] == JmpFalse(c.reg, |n.st.code|)
      && n.reg == Register(n.st.next - 1)
      && (forall i | 0 <= i < |n.st.code| :: RegistersBelow(n.st.code[i], n.reg.index))
  {
    GenIfWellFormed(condition, thenBranch, None, g);
  }

  /** `While`: the condition's code starts at the loop start, the `JmpFalse` after it
      is patched to the index past the final back-jump, and the last instruction
      jumps back to the loop start. */
  lemma WhileLayout(condition: A.ASTNode, body: A.ASTNode, g: GenState)
    requires WellFormed(g)
    ensures var c := Gen(condition, g);
      var bodyStart := |c.st.code|;
      var n := Gen(A.While(condition, body), g);
      && |g.code| <= bodyStart < |n.st.code| - 1
      && n.st.code[..bodyStart] == c.st.code
      && n.st.code[bodyStart] == JmpFalse(c.reg, |n.st.code|)
      && n.st.code[|n.st.code| - 1] == Jmp(|g.code|)
      && n.reg == Register(n.st.next - 1)
      && (forall i | 0 <= i < |n.st.code| :: RegistersBelow(n.st.code[i], n.reg.index))
  {
    GenWhileWellFormed(condition, body, g);
  }
}
