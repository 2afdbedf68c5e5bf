module DriverProgram {
  import opened Wrappers
  import opened Values
  import opened Instructions
  import opened Generator
  import A = Ast

  const InitX := A.Assignment("x", A.NumberLiteral(0.0))
  const LoopCondition := A.BinaryOp(A.NumberLiteral(5.0), A.Subtract, A.Variable("x"))
  const IncrementX := A.Assignment("x", A.BinaryOp(A.Variable("x"), A.Add, A.NumberLiteral(1.0)))
  const SetTemp := A.Assignment("temp", A.BinaryOp(A.NumberLiteral(5.0), A.Subtract, A.Variable("x")))
  const CountUp := A.While(LoopCondition, LoopBody)
  const ResultCondition := A.BinaryOp(A.Variable("x"), A.Subtract, A.NumberLiteral(5.0))
  const Choose := A.If(ResultCondition, SetResultOne, Some(SetResultZero))
  const SetHello := A.Assignment("hello", A.StringLiteral("hello "))
  const SetWorld := A.Assignment("world", A.NumberLiteral(38.0))
  const SetStr := A.Assignment("str", A.BinaryOp(A.Variable("hello"), A.Add, A.Variable("world")))
  const MainProgram := A.Block([InitX, CountUp, Choose, SetHello, SetWorld, SetStr])

  lemma CompileInitX(g: GenState)
    requires g.next == 1
    ensures var r := Gen(InitX, g);
      r.st.code == g.code + [Load(Register(1), Number(0.0)), Store("x", Register(1))] && r.st.next == 2
  {
  }

  lemma CompileLoopCondition(g: GenState)
    requires g.next == 2
    ensures var r := Gen(LoopCondition, g);
      && r.st.code == g.code + [Load(Register(2), Number(5.0)), LoadVar(Register(3), "x"), Sub(Register(4), Register(2), Register(3))]
      && r.st.next == 5 && r.reg == Register(4)
  {
  }

  lemma CompileIncrementX(g: GenState)
    requires g.next == 6
    ensures var r := Gen(IncrementX, g);
      && r.st.code == g.code + [LoadVar(Register(6), "x"), Load(Register(7), Number(1.0)),
                                Instructions.Add(Register(8), Register(6), Register(7)), Store("x", Register(8))]
      && r.st.next == 9
  {
  }

  lemma CompileSetTemp(g: GenState)
    requires g.next == 9
    ensures var r := Gen(SetTemp, g);
      && r.st.code == g.code + [Load(Register(9), Number(5.0)), LoadVar(Register(10), "x"),
                                Sub(Register(11), Register(9), Register(10)), Store("temp", Register(11))]
      && r.st.next == 12
  {
  }

  lemma CompileSetStr(g: GenState)
    requires g.next == 21
    ensures var r := Gen(SetStr, g);
      && r.st.code == g.code + [LoadVar(Register(21), "hello"), LoadVar(Register(22), "world"),
                                Instructions.Add(Register(23), Register(21), Register(22)), Store("str", Register(23))]
      && r.st.next == 24
  {
  }

  const LoopBody := A.Block([IncrementX, SetTemp])

  lemma CompileLoopBody(g: GenState)
    requires g.next == 5
    ensures var r := Gen(LoopBody, g);
      && r.st.code == g.code + [LoadVar(Register(6), "x"), Load(Register(7), Number(1.0)),
                                Instructions.Add(Register(8), Register(6), Register(7)), Store("x", Register(8)),
                                Load(Register(9), Number(5.0)), LoadVar(Register(10), "x"),
                                Sub(Register(11), Register(9), Register(10)), Store("temp", Register(11))]
      && r.st.next == 12
  {
    var a := Allocate(g);
    var i := Gen(IncrementX, a.st);
    CompileIncrementX(a.st);
    CompileSetTemp(i.st);
    assert [IncrementX, SetTemp][1..] == [SetTemp];
    assert Gen(LoopBody, g) == GenSeq([SetTemp], i.st, i.reg);
  }

  const CondCode := [Load(Register(2), Number(5.0)), LoadVar(Register(3), "x"), Sub(Register(4), Register(2), Register(3))]
  const BodyCode := [LoadVar(Register(6), "x"), Load(Register(7), Number(1.0)),
                                Instructions.Add(Register(8), Register(6), Register(7)), Store("x", Register(8)),
                                Load(Register(9), Number(5.0)), LoadVar(Register(10), "x"),
                                Sub(Register(11), Register(9), Register(10)), Store("temp", Register(11))]

  lemma CompileCountUp(g: GenState)
    requires g.next == 2 && |g.code| == 2
    ensures var r := Gen(CountUp, g);
      && r.st.code == g.code + [Load(Register(2), Number(5.0)), LoadVar(Register(3), "x"), Sub(Register(4), Register(2), Register(3)),
                                JmpFalse(Register(4), 15),
                                LoadVar(Register(6), "x"), Load(Register(7), Number(1.0)),
                                Instructions.Add(Register(8), Register(6), Register(7)), Store("x", Register(8)),
                                Load(Register(9), Number(5.0)), LoadVar(Register(10), "x"),
                                Sub(Register(11), Register(9), Register(10)), Store("temp", Register(11)),
                                Jmp(2)]
      && r.st.next == 13 && r.reg == Register(12)
  {
    var c := Gen(LoopCondition, g);
    CompileLoopCondition(g);
    var p := Push(c.st, JmpFalse(c.reg, 0));
    var b := Gen(LoopBody, p);
    CompileLoopBody(p);
    var w := Push(b.st, Jmp(2));
    assert w.code == g.code + CondCode + [JmpFalse(Register(4), 0)] + BodyCode + [Jmp(2)];
    assert |w.code| == 15;
    assert Gen(CountUp, g) == Allocate(Patch(w, 5, JmpFalse(Register(4), 15)));
  }

  lemma CompileResultCondition(g: GenState)
    requires g.next == 13
    ensures var r := Gen(ResultCondition, g);
      && r.st.code == g.code + [LoadVar(Register(13), "x"), Load(Register(14), Number(5.0)), Sub(Register(15), Register(13), Register(14))]
      && r.st.next == 16 && r.reg == Register(15)
  {
  }

  /** `result = v` at any point: a load of `v` into the next register and a store. */
  lemma CompileSetResult(g: GenState, v: real)
    ensures var r := Gen(A.Assignment("result", A.NumberLiteral(v)), g);
      && r.st.code == g.code + [Load(Register(g.next), Number(v)), Store("result", Register(g.next))]
      && r.st.next == g.next + 1
  {
  }


  const SetResultOne := A.Assignment("result", A.NumberLiteral(1.0))
  const SetResultZero := A.Assignment("result", A.NumberLiteral(0.0))


  /** The `if` unfolds to its condition, its then-branch and the else half. */
  lemma ChooseUnfolds(g: GenState)
    ensures var c := Gen(ResultCondition, g);
      var t := Gen(SetResultOne, Push(c.st, JmpFalse(c.reg, 0)));
      Gen(Choose, g) == Allocate(GenElse(|c.st.code|, c.reg, t.st, SetResultZero))
  {
  }

  /** The condition and the then-branch of the `if`, before the backpatch. */
  lemma CompileChooseThen(g: GenState)
    requires g.next == 13
    ensures var c := Gen(ResultCondition, g);
      var t := Gen(SetResultOne, Push(c.st, JmpFalse(c.reg, 0)));
      && c.reg == Register(15) && |c.st.code| == |g.code| + 3 && t.st.next == 17
      && t.st.code == g.code + ChooseCondition + [JmpFalse(Register(15), 0)] + ChooseThen
  {
    var c := Gen(ResultCondition, g);
    CompileResultCondition(g);
    CompileSetResult(Push(c.st, JmpFalse(c.reg, 0)), 1.0);
  }

  /** The else half of the `if`, from the state after the then-branch. */
  lemma CompileChooseElse(pre: seq<Instruction>, t: GenState)
    requires |pre| == 18 && t.next == 17
    requires t.code == pre + [JmpFalse(Register(15), 0)] + ChooseThen
    ensures var r := GenElse(18, Register(15), t, SetResultZero);
      r.code == pre + [JmpFalse(Register(15), 22)] + ChooseThen + ChooseElse && r.next == 18
  {
    var q := Patch(Push(t, Jmp(0)), 18, JmpFalse(Register(15), 22));
    assert q.code == pre + [JmpFalse(Register(15), 22)] + ChooseThen + [Jmp(0)];
    CompileSetResult(q, 0.0);
  }

  const ChooseCondition := [LoadVar(Register(13), "x"), Load(Register(14), Number(5.0)), Sub(Register(15), Register(13), Register(14))]
  const ChooseThen := [Load(Register(16), Number(1.0)), Store("result", Register(16))]
  const ChooseElse := [Jmp(24), Load(Register(17), Number(0.0)), Store("result", Register(17))]

  /** The code of the `if`: the condition, the jump to the else-branch, the
      then-branch, the jump over the else-branch and the else-branch. */
  const ChooseCode := [LoadVar(Register(13), "x"), Load(Register(14), Number(5.0)), Sub(Register(15), Register(13), Register(14)),
                       JmpFalse(Register(15), 22),
                       Load(Register(16), Number(1.0)), Store("result", Register(16)),
                       Jmp(24),
                       Load(Register(17), Number(0.0)), Store("result", Register(17))]

  lemma CompileChoose(g: GenState)
    requires g.next == 13 && |g.code| == 15
    ensures var r := Gen(Choose, g);
      r.st.code == g.code + ChooseCode && r.st.next == 19 && r.reg == Register(18)
  {
    ChooseUnfolds(g);
    CompileChooseThen(g);
    var c := Gen(ResultCondition, g);
    var t := Gen(SetResultOne, Push(c.st, JmpFalse(c.reg, 0)));
    CompileChooseElse(g.code + ChooseCondition, t.st);
  }

  lemma CompileSetHello(g: GenState)
    requires g.next == 19
    ensures var r := Gen(SetHello, g);
      r.st.code == g.code + [Load(Register(19), String("hello ")), Store("hello", Register(19))] && r.st.next == 20
  {
  }

  lemma CompileSetWorld(g: GenState)
    requires g.next == 20
    ensures var r := Gen(SetWorld, g);
      r.st.code == g.code + [Load(Register(20), Number(38.0)), Store("world", Register(20))] && r.st.next == 21
  {
  }
}
