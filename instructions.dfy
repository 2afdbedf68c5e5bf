/** The bytecode instruction set. */
module Instructions {
  import opened Values

  /** A virtual register: an index into a process's register file. */
  datatype Register = Register(index: nat)

  /** Jump targets are absolute instruction indices. */
  datatype Instruction =
    | Halt
    | Load(reg: Register, value: Value)
    | Store(name: string, src: Register)
    | LoadVar(reg: Register, name: string)
    | Add(dest: Register, left: Register, right: Register)
    | Sub(dest: Register, left: Register, right: Register)
    | Mul(dest: Register, left: Register, right: Register)
    | Div(dest: Register, left: Register, right: Register)
    | Jmp(target: nat)
    | JmpFalse(cond: Register, target: nat)
    | DbgPrintReg(reg: Register)
    | DbgPrintVar(name: string)

  /** Every register the instruction names is below `n`. */
  predicate RegistersBelow(instr: Instruction, n: nat)
  {
    match instr
    case Halt => true
    case Load(r, _) => r.index < n
    case Store(_, r) => r.index < n
    case LoadVar(r, _) => r.index < n
    case Add(d, a, b) => d.index < n && a.index < n && b.index < n
    case Sub(d, a, b) => d.index < n && a.index < n && b.index < n
    case Mul(d, a, b) => d.index < n && a.index < n && b.index < n
    case Div(d, a, b) => d.index < n && a.index < n && b.index < n
    case Jmp(_) => true
    case JmpFalse(r, _) => r.index < n
    case DbgPrintReg(r) => r.index < n
    case DbgPrintVar(_) => true
  }
}
