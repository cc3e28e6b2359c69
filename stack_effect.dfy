/**
 * What the emitted instruction blocks do to the machine stack, read
 * symbolically: each line the generator writes is decoded as an x86-64
 * instruction and run on a stack of symbolic values. This is the
 * stack-machine discipline the generator relies on (every intrinsic pops
 * its operands and pushes its results); it does not model 64-bit
 * arithmetic or flags.
 */
module StackEffect {
  import opened Wrappers
  import opened Decimal
  import opened Instructions
  import opened CodeGenerator

  /** A symbolic 64-bit value: a literal, or the result of an operation on others. */
  datatype Sym =
    | Imm(v: int)
    | Unknown(reg: Register)
    | Sum(a: Sym, b: Sym)
    | Difference(a: Sym, b: Sym)
    | ProductLow(a: Sym, b: Sym)
    | Quotient(high: Sym, low: Sym, divisor: Sym)
    | Remainder(high: Sym, low: Sym, divisor: Sym)

  datatype Register = Rax | Rbx | Rdx

  datatype Machine = Machine(stack: seq<Sym>, rax: Sym, rbx: Sym, rdx: Sym)

  /** The instructions the generator's blocks are made of. */
  datatype AsmOp =
    | Comment
    | MovRax(v: int)
    | Push(src: Register)
    | Pop(dst: Register)
    | AddRaxRbx
    | SubRaxRbx
    | ImulRbx
    | IdivRbx

  const MovPrefix: string := "  mov rax, "

  /** Reads one emitted line; lines outside the blocks' vocabulary decode to nothing. */
  function Decode(line: string): Option<AsmOp> {
    if |line| >= 5 && line[..5] == "  ;; " then Some(Comment)
    else if |line| > |MovPrefix| + 1 && line[..|MovPrefix|] == MovPrefix && line[|line| - 1] == '\n' then
      match ParseDecimal(line[|MovPrefix|..|line| - 1])
      case Some(v) => Some(MovRax(v))
      case None => None
    else if line == "  push rax\n" then Some(Push(Rax))
    else if line == "  push rdx\n" then Some(Push(Rdx))
    else if line == "  pop rax\n" then Some(Pop(Rax))
    else if line == "  pop rbx\n" then Some(Pop(Rbx))
    else if line == "  add rax, rbx\n" then Some(AddRaxRbx)
    else if line == "  sub rax, rbx\n" then Some(SubRaxRbx)
    else if line == "  imul rbx\n" then Some(ImulRbx)
    else if line == "  idiv rbx\n" then Some(IdivRbx)
    else None
  }

  function Get(m: Machine, r: Register): Sym {
    match r
    case Rax => m.rax
    case Rbx => m.rbx
    case Rdx => m.rdx
  }

  function Set(m: Machine, r: Register, x: Sym): Machine {
    match r
    case Rax => m.(rax := x)
    case Rbx => m.(rbx := x)
    case Rdx => m.(rdx := x)
  }

  /**
   * One instruction; `None` when a `pop` finds the stack empty. `imul`
   * keeps only the low half in rax (the high half goes to rdx, which no
   * block reads afterwards); `idiv` divides rdx:rax by rbx.
   */
  function Exec(op: AsmOp, m: Machine): Option<Machine> {
    match op
    case Comment => Some(m)
    case MovRax(v) => Some(m.(rax := Imm(v)))
    case Push(r) => Some(m.(stack := m.stack + [Get(m, r)]))
    case Pop(r) =>
      if m.stack == [] then None
      else Some(Set(m.(stack := m.stack[..|m.stack| - 1]), r, m.stack[|m.stack| - 1]))
    case AddRaxRbx => Some(m.(rax := Sum(m.rax, m.rbx)))
    case SubRaxRbx => Some(m.(rax := Difference(m.rax, m.rbx)))
    case ImulRbx => Some(m.(rax := ProductLow(m.rax, m.rbx), rdx := Unknown(Rdx)))
    case IdivRbx => Some(m.(rax := Quotient(m.rdx, m.rax, m.rbx), rdx := Remainder(m.rdx, m.rax, m.rbx)))
  }

  /** Runs emitted lines in order; `None` on an undecodable line or a stack underflow. */
  function Run(lines: seq<string>, m: Machine): Option<Machine>
    decreases |lines|
  {
    if lines == [] then Some(m)
    else
      match Decode(lines[0])
      case None => None
      case Some(op) =>
        match Exec(op, m)
        case None => None
        case Some(m') => Run(lines[1..], m')
  }

  lemma {:induction false} RunAppend(a: seq<string>, b: seq<string>, m: Machine)
    ensures Run(a + b, m) == (match Run(a, m) case None => None case Some(m') => Run(b, m'))
    decreases |a|
  {
    if a == [] {
      assert a + b == b;
    } else {
      assert (a + b)[0] == a[0];
      assert (a + b)[1..] == a[1..] + b;
      match Decode(a[0])
      case None =>
      case Some(op) =>
        match Exec(op, m)
        case None =>
        case Some(m') => RunAppend(a[1..], b, m');
    }
  }

  // ------------------------------------------------------ the vocabulary

  lemma {:induction false} DecodeMov(v: int)
    ensures Decode(MovPrefix + IntToDecimal(v) + "\n") == Some(MovRax(v))
  {
    var line := MovPrefix + IntToDecimal(v) + "\n";
    assert line[..|MovPrefix|] == MovPrefix;
    assert line[|MovPrefix|..|line| - 1] == IntToDecimal(v);
    assert line[2] == 'm';
    IntToDecimalRoundTrip(v);
  }

  /** The fixed lines of every block decode to the instruction they name. */
  lemma {:induction false} DecodeFixedLines()
    ensures Decode("  push rax\n") == Some(Push(Rax))
    ensures Decode("  push rdx\n") == Some(Push(Rdx))
    ensures Decode("  pop rax\n") == Some(Pop(Rax))
    ensures Decode("  pop rbx\n") == Some(Pop(Rbx))
    ensures Decode("  add rax, rbx\n") == Some(AddRaxRbx)
    ensures Decode("  sub rax, rbx\n") == Some(SubRaxRbx)
    ensures Decode("  imul rbx\n") == Some(ImulRbx)
    ensures Decode("  idiv rbx\n") == Some(IdivRbx)
  {
    DecodeStackLines();
    DecodeArithmeticLines();
  }

  lemma {:induction false} DecodeStackLines()
    ensures Decode("  push rax\n") == Some(Push(Rax))
    ensures Decode("  push rdx\n") == Some(Push(Rdx))
    ensures Decode("  pop rax\n") == Some(Pop(Rax))
    ensures Decode("  pop rbx\n") == Some(Pop(Rbx))
  {
    assert "  push rax\n"[2] != ';' && "  push rax\n"[2] != 'm';
    assert "  push rdx\n"[2] != ';' && "  push rdx\n"[2] != 'm';
    assert "  pop rax\n"[2] != ';' && "  pop rax\n"[2] != 'm';
    assert "  pop rbx\n"[2] != ';' && "  pop rbx\n"[2] != 'm';
  }

  lemma {:induction false} DecodeArithmeticLines()
    ensures Decode("  add rax, rbx\n") == Some(AddRaxRbx)
    ensures Decode("  sub rax, rbx\n") == Some(SubRaxRbx)
    ensures Decode("  imul rbx\n") == Some(ImulRbx)
    ensures Decode("  idiv rbx\n") == Some(IdivRbx)
  {
    assert "  add rax, rbx\n"[2] != ';' && "  add rax, rbx\n"[2] != 'm';
    assert "  add rax, rbx\n"[..|MovPrefix|][2] != MovPrefix[2];
    assert "  sub rax, rbx\n"[2] != ';' && "  sub rax, rbx\n"[2] != 'm';
    assert "  sub rax, rbx\n"[..|MovPrefix|][2] != MovPrefix[2];
    assert "  imul rbx\n"[2] != ';' && "  imul rbx\n"[2] != 'm';
    assert "  idiv rbx\n"[2] != ';' && "  idiv rbx\n"[2] != 'm';
  }

  lemma {:induction false} DecodeComment(line: string)
    requires |line| >= 5 && line[..5] == "  ;; "
    ensures Decode(line) == Some(Comment)
  {
  }

  /** One decoded line, then the rest. */
  lemma {:induction false} RunCons(line: string, rest: seq<string>, m: Machine, op: AsmOp)
    requires Decode(line) == Some(op)
    ensures Run([line] + rest, m) == (match Exec(op, m) case None => None case Some(m') => Run(rest, m'))
  {
    assert ([line] + rest)[0] == line;
    assert ([line] + rest)[1..] == rest;
  }

  // ------------------------------------------------- effect of each block

  /** A `push int` block leaves its literal on top of the stack. */
  lemma {:induction false} PushIntEffect(v: int, m: Machine)
    ensures Run(PushIntBlock(v), m) == Some(Machine(m.stack + [Imm(v)], Imm(v), m.rbx, m.rdx))
  {
    var mov := MovPrefix + IntToDecimal(v) + "\n";
    assert "  ;; push int\n"[..5] == "  ;; ";
    DecodeComment("  ;; push int\n");
    DecodeMov(v);
    DecodeFixedLines();
    assert PushIntBlock(v) == ["  ;; push int\n"] + ([mov] + (["  push rax\n"] + []));
    var m1 := m.(rax := Imm(v));
    RunCons("  push rax\n", [], m1, Push(Rax));
    RunCons(mov, ["  push rax\n"], m, MovRax(v));
    RunCons("  ;; push int\n", [mov] + ["  push rax\n"], m, Comment);
  }

  /** The value an arithmetic intrinsic leaves for left operand `a` and right operand `b`. */
  function BinaryResult(k: Intrinsic, a: Sym, b: Sym): Sym
    requires k == Plus || k == Minus || k == Times
  {
    match k
    case Plus => Sum(a, b)
    case Minus => Difference(a, b)
    case Times => ProductLow(a, b)
  }

  /** The shape shared by `+`, `-` and `*`: pop rbx, pop rax, operate, push rax. */
  lemma {:induction false} ArithmeticBlock(comment: string, opLine: string, op: AsmOp, m: Machine, s: seq<Sym>, a: Sym, b: Sym)
    requires Decode(comment) == Some(Comment) && Decode(opLine) == Some(op)
    requires op == AddRaxRbx || op == SubRaxRbx || op == ImulRbx
    requires m.stack == s + [a, b]
    ensures Run([comment, "  pop rbx\n", "  pop rax\n", opLine, "  push rax\n"], m).Some?
    ensures Run([comment, "  pop rbx\n", "  pop rax\n", opLine, "  push rax\n"], m).value.stack
      == s + [Exec(op, Machine(s, a, b, m.rdx)).value.rax]
  {
    DecodeFixedLines();
    var m1 := m.(stack := s + [a], rbx := b);
    var m2 := m1.(stack := s, rax := a);
    assert m2 == Machine(s, a, b, m.rdx);
    var m3 := Exec(op, m2).value;
    assert m3.stack == s;
    RunCons("  push rax\n", [], m3, Push(Rax));
    RunCons(opLine, ["  push rax\n"], m2, op);
    assert (s + [a])[..|s + [a]| - 1] == s;
    RunCons("  pop rax\n", [opLine] + ["  push rax\n"], m1, Pop(Rax));
    assert m.stack[..|m.stack| - 1] == s + [a];
    RunCons("  pop rbx\n", ["  pop rax\n"] + ([opLine] + ["  push rax\n"]), m, Pop(Rbx));
    var tail := ["  pop rbx\n", "  pop rax\n", opLine, "  push rax\n"];
    assert tail == ["  pop rbx\n"] + (["  pop rax\n"] + ([opLine] + ["  push rax\n"]));
    RunCons(comment, tail, m, Comment);
    assert [comment] + tail == [comment, "  pop rbx\n", "  pop rax\n", opLine, "  push rax\n"];
  }

  /**
   * `+`, `-` and `*` replace the two topmost values (left operand below,
   * right operand on top) by their result.
   */
  lemma {:induction false} BinaryEffect(k: Intrinsic, m: Machine, s: seq<Sym>, a: Sym, b: Sym)
    requires k == Plus || k == Minus || k == Times
    requires m.stack == s + [a, b]
    ensures Run(IntrinsicBlock(k).value, m).Some?
    ensures Run(IntrinsicBlock(k).value, m).value.stack == s + [BinaryResult(k, a, b)]
  {
    DecodeFixedLines();
    match k
    case Plus =>
      assert "  ;; add\n"[..5] == "  ;; ";
      DecodeComment("  ;; add\n");
      ArithmeticBlock("  ;; add\n", "  add rax, rbx\n", AddRaxRbx, m, s, a, b);
    case Minus =>
      assert "  ;; sub\n"[..5] == "  ;; ";
      DecodeComment("  ;; sub\n");
      ArithmeticBlock("  ;; sub\n", "  sub rax, rbx\n", SubRaxRbx, m, s, a, b);
    case Times =>
      assert "  ;; mul\n"[..5] == "  ;; ";
      DecodeComment("  ;; mul\n");
      ArithmeticBlock("  ;; mul\n", "  imul rbx\n", ImulRbx, m, s, a, b);
  }

  /** `divmod` replaces the two topmost values by the quotient (below) and the remainder (on top) of rdx:rax by rbx. */
  lemma {:induction false} DivModEffect(m: Machine, s: seq<Sym>, a: Sym, b: Sym)
    requires m.stack == s + [a, b]
    ensures Run(IntrinsicBlock(DivMod).value, m).Some?
    ensures Run(IntrinsicBlock(DivMod).value, m).value.stack == s + [Quotient(m.rdx, a, b), Remainder(m.rdx, a, b)]
  {
    DecodeFixedLines();
    var comment := "  ;; divmod\n";
    assert comment[..5] == "  ;; ";
    DecodeComment(comment);
    var m1 := m.(stack := s + [a], rbx := b);
    var m2 := m1.(stack := s, rax := a);
    var m3 := Exec(IdivRbx, m2).value;
    var m4 := m3.(stack := s + [m3.rax]);
    assert m4.stack + [m4.rdx] == s + [Quotient(m.rdx, a, b), Remainder(m.rdx, a, b)];
    RunCons("  push rdx\n", [], m4, Push(Rdx));
    RunCons("  push rax\n", ["  push rdx\n"], m3, Push(Rax));
    RunCons("  idiv rbx\n", ["  push rax\n"] + ["  push rdx\n"], m2, IdivRbx);
    assert (s + [a])[..|s + [a]| - 1] == s;
    var t3 := ["  idiv rbx\n"] + (["  push rax\n"] + ["  push rdx\n"]);
    RunCons("  pop rax\n", t3, m1, Pop(Rax));
    assert m.stack[..|m.stack| - 1] == s + [a];
    RunCons("  pop rbx\n", ["  pop rax\n"] + t3, m, Pop(Rbx));
    var tail := ["  pop rbx\n", "  pop rax\n", "  idiv rbx\n", "  push rax\n", "  push rdx\n"];
    assert tail == ["  pop rbx\n"] + (["  pop rax\n"] + t3);
    RunCons(comment, tail, m, Comment);
    assert IntrinsicBlock(DivMod).value == [comment] + tail;
  }

  /** Every intrinsic block starts by popping twice; with fewer than two values it underflows. */
  lemma {:induction false} PopsUnderflow(comment: string, rest: seq<string>, m: Machine)
    requires Decode(comment) == Some(Comment)
    requires |m.stack| < 2
    ensures Run([comment, "  pop rbx\n", "  pop rax\n"] + rest, m) == None
  {
    DecodeFixedLines();
    var t2 := ["  pop rax\n"] + rest;
    var t1 := ["  pop rbx\n"] + t2;
    assert [comment, "  pop rbx\n", "  pop rax\n"] + rest == [comment] + t1;
    RunCons(comment, t1, m, Comment);
    RunCons("  pop rbx\n", t2, m, Pop(Rbx));
    if m.stack != [] {
      var m1 := Set(m.(stack := m.stack[..|m.stack| - 1]), Rbx, m.stack[|m.stack| - 1]);
      assert m1.stack == [];
      RunCons("  pop rax\n", rest, m1, Pop(Rax));
    }
  }

  // ------------------------------------------------- effect of a program

  /** How many values an instruction's block pops before pushing. */
  function Pops(inst: Instruction): nat {
    if inst.kind == KindPushInt then 0 else 2
  }

  /** By how much an instruction's block changes the stack depth. */
  function Effect(inst: Instruction): int {
    if inst.kind == KindPushInt then 1
    else if inst.kind == KindIntrinsic && inst.valueIntrinsic == DivMod then 0
    else -1
  }

  /** Every instruction finds the operands it pops, starting from `depth` values. */
  predicate EnoughOperands(p: Program, depth: int)
    decreases |p|
  {
    p == [] || (depth >= Pops(p[0]) && EnoughOperands(p[1..], depth + Effect(p[0])))
  }

  function NetEffect(p: Program): int
    decreases |p|
  {
    if p == [] then 0 else Effect(p[0]) + NetEffect(p[1..])
  }

  /** One lowered instruction: it runs iff its operands are there, and moves the depth by its effect. */
  lemma {:induction false} BlockDepth(inst: Instruction, m: Machine)
    requires Lowerable(inst)
    ensures Run(InstructionBlock(inst).value, m).Some? <==> |m.stack| >= Pops(inst)
    ensures Run(InstructionBlock(inst).value, m).Some? ==>
      |Run(InstructionBlock(inst).value, m).value.stack| == |m.stack| + Effect(inst)
  {
    if inst.kind == KindPushInt {
      PushIntEffect(inst.valueInt, m);
    } else {
      var k := inst.valueIntrinsic;
      var block := IntrinsicBlock(k).value;
      if |m.stack| < 2 {
        DecodeFixedLines();
        var comment := block[0];
        assert comment[..5] == "  ;; ";
        DecodeComment(comment);
        assert block == [comment, "  pop rbx\n", "  pop rax\n"] + block[3..];
        PopsUnderflow(comment, block[3..], m);
      } else {
        var s := m.stack[..|m.stack| - 2];
        assert m.stack == s + [m.stack[|m.stack| - 2], m.stack[|m.stack| - 1]];
        if k == DivMod {
          DivModEffect(m, s, m.stack[|m.stack| - 2], m.stack[|m.stack| - 1]);
        } else {
          BinaryEffect(k, m, s, m.stack[|m.stack| - 2], m.stack[|m.stack| - 1]);
        }
      }
    }
  }

  /**
   * A program that lowers runs without a stack underflow exactly when every
   * instruction finds its operands, and then changes the depth by the sum
   * of the instructions' effects.
   */
  lemma {:induction false} BodyStackDepth(p: Program, m: Machine)
    requires Body(p).Success?
    ensures Run(Body(p).value, m).Some? <==> EnoughOperands(p, |m.stack|)
    ensures Run(Body(p).value, m).Some? ==> |Run(Body(p).value, m).value.stack| == |m.stack| + NetEffect(p)
    decreases |p|
  {
    if p != [] {
      var block, rest := InstructionBlock(p[0]).value, Body(p[1..]).value;
      assert Body(p).value == block + rest;
      RunAppend(block, rest, m);
      BlockDepth(p[0], m);
      match Run(block, m)
      case None =>
      case Some(m') => BodyStackDepth(p[1..], m');
    }
  }

  /** `x y op` leaves `op` applied to the two literals on top of whatever was there. */
  lemma {:induction false} TwoLiteralsThenOperator(p: Program, m: Machine)
    requires |p| == 3 && p[0].kind == KindPushInt && p[1].kind == KindPushInt
    requires p[2].kind == KindIntrinsic && p[2].valueIntrinsic in {Plus, Minus, Times}
    ensures Body(p).Success? && Run(Body(p).value, m).Some?
    ensures Run(Body(p).value, m).value.stack
      == m.stack + [BinaryResult(p[2].valueIntrinsic, Imm(p[0].valueInt), Imm(p[1].valueInt))]
  {
    var x, y, k := p[0].valueInt, p[1].valueInt, p[2].valueIntrinsic;
    assert p[1..][1..] == [p[2]] && [p[2]][1..] == [];
    var b0, b1, b2 := PushIntBlock(x), PushIntBlock(y), IntrinsicBlock(k).value;
    assert Body([p[2]]) == Success(b2 + []);
    assert Body(p[1..]) == Success(b1 + (b2 + []));
    assert Body(p) == Success(b0 + (b1 + (b2 + [])));
    assert b2 + [] == b2;
    PushIntEffect(x, m);
    var m1 := Run(b0, m).value;
    PushIntEffect(y, m1);
    var m2 := Run(b1, m1).value;
    assert m2.stack == m.stack + [Imm(x), Imm(y)];
    BinaryEffect(k, m2, m.stack, Imm(x), Imm(y));
    RunAppend(b1, b2, m1);
    RunAppend(b0, b1 + b2, m);
  }
}
