/**
 * The NASM x86-64 generator (pkg/tin/x86_64_code_generator.go): a fixed
 * prologue, one fixed block per instruction in program order, and a fixed
 * exit epilogue, written into a `strings.Builder` one line at a time.
 */
module CodeGenerator {
  import opened Wrappers
  import opened Decimal
  import opened Instructions

  /** The two `unreachable` panics. */
  datatype GenError = InstructionUnreachable | IntrinsicUnreachable

  /** Joins written lines (each already ends in "\n") into the output text. */
  function Concat(lines: seq<string>): string {
    if lines == [] then "" else lines[0] + Concat(lines[1..])
  }

  lemma {:induction false} ConcatAppend(a: seq<string>, b: seq<string>)
    ensures Concat(a + b) == Concat(a) + Concat(b)
    decreases |a|
  {
    if a == [] {
      assert a + b == b;
    } else {
      assert (a + b)[1..] == a[1..] + b;
      ConcatAppend(a[1..], b);
    }
  }

  /** `strings.Builder`: what has been written, one `WriteString` per entry. */
  class Builder {
    var chunks: seq<string>

    constructor ()
      ensures chunks == []
    {
      chunks := [];
    }

    method WriteString(s: string)
      modifies this
      ensures chunks == old(chunks) + [s]
    {
      chunks := chunks + [s];
    }

    function String(): string
      reads this
    {
      Concat(chunks)
    }
  }

  // --------------------------------------------------- the emitted blocks

  const Prologue: seq<string> := ["section .text\n", "global _start\n", "\n", "_start:\n"]

  const Epilogue: seq<string> := ["  ;; exit syscall\n", "  mov rax, 0x3c\n", "  mov rdi, 0\n", "  syscall\n"]

  /** `line` is a `mov rax, <n>` line whose decimal operand reads back as `v`. */
  predicate LoadsValue(line: string, v: int) {
    && |line| > 12 && line[..11] == "  mov rax, " && line[|line| - 1] == '\n'
    && ParseDecimal(line[11..|line| - 1]) == Some(v)
  }

  function PushIntBlock(v: int): (r: seq<string>)
    ensures |r| == 3
  {
    ["  ;; push int\n", "  mov rax, " + IntToDecimal(v) + "\n", "  push rax\n"]
  }

  /** The middle line of a push block loads exactly the pushed value. */
  lemma {:induction false} PushIntBlockLoadsValue(v: int)
    ensures LoadsValue(PushIntBlock(v)[1], v)
  {
    var digits := IntToDecimal(v);
    var mov := PushIntBlock(v)[1];
    assert mov[..11] == "  mov rax, " && mov[11..|mov| - 1] == digits;
    IntToDecimalRoundTrip(v);
  }

  /** Only `+ - * divmod` are lowered; the others are instructions it cannot emit. */
  predicate LowerableIntrinsic(k: Intrinsic) {
    k == Plus || k == Minus || k == Times || k == DivMod
  }

  predicate Lowerable(inst: Instruction) {
    inst.kind == KindPushInt || (inst.kind == KindIntrinsic && LowerableIntrinsic(inst.valueIntrinsic))
  }

  /** The panic an instruction that cannot be lowered raises. */
  function LoweringError(inst: Instruction): GenError {
    if inst.kind == KindIntrinsic then IntrinsicUnreachable else InstructionUnreachable
  }

  const AddLines: seq<string> := ["  ;; add\n", "  pop rbx\n", "  pop rax\n", "  add rax, rbx\n", "  push rax\n"]
  const SubLines: seq<string> := ["  ;; sub\n", "  pop rbx\n", "  pop rax\n", "  sub rax, rbx\n", "  push rax\n"]
  const MulLines: seq<string> := ["  ;; mul\n", "  pop rbx\n", "  pop rax\n", "  imul rbx\n", "  push rax\n"]
  const DivModLines: seq<string> := ["  ;; divmod\n", "  pop rbx\n", "  pop rax\n", "  idiv rbx\n", "  push rax\n", "  push rdx\n"]

  /** `generateX8664Intrinsic`: pop the right operand into rbx, the left into rax, push the result(s). */
  function IntrinsicBlock(k: Intrinsic): (r: Result<seq<string>, GenError>)
    ensures r.Success? <==> LowerableIntrinsic(k)
  {
    match k
    case Plus => Success(AddLines)
    case Minus => Success(SubLines)
    case Times => Success(MulLines)
    case DivMod => Success(DivModLines)
    case _ => Failure(IntrinsicUnreachable)
  }

  /** `generateX8664Instruction`: keywords are not lowered. */
  function InstructionBlock(inst: Instruction): (r: Result<seq<string>, GenError>)
    ensures r.Success? <==> Lowerable(inst)
    ensures r.Failure? ==> r.error == LoweringError(inst)
    ensures r.Success? ==> |r.value| >= 3
  {
    match inst.kind
    case KindPushInt => Success(PushIntBlock(inst.valueInt))
    case KindIntrinsic => IntrinsicBlock(inst.valueIntrinsic)
    case KindKeyword => Failure(InstructionUnreachable)
  }

  /** Lines from two pieces, or the first piece's error. */
  function Join(a: Result<seq<string>, GenError>, b: Result<seq<string>, GenError>): Result<seq<string>, GenError> {
    match a
    case Failure(e) => Failure(e)
    case Success(x) =>
      match b
      case Failure(e) => Failure(e)
      case Success(y) => Success(x + y)
  }

  /** The blocks of the instructions, concatenated in program order: at least three lines each. */
  function Body(p: Program): (r: Result<seq<string>, GenError>)
    ensures r.Success? ==> |r.value| >= 3 * |p|
  {
    if p == [] then Success([]) else Join(InstructionBlock(p[0]), Body(p[1..]))
  }

  /** The text `generateNasmX8664` returns, or the panic it raises. */
  function Nasm(p: Program): (r: Result<string, GenError>)
    ensures r.Success? ==> Body(p).Success? && r.value == PrologueText + Concat(Body(p).value) + EpilogueText
    ensures r.Failure? ==> Body(p) == Failure(r.error)
  {
    match Body(p)
    case Success(b) =>
      ConcatAppend(Prologue + b, Epilogue);
      ConcatAppend(Prologue, b);
      PrologueLinesText();
      EpilogueLinesText();
      Success(Concat(Prologue + b + Epilogue))
    case Failure(e) => Failure(e)
  }

  // ------------------------------------------------------------ the methods

  method GenerateX8664Intrinsic(gen: Builder, k: Intrinsic) returns (o: Outcome<GenError>)
    modifies gen
    ensures IntrinsicBlock(k).Success? ==> o == Pass && gen.chunks == old(gen.chunks) + IntrinsicBlock(k).value
    ensures IntrinsicBlock(k).Failure? ==> o == Fail(IntrinsicBlock(k).error) && gen.chunks == old(gen.chunks)
  {
    match k {
      case Plus =>
        gen.WriteString("  ;; add\n");
        gen.WriteString("  pop rbx\n");
        gen.WriteString("  pop rax\n");
        gen.WriteString("  add rax, rbx\n");
        gen.WriteString("  push rax\n");
      case Minus =>
        gen.WriteString("  ;; sub\n");
        gen.WriteString("  pop rbx\n");
        gen.WriteString("  pop rax\n");
        gen.WriteString("  sub rax, rbx\n");
        gen.WriteString("  push rax\n");
      case Times =>
        gen.WriteString("  ;; mul\n");
        gen.WriteString("  pop rbx\n");
        gen.WriteString("  pop rax\n");
        gen.WriteString("  imul rbx\n");
        gen.WriteString("  push rax\n");
      case DivMod =>
        gen.WriteString("  ;; divmod\n");
        gen.WriteString("  pop rbx\n");
        gen.WriteString("  pop rax\n");
        gen.WriteString("  idiv rbx\n");
        gen.WriteString("  push rax\n");
        gen.WriteString("  push rdx\n");
      case _ =>
        return Fail(IntrinsicUnreachable);
    }
    return Pass;
  }

  method GenerateX8664Instruction(gen: Builder, inst: Instruction) returns (o: Outcome<GenError>)
    modifies gen
    ensures InstructionBlock(inst).Success? ==> o == Pass && gen.chunks == old(gen.chunks) + InstructionBlock(inst).value
    ensures InstructionBlock(inst).Failure? ==> o == Fail(InstructionBlock(inst).error) && gen.chunks == old(gen.chunks)
  {
    match inst.kind {
      case KindPushInt =>
        gen.WriteString("  ;; push int\n");
        gen.WriteString("  mov rax, " + IntToDecimal(inst.valueInt) + "\n");
        gen.WriteString("  push rax\n");
        return Pass;
      case KindIntrinsic =>
        o := GenerateX8664Intrinsic(gen, inst.valueIntrinsic);
      case KindKeyword =>
        return Fail(InstructionUnreachable);
    }
  }

  /** The four lines that open every generated file. */
  method WritePrologue(gen: Builder)
    modifies gen
    ensures gen.chunks == old(gen.chunks) + Prologue
  {
    gen.WriteString("section .text\n");
    gen.WriteString("global _start\n");
    gen.WriteString("\n");
    gen.WriteString("_start:\n");
  }

  /** The exit system call that closes every generated file. */
  method WriteEpilogue(gen: Builder)
    modifies gen
    ensures gen.chunks == old(gen.chunks) + Epilogue
  {
    gen.WriteString("  ;; exit syscall\n");
    gen.WriteString("  mov rax, 0x3c\n");
    gen.WriteString("  mov rdi, 0\n");
    gen.WriteString("  syscall\n");
  }

  /** `generateNasmX8664`: the output text, or the first instruction's panic. */
  method GenerateNasmX8664(program: Program) returns (r: Result<string, GenError>)
    ensures r == Nasm(program)
  {
    var gen := new Builder();
    WritePrologue(gen);
    var o := WriteBody(gen, program);
    if o.Fail? {
      return Failure(o.error);
    }
    WriteEpilogue(gen);
    assert gen.chunks == Prologue + Body(program).value + Epilogue;
    return Success(gen.String());
  }

  /** The loop of `generateNasmX8664` over the instructions, stopping at the first panic. */
  method WriteBody(gen: Builder, program: Program) returns (o: Outcome<GenError>)
    modifies gen
    ensures Body(program).Success? ==> o == Pass && gen.chunks == old(gen.chunks) + Body(program).value
    ensures Body(program).Failure? ==> o == Fail(Body(program).error)
  {
    var i := 0;
    ghost var start, done := gen.chunks, [];
    assert program[i..] == program;
    assert Join(Success(done), Body(program[i..])) == Body(program) by {
      if Body(program).Success? {
        assert [] + Body(program).value == Body(program).value;
      }
    }
    while i < |program|
      invariant 0 <= i <= |program|
      invariant Join(Success(done), Body(program[i..])) == Body(program)
      invariant gen.chunks == start + done
    {
      ghost var block := InstructionBlock(program[i]);
      assert program[i..][0] == program[i] && program[i..][1..] == program[i + 1..];
      o := GenerateX8664Instruction(gen, program[i]);
      if o.Fail? {
        return;
      }
      JoinAssociative(Success(done), block, Body(program[i + 1..]));
      assert gen.chunks == start + (done + block.value);
      done := done + block.value;
      i := i + 1;
    }
    assert program[i..] == [];
    return Pass;
  }

  // ------------------------------------------------------------ properties

  /** Generation is compositional: the body of `p1 + p2` is the body of `p1`, then that of `p2`. */
  lemma {:induction false} BodyAppend(p1: Program, p2: Program)
    ensures Body(p1 + p2) == Join(Body(p1), Body(p2))
    decreases |p1|
  {
    if p1 == [] {
      assert p1 + p2 == p2;
      if Body(p2).Success? {
        assert [] + Body(p2).value == Body(p2).value;
      }
    } else {
      assert (p1 + p2)[0] == p1[0];
      assert (p1 + p2)[1..] == p1[1..] + p2;
      var a, b, c := InstructionBlock(p1[0]), Body(p1[1..]), Body(p2);
      assert Body(p1 + p2) == Join(a, Body(p1[1..] + p2));
      assert Body(p1) == Join(a, b);
      BodyAppend(p1[1..], p2);
      JoinAssociative(a, b, c);
    }
  }

  lemma {:induction false} JoinAssociative(a: Result<seq<string>, GenError>, b: Result<seq<string>, GenError>, c: Result<seq<string>, GenError>)
    ensures Join(a, Join(b, c)) == Join(Join(a, b), c)
  {
    if a.Success? && b.Success? && c.Success? {
      assert a.value + (b.value + c.value) == (a.value + b.value) + c.value;
    }
  }

  /** Appending an instruction appends its block, or stops at its panic. */
  lemma {:induction false} BodySnoc(p: Program, inst: Instruction)
    ensures Body(p + [inst]) == Join(Body(p), InstructionBlock(inst))
  {
    BodyAppend(p, [inst]);
    var b := InstructionBlock(inst);
    if b.Success? {
      assert Body([inst]) == Join(b, Success([]));
      assert b.value + [] == b.value;
    }
  }

  /** The body succeeds exactly when every instruction can be lowered. */
  lemma {:induction false} BodySucceedsIff(p: Program)
    ensures Body(p).Success? <==> forall i | 0 <= i < |p| :: Lowerable(p[i])
    decreases |p|
  {
    if p != [] {
      BodySucceedsIff(p[1..]);
      assert forall i | 1 <= i < |p| :: p[i] == p[1..][i - 1];
    }
  }

  /** The error is that of the first instruction that cannot be lowered. */
  lemma {:induction false} BodyFirstError(p: Program, j: nat)
    requires j < |p| && !Lowerable(p[j])
    requires forall i | 0 <= i < j :: Lowerable(p[i])
    ensures Body(p) == Failure(LoweringError(p[j]))
    decreases j
  {
    if j > 0 {
      BodyFirstError(p[1..], j - 1);
    }
  }

  /**
   * The output is the fixed prologue, the blocks in program order and the
   * exit sequence; it exists exactly when every instruction can be lowered.
   */
  lemma {:induction false} NasmShape(p: Program)
    ensures Nasm(p).Success? <==> forall i | 0 <= i < |p| :: Lowerable(p[i])
  {
    BodySucceedsIff(p);
  }

  /** The prologue declares the `_start` entry point in `.text`. */
  const PrologueText: string := "section .text\nglobal _start\n\n_start:\n"

  /** The epilogue performs the exit system call (60) with status 0. */
  const EpilogueText: string := "  ;; exit syscall\n  mov rax, 0x3c\n  mov rdi, 0\n  syscall\n"

  lemma {:induction false} PrologueLinesText()
    ensures Concat(Prologue) == PrologueText
  {
    Concat4("section .text\n", "global _start\n", "\n", "_start:\n");
    assert "section .text\n" + "global _start\n" == "section .text\nglobal _start\n";
    assert "section .text\nglobal _start\n" + "\n" == "section .text\nglobal _start\n\n";
  }

  lemma {:induction false} EpilogueLinesText()
    ensures Concat(Epilogue) == EpilogueText
  {
    Concat4("  ;; exit syscall\n", "  mov rax, 0x3c\n", "  mov rdi, 0\n", "  syscall\n");
    assert "  ;; exit syscall\n" + "  mov rax, 0x3c\n" == "  ;; exit syscall\n  mov rax, 0x3c\n";
    assert "  ;; exit syscall\n  mov rax, 0x3c\n" + "  mov rdi, 0\n" == "  ;; exit syscall\n  mov rax, 0x3c\n  mov rdi, 0\n";
  }

  lemma {:induction false} Concat4(a: string, b: string, c: string, d: string)
    ensures Concat([a, b, c, d]) == a + b + c + d
  {
    assert [a, b, c, d][1..] == [b, c, d];
    assert [b, c, d][1..] == [c, d];
    assert [c, d][1..] == [d];
    assert [d][1..] == [];
    assert Concat([d]) == d + "" == d;
    assert Concat([c, d]) == c + d;
    assert Concat([b, c, d]) == b + (c + d);
  }

  /** An empty program is the prologue followed directly by the exit sequence. */
  lemma {:induction false} NasmEmptyProgram()
    ensures Nasm([]) == Success(PrologueText + EpilogueText)
  {
    NasmShape([]);
    assert Concat([]) == "";
    assert PrologueText + "" == PrologueText;
  }

  /** Keywords and the `>`, `<` and `print` intrinsics abort as unreachable. */
  lemma {:induction false} UnloweredInstructionsAbort(p: Program, j: nat)
    requires j < |p| && forall i | 0 <= i < j :: Lowerable(p[i])
    ensures p[j].kind == KindKeyword ==> Nasm(p) == Failure(InstructionUnreachable)
    ensures p[j].kind == KindIntrinsic && p[j].valueIntrinsic in {Greater, Less, Print} ==> Nasm(p) == Failure(IntrinsicUnreachable)
  {
    if !Lowerable(p[j]) {
      BodyFirstError(p, j);
    }
  }
}
