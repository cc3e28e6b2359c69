/**
 * The instruction data model (pkg/tin/instruction.go): the enumerations
 * numbered from 0 by `iota`, the spelling tables `keywordMap` and
 * `intrinsicMap`, the array-indexed `String` methods and `Program`.
 */
module Instructions {
  import opened Wrappers
  import opened Decimal
  import Tokens
  import Lexer

  datatype InstKind = KindPushInt | KindKeyword | KindIntrinsic

  datatype KeywordKind = If | Else | End

  datatype Intrinsic = Plus | Minus | Times | DivMod | Greater | Less | Print

  /** The `Keyword` record; `jmpAddress` is carried but nothing in this core reads it. */
  datatype Keyword = Keyword(kind: KeywordKind, jmpAddress: int)

  /** Every field is present whatever the kind; only the one the kind selects is meaningful. */
  datatype Instruction = Instruction(
    kind: InstKind,
    token: Tokens.Token,
    valueInt: int,
    valueKeyword: Keyword,
    valueIntrinsic: Intrinsic)

  /** A program is the ordered sequence of its instructions. */
  type Program = seq<Instruction>

  // ------------------------------------------------------------ iota codes

  function InstKindOrdinal(k: InstKind): nat {
    match k
    case KindPushInt => 0
    case KindKeyword => 1
    case KindIntrinsic => 2
  }

  function KeywordKindOrdinal(k: KeywordKind): nat {
    match k
    case If => 0
    case Else => 1
    case End => 2
  }

  function IntrinsicOrdinal(k: Intrinsic): nat {
    match k
    case Plus => 0
    case Minus => 1
    case Times => 2
    case DivMod => 3
    case Greater => 4
    case Less => 5
    case Print => 6
  }

  // ------------------------------------------- the arrays `String` indexes

  const InstKindNames: seq<string> := ["InstKindPushInt", "InstKeyword", "InstKindIntrinsic"]
  const KeywordKindNames: seq<string> := ["if", "else", "end"]
  const IntrinsicNames: seq<string> := ["+", "-", "*", "divmod", ">", "<", "print"]

  /** `InstKind.String` on a raw code: a panic (None) outside the array. */
  function InstKindString(code: int): (r: Option<string>)
    ensures r.Some? <==> 0 <= code < 3
  {
    if 0 <= code < |InstKindNames| then Some(InstKindNames[code]) else None
  }

  /** `KeywordKind.String` on a raw code: a panic (None) outside the array. */
  function KeywordKindString(code: int): (r: Option<string>)
    ensures r.Some? <==> 0 <= code < 3
  {
    if 0 <= code < |KeywordKindNames| then Some(KeywordKindNames[code]) else None
  }

  /** `Intrinsic.String` on a raw code: a panic (None) outside the array. */
  function IntrinsicString(code: int): (r: Option<string>)
    ensures r.Some? <==> 0 <= code < 7
  {
    if 0 <= code < |IntrinsicNames| then Some(IntrinsicNames[code]) else None
  }

  function KeywordSpelling(k: KeywordKind): string {
    KeywordKindNames[KeywordKindOrdinal(k)]
  }

  function IntrinsicSpelling(k: Intrinsic): string {
    IntrinsicNames[IntrinsicOrdinal(k)]
  }

  // ------------------------------------------------------------ the maps

  const KeywordMap: map<string, KeywordKind> := map["if" := If, "else" := Else, "end" := End]

  const IntrinsicMap: map<string, Intrinsic> := map[
    "+" := Plus, "-" := Minus, "*" := Times, "divmod" := DivMod,
    ">" := Greater, "<" := Less, "print" := Print]

  /**
   * `Instruction.String`: the value, the intrinsic's spelling or the keyword's
   * name. The text reads back to the field its kind selects.
   */
  function InstructionString(i: Instruction): (s: string)
    ensures i.kind == KindPushInt ==> ParseDecimal(s) == Some(i.valueInt)
    ensures i.kind == KindIntrinsic ==> s in IntrinsicMap && IntrinsicMap[s] == i.valueIntrinsic
    ensures i.kind == KindKeyword ==> s in KeywordMap && KeywordMap[s] == i.valueKeyword.kind
  {
    match i.kind
    case KindPushInt =>
      IntToDecimalRoundTrip(i.valueInt);
      IntToDecimal(i.valueInt)
    case KindIntrinsic =>
      IntrinsicMapInverse();
      IntrinsicSpelling(i.valueIntrinsic)
    case KindKeyword =>
      KeywordMapInverse();
      KeywordSpelling(i.valueKeyword.kind)
  }

  // ------------------------------------------------------------ properties

  /** The values in declaration order. */
  const InstKindsDeclared: seq<InstKind> := [KindPushInt, KindKeyword, KindIntrinsic]
  const KeywordKindsDeclared: seq<KeywordKind> := [If, Else, End]
  const IntrinsicsDeclared: seq<Intrinsic> := [Plus, Minus, Times, DivMod, Greater, Less, Print]

  /** The codes are consecutive from 0 in declaration order, one per value. */
  lemma {:induction false} OrdinalsConsecutive()
    ensures forall n | 0 <= n < |InstKindsDeclared| :: InstKindOrdinal(InstKindsDeclared[n]) == n
    ensures forall n | 0 <= n < |KeywordKindsDeclared| :: KeywordKindOrdinal(KeywordKindsDeclared[n]) == n
    ensures forall n | 0 <= n < |IntrinsicsDeclared| :: IntrinsicOrdinal(IntrinsicsDeclared[n]) == n
    ensures forall k: InstKind :: InstKindOrdinal(k) < 3 && InstKindsDeclared[InstKindOrdinal(k)] == k
    ensures forall k: KeywordKind :: KeywordKindOrdinal(k) < 3 && KeywordKindsDeclared[KeywordKindOrdinal(k)] == k
    ensures forall k: Intrinsic :: IntrinsicOrdinal(k) < 7 && IntrinsicsDeclared[IntrinsicOrdinal(k)] == k
  {
    forall k: Intrinsic ensures IntrinsicOrdinal(k) < 7 && IntrinsicsDeclared[IntrinsicOrdinal(k)] == k {
      match k
      case Plus =>
      case Minus =>
      case Times =>
      case DivMod =>
      case Greater =>
      case Less =>
      case Print =>
    }
  }

  /** `intrinsicMap` and `Intrinsic.String` are inverse over the seven spellings. */
  lemma {:induction false} IntrinsicMapInverse()
    ensures forall s | s in IntrinsicMap :: IntrinsicString(IntrinsicOrdinal(IntrinsicMap[s])) == Some(s)
    ensures forall k: Intrinsic :: IntrinsicSpelling(k) in IntrinsicMap && IntrinsicMap[IntrinsicSpelling(k)] == k
    ensures IntrinsicMap.Keys == {"+", "-", "*", "divmod", ">", "<", "print"}
  {
  }

  /** `keywordMap` and `KeywordKind.String` are inverse over `if`, `else`, `end`. */
  lemma {:induction false} KeywordMapInverse()
    ensures forall s | s in KeywordMap :: KeywordKindString(KeywordKindOrdinal(KeywordMap[s])) == Some(s)
    ensures forall k: KeywordKind :: KeywordSpelling(k) in KeywordMap && KeywordMap[KeywordSpelling(k)] == k
    ensures KeywordMap.Keys == {"if", "else", "end"}
  {
  }

  /** The keyword spellings are exactly the alternatives of the tokenizer's keyword pattern. */
  lemma {:induction false} KeywordMapMatchesTokenizer()
    ensures forall s :: s in KeywordMap <==> s in Lexer.KeywordAlternatives
  {
  }

  /**
   * Two instructions that differ only in their token and jump address print
   * the same; different values of the selected field print differently.
   */
  lemma {:induction false} InstructionStringRoundTrip(i: Instruction, t: Tokens.Token, jmp: int)
    ensures InstructionString(i.(token := t, valueKeyword := i.valueKeyword.(jmpAddress := jmp))) == InstructionString(i)
    ensures forall j: Instruction | j.kind == i.kind && InstructionString(j) == InstructionString(i) ::
      match i.kind
      case KindPushInt => j.valueInt == i.valueInt
      case KindIntrinsic => j.valueIntrinsic == i.valueIntrinsic
      case KindKeyword => j.valueKeyword.kind == i.valueKeyword.kind
  {
  }
}
