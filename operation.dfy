/**
 * The parser's data model (pkg/tin/operation.go): the token it reads, the
 * operation kinds, and the program of operations it builds.
 */
module Operations {
  /** The three kinds of token the parser distinguishes. */
  datatype TokenType = Word | Keyword | IntLit

  /** A lexed token as the parser sees it; only the payload of its kind is meaningful. */
  datatype Token = Token(tokenType: TokenType, asWord: string, asKeyword: string, asIntLit: int)

  datatype OpType = OpPushInt | OpIntrinsic | OpIf

  /** `OpType` is an `iota` enumeration; this is each constant's integer value. */
  function OpTypeOrdinal(t: OpType): (n: nat)
    ensures n < 3
  {
    match t
    case OpPushInt => 0
    case OpIntrinsic => 1
    case OpIf => 2
  }

  /** The constants in declaration order. */
  const OpTypesDeclared: seq<OpType> := [OpPushInt, OpIntrinsic, OpIf]

  /** `Intrinsic` is a plain integer type; its only declared constant is `IntrinsicPlus`. */
  type Intrinsic = int

  const IntrinsicPlus: Intrinsic := 0

  /** The value of an integer the source never assigned (Go's zero value). */
  const ZeroIntrinsic: Intrinsic := 0

  /** An operation remembers the token it came from; only the field its type uses is meaningful. */
  datatype Op = Op(opType: OpType, token: Token, valueInt: int, valueIntrinsic: Intrinsic)

  type Program = seq<Op>

  /** The `iota` constants are 0, 1, 2 in declaration order, and every value is one of them. */
  lemma {:induction false} OpTypesConsecutive()
    ensures forall i | 0 <= i < |OpTypesDeclared| :: OpTypeOrdinal(OpTypesDeclared[i]) == i
    ensures forall t: OpType :: t in OpTypesDeclared
    ensures forall t: OpType, u: OpType :: OpTypeOrdinal(t) == OpTypeOrdinal(u) ==> t == u
  {
    forall t: OpType ensures t in OpTypesDeclared {
      match t
      case OpPushInt => assert OpTypesDeclared[0] == t;
      case OpIntrinsic => assert OpTypesDeclared[1] == t;
      case OpIf => assert OpTypesDeclared[2] == t;
    }
  }
}
