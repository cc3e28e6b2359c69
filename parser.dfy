/**
 * `parseProgramFromTokens` (pkg/tin/parser.go): one operation per token, in
 * order. Integer literals become pushes, keywords are not implemented, and
 * words are looked up in the `intrinsics` table with a plain map index,
 * which yields the zero value for a word that is not there.
 */
module Parser {
  import opened Wrappers
  import opened Operations

  /** The `intrinsics` table. */
  const Intrinsics: map<string, Intrinsic> := map["+" := IntrinsicPlus]

  /** Go's `m[k]`: the stored value, or the zero value when `k` is missing. */
  function LookupOrZero(m: map<string, Intrinsic>, k: string): (v: Intrinsic)
    ensures k in m ==> v == m[k]
    ensures k !in m ==> v == ZeroIntrinsic
  {
    if k in m then m[k] else ZeroIntrinsic
  }

  /** The two panics of the parser. */
  datatype ParseError = KeywordNotImplemented | UnknownIntrinsic(word: string)

  /**
   * What one loop iteration does with the token at the front: only a keyword
   * fails, and an operation carries the token it came from.
   */
  function ParseToken(t: Token): (r: Result<Op, ParseError>)
    ensures r.Success? <==> t.tokenType != Keyword
    ensures r.Success? ==> r.value.token == t && r.value.opType != OpIf
  {
    match t.tokenType
    case IntLit => Success(Op(OpPushInt, t, t.asIntLit, ZeroIntrinsic))
    case Keyword => Failure(KeywordNotImplemented)
    case Word =>
      var intrinsic := LookupOrZero(Intrinsics, t.asWord);
      if intrinsic != -1 then Success(Op(OpIntrinsic, t, 0, intrinsic))
      else Failure(UnknownIntrinsic(t.asWord))
  }

  /** Puts the operations parsed so far in front of the rest's outcome. */
  function Then(done: Program, rest: Result<Program, ParseError>): Result<Program, ParseError> {
    match rest
    case Success(ops) => Success(done + ops)
    case Failure(e) => Failure(e)
  }

  /** The program `parseProgramFromTokens` returns, or the panic it raises: one operation per token. */
  function Parse(tokens: seq<Token>): (r: Result<Program, ParseError>)
    ensures r.Success? ==> |r.value| == |tokens|
    decreases |tokens|
  {
    if tokens == [] then Success([])
    else
      match ParseToken(tokens[0])
      case Failure(e) => Failure(e)
      case Success(op) => Then([op], Parse(tokens[1..]))
  }

  method ParseProgramFromTokens(tokens0: seq<Token>) returns (r: Result<Program, ParseError>)
    ensures r == Parse(tokens0)
  {
    var tokens := tokens0;
    var program: Program := [];
    assert Then([], Parse(tokens)) == Parse(tokens) by {
      if Parse(tokens).Success? {
        assert [] + Parse(tokens).value == Parse(tokens).value;
      }
    }
    while |tokens| > 0
      invariant Parse(tokens0) == Then(program, Parse(tokens))
    {
      var t := tokens[0];
      match t.tokenType {
        case IntLit =>
          ThenThen(program, Op(OpPushInt, t, t.asIntLit, ZeroIntrinsic), Parse(tokens[1..]));
          program := program + [Op(OpPushInt, t, t.asIntLit, ZeroIntrinsic)];
          tokens := tokens[1..];
        case Keyword =>
          return Failure(KeywordNotImplemented);
        case Word =>
          var intrinsic := LookupOrZero(Intrinsics, t.asWord);
          if intrinsic != -1 {
            ThenThen(program, Op(OpIntrinsic, t, 0, intrinsic), Parse(tokens[1..]));
            program := program + [Op(OpIntrinsic, t, 0, intrinsic)];
            tokens := tokens[1..];
          } else {
            return Failure(UnknownIntrinsic(t.asWord));
          }
      }
    }
    assert program + [] == program;
    return Success(program);
  }

  lemma {:induction false} ThenThen(done: Program, op: Op, rest: Result<Program, ParseError>)
    ensures Then(done, Then([op], rest)) == Then(done + [op], rest)
  {
    if rest.Success? {
      assert done + ([op] + rest.value) == (done + [op]) + rest.value;
    }
  }

  // ------------------------------------------------------------ properties

  /**
   * Parsing succeeds exactly when there is no keyword; then there is one
   * operation per token, in order, each carrying its token: a literal
   * becomes a push of its value, and every word, known or not, becomes the
   * `IntrinsicPlus` intrinsic. `OpIf` is never produced.
   */
  lemma {:induction false} ParseOnePerToken(tokens: seq<Token>)
    ensures Parse(tokens).Success? <==> forall i | 0 <= i < |tokens| :: tokens[i].tokenType != Keyword
    ensures Parse(tokens).Success? ==> |Parse(tokens).value| == |tokens|
    ensures Parse(tokens).Success? ==> forall i | 0 <= i < |tokens| ::
      var op := Parse(tokens).value[i];
      && op.token == tokens[i]
      && op.opType != OpIf
      && (tokens[i].tokenType == IntLit ==> op.opType == OpPushInt && op.valueInt == tokens[i].asIntLit)
      && (tokens[i].tokenType == Word ==> op.opType == OpIntrinsic && op.valueIntrinsic == IntrinsicPlus)
    decreases |tokens|
  {
    if tokens != [] {
      ParseOnePerToken(tokens[1..]);
      assert forall i | 1 <= i < |tokens| :: tokens[i] == tokens[1..][i - 1];
      if Parse(tokens).Success? {
        var ops := Parse(tokens).value;
        assert ops == [ops[0]] + Parse(tokens[1..]).value;
        assert forall i | 1 <= i < |tokens| :: ops[i] == Parse(tokens[1..]).value[i - 1];
      }
    }
  }

  /** The only panic that can happen is the keyword one: the `unknown intrinsic` branch is dead. */
  lemma {:induction false} ParseFailsOnlyOnKeywords(tokens: seq<Token>)
    ensures Parse(tokens).Failure? ==> Parse(tokens).error == KeywordNotImplemented
    decreases |tokens|
  {
    if tokens != [] {
      ParseFailsOnlyOnKeywords(tokens[1..]);
    }
  }

  /** The program is built from the first token onward: parsing `a + b` parses `a`, then `b`. */
  lemma {:induction false} ParseAppend(a: seq<Token>, b: seq<Token>)
    ensures Parse(a + b) == (match Parse(a) case Failure(e) => Failure(e) case Success(ops) => Then(ops, Parse(b)))
    decreases |a|
  {
    if a == [] {
      assert a + b == b;
      if Parse(b).Success? {
        assert [] + Parse(b).value == Parse(b).value;
      }
    } else {
      assert (a + b)[0] == a[0];
      assert (a + b)[1..] == a[1..] + b;
      ParseAppend(a[1..], b);
      if ParseToken(a[0]).Success? && Parse(a[1..]).Success? && Parse(b).Success? {
        var op := ParseToken(a[0]).value;
        assert [op] + (Parse(a[1..]).value + Parse(b).value) == ([op] + Parse(a[1..]).value) + Parse(b).value;
      }
    }
  }

  // ------------------------------------------- the word lookup, corrected

  /** Every word, in the table or not, looks up as `IntrinsicPlus`, so the `!= -1` guard always passes. */
  lemma {:induction false} EveryWordLooksUpAsPlus()
    ensures forall w :: LookupOrZero(Intrinsics, w) == IntrinsicPlus && LookupOrZero(Intrinsics, w) != -1
  {
  }

  /**
   * As written, a word that is not in the table parses as `+`: the map index
   * yields 0, which is `IntrinsicPlus`, so the `!= -1` guard passes.
   */
  lemma {:induction false} UnknownWordParsesAsPlus(t: Token)
    requires t.tokenType == Word && t.asWord !in Intrinsics
    ensures ParseToken(t) == Success(Op(OpIntrinsic, t, 0, IntrinsicPlus))
    ensures ParseToken(t) != Failure(UnknownIntrinsic(t.asWord))
  {
  }

  /** A concrete instance: the word `foo` is read as the `+` intrinsic. */
  lemma {:induction false} FooParsesAsPlus()
    ensures Parse([Token(Word, "foo", "", 0)]) == Success([Op(OpIntrinsic, Token(Word, "foo", "", 0), 0, IntrinsicPlus)])
  {
    assert "foo" !in Intrinsics by {
      assert "foo" != "+";
    }
    var t := Token(Word, "foo", "", 0);
    assert [t][1..] == [];
    UnknownWordParsesAsPlus(t);
    var op := Op(OpIntrinsic, t, 0, IntrinsicPlus);
    assert Then([op], Parse([])) == Success([op] + []);
    assert [op] + [] == [op];
  }

  /** The evident intent: look the word up with a presence check and reject unknown words. */
  function ParseTokenChecked(t: Token): Result<Op, ParseError> {
    match t.tokenType
    case IntLit => Success(Op(OpPushInt, t, t.asIntLit, ZeroIntrinsic))
    case Keyword => Failure(KeywordNotImplemented)
    case Word =>
      if t.asWord in Intrinsics then Success(Op(OpIntrinsic, t, 0, Intrinsics[t.asWord]))
      else Failure(UnknownIntrinsic(t.asWord))
  }

  function ParseChecked(tokens: seq<Token>): Result<Program, ParseError>
    decreases |tokens|
  {
    if tokens == [] then Success([])
    else
      match ParseTokenChecked(tokens[0])
      case Failure(e) => Failure(e)
      case Success(op) => Then([op], ParseChecked(tokens[1..]))
  }

  /**
   * With the presence check, a word is accepted exactly when it names an
   * intrinsic, the unknown-intrinsic error is reported for the first
   * unknown word, and on programs it accepts it agrees with the parser as
   * written.
   */
  lemma {:induction false} CheckedParseIff(tokens: seq<Token>)
    ensures ParseChecked(tokens).Success? <==>
      forall i | 0 <= i < |tokens| :: tokens[i].tokenType != Keyword && (tokens[i].tokenType == Word ==> tokens[i].asWord in Intrinsics)
    ensures ParseChecked(tokens).Success? ==> Parse(tokens) == ParseChecked(tokens)
    decreases |tokens|
  {
    if tokens != [] {
      CheckedParseIff(tokens[1..]);
      assert forall i | 1 <= i < |tokens| :: tokens[i] == tokens[1..][i - 1];
    }
  }

  /** With the presence check, an unknown word is reported, as the `unknown intrinsic` panic intends. */
  lemma {:induction false} CheckedRejectsUnknownWord(t: Token, rest: seq<Token>)
    requires t.tokenType == Word && t.asWord !in Intrinsics
    ensures ParseChecked([t] + rest) == Failure(UnknownIntrinsic(t.asWord))
  {
    assert ([t] + rest)[0] == t;
  }
}
