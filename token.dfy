/**
 * Tokens (pkg/tin/token.go): the token record, its kind enumeration and
 * their `String` renderings.
 */
module Tokens {
  import opened Wrappers
  import opened Decimal
  import opened Locations

  /** `tokenKind`, numbered from 0 in declaration order. */
  datatype TokenKind = Word | Keyword | IntLit

  function TokenKindOrdinal(k: TokenKind): nat {
    match k
    case Word => 0
    case Keyword => 1
    case IntLit => 2
  }

  const TokenKindNames: seq<string> := ["tokenKindWord", "tokenKindKeyword", "tokenKindIntLit"]

  /**
   * `tokenKind.String` indexes a fixed array: defined for the three codes
   * and a panic (None) for any other integer.
   */
  function TokenKindString(code: int): (r: Option<string>)
    ensures r.Some? <==> 0 <= code < 3
  {
    if 0 <= code < |TokenKindNames| then Some(TokenKindNames[code]) else None
  }

  function KindName(k: TokenKind): string {
    TokenKindNames[TokenKindOrdinal(k)]
  }

  /**
   * The Go record: every field is present whatever the kind; the tokenizer
   * fills only the one its kind uses and leaves the others at "" and 0.
   */
  datatype Token = Token(kind: TokenKind, asWord: string, asKeyword: string, asIntLit: int, location: Location)

  function WordToken(w: string, l: Location): Token {
    Token(Word, w, "", 0, l)
  }

  function KeywordToken(k: string, l: Location): Token {
    Token(Keyword, "", k, 0, l)
  }

  function IntLitToken(v: int, l: Location): Token {
    Token(IntLit, "", "", v, l)
  }

  /** The field `token.String` prints for the token's kind. */
  function Payload(t: Token): string {
    match t.kind
    case Word => t.asWord
    case Keyword => t.asKeyword
    case IntLit => IntToDecimal(t.asIntLit)
  }

  /** `token.String`: `(<location> <kind>, <payload>)`. */
  function TokenString(t: Token): (s: string)
    ensures "(" + LocationString(t.location) + " " <= s && s[|s| - 1] == ')'
  {
    "(" + LocationString(t.location) + " " + KindName(t.kind) + ", " + Payload(t) + ")"
  }

  /** The kind codes are 0, 1, 2 in declaration order, and each code names one kind. */
  lemma {:induction false} TokenKindCodes()
    ensures TokenKindOrdinal(Word) == 0 && TokenKindOrdinal(Keyword) == 1 && TokenKindOrdinal(IntLit) == 2
    ensures forall k: TokenKind :: TokenKindString(TokenKindOrdinal(k)) == Some(KindName(k))
    ensures forall k1: TokenKind, k2: TokenKind :: KindName(k1) == KindName(k2) ==> k1 == k2
  {
  }

  lemma {:induction false} SameHeadSameTail(h: string, a: string, b: string)
    requires h + a == h + b
    ensures a == b
  {
    assert a == (h + a)[|h|..];
    assert b == (h + b)[|h|..];
  }

  lemma {:induction false} SameTailSameHead(a: string, b: string, t: string)
    requires a + t == b + t
    ensures a == b
  {
    assert a == (a + t)[..|a|];
    assert b == (b + t)[..|b|];
  }

  /** Kind names differ at index 9, right after the common "tokenKind". */
  lemma {:induction false} KindNameDecides(k1: TokenKind, k2: TokenKind, x1: string, x2: string)
    requires KindName(k1) + x1 == KindName(k2) + x2
    ensures k1 == k2
  {
    var n1, n2 := KindName(k1), KindName(k2);
    assert (n1 + x1)[9] == n1[9];
    assert (n2 + x2)[9] == n2[9];
  }

  lemma {:induction false} Regroup(t: Token)
    ensures TokenString(t) == "(" + LocationString(t.location) + " " + (KindName(t.kind) + (", " + (Payload(t) + ")")))
  {
    var a, b, c := "(" + LocationString(t.location) + " ", KindName(t.kind), Payload(t);
    assert a + b + ", " + c + ")" == a + (b + (", " + (c + ")")));
  }

  /**
   * Two tokens at the same location render alike only when they have the same
   * kind and the same printed field (for an integer literal, the same value).
   */
  lemma {:induction false} TokenStringIdentifiesToken(t1: Token, t2: Token)
    requires t1.location == t2.location
    requires TokenString(t1) == TokenString(t2)
    ensures t1.kind == t2.kind
    ensures t1.kind == Word ==> t1.asWord == t2.asWord
    ensures t1.kind == Keyword ==> t1.asKeyword == t2.asKeyword
    ensures t1.kind == IntLit ==> t1.asIntLit == t2.asIntLit
  {
    var head := "(" + LocationString(t1.location) + " ";
    var n1, n2 := KindName(t1.kind), KindName(t2.kind);
    var p1, p2 := Payload(t1) + ")", Payload(t2) + ")";
    Regroup(t1);
    Regroup(t2);
    SameHeadSameTail(head, n1 + (", " + p1), n2 + (", " + p2));
    KindNameDecides(t1.kind, t2.kind, ", " + p1, ", " + p2);
    SameHeadSameTail(n1, ", " + p1, ", " + p2);
    SameHeadSameTail(", ", p1, p2);
    SameTailSameHead(Payload(t1), Payload(t2), ")");
    if t1.kind == IntLit {
      IntToDecimalInjective(t1.asIntLit, t2.asIntLit);
    }
  }
}
