/**
 * The scanner `tokenizeSource` (pkg/tin/token.go): one left-to-right pass
 * over a shrinking string that tracks a row/column location and emits
 * Word, Keyword and IntLit tokens.
 *
 * Source text is a sequence of Unicode scalar values; the column counts
 * UTF-8 bytes, as Go's `len` does. The four regular expressions of the
 * source become character predicates and index functions:
 *   `^\s`             IsPerlSpace (RE2's \s is [\t\n\f\r ])
 *   `^#.*`            CommentEnd  (`.` stops at '\n')
 *   `^\d+`            DigitRunEnd
 *   `^(if|else|end)`  KeywordPrefix
 * and `strings.IndexFunc(source, unicode.IsSpace)` becomes IndexSpace.
 */
module Lexer {
  import opened Wrappers
  import opened Decimal
  import opened Locations
  import opened Tokens

  // ---------------------------------------------------------------- characters

  /** RE2's `\s`. */
  predicate IsPerlSpace(c: char) {
    c == '\t' || c == '\n' || c == '\U{C}' || c == '\r' || c == ' '
  }

  /** Go's `unicode.IsSpace`: the Latin-1 spaces and the Unicode White_Space property. */
  predicate IsSpace(c: char) {
    || c == '\t' || c == '\n' || c == '\U{B}' || c == '\U{C}' || c == '\r' || c == ' '
    || c == '\U{85}' || c == '\U{A0}' || c == '\U{1680}'
    || ('\U{2000}' <= c <= '\U{200A}')
    || c == '\U{2028}' || c == '\U{2029}' || c == '\U{202F}' || c == '\U{205F}' || c == '\U{3000}'
  }

  /** Every RE2 space is a Unicode space; the converse fails for vertical tab, U+0085, U+00A0, ... */
  lemma {:induction false} PerlSpaceIsSpace(c: char)
    ensures IsPerlSpace(c) ==> IsSpace(c)
    ensures IsSpace('\U{B}') && !IsPerlSpace('\U{B}')
  {
  }

  /** Number of bytes of `c` in UTF-8. */
  function Utf8Len(c: char): (n: nat)
    ensures 1 <= n <= 4
    ensures (c as int) < 0x80 ==> n == 1
  {
    if (c as int) < 0x80 then 1
    else if (c as int) < 0x800 then 2
    else if (c as int) < 0x10000 then 3
    else 4
  }

  /** Byte length of a string: Go's `len`. */
  function Utf8Length(s: string): nat {
    if s == [] then 0 else Utf8Len(s[0]) + Utf8Length(s[1..])
  }

  /** The first UTF-8 byte of `c`: what `source[0]` reads. */
  function FirstByte(c: char): (b: nat)
    ensures b < 256
    ensures (c as int) < 0x80 ==> b == c as int
  {
    if (c as int) < 0x80 then c as int
    else if (c as int) < 0x800 then 0xC0 + (c as int) / 0x40
    else if (c as int) < 0x10000 then 0xE0 + (c as int) / 0x1000
    else 0xF0 + (c as int) / 0x40000
  }

  // ---------------------------------------------------------- regex matches

  /** End of the `^#.*` match: the index of the first '\n', or |s|. */
  function CommentEnd(s: string): (n: nat)
    ensures n <= |s|
    ensures forall k | 0 <= k < n :: s[k] != '\n'
    ensures n < |s| ==> s[n] == '\n'
  {
    if s == [] || s[0] == '\n' then 0 else 1 + CommentEnd(s[1..])
  }

  /** End of the `^\d+` match: the length of the leading run of digits. */
  function DigitRunEnd(s: string): (n: nat)
    ensures n <= |s|
    ensures AllDigits(s[..n])
    ensures n < |s| ==> !IsDigit(s[n])
  {
    if s == [] || !IsDigit(s[0]) then 0
    else
      var n := 1 + DigitRunEnd(s[1..]);
      assert s[..n] == [s[0]] + s[1..][..n - 1];
      n
  }

  /** `strings.IndexFunc(s, unicode.IsSpace)`, with |s| standing for -1. */
  function IndexSpace(s: string): (n: nat)
    ensures n <= |s|
    ensures forall k | 0 <= k < n :: !IsSpace(s[k])
    ensures n < |s| ==> IsSpace(s[n])
  {
    if s == [] || IsSpace(s[0]) then 0 else 1 + IndexSpace(s[1..])
  }

  /** The alternatives of the keyword pattern, in pattern order. */
  const KeywordAlternatives: seq<string> := ["if", "else", "end"]

  /** The `^(if|else|end)` match: a prefix match, not a whole-word match. */
  function KeywordPrefix(s: string): (r: Option<string>)
    ensures r.Some? ==> r.value in KeywordAlternatives && r.value <= s
    ensures r.None? ==> forall k | k in KeywordAlternatives :: !(k <= s)
  {
    if "if" <= s then Some("if")
    else if "else" <= s then Some("else")
    else if "end" <= s then Some("end")
    else None
  }

  /** `math.MaxInt64`: `strconv.ParseInt(_, 10, 64)` fails above it. */
  const MaxInt64: int := 0x7FFF_FFFF_FFFF_FFFF

  // -------------------------------------------------------------- the step

  datatype LexError =
    | UnsupportedWhitespace(location: Location, byte: nat)
    | IntOutOfRange(digits: string)

  /** The effect of one iteration of the scanning loop. */
  datatype StepResult =
    | Advance(emitted: seq<Token>, rest: string, loc: Location)
    | Abort(error: LexError)

  /**
   * What every branch of a step promises when it does not abort: at most one
   * token, at the current location, and the rest is a proper suffix.
   */
  predicate Shrinks(r: StepResult, source: string, loc: Location) {
    r.Advance? ==>
      && |r.emitted| <= 1 && (forall t | t in r.emitted :: t.location == loc)
      && |r.rest| < |source| && r.rest == source[|source| - |r.rest|..]
  }

  /** The `^\s` branch: ' ', '\n' and '\r' move the location; '\t' and '\f' abort. */
  function SpaceStep(source: string, loc: Location): (r: StepResult)
    requires |source| > 0 && IsPerlSpace(source[0])
    ensures Shrinks(r, source, loc) && (r.Advance? ==> r.emitted == [] && r.rest == source[1..])
    ensures r.Abort? <==> source[0] == '\t' || source[0] == '\U{C}'
  {
    var c := source[0];
    if c == ' ' then Advance([], source[1..], loc.(col := loc.col + 1))
    else if c == '\n' then Advance([], source[1..], loc.(col := 0, row := loc.row + 1))
    else if c == '\r' then Advance([], source[1..], loc.(col := 0))
    else Abort(UnsupportedWhitespace(loc, FirstByte(c)))
  }

  /** The `^#.*` branch: the comment is skipped and the location does not move. */
  function CommentStep(source: string, loc: Location): (r: StepResult)
    requires |source| > 0 && source[0] == '#'
    ensures Shrinks(r, source, loc) && r.Advance? && r.emitted == [] && r.loc == loc
    ensures r.rest == source[CommentEnd(source)..]
    ensures r.rest == [] || r.rest[0] == '\n'
  {
    Advance([], source[CommentEnd(source)..], loc)
  }

  /** The `^\d+` branch: an IntLit, or an error when the value exceeds int64. */
  function DigitsStep(source: string, loc: Location): (r: StepResult)
    requires |source| > 0 && IsDigit(source[0])
    ensures Shrinks(r, source, loc)
    ensures r.Advance? ==> |r.emitted| == 1 && r.emitted[0] == IntLitToken(r.emitted[0].asIntLit, loc)
    ensures r.Advance? ==> 0 <= r.emitted[0].asIntLit <= MaxInt64
    ensures r.Advance? ==> r.rest == [] || !IsDigit(r.rest[0])
  {
    var n := DigitRunEnd(source);
    var v := DigitsValue(source[..n]);
    if v > MaxInt64 then Abort(IntOutOfRange(source[..n]))
    else Advance([IntLitToken(v, loc)], source[n..], loc.(col := loc.col + n))
  }

  /** The `^(if|else|end)` branch: the matched keyword, whatever follows it. */
  function KeywordStep(source: string, loc: Location, k: string): (r: StepResult)
    requires k in KeywordAlternatives && k <= source
    ensures Shrinks(r, source, loc) && r.Advance?
    ensures r.emitted == [KeywordToken(k, loc)] && source == k + r.rest
  {
    Advance([KeywordToken(k, loc)], source[|k|..], loc.(col := loc.col + |k|))
  }

  /**
   * The last branch: a word runs up to the next Unicode space, or to the end.
   * It is empty, and consumes nothing, when the input starts with a Unicode space.
   */
  function WordStep(source: string, loc: Location): (r: StepResult)
    requires |source| > 0
    ensures r.Advance? && r.emitted == [WordToken(source[..IndexSpace(source)], loc)]
    ensures source == r.emitted[0].asWord + r.rest
    ensures r.rest == [] || IsSpace(r.rest[0])
    ensures r.rest == source <==> IsSpace(source[0])
  {
    var i := IndexSpace(source);
    var word := source[..i];
    assert source == word + source[i..];
    Advance([WordToken(word, loc)], source[i..], loc.(col := loc.col + Utf8Length(word)))
  }

  /**
   * One iteration of the loop AS WRITTEN. When `source` starts with a Unicode
   * space that `\s` does not match, no branch consumes anything: the word
   * branch emits "" and leaves `source` and the location as they were.
   */
  function ScanStep(source: string, loc: Location): (r: StepResult)
    requires |source| > 0
    ensures r.Advance? ==> |r.rest| <= |source| && r.rest == source[|source| - |r.rest|..]
    ensures r.Advance? ==> |r.emitted| <= 1 && forall t | t in r.emitted :: t.location == loc
    ensures r.Advance? && |r.rest| == |source| ==> IsSpace(source[0]) && !IsPerlSpace(source[0])
  {
    var c := source[0];
    if IsPerlSpace(c) then SpaceStep(source, loc)
    else if c == '#' then CommentStep(source, loc)
    else if IsDigit(c) then DigitsStep(source, loc)
    else if KeywordPrefix(source).Some? then KeywordStep(source, loc, KeywordPrefix(source).value)
    else WordStep(source, loc)
  }

  /** A Unicode space that RE2's `\s` does not match: the input the loop stalls on. */
  predicate StallsOn(c: char) {
    IsSpace(c) && !IsPerlSpace(c)
  }

  /**
   * One iteration, corrected: a leading Unicode space outside `\s` is reported
   * as unsupported whitespace, like '\t' and '\f', so every step that does not
   * abort consumes at least one character.
   */
  function Step(source: string, loc: Location): (r: StepResult)
    requires |source| > 0
    ensures r.Advance? ==> |r.rest| < |source| && r.rest == source[|source| - |r.rest|..]
    ensures !StallsOn(source[0]) ==> r == ScanStep(source, loc)
    ensures StallsOn(source[0]) ==> r == Abort(UnsupportedWhitespace(loc, FirstByte(source[0])))
  {
    if StallsOn(source[0]) then Abort(UnsupportedWhitespace(loc, FirstByte(source[0])))
    else ScanStep(source, loc)
  }

  function Prepend(out: seq<Token>, r: Result<seq<Token>, LexError>): Result<seq<Token>, LexError> {
    match r
    case Success(ts) => Success(out + ts)
    case Failure(e) => Failure(e)
  }

  /**
   * The tokens of `source` scanned from location `loc`, or the first error.
   * Every token consumes input, so there are never more tokens than characters.
   */
  function Lex(source: string, loc: Location): (r: Result<seq<Token>, LexError>)
    ensures r.Success? ==> |r.value| <= |source|
    decreases |source|
  {
    if source == [] then Success([])
    else
      match Step(source, loc)
      case Abort(e) => Failure(e)
      case Advance(emitted, rest, next) => Prepend(emitted, Lex(rest, next))
  }

  /** `tokenizeSource(source, fileName)`: scanning starts at row 0, column 0. */
  function Tokenize(source: string, fileName: string): (r: Result<seq<Token>, LexError>)
    ensures source == [] ==> r == Success([])
    ensures r.Success? ==> |r.value| <= |source|
  {
    Lex(source, Location(fileName, 0, 0))
  }

  lemma {:induction false} PrependPrepend(a: seq<Token>, b: seq<Token>, r: Result<seq<Token>, LexError>)
    ensures Prepend(a, Prepend(b, r)) == Prepend(a + b, r)
  {
    if r.Success? {
      assert a + (b + r.value) == (a + b) + r.value;
    }
  }

  lemma {:induction false} PrependNothing(r: Result<seq<Token>, LexError>)
    ensures Prepend([], r) == r
  {
    if r.Success? {
      assert [] + r.value == r.value;
    }
  }

  lemma {:induction false} LexUnfold(source: string, loc: Location, emitted: seq<Token>, rest: string, next: Location)
    requires |source| > 0 && Step(source, loc) == Advance(emitted, rest, next)
    ensures Lex(source, loc) == Prepend(emitted, Lex(rest, next))
  {
  }

  /** The scanning loop of `tokenizeSource`, with the stall corrected. */
  method TokenizeSource(source0: string, fileName: string) returns (r: Result<seq<Token>, LexError>)
    ensures r == Tokenize(source0, fileName)
  {
    var location := Location(fileName, 0, 0);
    var source := source0;
    var out: seq<Token> := [];
    PrependNothing(Lex(source, location));
    while |source| > 0
      invariant Tokenize(source0, fileName) == Prepend(out, Lex(source, location))
      decreases |source|
    {
      ghost var before, at, done := source, location, out;
      var c := source[0];
      if IsPerlSpace(c) {
        if c == ' ' {
          location := location.(col := location.col + 1);
        } else if c == '\n' {
          location := location.(col := 0, row := location.row + 1);
        } else if c == '\r' {
          location := location.(col := 0);
        } else {
          return Failure(UnsupportedWhitespace(location, FirstByte(c)));
        }
        source := source[1..];
      } else if IsSpace(c) {
        return Failure(UnsupportedWhitespace(location, FirstByte(c)));
      } else if c == '#' {
        var n := CommentEnd(source);
        source := source[n..];
      } else if IsDigit(c) {
        var n := DigitRunEnd(source);
        var v := DigitsValue(source[..n]);
        if v > MaxInt64 {
          return Failure(IntOutOfRange(source[..n]));
        }
        out := out + [IntLitToken(v, location)];
        source := source[n..];
        location := location.(col := location.col + n);
      } else if KeywordPrefix(source).Some? {
        var k := KeywordPrefix(source).value;
        out := out + [KeywordToken(k, location)];
        source := source[|k|..];
        location := location.(col := location.col + |k|);
      } else {
        var i := IndexSpace(source);
        var word := source[..i];
        out := out + [WordToken(word, location)];
        source := source[i..];
        location := location.(col := location.col + Utf8Length(word));
      }
      ghost var emitted := out[|done|..];
      assert out == done + emitted;
      assert Step(before, at) == Advance(emitted, source, location);
      LexUnfold(before, at, emitted, source, location);
      PrependPrepend(done, emitted, Lex(source, location));
    }
    assert out + [] == out;
    return Success(out);
  }
}
