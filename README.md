# tinlang compiler core, modelled in Dafny

tinlang is a small stack language compiled to NASM x86-64 assembly. This
project models the core of its Go implementation (package `pkg/tin`):

- the **tokenizer** (`tokenizeSource`): it splits source text into word, keyword and
  integer-literal tokens. Each token records its file, row and byte column.
  Comments and the whitespace it supports are dropped.
- the **token and location records** and their `String` renderings;
- the **instruction data model**: instruction kinds, keyword kinds, intrinsics,
  the `keywordMap` and `intrinsicMap` tables and the `String` methods;
- the **x86-64 generator** (`generateNasmX8664` and its two helpers). It writes a
  fixed prologue, one fixed block per instruction and the exit system call.
  A symbolic stack machine reads the emitted lines back and states what each
  block does to the machine stack.
- the **parser** of the other type family (`parseProgramFromTokens` over its own
  `Token`, `Op` and `Program`). It gives one operation per token.

The tokenizer and the parser read and write variables step by step, so each is
a `method` with a loop. That method is proved equal to a recursive
specification function (`Lexer.Lex`, `Parser.Parse`), and the properties are
proved about that function. The generator is a method that writes into a
`Builder` class, the model of `strings.Builder`. It is proved equal to
`CodeGenerator.Nasm`. Go panics become `Failure` values, and so does the
tokenizer's `strconv.ParseInt` error.

The two type families are modelled separately. `Instructions.Intrinsic` has
seven values. `Operations.Intrinsic` is a plain integer with only
`IntrinsicPlus = 0`. No pipeline connects them, because the parser's output
type is not the generator's input type.

Two behaviours of the code are worth knowing up front:

- keywords are matched as **prefixes** (`^(if|else|end)`), so `ifx` lexes as the
  keyword `if` followed by the word `x`, and `endif` as two keywords
  (`LexerProperties.IfxIsKeywordThenWord`, `LexerProperties.EndifIsTwoKeywords`);
- an unknown word is **not** rejected by the parser: it becomes the `+`
  intrinsic (see Findings).

## Model

| member | source | states |
|---|---|---|
| Decimal.IntToDecimalRoundTrip | pkg/tin/token.go:138 | The decimal text `%d`/`Sprint` prints for an integer parses back to that integer. |
| Decimal.IntToDecimalInjective | pkg/tin/instruction.go:70 | Different integers print differently. |
| Locations.LocationRoundTrip | pkg/tin/file_location.go:11-13 | `file:row:col` is rendered one-based: reading the two numbers back after the file name gives the zero-based row and column. |
| Locations.RowColRoundTrip | pkg/tin/file_location.go:12 | The `row:col` part after the file name reads back as the zero-based row and column. |
| Locations.LocationString | pkg/tin/file_location.go:11-13 | The rendering starts with the file name and a colon, followed by at least the two numbers and their colon. |
| Locations.LocationStringInjective | pkg/tin/file_location.go:11-13 | In one file, two locations with the same rendering are the same location. |
| Locations.StartLocationString | pkg/tin/token.go:28 | The location where tokenizing starts renders as `file:1:1`. |
| Tokens.TokenKindString | pkg/tin/token.go:120-126 | `tokenKind.String` is defined exactly for the codes 0..2; any other code is the out-of-range panic. |
| Tokens.TokenKindCodes | pkg/tin/token.go:13-17 | Word, Keyword, IntLit are 0, 1, 2. `String` gives each its own distinct name. |
| Tokens.TokenString | pkg/tin/token.go:128-142 | The rendering is parenthesised and starts with the token's location followed by a space. |
| Tokens.TokenStringIdentifiesToken | pkg/tin/token.go:128-142 | Two tokens at the same location with the same rendering have the same kind and the same payload for that kind. |
| Lexer.PerlSpaceIsSpace | pkg/tin/token.go:99-100 | Every `\s` character is a `unicode.IsSpace` character. The converse fails (vertical tab). |
| Lexer.CommentEnd | pkg/tin/token.go:62-67 | `#.*` matches up to, and not including, the first newline or the end of input. |
| Lexer.DigitRunEnd | pkg/tin/token.go:70-71 | `\d+` matches the maximal run of ASCII digits. |
| Lexer.IndexSpace | pkg/tin/token.go:100 | `strings.IndexFunc(source, unicode.IsSpace)` gives the first space, or the length when there is none. |
| Lexer.KeywordPrefix | pkg/tin/token.go:87-88 | The keyword pattern matches a prefix of the input that is one of `if`, `else`, `end`, or it matches nothing. |
| Lexer.SpaceStep | pkg/tin/token.go:48-61 | A `\s` character emits nothing and consumes exactly that character. It aborts exactly for tab and form feed. |
| Lexer.CommentStep | pkg/tin/token.go:62-69 | A comment emits nothing, keeps the location, and resumes at the end of the `#.*` match, which is the first newline or the end of input. |
| Lexer.DigitsStep | pkg/tin/token.go:70-86 | A digit run emits one IntLit in the int64 range at the current location and stops before a non-digit, or aborts. |
| Lexer.KeywordStep | pkg/tin/token.go:87-98 | A keyword match emits that keyword at the current location and consumes exactly its letters. |
| Lexer.WordStep | pkg/tin/token.go:99-115 | Emits one Word token holding the text up to the first Unicode space, at the current location, and resumes at that space. It consumes nothing exactly when the input starts with a Unicode space. |
| Lexer.ScanStep | pkg/tin/token.go:47-116 | One loop iteration as written. It emits at most one token at the current location and consumes a suffix. It consumes nothing only when the input starts with a Unicode space outside `\s`. |
| Lexer.Step | pkg/tin/token.go:47-116 | The corrected iteration agrees with the written one, except that a non-`\s` Unicode space aborts as unsupported whitespace. Every step that does not abort consumes input. |
| Lexer.Lex | pkg/tin/token.go:47-116 | Every token consumes input, so a successful scan has at most as many tokens as the source has characters. |
| Lexer.Tokenize | pkg/tin/token.go:27-118 | An empty source gives no tokens. A successful scan has at most as many tokens as characters. |
| Lexer.TokenizeSource | pkg/tin/token.go:27-118 | The loop returns exactly `Tokenize(source, fileName)`, the recursive definition scanned from row 0, column 0, with the corrected step (see Left out). |
| LexerProperties.StepWhitespace | pkg/tin/token.go:48-61 | Space moves one column right. Newline moves to column 0 of the next row. Carriage return moves to column 0 of the same row. |
| LexerProperties.StepComment | pkg/tin/token.go:62-67 | A `#` step emits nothing, keeps the location, and resumes at the end of the comment. |
| LexerProperties.StepDigits | pkg/tin/token.go:70-86 | A digit step emits the run's value at the current location and advances the column by the run's length. A value above 2^63-1 aborts instead. |
| LexerProperties.StepKeyword | pkg/tin/token.go:87-98 | A keyword step emits the matched keyword and advances the column by its length. |
| LexerProperties.StepWord | pkg/tin/token.go:99-115 | Any other step emits the text up to the next Unicode space and advances the column by its byte length. |
| LexerProperties.WhitespaceMovesLocation | pkg/tin/token.go:48-61 | Space, newline and carriage return emit nothing and only move the location. |
| LexerProperties.OtherWhitespaceAborts | pkg/tin/token.go:57-59 | Tab and form feed abort with the location and the character's first byte. The corrected step also aborts this way on the Unicode spaces outside `\s`, where the loop as written never ends (see Findings). |
| LexerProperties.CommentSkipped | pkg/tin/token.go:62-69 | A comment up to the end of its line is dropped and the location does not move. |
| LexerProperties.IntLitScanned | pkg/tin/token.go:70-86 | A digit run becomes one IntLit token with its decimal value at the current location, and the column advances by its length. A value above 2^63-1 aborts as out of range. |
| LexerProperties.KeywordScanned | pkg/tin/token.go:87-98 | A keyword prefix becomes one Keyword token, and the column advances by its length. |
| LexerProperties.WordScanned | pkg/tin/token.go:99-115 | Text up to the next Unicode space becomes one Word token, and the column advances by its UTF-8 byte length. |
| LexerProperties.LexLoneKeyword | pkg/tin/token.go:87-98 | A source that is just `if`, `else` or `end` lexes as that one keyword. |
| LexerProperties.LexLoneWord | pkg/tin/token.go:99-115 | A source that is one lowercase ASCII letter other than `i` and `e` (the letters no keyword starts with) lexes as that one word. |
| LexerProperties.IfxIsKeywordThenWord | pkg/tin/token.go:87-115 | `ifx` lexes as keyword `if` at 1:1, then word `x` at column 2. |
| LexerProperties.EndifIsTwoKeywords | pkg/tin/token.go:87-98 | `endif` lexes as keyword `end`, then keyword `if` at column 3. |
| LexerProperties.LexPositions | pkg/tin/token.go:47-116 | Each token comes from a lexeme of the source at a strictly increasing start offset. Its recorded location is the row and byte column of that offset. |
| LexerProperties.TokensInSourceOrder | pkg/tin/token.go:27-118 | The same, for a whole tokenization from the start of the file. |
| LexerProperties.ScanStepStalls | pkg/tin/token.go:99-115 | As written, a leading non-`\s` Unicode space gives an empty word and consumes nothing. |
| LexerProperties.StalledLoopNeverFinishes | pkg/tin/token.go:47-116 | As written, such an input makes the loop append an empty word on every iteration and never progress. |
| Instructions.InstKindString | pkg/tin/instruction.go:79-85 | Defined exactly for the codes 0..2; any other code is the panic. |
| Instructions.KeywordKindString | pkg/tin/instruction.go:87-93 | Defined exactly for the codes 0..2. |
| Instructions.IntrinsicString | pkg/tin/instruction.go:95-105 | Defined exactly for the codes 0..6. |
| Instructions.InstructionString | pkg/tin/instruction.go:66-77 | The text reads back to the field the kind selects: a push's decimal value parses back, and an intrinsic or keyword prints a spelling that its table maps back to it. |
| Instructions.OrdinalsConsecutive | pkg/tin/instruction.go:5-52 | The `iota` codes of each enumeration are consecutive from 0 in declaration order, one per value. |
| Instructions.IntrinsicMapInverse | pkg/tin/instruction.go:54-62 | `intrinsicMap` and `Intrinsic.String` are inverse: seven spellings, each mapped to the intrinsic that prints as it. |
| Instructions.KeywordMapInverse | pkg/tin/instruction.go:29-33 | `keywordMap` and `KeywordKind.String` are inverse on `if`, `else`, `end`. |
| Instructions.KeywordMapMatchesTokenizer | pkg/tin/instruction.go:29-33 | The keyword table has exactly the spellings the tokenizer's keyword pattern matches. |
| Instructions.InstructionStringRoundTrip | pkg/tin/instruction.go:66-77 | The token and the jump address do not affect the text. For a fixed kind, equal texts mean equal selected fields. |
| CodeGenerator.IntrinsicBlock | pkg/tin/x86_64_code_generator.go:42-72 | Only `+`, `-`, `*` and `divmod` are lowered. The others are the unreachable panic. |
| CodeGenerator.InstructionBlock | pkg/tin/x86_64_code_generator.go:29-40 | An instruction is lowered exactly when it is a push or a lowered intrinsic, into at least three lines. Otherwise the error is the matching unreachable panic. |
| CodeGenerator.PushIntBlock | pkg/tin/x86_64_code_generator.go:31-34 | A push is three lines. |
| CodeGenerator.PushIntBlockLoadsValue | pkg/tin/x86_64_code_generator.go:33 | The middle line is `mov rax, <n>`, whose operand reads back as the pushed value. |
| CodeGenerator.Body | pkg/tin/x86_64_code_generator.go:18-20 | The blocks in program order; every lowered instruction contributes at least three lines. |
| CodeGenerator.Nasm | pkg/tin/x86_64_code_generator.go:8-27 | The output text is the prologue text, the body's lines and the exit sequence. Otherwise it is the body's panic. |
| CodeGenerator.GenerateX8664Intrinsic | pkg/tin/x86_64_code_generator.go:42-72 | Appends exactly the intrinsic's block, or writes nothing and fails. |
| CodeGenerator.GenerateX8664Instruction | pkg/tin/x86_64_code_generator.go:29-40 | Appends exactly the instruction's block, or writes nothing and fails. |
| CodeGenerator.GenerateNasmX8664 | pkg/tin/x86_64_code_generator.go:8-27 | The builder loop returns exactly `Nasm(program)`. |
| CodeGenerator.WritePrologue | pkg/tin/x86_64_code_generator.go:11-17 | Appends exactly the four prologue lines. |
| CodeGenerator.WriteBody | pkg/tin/x86_64_code_generator.go:18-20 | Appends exactly the program's body when every instruction lowers; otherwise fails with the first lowering error. |
| CodeGenerator.WriteEpilogue | pkg/tin/x86_64_code_generator.go:21-24 | Appends exactly the four lines of the exit system call. |
| CodeGenerator.Builder.WriteString | pkg/tin/x86_64_code_generator.go:12 | The builder's contents grow by exactly the written string. |
| CodeGenerator.ConcatAppend | pkg/tin/x86_64_code_generator.go:26 | The text of two runs of writes is the text of the first, then the second. |
| CodeGenerator.BodyAppend | pkg/tin/x86_64_code_generator.go:18-20 | Generation is compositional: the body of `p1 ++ p2` is the body of `p1`, then that of `p2`, or the first error. |
| CodeGenerator.BodySnoc | pkg/tin/x86_64_code_generator.go:18-20 | One more instruction appends its block, or stops at its panic. |
| CodeGenerator.BodySucceedsIff | pkg/tin/x86_64_code_generator.go:18-20 | The body exists exactly when every instruction can be lowered. |
| CodeGenerator.BodyFirstError | pkg/tin/x86_64_code_generator.go:18-20 | The error is that of the first instruction that cannot be lowered. |
| CodeGenerator.NasmShape | pkg/tin/x86_64_code_generator.go:8-27 | The output exists exactly when every instruction lowers. |
| CodeGenerator.NasmEmptyProgram | pkg/tin/x86_64_code_generator.go:12-24 | An empty program gives the prologue followed directly by the exit sequence. |
| CodeGenerator.UnloweredInstructionsAbort | pkg/tin/x86_64_code_generator.go:29-72 | Reaching a keyword aborts as instruction-unreachable. Reaching `>`, `<` or `print` aborts as intrinsic-unreachable. |
| StackEffect.RunAppend | pkg/tin/x86_64_code_generator.go:18-20 | Running two runs of emitted lines is running the first, then the second from where it left off. |
| StackEffect.DecodeMov | pkg/tin/x86_64_code_generator.go:33 | The `mov rax, %d` line decodes as loading exactly that integer. |
| StackEffect.PushIntEffect | pkg/tin/x86_64_code_generator.go:31-34 | A push block puts its literal on top of the stack: net +1. |
| StackEffect.BinaryEffect | pkg/tin/x86_64_code_generator.go:44-61 | `+`, `-` and `*` pop the top into rbx as the right operand and the next into rax as the left operand. They push exactly the one result: net -1. |
| StackEffect.DivModEffect | pkg/tin/x86_64_code_generator.go:62-68 | `divmod` pops two, then pushes the quotient and then the remainder (on top): net 0. |
| StackEffect.PopsUnderflow | pkg/tin/x86_64_code_generator.go:46-47 | With fewer than two values, an intrinsic block underflows the stack. |
| StackEffect.BlockDepth | pkg/tin/x86_64_code_generator.go:29-72 | A lowered block runs exactly when its operands are on the stack, and it changes the depth by its net effect. |
| StackEffect.BodyStackDepth | pkg/tin/x86_64_code_generator.go:18-20 | A program runs without underflow exactly when every instruction finds its operands. The final depth is then the start depth plus the sum of the effects. |
| StackEffect.TwoLiteralsThenOperator | pkg/tin/x86_64_code_generator.go:31-61 | `x y op` leaves `op(x, y)` on top of the stack, with the operands in source order. |
| Operations.OpTypeOrdinal | pkg/tin/operation.go:5-9 | Every operation type has a code below 3. |
| Operations.OpTypesConsecutive | pkg/tin/operation.go:5-9 | PushInt, Intrinsic, If are 0, 1, 2 in declaration order, one per value. |
| Parser.EveryWordLooksUpAsPlus | pkg/tin/parser.go:22-23 | Every word, in the table or not, looks up as `IntrinsicPlus` (the zero value), so the `!= -1` guard always passes. |
| Parser.ParseProgramFromTokens | pkg/tin/parser.go:9-36 | The reslicing loop returns exactly `Parse(tokens)`. |
| Parser.ParseToken | pkg/tin/parser.go:11-32 | One iteration fails exactly on a keyword. An operation carries the token it came from and is never `OpIf`. |
| Parser.Parse | pkg/tin/parser.go:9-36 | A successful parse has exactly one operation per token. |
| Parser.ParseOnePerToken | pkg/tin/parser.go:9-36 | Parsing succeeds exactly when no token is a keyword. Then there is one operation per token, in order, each carrying its token. A literal becomes a push of its value. Every word becomes `IntrinsicPlus`. `OpIf` is never produced. |
| Parser.ParseFailsOnlyOnKeywords | pkg/tin/parser.go:19-31 | The only failure is the keyword panic. The unknown-intrinsic panic is unreachable. |
| Parser.ParseAppend | pkg/tin/parser.go:10-34 | Parsing `a ++ b` parses `a`, then `b`, stopping at the first error. |
| Parser.UnknownWordParsesAsPlus | pkg/tin/parser.go:21-29 | As written, a word missing from the table parses as `+` instead of raising the unknown-intrinsic panic. |
| Parser.FooParsesAsPlus | pkg/tin/parser.go:21-29 | The word `foo` parses to the `+` intrinsic. |
| Parser.CheckedParseIff | pkg/tin/parser.go:21-32 | With a presence check, parsing succeeds exactly when there is no keyword and every word is in the table. Where it succeeds, it agrees with the parser as written. |
| Parser.CheckedRejectsUnknownWord | pkg/tin/parser.go:30-31 | With a presence check, an unknown word raises the unknown-intrinsic error. |

## Left out

- Invalid UTF-8 input. Source text is a sequence of Unicode scalar values. Byte columns use each character's UTF-8 length.
- The text of panic messages (`fmt.Sprintf` with `%v` of a byte, the `strconv` error text). Errors are datatype values carrying the location, the byte or the digits.
- Regex compilation failures (pkg/tin/token.go:30-45). The patterns are constants, so they are modelled as character predicates.
- The `idxs == nil` panics after a successful `MatchString` (pkg/tin/token.go:64-66, 72-74, 89-91). They cannot happen, because a pattern that matches has a match index.
- Runtime semantics of the emitted assembly. Values are symbolic, so the model says nothing about 64-bit arithmetic, overflow or division by zero. It also does not check that `idiv` sees a sign-extended rdx: the quotient is stated over whatever rdx held.
- The epilogue is not run through the symbolic machine. `mov rax, 0x3c`, `mov rdi, 0` and `syscall` are stated as text only.
- Lexer.TokenizeSource: on input that reaches a Unicode space outside `\s` (vertical tab, U+0085, U+00A0, ...), the method returns `UnsupportedWhitespace`, while the Go loop never returns. The method and every `LexerProperties` lemma over `Lex` use the corrected step `Lexer.Step`. The loop as written is `LexerProperties.ScanLoop` (see Findings).
- Enumeration values outside their declared range held in an `Instruction` or `Op`. Datatypes exclude them. The `String` functions on raw integer codes cover the out-of-range panic.
- `Parser.ParseProgramFromTokens`: it does not model the endless loop Go would run on a token type outside the three declared ones, because the switch has no default case. The datatype has only three kinds.
- File reading and writing, the `recover` wrapper (pkg/tin/tin.go), and the command-line programs that run `nasm` and `ld` (cmd/). These are I/O and foreign processes.
- Jump addresses. `Keyword.JmpAddress` is carried but never computed, because no code shown fills it in.

## Findings

| source | as written | input that shows it | evidently intended | confidence | as-written member | corrected member |
|---|---|---|---|---|---|---|
| pkg/tin/token.go:48,99-108 | `^\s` only matches `[\t\n\f\r ]`, but the word branch stops at any `unicode.IsSpace` character. A leading U+00A0, U+0085 or vertical tab yields an empty word and consumes nothing. | a source starting with U+00A0 (no-break space) | such a character is rejected like the other unsupported whitespace | high, not executed | LexerProperties.StalledLoopNeverFinishes | Lexer.Step |
| pkg/tin/parser.go:22-31 | `intrinsics[word]` yields 0 (`IntrinsicPlus`) for a missing word, so `!= -1` always holds | the single word token `foo` | an unknown word raises "unknown intrinsic" | high, not executed | Parser.UnknownWordParsesAsPlus | Parser.CheckedParseIff |
