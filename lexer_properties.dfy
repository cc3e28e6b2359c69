/**
 * What `tokenizeSource` promises, stated over the specification `Lex`:
 * how each kind of lexeme is scanned, and that the tokens come out in
 * source order, each at the location of its lexeme's first byte.
 */
module LexerProperties {
  import opened Wrappers
  import opened Decimal
  import opened Locations
  import opened Tokens
  import opened Lexer

  // ------------------------------------------------- one step of each kind

  lemma {:induction false} StepWhitespace(source: string, loc: Location)
    requires |source| > 0
    ensures source[0] == ' ' ==> Step(source, loc) == Advance([], source[1..], loc.(col := loc.col + 1))
    ensures source[0] == '\n' ==> Step(source, loc) == Advance([], source[1..], loc.(col := 0, row := loc.row + 1))
    ensures source[0] == '\r' ==> Step(source, loc) == Advance([], source[1..], loc.(col := 0))
  {
  }

  lemma {:induction false} StepComment(source: string, loc: Location)
    requires |source| > 0 && source[0] == '#'
    ensures Step(source, loc) == Advance([], source[CommentEnd(source)..], loc)
  {
  }

  lemma {:induction false} StepDigits(source: string, loc: Location)
    requires |source| > 0 && IsDigit(source[0])
    ensures var n := DigitRunEnd(source);
      Step(source, loc) ==
        if DigitsValue(source[..n]) > MaxInt64 then Abort(IntOutOfRange(source[..n]))
        else Advance([IntLitToken(DigitsValue(source[..n]), loc)], source[n..], loc.(col := loc.col + n))
  {
    assert !IsSpace(source[0]) && source[0] != '#';
    assert Step(source, loc) == ScanStep(source, loc);
  }

  lemma {:induction false} StepKeyword(source: string, loc: Location)
    requires |source| > 0 && KeywordPrefix(source).Some?
    ensures var k := KeywordPrefix(source).value;
      Step(source, loc) == Advance([KeywordToken(k, loc)], source[|k|..], loc.(col := loc.col + |k|))
  {
    var k := KeywordPrefix(source).value;
    assert source[0] == k[0] && (k[0] == 'i' || k[0] == 'e');
    assert !IsSpace(source[0]) && !IsDigit(source[0]) && source[0] != '#';
    assert Step(source, loc) == ScanStep(source, loc);
  }

  lemma {:induction false} StepWord(source: string, loc: Location)
    requires |source| > 0 && !IsSpace(source[0]) && source[0] != '#' && !IsDigit(source[0])
    requires KeywordPrefix(source).None?
    ensures var i := IndexSpace(source);
      Step(source, loc) == Advance([WordToken(source[..i], loc)], source[i..], loc.(col := loc.col + Utf8Length(source[..i])))
  {
    StepIsWordStep(source, loc);
  }

  lemma {:induction false} StepIsWordStep(source: string, loc: Location)
    requires |source| > 0 && !IsSpace(source[0]) && source[0] != '#' && !IsDigit(source[0])
    requires KeywordPrefix(source).None?
    ensures Step(source, loc) == WordStep(source, loc)
  {
    PerlSpaceIsSpace(source[0]);
  }

  // ------------------------------------------------------- one lexeme each

  /** A space, a newline and a carriage return move the location and emit nothing. */
  lemma {:induction false} WhitespaceMovesLocation(s: string, loc: Location)
    ensures Lex([' '] + s, loc) == Lex(s, loc.(col := loc.col + 1))
    ensures Lex(['\n'] + s, loc) == Lex(s, loc.(col := 0, row := loc.row + 1))
    ensures Lex(['\r'] + s, loc) == Lex(s, loc.(col := 0))
  {
    WhitespaceStep(' ', s, loc, loc.(col := loc.col + 1));
    WhitespaceStep('\n', s, loc, loc.(col := 0, row := loc.row + 1));
    WhitespaceStep('\r', s, loc, loc.(col := 0));
  }

  lemma {:induction false} WhitespaceStep(c: char, s: string, loc: Location, next: Location)
    requires c == ' ' || c == '\n' || c == '\r'
    requires Step([c] + s, loc) == Advance([], s, next)
    ensures Lex([c] + s, loc) == Lex(s, next)
  {
    LexUnfold([c] + s, loc, [], s, next);
    PrependNothing(Lex(s, next));
  }

  /** Any other whitespace (tab, form feed, and the Unicode spaces) aborts at the current location. */
  lemma {:induction false} OtherWhitespaceAborts(c: char, s: string, loc: Location)
    requires IsSpace(c) && c != ' ' && c != '\n' && c != '\r'
    ensures Lex([c] + s, loc) == Failure(UnsupportedWhitespace(loc, FirstByte(c)))
  {
  }

  /** A comment is dropped up to, not including, the next newline; the location does not move. */
  lemma {:induction false} CommentSkipped(body: string, rest: string, loc: Location)
    requires forall k | 0 <= k < |body| :: body[k] != '\n'
    requires rest == [] || rest[0] == '\n'
    ensures Lex(['#'] + body + rest, loc) == Lex(rest, loc)
  {
    var source := ['#'] + body + rest;
    var n := CommentEnd(source);
    assert forall k | 0 <= k <= |body| :: source[k] != '\n';
    if rest != [] {
      assert source[1 + |body|] == '\n';
    }
    assert n == 1 + |body|;
    assert source[n..] == rest;
    StepComment(source, loc);
    LexUnfold(source, loc, [], rest, loc);
    PrependNothing(Lex(rest, loc));
  }

  /**
   * A maximal run of digits becomes one IntLit token with its value, at the
   * start location, and the column advances by the number of digits; a value
   * above MaxInt64 aborts.
   */
  lemma {:induction false} IntLitScanned(digits: string, rest: string, loc: Location)
    requires |digits| > 0 && AllDigits(digits)
    requires rest == [] || !IsDigit(rest[0])
    ensures DigitsValue(digits) > MaxInt64 ==> Lex(digits + rest, loc) == Failure(IntOutOfRange(digits))
    ensures DigitsValue(digits) <= MaxInt64 ==>
      Lex(digits + rest, loc) == Prepend([IntLitToken(DigitsValue(digits), loc)], Lex(rest, loc.(col := loc.col + |digits|)))
  {
    var source := digits + rest;
    var n := DigitRunEnd(source);
    assert forall k | 0 <= k < |digits| :: IsDigit(source[k]);
    if rest != [] {
      assert source[|digits|] == rest[0];
    }
    assert n == |digits|;
    assert source[..n] == digits;
    assert source[n..] == rest;
    StepDigits(source, loc);
    if DigitsValue(digits) <= MaxInt64 {
      LexUnfold(source, loc, [IntLitToken(DigitsValue(digits), loc)], rest, loc.(col := loc.col + |digits|));
    }
  }

  /**
   * A word is the maximal prefix before the first Unicode space; after its
   * first character it may hold '#', digits or keyword text; the column
   * advances by its byte length.
   */
  lemma {:induction false} WordEndsAtSpace(word: string, rest: string)
    requires forall k | 0 <= k < |word| :: !IsSpace(word[k])
    requires rest == [] || IsSpace(rest[0])
    ensures IndexSpace(word + rest) == |word|
    ensures (word + rest)[..|word|] == word && (word + rest)[|word|..] == rest
  {
    var source := word + rest;
    var i := IndexSpace(source);
    assert forall k | 0 <= k < |word| :: !IsSpace(source[k]);
    if rest != [] {
      assert source[|word|] == rest[0];
    }
  }

  lemma {:induction false} WordScanned(word: string, rest: string, loc: Location)
    requires |word| > 0 && forall k | 0 <= k < |word| :: !IsSpace(word[k])
    requires word[0] != '#' && !IsDigit(word[0]) && KeywordPrefix(word + rest).None?
    requires rest == [] || IsSpace(rest[0])
    ensures Lex(word + rest, loc) == Prepend([WordToken(word, loc)], Lex(rest, loc.(col := loc.col + Utf8Length(word))))
  {
    var source := word + rest;
    var next := loc.(col := loc.col + Utf8Length(word));
    WordEndsAtSpace(word, rest);
    assert source[0] == word[0];
    StepIsWordStep(source, loc);
    assert Step(source, loc) == Advance([WordToken(word, loc)], rest, next);
    LexUnfold(source, loc, [WordToken(word, loc)], rest, next);
  }

  /** A keyword is matched as a prefix of the input, whatever follows it. */
  lemma {:induction false} KeywordScanned(source: string, loc: Location)
    requires |source| > 0 && KeywordPrefix(source).Some?
    ensures var k := KeywordPrefix(source).value;
      && k in KeywordAlternatives
      && Lex(source, loc) == Prepend([KeywordToken(k, loc)], Lex(source[|k|..], loc.(col := loc.col + |k|)))
  {
    var k := KeywordPrefix(source).value;
    StepKeyword(source, loc);
    LexUnfold(source, loc, [KeywordToken(k, loc)], source[|k|..], loc.(col := loc.col + |k|));
  }

  /** A keyword on its own is one keyword token. */
  lemma {:induction false} LexLoneKeyword(k: string, loc: Location)
    requires k in KeywordAlternatives
    ensures Lex(k, loc) == Success([KeywordToken(k, loc)])
  {
    assert KeywordPrefix(k) == Some(k) by {
      if k == "else" {
        assert "if"[1] != k[1];
      } else if k == "end" {
        assert "if"[0] != k[0];
      }
    }
    KeywordScanned(k, loc);
    assert k[|k|..] == [];
    assert [KeywordToken(k, loc)] + [] == [KeywordToken(k, loc)];
  }

  /** Keywords are matched as prefixes: `ifx` is the keyword `if` then the word `x`. */
  lemma {:induction false} IfxIsKeywordThenWord(source: string, fileName: string)
    requires source == "ifx"
    ensures Tokenize(source, fileName) == Success([
      KeywordToken("if", Location(fileName, 0, 0)),
      WordToken("x", Location(fileName, 2, 0))])
  {
    var start := Location(fileName, 0, 0);
    var afterIf := Location(fileName, 2, 0);
    assert KeywordPrefix(source) == Some("if") by {
      assert source[..2] == "if";
    }
    StepKeyword(source, start);
    assert source[2..] == "x";
    LexUnfold(source, start, [KeywordToken("if", start)], "x", afterIf);
    LexLoneWord('x', afterIf);
    assert [KeywordToken("if", start)] + [WordToken("x", afterIf)] == [KeywordToken("if", start), WordToken("x", afterIf)];
  }

  /** A lone ASCII letter other than a keyword's first is one word token. */
  lemma {:induction false} LexLoneWord(c: char, loc: Location)
    requires 'a' <= c <= 'z' && c != 'i' && c != 'e'
    ensures Lex([c], loc) == Success([WordToken([c], loc)])
  {
    assert KeywordPrefix([c]).None? by {
      assert "if"[0] != c && "else"[0] != c && "end"[0] != c;
    }
    assert [c] + "" == [c];
    WordScanned([c], "", loc);
    assert Lex("", loc.(col := loc.col + Utf8Length([c]))) == Success([]);
    assert [WordToken([c], loc)] + [] == [WordToken([c], loc)];
  }

  /** ... and `endif` is two keywords, `end` then `if`. */
  lemma {:induction false} EndifIsTwoKeywords(source: string, fileName: string)
    requires source == "endif"
    ensures Tokenize(source, fileName) == Success([
      KeywordToken("end", Location(fileName, 0, 0)),
      KeywordToken("if", Location(fileName, 3, 0))])
  {
    var start := Location(fileName, 0, 0);
    var afterEnd := Location(fileName, 3, 0);
    assert KeywordPrefix(source) == Some("end") by {
      assert !("if" <= source) by { assert "if"[0] != source[0]; }
      assert !("else" <= source) by { assert "else"[1] != source[1]; }
      assert "end" <= source by { assert source[..3] == "end"; }
    }
    StepKeyword(source, start);
    assert source[3..] == "if";
    LexUnfold(source, start, [KeywordToken("end", start)], "if", afterEnd);
    LexLoneKeyword("if", afterEnd);
    assert [KeywordToken("end", start)] + [KeywordToken("if", afterEnd)] == [KeywordToken("end", start), KeywordToken("if", afterEnd)];
  }

  // ------------------------------------------------ positions of the tokens

  /** Where a character moves a location in the text: '\r' returns to column 0. */
  function Move(l: Location, c: char): Location {
    if c == '\n' then l.(col := 0, row := l.row + 1)
    else if c == '\r' then l.(col := 0)
    else l.(col := l.col + Utf8Len(c))
  }

  /** The row and byte column reached after reading `s` from `l`. */
  function TextLocation(l: Location, s: string): Location
    decreases |s|
  {
    if s == [] then l else TextLocation(Move(l, s[0]), s[1..])
  }

  lemma {:induction false} TextLocationAppend(l: Location, a: string, b: string)
    ensures TextLocation(l, a + b) == TextLocation(TextLocation(l, a), b)
    decreases |a|
  {
    if a == [] {
      assert a + b == b;
    } else {
      assert (a + b)[0] == a[0];
      assert (a + b)[1..] == a[1..] + b;
      TextLocationAppend(Move(l, a[0]), a[1..], b);
    }
  }

  lemma {:induction false} TextLocationWithinLine(l: Location, s: string)
    requires forall k | 0 <= k < |s| :: s[k] != '\n'
    ensures TextLocation(l, s).fileName == l.fileName && TextLocation(l, s).row == l.row
    decreases |s|
  {
    if s != [] {
      TextLocationWithinLine(Move(l, s[0]), s[1..]);
    }
  }

  lemma {:induction false} TextLocationNoBreak(l: Location, s: string)
    requires forall k | 0 <= k < |s| :: s[k] != '\n' && s[k] != '\r'
    ensures TextLocation(l, s) == l.(col := l.col + Utf8Length(s))
    decreases |s|
  {
    if s != [] {
      TextLocationNoBreak(Move(l, s[0]), s[1..]);
    }
  }

  lemma {:induction false} AsciiLength(s: string)
    requires forall k | 0 <= k < |s| :: (s[k] as int) < 0x80
    ensures Utf8Length(s) == |s|
    decreases |s|
  {
    if s != [] {
      AsciiLength(s[1..]);
    }
  }

  /** The lexeme of `t` starts at index `i` of `s`. */
  predicate LexemeAt(t: Token, s: string, i: nat) {
    && i < |s|
    && match t.kind
       case Word => i + |t.asWord| <= |s| && s[i..i + |t.asWord|] == t.asWord && |t.asWord| > 0
       case Keyword => i + |t.asKeyword| <= |s| && s[i..i + |t.asKeyword|] == t.asKeyword && t.asKeyword in KeywordAlternatives
       case IntLit => IsDigit(s[i]) && t.asIntLit == DigitsValue(s[i..][..DigitRunEnd(s[i..])])
  }

  lemma {:induction false} LexemeShift(t: Token, s: string, c: nat, j: nat)
    requires c <= |s| && LexemeAt(t, s[c..], j)
    ensures LexemeAt(t, s, c + j)
  {
    assert s[c..][j..] == s[c + j..];
  }

  /**
   * The scanner's location agrees with the text's, except just after a
   * comment: the scanner has not moved over the comment, but it is still on
   * the same row and the next character (if any) is the newline that resets
   * the column.
   */
  predicate Synced(scan: Location, text: Location, s: string) {
    || scan == text
    || (scan.fileName == text.fileName && scan.row == text.row && (s == [] || s[0] == '\n'))
  }

  lemma {:induction false} StepKeepsSync(source: string, scan: Location, text: Location)
    requires |source| > 0 && Synced(scan, text, source) && Step(source, scan).Advance?
    ensures var r := Step(source, scan);
      && Synced(r.loc, TextLocation(text, source[..|source| - |r.rest|]), r.rest)
      && (r.emitted != [] ==> scan == text && LexemeAt(r.emitted[0], source, 0))
  {
    var c := source[0];
    if c == '\n' || c == ' ' || c == '\r' {
      SyncWhitespace(source, scan, text);
    } else if c == '#' {
      SyncComment(source, scan, text);
    } else if IsDigit(c) {
      SyncDigits(source, scan, text);
    } else if KeywordPrefix(source).Some? {
      SyncKeyword(source, scan, text);
    } else {
      PerlSpaceIsSpace(c);
      SyncWord(source, scan, text);
    }
  }

  lemma {:induction false} SyncWhitespace(source: string, scan: Location, text: Location)
    requires |source| > 0 && Synced(scan, text, source)
    requires source[0] == '\n' || source[0] == ' ' || source[0] == '\r'
    ensures var r := Step(source, scan);
      && r.Advance? && r.emitted == [] && |r.rest| == |source| - 1
      && Synced(r.loc, TextLocation(text, source[..1]), r.rest)
  {
    StepWhitespace(source, scan);
    assert source[..1] == [source[0]];
    assert source[..1][1..] == [];
  }

  lemma {:induction false} SyncComment(source: string, scan: Location, text: Location)
    requires |source| > 0 && Synced(scan, text, source) && source[0] == '#'
    ensures var r := Step(source, scan);
      && r.Advance? && r.emitted == []
      && Synced(r.loc, TextLocation(text, source[..|source| - |r.rest|]), r.rest)
  {
    StepComment(source, scan);
    var n := CommentEnd(source);
    assert |source| - |source[n..]| == n;
    assert forall k | 0 <= k < n :: source[..n][k] != '\n';
    TextLocationWithinLine(text, source[..n]);
  }

  lemma {:induction false} SyncDigits(source: string, scan: Location, text: Location)
    requires |source| > 0 && Synced(scan, text, source) && IsDigit(source[0])
    requires Step(source, scan).Advance?
    ensures var r := Step(source, scan);
      && Synced(r.loc, TextLocation(text, source[..|source| - |r.rest|]), r.rest)
      && scan == text && |r.emitted| == 1 && LexemeAt(r.emitted[0], source, 0)
  {
    StepDigits(source, scan);
    var n := DigitRunEnd(source);
    assert |source| - |source[n..]| == n;
    assert AllDigits(source[..n]);
    assert forall k | 0 <= k < n :: (source[..n][k] as int) < 0x80;
    TextLocationNoBreak(text, source[..n]);
    AsciiLength(source[..n]);
    assert source[0..] == source;
  }

  lemma {:induction false} SyncKeyword(source: string, scan: Location, text: Location)
    requires |source| > 0 && Synced(scan, text, source) && KeywordPrefix(source).Some?
    ensures var r := Step(source, scan);
      && r.Advance?
      && Synced(r.loc, TextLocation(text, source[..|source| - |r.rest|]), r.rest)
      && scan == text && |r.emitted| == 1 && LexemeAt(r.emitted[0], source, 0)
  {
    var k := KeywordPrefix(source).value;
    assert k[0] != '\n';
    StepKeyword(source, scan);
    var n := |k|;
    assert |source| - |source[n..]| == n;
    assert source[..n] == k;
    assert forall j | 0 <= j < n :: (k[j] as int) < 0x80;
    TextLocationNoBreak(text, k);
    AsciiLength(k);
  }

  lemma {:induction false} SyncWord(source: string, scan: Location, text: Location)
    requires |source| > 0 && Synced(scan, text, source)
    requires !IsSpace(source[0]) && source[0] != '#' && !IsDigit(source[0]) && KeywordPrefix(source).None?
    ensures var r := Step(source, scan);
      && r.Advance?
      && Synced(r.loc, TextLocation(text, source[..|source| - |r.rest|]), r.rest)
      && scan == text && |r.emitted| == 1 && LexemeAt(r.emitted[0], source, 0)
  {
    StepWord(source, scan);
    var n := IndexSpace(source);
    assert |source| - |source[n..]| == n;
    var w := source[..n];
    assert forall j | 0 <= j < n :: !IsSpace(w[j]);
    TextLocationNoBreak(text, w);
  }

  lemma {:induction false} LexCons(source: string, loc: Location)
    requires |source| > 0 && Lex(source, loc).Success?
    ensures Step(source, loc).Advance?
    ensures Lex(Step(source, loc).rest, Step(source, loc).loc).Success?
    ensures Lex(source, loc).value == Step(source, loc).emitted + Lex(Step(source, loc).rest, Step(source, loc).loc).value
  {
  }

  /**
   * Token `t` stands at index `i` of `source`, and its recorded location is
   * where reading `source` up to `i` from `text` arrives.
   */
  predicate Placed(t: Token, source: string, text: Location, i: nat) {
    LexemeAt(t, source, i) && t.location == TextLocation(text, source[..i])
  }

  /** Positions found in the rest of the input, moved past the `c` characters consumed before it. */
  lemma {:induction false} ShiftPositions(source: string, c: nat, text: Location, ts: seq<Token>, later: seq<nat>) returns (shifted: seq<nat>)
    requires c <= |source|
    requires |later| == |ts|
    requires forall k | 0 <= k < |later| :: Placed(ts[k], source[c..], TextLocation(text, source[..c]), later[k])
    requires forall j, k | 0 <= j < k < |later| :: later[j] < later[k]
    ensures |shifted| == |ts|
    ensures forall k | 0 <= k < |shifted| :: c <= shifted[k] && Placed(ts[k], source, text, shifted[k])
    ensures forall j, k | 0 <= j < k < |shifted| :: shifted[j] < shifted[k]
  {
    shifted := seq(|later|, k requires 0 <= k < |later| => later[k] + c);
    forall k | 0 <= k < |later|
      ensures Placed(ts[k], source, text, shifted[k])
    {
      PlacedShift(ts[k], source, c, text, later[k]);
    }
  }

  lemma {:induction false} PlacedShift(t: Token, source: string, c: nat, text: Location, j: nat)
    requires c <= |source| && Placed(t, source[c..], TextLocation(text, source[..c]), j)
    ensures Placed(t, source, text, c + j)
  {
    assert LexemeAt(t, source[c..], j);
    assert j < |source[c..]| == |source| - c;
    LexemeShift(t, source, c, j);
    assert source[c..][..j] == source[c..c + j];
    assert source[..c + j] == source[..c] + source[c..c + j];
    TextLocationAppend(text, source[..c], source[c..][..j]);
  }

  /** Puts the token emitted by one step (if any, at index 0) in front of the shifted positions. */
  lemma {:induction false} PrependPosition(source: string, c: nat, text: Location, emitted: seq<Token>, ts: seq<Token>, shifted: seq<nat>)
    returns (starts: seq<nat>)
    requires 0 < c <= |source| && |emitted| <= 1 && |shifted| == |ts|
    requires emitted != [] ==> LexemeAt(emitted[0], source, 0) && emitted[0].location == text
    requires forall k | 0 <= k < |shifted| :: c <= shifted[k] && Placed(ts[k], source, text, shifted[k])
    requires forall j, k | 0 <= j < k < |shifted| :: shifted[j] < shifted[k]
    ensures |starts| == |emitted + ts|
    ensures forall k | 0 <= k < |starts| :: Placed((emitted + ts)[k], source, text, starts[k])
    ensures forall j, k | 0 <= j < k < |starts| :: starts[j] < starts[k]
  {
    if emitted == [] {
      assert emitted + ts == ts;
      starts := shifted;
    } else {
      starts := [0] + shifted;
      assert Placed(emitted[0], source, text, 0) by {
        assert source[..0] == [];
      }
      forall k | 0 <= k < |starts|
        ensures Placed((emitted + ts)[k], source, text, starts[k])
      {
        if k > 0 {
          assert (emitted + ts)[k] == ts[k - 1] && starts[k] == shifted[k - 1];
        }
      }
    }
  }

  /**
   * Tokens come out in source order: there are strictly increasing start
   * indexes at which their lexemes stand, and each token carries the
   * location of that first byte (row = newlines before it; column = bytes
   * since the last '\n' or '\r').
   */
  lemma {:induction false} LexPositions(source: string, scan: Location, text: Location) returns (starts: seq<nat>)
    requires Synced(scan, text, source)
    requires Lex(source, scan).Success?
    ensures |starts| == |Lex(source, scan).value|
    ensures forall k | 0 <= k < |starts| :: Placed(Lex(source, scan).value[k], source, text, starts[k])
    ensures forall j, k | 0 <= j < k < |starts| :: starts[j] < starts[k]
    decreases |source|
  {
    if source == [] {
      return [];
    }
    LexCons(source, scan);
    var r := Step(source, scan);
    var c := |source| - |r.rest|;
    StepKeepsSync(source, scan, text);
    var later := LexPositions(r.rest, r.loc, TextLocation(text, source[..c]));
    var ts := Lex(r.rest, r.loc).value;
    var shifted := ShiftPositions(source, c, text, ts, later);
    starts := PrependPosition(source, c, text, r.emitted, ts, shifted);
  }

  /** The same for a whole file: scanning starts at row 0, column 0 of `fileName`. */
  lemma {:induction false} TokensInSourceOrder(source: string, fileName: string) returns (starts: seq<nat>)
    requires Tokenize(source, fileName).Success?
    ensures |starts| == |Tokenize(source, fileName).value|
    ensures forall k | 0 <= k < |starts| ::
      && LexemeAt(Tokenize(source, fileName).value[k], source, starts[k])
      && Tokenize(source, fileName).value[k].location == TextLocation(Location(fileName, 0, 0), source[..starts[k]])
    ensures forall j, k | 0 <= j < k < |starts| :: starts[j] < starts[k]
  {
    starts := LexPositions(source, Location(fileName, 0, 0), Location(fileName, 0, 0));
  }

  // ------------------------------------------------------- the stall in Go

  /** A snapshot of the Go loop: the tokens so far, the remaining input, the location. */
  datatype LoopState = Running(out: seq<Token>, source: string, loc: Location) | Aborted(error: LexError)

  /** `fuel` iterations of the Go loop AS WRITTEN (fewer when the input runs out). */
  function ScanLoop(out: seq<Token>, source: string, loc: Location, fuel: nat): LoopState
    decreases fuel
  {
    if fuel == 0 || source == [] then Running(out, source, loc)
    else
      match ScanStep(source, loc)
      case Abort(e) => Aborted(e)
      case Advance(emitted, rest, next) => ScanLoop(out + emitted, rest, next, fuel - 1)
  }

  /**
   * As written, input that starts with a vertical tab, U+0085, U+00A0 or
   * another Unicode space outside `\s` is never consumed: after any number
   * of iterations the input and the location are unchanged and one more
   * empty Word has been appended each time, so `for len(source) > 0` never ends.
   */
  lemma {:induction false} ScanStepStalls(source: string, loc: Location)
    requires |source| > 0 && StallsOn(source[0])
    ensures ScanStep(source, loc) == Advance([WordToken("", loc)], source, loc)
  {
    var c := source[0];
    assert !IsPerlSpace(c) && c != '#' && !IsDigit(c);
    assert KeywordPrefix(source).None? by {
      assert !("if" <= source) by { assert "if"[0] != c; }
      assert !("else" <= source) by { assert "else"[0] != c; }
      assert !("end" <= source) by { assert "end"[0] != c; }
    }
    assert IndexSpace(source) == 0;
    assert source[..0] == "" && source[0..] == source;
  }

  lemma {:induction false} StalledLoopNeverFinishes(out: seq<Token>, source: string, loc: Location, fuel: nat)
    requires |source| > 0 && StallsOn(source[0])
    ensures ScanLoop(out, source, loc, fuel) == Running(out + seq(fuel, _ => WordToken("", loc)), source, loc)
    decreases fuel
  {
    if fuel == 0 {
      assert out + seq(0, _ => WordToken("", loc)) == out;
    } else {
      ScanStepStalls(source, loc);
      StalledLoopNeverFinishes(out + [WordToken("", loc)], source, loc, fuel - 1);
      assert (out + [WordToken("", loc)]) + seq(fuel - 1, _ => WordToken("", loc))
          == out + seq(fuel, _ => WordToken("", loc));
    }
  }
}
