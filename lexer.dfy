/** The scanner: turns source text into tokens, left to right, with a cursor. */
module Lexer {
  import opened Tokens
  import opened Results

  /** The terminator `std::string::operator[]` yields one past the last character. */
  const Nul: char := '\0'

  predicate IsDigit(c: char) { '0' <= c <= '9' }

  predicate IsAlpha(c: char) { 'a' <= c <= 'z' || 'A' <= c <= 'Z' }

  /** The only characters the scanner skips. A tab is not among them. */
  predicate IsBlank(c: char) { c == ' ' || c == '\r' || c == '\n' }

  /** The character at `i`, or the terminator when `i` is one past the end. */
  function CharAt(s: string, i: nat): char
    requires i <= |s|
  {
    if i < |s| then s[i] else Nul
  }

  predicate AllDigits(s: string) { forall k :: 0 <= k < |s| ==> IsDigit(s[k]) }

  // ---------------------------------------------------------------------------
  // Specification of the scanner, as functions of the text and a cursor position
  // ---------------------------------------------------------------------------

  /** Where `skipWhitespace` leaves the cursor: past the run of blanks at `i`. */
  function SkipBlanks(code: string, i: nat): (j: nat)
    requires i <= |code|
    ensures i <= j <= |code|
    ensures !IsBlank(CharAt(code, j))
    decreases |code| - i
  {
    if IsBlank(CharAt(code, i)) then SkipBlanks(code, i + 1) else i
  }

  /** The end of the maximal run of digits that starts at `i`. */
  function DigitsEnd(code: string, i: nat): (j: nat)
    requires i <= |code|
    ensures i <= j <= |code|
    ensures !IsDigit(CharAt(code, j))
    ensures j > i ==> IsDigit(code[j - 1])
    decreases |code| - i
  {
    if IsDigit(CharAt(code, i)) then DigitsEnd(code, i + 1) else i
  }

  /** The end of the maximal run of letters and digits that starts at `i`. */
  function WordEnd(code: string, i: nat): (j: nat)
    requires i <= |code|
    ensures i <= j <= |code|
    ensures !IsAlpha(CharAt(code, j)) && !IsDigit(CharAt(code, j))
    ensures j > i ==> IsAlpha(code[j - 1]) || IsDigit(code[j - 1])
    decreases |code| - i
  {
    if IsAlpha(CharAt(code, i)) || IsDigit(CharAt(code, i)) then WordEnd(code, i + 1) else i
  }

  /** The end of a number lexeme that starts at digit `start`: a maximal digit run,
      an optional '.', and a second maximal (possibly empty) digit run. */
  function NumberEnd(code: string, start: nat): (j: nat)
    requires start < |code| && IsDigit(code[start])
    ensures start < j <= |code|
    ensures !IsDigit(CharAt(code, j))
    ensures IsDigit(code[j - 1]) || code[j - 1] == '.'
  {
    var d := DigitsEnd(code, start);
    var f := if CharAt(code, d) == '.' then d + 1 else d;
    DigitsEnd(code, f)
  }

  /** Everything `skipWhitespace` passes over is a blank. */
  lemma {:induction false} BlankRun(code: string, i: nat)
    requires i <= |code|
    ensures forall k :: i <= k < SkipBlanks(code, i) ==> IsBlank(code[k])
    decreases |code| - i
  {
    if IsBlank(CharAt(code, i)) {
      BlankRun(code, i + 1);
    }
  }

  /** The run `DigitsEnd` measures is all digits. */
  lemma {:induction false} DigitRun(code: string, i: nat)
    requires i <= |code|
    ensures AllDigits(code[i..DigitsEnd(code, i)])
    decreases |code| - i
  {
    if IsDigit(CharAt(code, i)) {
      DigitRun(code, i + 1);
      var j := DigitsEnd(code, i);
      assert forall k :: 0 < k < j - i ==> code[i..j][k] == code[i + 1..j][k - 1];
    }
  }

  /** The run `WordEnd` measures is all letters and digits. */
  lemma {:induction false} WordRun(code: string, i: nat)
    requires i <= |code|
    ensures forall k :: i <= k < WordEnd(code, i) ==> IsAlpha(code[k]) || IsDigit(code[k])
    decreases |code| - i
  {
    if IsAlpha(CharAt(code, i)) || IsDigit(CharAt(code, i)) {
      WordRun(code, i + 1);
    }
  }

  /** A number lexeme: digits, then, if a '.' follows them, the '.' and a (possibly
      empty) run of digits. */
  lemma NumberShape(code: string, start: nat)
    requires start < |code| && IsDigit(code[start])
    ensures var d := DigitsEnd(code, start);
      var j := NumberEnd(code, start);
      AllDigits(code[start..d]) &&
      if CharAt(code, d) == '.' then j > d && AllDigits(code[d + 1..j]) else j == d
  {
    var d := DigitsEnd(code, start);
    DigitRun(code, start);
    if CharAt(code, d) == '.' {
      DigitRun(code, d + 1);
    }
  }

  /** The keyword switch of `identifier`, case by case, including the two places
      where one case block falls through into the next. */
  function KeywordKind(iden: string): (kind: TokenType)
    requires |iden| > 0
    ensures kind != Eof && kind != Int && kind != Error && kind != Number
  {
    match iden[0]
    case 'a' => if iden == "abs" then Abs else Identifier
    case 'c' =>
      if CharAt(iden, 1) == 'o' then
        if CharAt(iden, 2) == 's' then
          if iden == "cos" then Cos else if iden == "cosec" then Cosec else Identifier
        else if CharAt(iden, 2) == 't' then Cot
        else Identifier
      else if CharAt(iden, 1) == 'l' then
        if iden == "clear" then Clear else if iden == "clean" then Clean else Identifier
      else Identifier
    case 'e' => if iden == "exit" then Exit else Identifier
    case 'g' => if iden == "graph" then Graph else Identifier
    // the 'h' block has no break and continues into the 'i' block
    case 'h' => if iden == "hide" then Hide else if iden == "integ" then Integ else Identifier
    case 'i' => if iden == "integ" then Integ else Identifier
    // the 'l' block has no break and continues into the 'p' block
    case 'l' =>
      if CharAt(iden, 1) == 'i' && iden == "line" then Line
      else if CharAt(iden, 1) == 'o' && iden == "log" then Log
      else if iden == "print" then Print
      else if iden == "plot" then Plot
      else Identifier
    case 'p' => if iden == "print" then Print else if iden == "plot" then Plot else Identifier
    case 's' =>
      if iden == "sec" then Sec else if iden == "sin" then Sin
      else if iden == "show" then Show else Identifier
    case 't' => if iden == "tan" then Tan else Identifier
    case 'v' => if iden == "var" then Var else Identifier
    case _ => Identifier
  }

  /** The single-character cases of the switch in `getNextToken`. */
  function PunctuationKind(c: char): (r: Option<TokenType>)
    ensures r.Some? ==> r.value != Eof && r.value != Int && c != Nul && !IsBlank(c)
  {
    match c
    case '(' => Some(LeftParen)
    case ')' => Some(RightParen)
    case '{' => Some(LeftBrace)
    case '}' => Some(RightBrace)
    case ',' => Some(Comma)
    case '-' => Some(Minus)
    case '+' => Some(Plus)
    case '/' => Some(Slash)
    case '*' => Some(Star)
    case '^' => Some(Power)
    case ';' => Some(Semicolon)
    case '=' => Some(Equal)
    case _ => None
  }

  /** `number`: the number token that starts at digit `k`, and the position of its
      last character. */
  function ScanNumber(code: string, k: nat): (r: (Token, nat))
    requires k < |code| && IsDigit(code[k])
    ensures r.0.kind == Number && k <= r.1 < |code|
    ensures IsDigit(code[r.1]) || code[r.1] == '.'
  {
    var j := NumberEnd(code, k);
    (Token(Number, code[k..j]), j - 1)
  }

  /** `identifier`: the word that starts at letter `k`, classified by the keyword
      switch, and the position of its last character. */
  function ScanWord(code: string, k: nat): (r: (Token, nat))
    requires k < |code| && IsAlpha(code[k])
    ensures k <= r.1 < |code| && (IsAlpha(code[r.1]) || IsDigit(code[r.1]))
    ensures r.0.kind != Eof && r.0.kind != Int
  {
    var j := WordEnd(code, k + 1);
    var w := code[k..j];
    (Token(KeywordKind(w), w), j - 1)
  }

  /** One token from position `i`: the token and the position of its last character
      (where `getNextToken` leaves the cursor). At the end of the text, after blanks,
      the terminator is read and an error token results. */
  function Scan(code: string, i: nat): (r: (Token, nat))
    requires i <= |code|
    ensures i <= r.1 <= |code|
    ensures r.0.kind != Eof && r.0.kind != Int
    ensures r.1 < |code| ==> !IsBlank(code[r.1])
    ensures r.1 == |code| ==> r.0 == ErrorToken
  {
    var k := SkipBlanks(code, i);
    var c := CharAt(code, k);
    match PunctuationKind(c)
    case Some(kind) => (Token(kind, [c]), k)
    case None =>
      if IsDigit(c) then ScanNumber(code, k)
      else if IsAlpha(c) then ScanWord(code, k)
      else (ErrorToken, k)
  }

  /** The token sequence `getTokens` produces when started at cursor `i`. */
  function Lex(code: string, i: nat): seq<Token>
    requires i <= |code| + 1
    decreases |code| + 1 - i, 1
  {
    if i >= |code| || code[i] == Nul then [EofToken] else LexToken(code, i)
  }

  /** Away from the end: one scanned token, then the tokens after it. */
  function LexToken(code: string, i: nat): seq<Token>
    requires i < |code|
    decreases |code| + 1 - i, 0
  {
    var r := Scan(code, i);
    [r.0] + Lex(code, r.1 + 1)
  }

  // ---------------------------------------------------------------------------
  // Properties of the scanner
  // ---------------------------------------------------------------------------

  /** The punctuation table of `getNextToken`: each character, its own category. */
  const Punctuation: map<char, TokenType> :=
    map['(' := LeftParen, ')' := RightParen, '{' := LeftBrace, '}' := RightBrace,
        ',' := Comma, '-' := Minus, '+' := Plus, '/' := Slash, '*' := Star,
        '^' := Power, ';' := Semicolon, '=' := Equal]

  /** The keyword table as a plain dictionary, exact and case-sensitive. */
  const Keywords: map<string, TokenType> :=
    map["abs" := Abs, "cos" := Cos, "cosec" := Cosec, "cot" := Cot, "clear" := Clear,
        "clean" := Clean, "exit" := Exit, "graph" := Graph, "hide" := Hide,
        "integ" := Integ, "line" := Line, "log" := Log, "print" := Print, "plot" := Plot,
        "sec" := Sec, "sin" := Sin, "show" := Show, "tan" := Tan, "var" := Var]

  predicate CotPrefixed(w: string) { |w| >= 3 && w[..3] == "cot" }

  /** The hand-written switch is the keyword table, except that every word that
      begins with "cot" is COT; the two fall-throughs change nothing. */
  lemma KeywordKindIsTable(w: string)
    requires |w| > 0
    ensures KeywordKind(w) ==
      if w in Keywords then Keywords[w] else if CotPrefixed(w) then Cot else Identifier
  {
    if CotPrefixed(w) {
      assert w[0] == 'c' && w[1] == 'o' && w[2] == 't';
    }
  }

  /** Whatever follows, a word that begins with "cot" is classified COT. */
  lemma CotPrefixIsCot(w: string)
    requires CotPrefixed(w)
    ensures KeywordKind(w) == Cot
  {
    assert w[0] == 'c' && w[1] == 'o' && w[2] == 't';
  }

  /** Each punctuation character becomes its own category, lexeme the character. */
  lemma PunctuationToken(code: string, i: nat)
    requires i < |code| && code[i] in Punctuation
    ensures Scan(code, i) == (Token(Punctuation[code[i]], [code[i]]), i)
  {
  }

  /** Any other character that is not blank, a digit or a letter (a tab, say) gives
      the error token and uses up exactly that character. */
  lemma StrayCharacter(code: string, i: nat)
    requires i < |code|
    requires !IsBlank(code[i]) && code[i] !in Punctuation
    requires !IsDigit(code[i]) && !IsAlpha(code[i])
    ensures Scan(code, i) == (ErrorToken, i)
  {
  }

  /** A word is cut maximally, keeps its text, and is a keyword only by the switch. */
  lemma WordToken(code: string, i: nat)
    requires i < |code| && IsAlpha(code[i])
    ensures var r := Scan(code, i);
      var w := code[i..r.1 + 1];
      r.0 == Token(KeywordKind(w), w) &&
      (forall k :: 0 <= k < |w| ==> IsAlpha(w[k]) || IsDigit(w[k])) &&
      !IsAlpha(CharAt(code, r.1 + 1)) && !IsDigit(CharAt(code, r.1 + 1))
  {
    var j := WordEnd(code, i + 1);
    assert SkipBlanks(code, i) == i;
    assert PunctuationKind(code[i]) == None;
    assert Scan(code, i) == ScanWord(code, i);
    WordRun(code, i + 1);
    var w := code[i..j];
    forall k | 0 <= k < |w|
      ensures IsAlpha(w[k]) || IsDigit(w[k])
    {
      assert w[k] == code[i + k];
    }
  }

  /** A token sequence whose last token, and only that one, is end-of-input. */
  predicate EofOnlyLast(ts: seq<Token>)
  {
    |ts| >= 1 && ts[|ts| - 1] == EofToken &&
    forall k :: 0 <= k < |ts| - 1 ==> ts[k].kind != Eof
  }

  lemma EofOnlyLastCons(t: Token, rest: seq<Token>)
    requires t.kind != Eof && EofOnlyLast(rest)
    ensures EofOnlyLast([t] + rest)
  {
    var ts := [t] + rest;
    forall k | 0 <= k < |ts| - 1
      ensures ts[k].kind != Eof
    {
      if k > 0 {
        assert ts[k] == rest[k - 1];
      }
    }
  }

  /** The output always ends with exactly one end-of-input token, which appears
      nowhere else. */
  lemma {:induction false} LexEndsWithEof(code: string, i: nat)
    requires i <= |code| + 1
    ensures EofOnlyLast(Lex(code, i))
    decreases |code| + 1 - i
  {
    if i < |code| && code[i] != Nul {
      var r := Scan(code, i);
      LexStep(code, i);
      LexEndsWithEof(code, r.1 + 1);
      EofOnlyLastCons(r.0, Lex(code, r.1 + 1));
    } else {
      LexStop(code, i);
    }
  }

  predicate NoIntToken(ts: seq<Token>) { forall t :: t in ts ==> t.kind != Int }

  /** TOKEN_INT is in the alphabet, but no path of the scanner produces it. */
  lemma {:induction false} LexNeverInt(code: string, i: nat)
    requires i <= |code| + 1
    ensures NoIntToken(Lex(code, i))
    decreases |code| + 1 - i
  {
    if i < |code| && code[i] != Nul {
      var r := Scan(code, i);
      LexStep(code, i);
      LexNeverInt(code, r.1 + 1);
    } else {
      LexStop(code, i);
    }
  }

  /** Every token uses up at least one position, so there are at most |code| + 1. */
  lemma {:induction false} LexLength(code: string, i: nat)
    requires i <= |code|
    ensures |Lex(code, i)| <= |code| + 1 - i
    decreases |code| - i
  {
    if i < |code| && code[i] != Nul {
      var r := Scan(code, i);
      LexStep(code, i);
      if r.1 < |code| {
        LexLength(code, r.1 + 1);
      } else {
        LexStop(code, r.1 + 1);
      }
    } else {
      LexStop(code, i);
    }
  }

  /** The sequence ends in an error token followed by end-of-input. */
  predicate EndsErrorEof(ts: seq<Token>)
  {
    |ts| >= 2 && ts[|ts| - 2] == ErrorToken && ts[|ts| - 1] == EofToken
  }

  /** Blanks at the very end of the text produce an error token just before the
      end-of-input token: skipping them reads the terminator. */
  lemma {:induction false} TrailingBlankGivesError(code: string, i: nat)
    requires i < |code| && IsBlank(code[|code| - 1])
    requires forall k :: i <= k < |code| ==> code[k] != Nul
    ensures EndsErrorEof(Lex(code, i))
    decreases |code| - i
  {
    var r := Scan(code, i);
    var rest := Lex(code, r.1 + 1);
    LexStep(code, i);
    if r.1 < |code| {
      TrailingBlankGivesError(code, r.1 + 1);
      EndsErrorEofCons(r.0, rest);
    } else {
      assert rest == [EofToken];
      assert [r.0] + rest == [ErrorToken, EofToken];
    }
  }

  lemma AppendAssoc(a: seq<Token>, b: seq<Token>, c: seq<Token>)
    ensures (a + b) + c == a + (b + c)
  {
  }

  /** Away from the end and from a NUL, `getTokens` scans one token and goes on after it. */
  lemma LexStep(code: string, i: nat)
    requires i < |code| && code[i] != Nul
    ensures Lex(code, i) == [Scan(code, i).0] + Lex(code, Scan(code, i).1 + 1)
  {
  }

  /** At the end of the text or at a NUL, `getTokens` adds only the end-of-input token. */
  lemma LexStop(code: string, i: nat)
    requires i <= |code| + 1 && (i >= |code| || code[i] == Nul)
    ensures Lex(code, i) == [EofToken]
  {
  }

  /** One iteration of the `getTokens` loop keeps "tokens so far, then the rest". */
  lemma LexAccumulate(code: string, tokens: seq<Token>, i: nat, t: Token, j: nat, total: seq<Token>)
    requires i < |code| && code[i] != Nul && (t, j) == Scan(code, i)
    requires tokens + Lex(code, i) == total
    ensures (tokens + [t]) + Lex(code, j + 1) == total
  {
    LexStep(code, i);
    AppendAssoc(tokens, [t], Lex(code, j + 1));
  }

  lemma EndsErrorEofCons(t: Token, ts: seq<Token>)
    requires EndsErrorEof(ts)
    ensures EndsErrorEof([t] + ts)
  {
    assert ([t] + ts)[|ts| - 1] == ts[|ts| - 2];
    assert ([t] + ts)[|ts|] == ts[|ts| - 1];
  }

  /** "1." is a number: the fraction digits may be absent. */
  lemma TrailingDotNumber()
    ensures Lex("1.", 0) == [Token(Number, "1."), EofToken]
  {
    var code := "1.";
    assert SkipBlanks(code, 0) == 0 && PunctuationKind('1').None?;
    assert DigitsEnd(code, 1) == 1 && DigitsEnd(code, 2) == 2;
    assert NumberEnd(code, 0) == 2 && code[0..2] == "1.";
    assert Scan(code, 0) == (Token(Number, "1."), 1);
  }

  /** "1.2.3" is the number "1.2", an error token for the second '.', then "3". */
  lemma TwoDotsNumber()
    ensures Lex("1.2.3", 0) == [Token(Number, "1.2"), ErrorToken, Token(Number, "3"), EofToken]
  {
    var code := "1.2.3";
    assert SkipBlanks(code, 0) == 0 && PunctuationKind('1').None?;
    assert DigitsEnd(code, 1) == 1 && DigitsEnd(code, 3) == 3;
    assert NumberEnd(code, 0) == 3 && code[0..3] == "1.2";
    assert Scan(code, 0) == (Token(Number, "1.2"), 2);
    assert SkipBlanks(code, 3) == 3 && PunctuationKind('.').None?;
    assert Scan(code, 3) == (ErrorToken, 3);
    assert SkipBlanks(code, 4) == 4 && PunctuationKind('3').None?;
    assert DigitsEnd(code, 5) == 5;
    assert NumberEnd(code, 4) == 5 && code[4..5] == "3";
    assert Scan(code, 4) == (Token(Number, "3"), 4);
  }

  /** A tab is not skipped: it is an error character between two words. */
  lemma TabIsError()
    ensures Lex("a\tb", 0) == [Token(Identifier, "a"), ErrorToken, Token(Identifier, "b"), EofToken]
  {
    var code := "a\tb";
    assert SkipBlanks(code, 0) == 0 && PunctuationKind('a').None?;
    assert WordEnd(code, 1) == 1 && code[0..1] == "a";
    assert Scan(code, 0) == (Token(Identifier, "a"), 0);
    assert SkipBlanks(code, 1) == 1 && PunctuationKind('\t').None?;
    assert Scan(code, 1) == (ErrorToken, 1);
    assert SkipBlanks(code, 2) == 2 && PunctuationKind('b').None?;
    assert WordEnd(code, 3) == 3 && code[2..3] == "b";
    assert Scan(code, 2) == (Token(Identifier, "b"), 2);
  }

  /** "cotton" is not a word of the language, yet it is classified COT. */
  lemma CottonIsCot()
    ensures Lex("cotton", 0) == [Token(Cot, "cotton"), EofToken]
  {
    var code := "cotton";
    assert SkipBlanks(code, 0) == 0 && PunctuationKind('c').None?;
    assert WordEnd(code, 1) == 6 && code[0..6] == code;
    assert KeywordKind(code) == Cot;
    assert Scan(code, 0) == (Token(Cot, code), 5);
  }

  /** A blank at the end of the text yields an error token before EOF. */
  lemma TrailingBlankExample()
    ensures Lex("x ", 0) == [Token(Identifier, "x"), ErrorToken, EofToken]
  {
    var code := "x ";
    assert SkipBlanks(code, 0) == 0 && PunctuationKind('x').None?;
    assert WordEnd(code, 1) == 1 && code[0..1] == "x";
    assert Scan(code, 0) == (Token(Identifier, "x"), 0);
    assert SkipBlanks(code, 1) == 2 && PunctuationKind(Nul).None?;
    assert Scan(code, 1) == (ErrorToken, 2);
  }

  /** A NUL right after a blank is read as an error character, and scanning goes on
      past it: only a NUL where a token would start ends the scan. */
  lemma NulAfterBlankExample()
    ensures Lex(" \0a", 0) == [ErrorToken, Token(Identifier, "a"), EofToken]
  {
    var code := " \0a";
    assert SkipBlanks(code, 0) == 1 && PunctuationKind(Nul).None?;
    assert Scan(code, 0) == (ErrorToken, 1);
    assert SkipBlanks(code, 2) == 2 && PunctuationKind('a').None?;
    assert WordEnd(code, 3) == 3 && code[2..3] == "a";
    assert Scan(code, 2) == (Token(Identifier, "a"), 2);
  }

  // ---------------------------------------------------------------------------
  // The scanner object
  // ---------------------------------------------------------------------------

  class Lexer {
    const code: string
    var cur: nat

    constructor (code: string)
      ensures this.code == code && cur == 0
    {
      this.code := code;
      cur := 0;
    }

    function Peek(): char
      reads this
      requires cur <= |code|
    {
      CharAt(code, cur)
    }

    method Advance()
      modifies this
      ensures cur == old(cur) + 1
    {
      cur := cur + 1;
    }

    function IsAtEnd(): bool
      reads this
    {
      cur >= |code| || Peek() == Nul
    }

    method SkipWhitespace()
      requires cur <= |code|
      modifies this
      ensures cur == SkipBlanks(code, old(cur))
    {
      while IsBlank(Peek())
        invariant old(cur) <= cur <= |code|
        invariant SkipBlanks(code, cur) == SkipBlanks(code, old(cur))
        decreases |code| - cur
      {
        Advance();
      }
    }

    method Number() returns (t: Token)
      requires cur < |code| && IsDigit(code[cur])
      modifies this
      ensures (t, cur) == ScanNumber(code, old(cur))
    {
      var start := cur;
      while IsDigit(Peek())
        invariant start <= cur <= |code|
        invariant DigitsEnd(code, cur) == DigitsEnd(code, start)
        decreases |code| - cur
      {
        Advance();
      }
      ghost var d := cur;
      assert d == DigitsEnd(code, start);
      if Peek() == '.' {
        Advance();
      }
      ghost var fraction := cur;
      while IsDigit(Peek())
        invariant fraction <= cur <= |code|
        invariant DigitsEnd(code, cur) == DigitsEnd(code, fraction)
        decreases |code| - cur
      {
        Advance();
      }
      assert cur == NumberEnd(code, start);
      cur := cur - 1;
      t := Token(Tokens.Number, code[start..cur + 1]);
    }

    method Identifier() returns (t: Token)
      requires cur < |code| && IsAlpha(code[cur])
      modifies this
      ensures (t, cur) == ScanWord(code, old(cur))
    {
      var start := cur;
      Advance();
      while IsAlpha(Peek()) || IsDigit(Peek())
        invariant start < cur <= |code|
        invariant WordEnd(code, cur) == WordEnd(code, start + 1)
        decreases |code| - cur
      {
        Advance();
      }
      assert cur == WordEnd(code, start + 1);
      cur := cur - 1;
      var iden := code[start..cur + 1];
      t := Token(KeywordKind(iden), iden);
    }

    method GetNextToken() returns (t: Token)
      requires cur <= |code|
      modifies this
      ensures (t, cur) == Scan(code, old(cur))
    {
      SkipWhitespace();
      match Peek()
      case '(' => t := Token(LeftParen, "(");
      case ')' => t := Token(RightParen, ")");
      case '{' => t := Token(LeftBrace, "{");
      case '}' => t := Token(RightBrace, "}");
      case ',' => t := Token(Comma, ",");
      case '-' => t := Token(Minus, "-");
      case '+' => t := Token(Plus, "+");
      case '/' => t := Token(Slash, "/");
      case '*' => t := Token(Star, "*");
      case '^' => t := Token(Power, "^");
      case ';' => t := Token(Semicolon, ";");
      case '=' => t := Token(Equal, "=");
      case _ =>
        if IsDigit(Peek()) {
          t := Number();
        } else if IsAlpha(Peek()) {
          t := Identifier();
        } else {
          t := ErrorToken;
        }
    }

    method GetTokens() returns (tokens: seq<Token>)
      requires cur <= |code|
      modifies this
      ensures tokens == Lex(code, old(cur))
    {
      tokens := [];
      while !IsAtEnd()
        invariant cur <= |code| + 1
        invariant tokens + Lex(code, cur) == Lex(code, old(cur))
        decreases |code| + 1 - cur
      {
        ghost var before := cur;
        var token := GetNextToken();
        LexAccumulate(code, tokens, before, token, cur, Lex(code, old(cur)));
        tokens := tokens + [token];
        Advance();
      }
      LexStop(code, cur);
      tokens := tokens + [EofToken];
    }
  }
}
