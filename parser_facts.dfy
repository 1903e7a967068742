/** What the grammar functions of `Parser` guarantee: every tree the parser can build is
    read back from its fully parenthesised rendering, both operator levels associate to
    the left, prefix operators nest to the right, and each failure has its message. */
module ParserFacts {
  import opened Tokens
  import opened Results
  import opened Ast
  import opened Parser
  import opened Rendering

  // ---------------------------------------------------------------------------
  // From one level of the grammar to the next
  // ---------------------------------------------------------------------------

  // Each lemma below unfolds one grammar function once.

  lemma UnaryIsPrimary(stof: string -> real, toks: seq<Token>, i: nat)
    requires WellFormed(toks) && i < |toks| && !IsUnaryOp(toks[i].kind)
    ensures ParseUnary(stof, toks, i) == ParsePrimary(stof, toks, i)
  {
  }

  lemma PrimaryParen(stof: string -> real, toks: seq<Token>, i: nat, e: Expr, k: nat)
    requires WellFormed(toks) && i < k < |toks| - 1
    requires toks[i].kind == LeftParen && toks[k].kind == RightParen
    requires ParseExpression(stof, toks, i + 1) == Ok(Parsed(e, k))
    ensures ParsePrimary(stof, toks, i) == Ok(Parsed(e, k + 1))
  {
  }

  lemma ExpressionIsTerm(stof: string -> real, toks: seq<Token>, i: nat)
    requires WellFormed(toks) && i < |toks| && toks[i].kind != Integ
    ensures ParseExpression(stof, toks, i) == ParseTerm(stof, toks, i)
  {
  }

  lemma TermStart(stof: string -> real, toks: seq<Token>, i: nat, left: Expr, j: nat)
    requires WellFormed(toks) && i < j < |toks|
    requires ParseFactor(stof, toks, i) == Ok(Parsed(left, j))
    ensures ParseTerm(stof, toks, i) == TermTail(stof, toks, left, j)
  {
  }

  lemma TermTailStep(stof: string -> real, toks: seq<Token>, left: Expr, j: nat, right: Expr, k: nat)
    requires WellFormed(toks) && j < k < |toks| && IsTermOp(toks[j].kind)
    requires ParseFactor(stof, toks, j + 1) == Ok(Parsed(right, k))
    ensures TermTail(stof, toks, left, j) == TermTail(stof, toks, BinaryExpr(left, toks[j], right), k)
  {
  }

  lemma TermTailStop(stof: string -> real, toks: seq<Token>, left: Expr, j: nat)
    requires WellFormed(toks) && j < |toks| && !IsTermOp(toks[j].kind)
    ensures TermTail(stof, toks, left, j) == Ok(Parsed(left, j))
  {
  }

  lemma FactorStart(stof: string -> real, toks: seq<Token>, i: nat, left: Expr, j: nat)
    requires WellFormed(toks) && i < j < |toks|
    requires ParseUnary(stof, toks, i) == Ok(Parsed(left, j))
    ensures ParseFactor(stof, toks, i) == FactorTail(stof, toks, left, j)
  {
  }

  lemma FactorTailStep(stof: string -> real, toks: seq<Token>, left: Expr, j: nat, right: Expr, k: nat)
    requires WellFormed(toks) && j < k < |toks| && IsFactorOp(toks[j].kind)
    requires ParseUnary(stof, toks, j + 1) == Ok(Parsed(right, k))
    ensures FactorTail(stof, toks, left, j) == FactorTail(stof, toks, BinaryExpr(left, toks[j], right), k)
  {
  }

  lemma FactorTailStop(stof: string -> real, toks: seq<Token>, left: Expr, j: nat)
    requires WellFormed(toks) && j < |toks| && !IsFactorOp(toks[j].kind)
    ensures FactorTail(stof, toks, left, j) == Ok(Parsed(left, j))
  {
  }

  /** A `factor` followed by a token that is not `-` or `+` is a whole `term`. */
  lemma TermOfFactor(stof: string -> real, toks: seq<Token>, i: nat, e: Expr, j: nat)
    requires WellFormed(toks) && i < j < |toks|
    requires ParseFactor(stof, toks, i) == Ok(Parsed(e, j)) && !IsTermOp(toks[j].kind)
    ensures ParseTerm(stof, toks, i) == Ok(Parsed(e, j))
  {
    TermStart(stof, toks, i, e, j);
    TermTailStop(stof, toks, e, j);
  }

  /** A `unary` followed by a token that is not `*`, `/` or `^` is a whole `factor`. */
  lemma FactorOfUnary(stof: string -> real, toks: seq<Token>, i: nat, e: Expr, j: nat)
    requires WellFormed(toks) && i < j < |toks|
    requires ParseUnary(stof, toks, i) == Ok(Parsed(e, j)) && !IsFactorOp(toks[j].kind)
    ensures ParseFactor(stof, toks, i) == Ok(Parsed(e, j))
  {
    FactorStart(stof, toks, i, e, j);
    FactorTailStop(stof, toks, e, j);
  }

  /** A `unary` followed by a token that is no binary operator is a whole `term`. */
  lemma TermOfUnary(stof: string -> real, toks: seq<Token>, i: nat, e: Expr, j: nat)
    requires WellFormed(toks) && i < j < |toks|
    requires ParseUnary(stof, toks, i) == Ok(Parsed(e, j))
    requires !IsFactorOp(toks[j].kind) && !IsTermOp(toks[j].kind)
    ensures ParseTerm(stof, toks, i) == Ok(Parsed(e, j))
  {
    FactorOfUnary(stof, toks, i, e, j);
    TermOfFactor(stof, toks, i, e, j);
  }

  /** `l op r` with `op` one of `*`, `/`, `^` and no operator after `r` is one `factor`. */
  lemma FactorOfProduct(stof: string -> real, toks: seq<Token>, i: nat, l: Expr, r: Expr, j: nat, k: nat)
    requires WellFormed(toks) && i < j < k < |toks|
    requires ParseUnary(stof, toks, i) == Ok(Parsed(l, j)) && IsFactorOp(toks[j].kind)
    requires ParseUnary(stof, toks, j + 1) == Ok(Parsed(r, k)) && !IsFactorOp(toks[k].kind)
    ensures ParseFactor(stof, toks, i) == Ok(Parsed(BinaryExpr(l, toks[j], r), k))
  {
    FactorStart(stof, toks, i, l, j);
    FactorTailStep(stof, toks, l, j, r, k);
    FactorTailStop(stof, toks, BinaryExpr(l, toks[j], r), k);
  }

  /** `l op r` with `op` one of `-`, `+` and no operator after `r` is one `term`. */
  lemma TermOfSum(stof: string -> real, toks: seq<Token>, i: nat, l: Expr, r: Expr, j: nat, k: nat)
    requires WellFormed(toks) && i < j < k < |toks|
    requires ParseFactor(stof, toks, i) == Ok(Parsed(l, j)) && IsTermOp(toks[j].kind)
    requires ParseFactor(stof, toks, j + 1) == Ok(Parsed(r, k)) && !IsTermOp(toks[k].kind)
    ensures ParseTerm(stof, toks, i) == Ok(Parsed(BinaryExpr(l, toks[j], r), k))
  {
    TermStart(stof, toks, i, l, j);
    TermTailStep(stof, toks, l, j, r, k);
    TermTailStop(stof, toks, BinaryExpr(l, toks[j], r), k);
  }

  /** A parenthesised `term` is a `unary`. */
  lemma ParenTerm(stof: string -> real, toks: seq<Token>, i: nat, e: Expr, k: nat)
    requires WellFormed(toks) && i + 1 < k && k + 1 < |toks|
    requires toks[i].kind == LeftParen && toks[i + 1].kind != Integ && toks[k].kind == RightParen
    requires ParseTerm(stof, toks, i + 1) == Ok(Parsed(e, k))
    ensures ParseUnary(stof, toks, i) == Ok(Parsed(e, k + 1))
  {
    ExpressionIsTerm(stof, toks, i + 1);
    PrimaryParen(stof, toks, i, e, k);
    UnaryIsPrimary(stof, toks, i);
  }

  /** `( l op r )` with `l` and `r` each read as a `unary` is read as one `unary`. */
  lemma ParenBinary(stof: string -> real, toks: seq<Token>, i: nat, l: Expr, op: Token, r: Expr, j: nat, k: nat)
    requires WellFormed(toks) && i + 1 < j < k && k + 1 < |toks|
    requires toks[i].kind == LeftParen && toks[i + 1].kind != Integ
    requires ParseUnary(stof, toks, i + 1) == Ok(Parsed(l, j))
    requires toks[j] == op && (IsTermOp(op.kind) || IsFactorOp(op.kind))
    requires ParseUnary(stof, toks, j + 1) == Ok(Parsed(r, k)) && toks[k].kind == RightParen
    ensures ParseUnary(stof, toks, i) == Ok(Parsed(BinaryExpr(l, op, r), k + 1))
  {
    if IsFactorOp(op.kind) {
      FactorOfProduct(stof, toks, i + 1, l, r, j, k);
      TermOfFactor(stof, toks, i + 1, BinaryExpr(l, op, r), k);
    } else {
      FactorOfUnary(stof, toks, i + 1, l, j);
      FactorOfUnary(stof, toks, j + 1, r, k);
      TermOfSum(stof, toks, i + 1, l, r, j, k);
    }
    ParenTerm(stof, toks, i, BinaryExpr(l, op, r), k);
  }

  /** `( integ ( f , a , b ) )` with the three parts each read as a `term` is read as one `unary`. */
  lemma ParenInteg(stof: string -> real, toks: seq<Token>, i: nat, f: Expr, a: Expr, b: Expr, j1: nat, j2: nat, j3: nat)
    requires WellFormed(toks) && i + 3 < j1 < j2 < j3 && j3 + 2 < |toks|
    requires toks[i].kind == LeftParen && toks[i + 1].kind == Integ && toks[i + 2].kind == LeftParen
    requires ParseTerm(stof, toks, i + 3) == Ok(Parsed(f, j1)) && toks[j1].kind == Comma
    requires ParseTerm(stof, toks, j1 + 1) == Ok(Parsed(a, j2)) && toks[j2].kind == Comma
    requires ParseTerm(stof, toks, j2 + 1) == Ok(Parsed(b, j3))
    requires toks[j3].kind == RightParen && toks[j3 + 1].kind == RightParen
    ensures ParseUnary(stof, toks, i) == Ok(Parsed(IntegExpr(f, a, b), j3 + 2))
  {
    IntegForm(stof, toks, i + 1, f, a, b, j1, j2, j3);
    PrimaryParen(stof, toks, i, IntegExpr(f, a, b), j3 + 1);
    UnaryIsPrimary(stof, toks, i);
  }

  /** `integ ( f , a , b )` with the three parts each read as a `term`. */
  lemma IntegForm(stof: string -> real, toks: seq<Token>, i: nat, f: Expr, a: Expr, b: Expr, j1: nat, j2: nat, j3: nat)
    requires WellFormed(toks) && i + 2 < j1 < j2 < j3 && j3 + 1 < |toks|
    requires toks[i].kind == Integ && toks[i + 1].kind == LeftParen
    requires ParseTerm(stof, toks, i + 2) == Ok(Parsed(f, j1)) && toks[j1].kind == Comma
    requires ParseTerm(stof, toks, j1 + 1) == Ok(Parsed(a, j2)) && toks[j2].kind == Comma
    requires ParseTerm(stof, toks, j2 + 1) == Ok(Parsed(b, j3)) && toks[j3].kind == RightParen
    ensures ParseExpression(stof, toks, i) == Ok(Parsed(IntegExpr(f, a, b), j3 + 1))
  {
  }

  /** A prefix operator applies to the `unary` after it. */
  lemma PrefixStep(stof: string -> real, toks: seq<Token>, i: nat, a: Expr, k: nat)
    requires WellFormed(toks) && i < k < |toks| && IsUnaryOp(toks[i].kind)
    requires ParseUnary(stof, toks, i + 1) == Ok(Parsed(a, k))
    ensures ParseUnary(stof, toks, i) == Ok(Parsed(UnaryExpr(toks[i], a), k))
  {
  }

  /** The three parts of an `integ`, each read as a `unary`, are each a whole `term`. */
  lemma ParenIntegOfUnaries(stof: string -> real, toks: seq<Token>, i: nat, f: Expr, a: Expr, b: Expr, j1: nat, j2: nat, j3: nat)
    requires WellFormed(toks) && i + 3 < j1 < j2 < j3 && j3 + 2 < |toks|
    requires toks[i].kind == LeftParen && toks[i + 1].kind == Integ && toks[i + 2].kind == LeftParen
    requires ParseUnary(stof, toks, i + 3) == Ok(Parsed(f, j1)) && toks[j1].kind == Comma
    requires ParseUnary(stof, toks, j1 + 1) == Ok(Parsed(a, j2)) && toks[j2].kind == Comma
    requires ParseUnary(stof, toks, j2 + 1) == Ok(Parsed(b, j3))
    requires toks[j3].kind == RightParen && toks[j3 + 1].kind == RightParen
    ensures ParseUnary(stof, toks, i) == Ok(Parsed(IntegExpr(f, a, b), j3 + 2))
  {
    TermOfUnary(stof, toks, i + 3, f, j1);
    TermOfUnary(stof, toks, j1 + 1, a, j2);
    TermOfUnary(stof, toks, j2 + 1, b, j3);
    ParenInteg(stof, toks, i, f, a, b, j1, j2, j3);
  }

  // ---------------------------------------------------------------------------
  // Round trip
  // ---------------------------------------------------------------------------

  /** Parsing the rendering of a printable tree as a `unary` gives the tree back and
      consumes exactly the rendering, whatever follows it. */
  lemma {:induction false} UnaryRoundTrip(stof: string -> real, lex: real -> string, e: Expr, toks: seq<Token>, i: nat)
    requires WellFormed(toks) && Printable(e, stof, lex)
    requires At(toks, i, Render(e, lex)) && i + |Render(e, lex)| < |toks|
    ensures ParseUnary(stof, toks, i) == Ok(Parsed(e, i + |Render(e, lex)|))
    decreases e, 3
  {
    match e
    case LiteralExpr(v) =>
      AtOne(toks, i, Token(Tokens.Number, lex(v)));
      UnaryIsPrimary(stof, toks, i);
    case IdentifierExpr(name) =>
      AtOne(toks, i, Token(Tokens.Identifier, name));
      UnaryIsPrimary(stof, toks, i);
    case UnaryExpr(_, _) => PrefixRoundTrip(stof, lex, e, toks, i);
    case BinaryExpr(_, _, _) => BinaryRoundTrip(stof, lex, e, toks, i);
    case IntegExpr(_, _, _) => IntegRoundTrip(stof, lex, e, toks, i);
  }

  lemma {:induction false} PrefixRoundTrip(stof: string -> real, lex: real -> string, e: Expr, toks: seq<Token>, i: nat)
    requires e.UnaryExpr? && WellFormed(toks) && Printable(e, stof, lex)
    requires At(toks, i, Render(e, lex)) && i + |Render(e, lex)| < |toks|
    ensures ParseUnary(stof, toks, i) == Ok(Parsed(e, i + |Render(e, lex)|))
    decreases e, 2
  {
    PrintableParts(e, stof, lex);
    PrefixParts(e, lex, toks, i);
    UnaryRoundTrip(stof, lex, e.expr, toks, i + 1);
    PrefixStep(stof, toks, i, e.expr, i + |Render(e, lex)|);
  }

  lemma {:induction false} BinaryRoundTrip(stof: string -> real, lex: real -> string, e: Expr, toks: seq<Token>, i: nat)
    requires e.BinaryExpr? && WellFormed(toks) && Printable(e, stof, lex)
    requires At(toks, i, Render(e, lex)) && i + |Render(e, lex)| < |toks|
    ensures ParseUnary(stof, toks, i) == Ok(Parsed(e, i + |Render(e, lex)|))
    decreases e, 2
  {
    PrintableParts(e, stof, lex);
    BinaryParts(e, lex, toks, i);
    var j := i + 1 + |Render(e.left, lex)|;
    RenderHead(e.left, stof, lex, toks, i + 1);
    UnaryRoundTrip(stof, lex, e.left, toks, i + 1);
    BinaryRight(stof, lex, e, toks, i, j, j + 1 + |Render(e.right, lex)|);
  }

  /** The last step of the binary case: the right operand, then the whole node. */
  lemma {:induction false} BinaryRight(stof: string -> real, lex: real -> string, e: Expr, toks: seq<Token>, i: nat,
                                       j: nat, k: nat)
    requires e.BinaryExpr? && WellFormed(toks) && Printable(e.right, stof, lex)
    requires i + 1 < j && k == j + 1 + |Render(e.right, lex)| && k + 1 < |toks|
    requires toks[i].kind == LeftParen && toks[i + 1].kind != Integ
    requires ParseUnary(stof, toks, i + 1) == Ok(Parsed(e.left, j))
    requires toks[j] == e.op && (IsTermOp(e.op.kind) || IsFactorOp(e.op.kind))
    requires At(toks, j + 1, Render(e.right, lex)) && toks[k].kind == RightParen
    ensures ParseUnary(stof, toks, i) == Ok(Parsed(e, k + 1))
    decreases e, 0
  {
    UnaryRoundTrip(stof, lex, e.right, toks, j + 1);
    ParenBinary(stof, toks, i, e.left, e.op, e.right, j, k);
  }

  lemma {:induction false} IntegRoundTrip(stof: string -> real, lex: real -> string, e: Expr, toks: seq<Token>, i: nat)
    requires e.IntegExpr? && WellFormed(toks) && Printable(e, stof, lex)
    requires At(toks, i, Render(e, lex)) && i + |Render(e, lex)| < |toks|
    ensures ParseUnary(stof, toks, i) == Ok(Parsed(e, i + |Render(e, lex)|))
    decreases e, 2
  {
    PrintableParts(e, stof, lex);
    var j1 := i + 3 + |Render(e.formula, lex)|;
    var j2 := j1 + 1 + |Render(e.limitStart, lex)|;
    var j3 := j2 + 1 + |Render(e.limitEnd, lex)|;
    IntegParts(e, lex, toks, i, j1, j2, j3);
    UnaryRoundTrip(stof, lex, e.formula, toks, i + 3);
    IntegLimitStart(stof, lex, e, toks, i, j1, j2, j3);
  }

  /** The middle step of the `integ` case: the lower limit, then the rest. */
  lemma {:induction false} IntegLimitStart(stof: string -> real, lex: real -> string, e: Expr, toks: seq<Token>, i: nat,
                                           j1: nat, j2: nat, j3: nat)
    requires e.IntegExpr? && WellFormed(toks) && Printable(e.limitStart, stof, lex) && Printable(e.limitEnd, stof, lex)
    requires i + 3 < j1 && j2 == j1 + 1 + |Render(e.limitStart, lex)| && j3 == j2 + 1 + |Render(e.limitEnd, lex)|
    requires j3 + 2 < |toks|
    requires toks[i].kind == LeftParen && toks[i + 1].kind == Integ && toks[i + 2].kind == LeftParen
    requires ParseUnary(stof, toks, i + 3) == Ok(Parsed(e.formula, j1)) && toks[j1].kind == Comma
    requires At(toks, j1 + 1, Render(e.limitStart, lex)) && toks[j2].kind == Comma
    requires At(toks, j2 + 1, Render(e.limitEnd, lex))
    requires toks[j3].kind == RightParen && toks[j3 + 1].kind == RightParen
    ensures ParseUnary(stof, toks, i) == Ok(Parsed(e, j3 + 2))
    decreases e, 1
  {
    UnaryRoundTrip(stof, lex, e.limitStart, toks, j1 + 1);
    IntegLimitEnd(stof, lex, e, toks, i, j1, j2, j3);
  }

  /** The last step of the `integ` case: the upper limit, then the whole node. */
  lemma {:induction false} IntegLimitEnd(stof: string -> real, lex: real -> string, e: Expr, toks: seq<Token>, i: nat,
                                         j1: nat, j2: nat, j3: nat)
    requires e.IntegExpr? && WellFormed(toks) && Printable(e.limitEnd, stof, lex)
    requires i + 3 < j1 < j2 && j3 == j2 + 1 + |Render(e.limitEnd, lex)| && j3 + 2 < |toks|
    requires toks[i].kind == LeftParen && toks[i + 1].kind == Integ && toks[i + 2].kind == LeftParen
    requires ParseUnary(stof, toks, i + 3) == Ok(Parsed(e.formula, j1)) && toks[j1].kind == Comma
    requires ParseUnary(stof, toks, j1 + 1) == Ok(Parsed(e.limitStart, j2)) && toks[j2].kind == Comma
    requires At(toks, j2 + 1, Render(e.limitEnd, lex))
    requires toks[j3].kind == RightParen && toks[j3 + 1].kind == RightParen
    ensures ParseUnary(stof, toks, i) == Ok(Parsed(e, j3 + 2))
    decreases e, 0
  {
    UnaryRoundTrip(stof, lex, e.limitEnd, toks, j2 + 1);
    ParenIntegOfUnaries(stof, toks, i, e.formula, e.limitStart, e.limitEnd, j1, j2, j3);
  }

  /** The same round trip for a whole `print` statement ending the input. */
  lemma PrintRoundTrip(stof: string -> real, lex: real -> string, e: Expr)
    requires Printable(e, stof, lex)
    ensures var toks := [Token(Print, "print")] + Render(e, lex) + [SemicolonTok, EofToken];
      ParseStep(stof, toks, 0) == Ok(Parsed(Some(PrintStmt(e)), |toks| - 1))
  {
    var re := Render(e, lex);
    var toks := [Token(Print, "print")] + re + [SemicolonTok, EofToken];
    PrintLayout(toks, re);
    RenderHead(e, stof, lex, toks, 1);
    UnaryRoundTrip(stof, lex, e, toks, 1);
    PrintStep(stof, toks, e, 1 + |re|);
  }

  lemma PrintLayout(toks: seq<Token>, re: seq<Token>)
    requires toks == [Token(Print, "print")] + re + [SemicolonTok, EofToken]
    ensures WellFormed(toks) && toks[0].kind == Print && toks[1 + |re|].kind == Semicolon
    ensures At(toks, 1, re)
  {
    assert toks == [Token(Print, "print")] + (re + [SemicolonTok, EofToken]);
    AtSuffix(toks, 0);
    assert toks[0..] == toks;
    AtHead(toks, 0, Token(Print, "print"), re + [SemicolonTok, EofToken]);
    AtSplit(toks, 1, re, [SemicolonTok, EofToken]);
  }

  /** `print`, a `unary` and `;` make a print statement. */
  lemma PrintStep(stof: string -> real, toks: seq<Token>, e: Expr, j: nat)
    requires WellFormed(toks) && 1 < j < |toks| - 1
    requires toks[0].kind == Print && toks[1].kind != Integ && toks[j].kind == Semicolon
    requires ParseUnary(stof, toks, 1) == Ok(Parsed(e, j))
    ensures ParseStep(stof, toks, 0) == Ok(Parsed(Some(PrintStmt(e)), j + 1))
  {
    TermOfUnary(stof, toks, 1, e, j);
    ExpressionIsTerm(stof, toks, 1);
  }
}
