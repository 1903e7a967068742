/** Shapes and messages of the grammar: the two binary levels fold to the left, the
    prefix operators nest to the right, and every failure the statement rules can
    raise comes with its own message. */
module ParserProps {
  import opened Tokens
  import opened Results
  import opened Ast
  import opened Parser
  import opened ParserFacts

  // ---------------------------------------------------------------------------
  // Chains of single operands
  // ---------------------------------------------------------------------------

  /** A token `primary` reads on its own: a number or a name. */
  predicate IsAtom(t: Token)
  {
    t.kind == Number || t.kind == Identifier
  }

  /** The tree `primary` builds from an atom. */
  function AtomExpr(stof: string -> real, t: Token): Expr
  {
    if t.kind == Number then LiteralExpr(stof(t.lexeme)) else IdentifierExpr(t.lexeme)
  }

  /** `n` pairs `op atom` from position `j`, every `op` a `-` or `+`. */
  predicate SumChain(toks: seq<Token>, j: nat, n: nat)
    decreases n
  {
    j + 2 * n < |toks| &&
    (n > 0 ==> IsTermOp(toks[j].kind) && IsAtom(toks[j + 1]) && SumChain(toks, j + 2, n - 1))
  }

  /** `n` pairs `op atom` from position `j`, every `op` a `*`, `/` or `^`. */
  predicate ProductChain(toks: seq<Token>, j: nat, n: nat)
    decreases n
  {
    j + 2 * n < |toks| &&
    (n > 0 ==> IsFactorOp(toks[j].kind) && IsAtom(toks[j + 1]) && ProductChain(toks, j + 2, n - 1))
  }

  /** The tree of `left` followed by the `n` pairs from `j`, each pair taken in turn as
      the right operand of a new root: the shape of a left fold. */
  function FoldLeft(stof: string -> real, toks: seq<Token>, left: Expr, j: nat, n: nat): Expr
    requires j + 2 * n < |toks|
    decreases n
  {
    if n == 0 then left
    else FoldLeft(stof, toks, BinaryExpr(left, toks[j], AtomExpr(stof, toks[j + 1])), j + 2, n - 1)
  }

  /** The last pair of a fold is at its root: `a - b - c` is `(a - b) - c`. */
  lemma {:induction false} FoldLeftLast(stof: string -> real, toks: seq<Token>, left: Expr, j: nat, n: nat)
    requires j + 2 * (n + 1) < |toks|
    ensures FoldLeft(stof, toks, left, j, n + 1) ==
            BinaryExpr(FoldLeft(stof, toks, left, j, n), toks[j + 2 * n], AtomExpr(stof, toks[j + 2 * n + 1]))
    decreases n
  {
    if n > 0 {
      FoldLeftLast(stof, toks, BinaryExpr(left, toks[j], AtomExpr(stof, toks[j + 1])), j + 2, n - 1);
    }
  }

  /** An atom is a whole `unary`. */
  lemma AtomIsUnary(stof: string -> real, toks: seq<Token>, i: nat)
    requires WellFormed(toks) && i + 1 < |toks| && IsAtom(toks[i])
    ensures ParseUnary(stof, toks, i) == Ok(Parsed(AtomExpr(stof, toks[i]), i + 1))
  {
    UnaryIsPrimary(stof, toks, i);
  }

  lemma {:induction false} TermTailChain(stof: string -> real, toks: seq<Token>, left: Expr, j: nat, n: nat)
    requires WellFormed(toks) && SumChain(toks, j, n)
    requires !IsTermOp(toks[j + 2 * n].kind) && !IsFactorOp(toks[j + 2 * n].kind)
    ensures TermTail(stof, toks, left, j) == Ok(Parsed(FoldLeft(stof, toks, left, j, n), j + 2 * n))
    decreases n
  {
    if n == 0 {
      TermTailStop(stof, toks, left, j);
    } else {
      var a := AtomExpr(stof, toks[j + 1]);
      AtomIsUnary(stof, toks, j + 1);
      assert !IsFactorOp(toks[j + 2].kind);
      FactorOfUnary(stof, toks, j + 1, a, j + 2);
      TermTailStep(stof, toks, left, j, a, j + 2);
      TermTailChain(stof, toks, BinaryExpr(left, toks[j], a), j + 2, n - 1);
    }
  }

  lemma {:induction false} FactorTailChain(stof: string -> real, toks: seq<Token>, left: Expr, j: nat, n: nat)
    requires WellFormed(toks) && ProductChain(toks, j, n) && !IsFactorOp(toks[j + 2 * n].kind)
    ensures FactorTail(stof, toks, left, j) == Ok(Parsed(FoldLeft(stof, toks, left, j, n), j + 2 * n))
    decreases n
  {
    if n == 0 {
      FactorTailStop(stof, toks, left, j);
    } else {
      var a := AtomExpr(stof, toks[j + 1]);
      AtomIsUnary(stof, toks, j + 1);
      FactorTailStep(stof, toks, left, j, a, j + 2);
      FactorTailChain(stof, toks, BinaryExpr(left, toks[j], a), j + 2, n - 1);
    }
  }

  /** `a1 op1 a2 op2 ... an+1` with every `op` a `-` or `+` is read as one expression
      that folds to the left, up to the first token that is no binary operator. */
  lemma SumsAssociateLeft(stof: string -> real, toks: seq<Token>, i: nat, n: nat)
    requires WellFormed(toks) && i < |toks| && IsAtom(toks[i]) && SumChain(toks, i + 1, n)
    requires !IsTermOp(toks[i + 1 + 2 * n].kind) && !IsFactorOp(toks[i + 1 + 2 * n].kind)
    ensures ParseExpression(stof, toks, i) ==
            Ok(Parsed(FoldLeft(stof, toks, AtomExpr(stof, toks[i]), i + 1, n), i + 1 + 2 * n))
  {
    var a := AtomExpr(stof, toks[i]);
    AtomIsUnary(stof, toks, i);
    assert !IsFactorOp(toks[i + 1].kind);
    FactorOfUnary(stof, toks, i, a, i + 1);
    TermStart(stof, toks, i, a, i + 1);
    TermTailChain(stof, toks, a, i + 1, n);
    ExpressionIsTerm(stof, toks, i);
  }

  /** `a1 op1 a2 op2 ... an+1` with every `op` a `*`, `/` or `^` folds to the left as
      well: power has no level of its own and no right associativity. */
  lemma ProductsAssociateLeft(stof: string -> real, toks: seq<Token>, i: nat, n: nat)
    requires WellFormed(toks) && i < |toks| && IsAtom(toks[i]) && ProductChain(toks, i + 1, n)
    requires !IsTermOp(toks[i + 1 + 2 * n].kind) && !IsFactorOp(toks[i + 1 + 2 * n].kind)
    ensures ParseExpression(stof, toks, i) ==
            Ok(Parsed(FoldLeft(stof, toks, AtomExpr(stof, toks[i]), i + 1, n), i + 1 + 2 * n))
  {
    var a := AtomExpr(stof, toks[i]);
    AtomIsUnary(stof, toks, i);
    FactorStart(stof, toks, i, a, i + 1);
    FactorTailChain(stof, toks, a, i + 1, n);
    TermOfFactor(stof, toks, i, FoldLeft(stof, toks, a, i + 1, n), i + 1 + 2 * n);
    ExpressionIsTerm(stof, toks, i);
  }

  /** `n` prefix operators in front of an atom nest to the right: the first is the root. */
  predicate PrefixRun(toks: seq<Token>, i: nat, n: nat)
    decreases n
  {
    i + n + 1 < |toks| && IsAtom(toks[i + n]) && (n > 0 ==> IsUnaryOp(toks[i].kind) && PrefixRun(toks, i + 1, n - 1))
  }

  function Nest(stof: string -> real, toks: seq<Token>, i: nat, n: nat): Expr
    requires i + n < |toks|
    decreases n
  {
    if n == 0 then AtomExpr(stof, toks[i]) else UnaryExpr(toks[i], Nest(stof, toks, i + 1, n - 1))
  }

  lemma {:induction false} PrefixesNestRight(stof: string -> real, toks: seq<Token>, i: nat, n: nat)
    requires WellFormed(toks) && PrefixRun(toks, i, n)
    ensures ParseUnary(stof, toks, i) == Ok(Parsed(Nest(stof, toks, i, n), i + n + 1))
    decreases n
  {
    if n == 0 {
      AtomIsUnary(stof, toks, i);
    } else {
      PrefixesNestRight(stof, toks, i + 1, n - 1);
      PrefixStep(stof, toks, i, Nest(stof, toks, i + 1, n - 1), i + n + 1);
    }
  }

  // ---------------------------------------------------------------------------
  // Worked inputs
  // ---------------------------------------------------------------------------

  function Name(s: string): Token { Token(Tokens.Identifier, s) }
  function Num(s: string): Token { Token(Tokens.Number, s) }

  /** `a - b - c ;` is `(a - b) - c`. */
  lemma DifferenceExample(stof: string -> real)
    ensures var toks := [Name("a"), Token(Minus, "-"), Name("b"), Token(Minus, "-"), Name("c"),
                         Token(Semicolon, ";"), EofToken];
      ParseStep(stof, toks, 0) ==
      Ok(Parsed(Some(ExprStmt(BinaryExpr(BinaryExpr(IdentifierExpr("a"), Token(Minus, "-"), IdentifierExpr("b")),
                                         Token(Minus, "-"), IdentifierExpr("c")))), 6))
  {
    var toks := [Name("a"), Token(Minus, "-"), Name("b"), Token(Minus, "-"), Name("c"),
                 Token(Semicolon, ";"), EofToken];
    assert SumChain(toks, 1, 2);
    SumsAssociateLeft(stof, toks, 0, 2);
  }

  /** `2 ^ 3 ^ 2` is `(2 ^ 3) ^ 2`. */
  lemma PowerExample(stof: string -> real)
    ensures var toks := [Num("2"), Token(Power, "^"), Num("3"), Token(Power, "^"), Num("2"), EofToken];
      ParseExpression(stof, toks, 0) ==
      Ok(Parsed(BinaryExpr(BinaryExpr(LiteralExpr(stof("2")), Token(Power, "^"), LiteralExpr(stof("3"))),
                           Token(Power, "^"), LiteralExpr(stof("2"))), 5))
  {
    var toks := [Num("2"), Token(Power, "^"), Num("3"), Token(Power, "^"), Num("2"), EofToken];
    assert ProductChain(toks, 1, 2);
    ProductsAssociateLeft(stof, toks, 0, 2);
  }

  /** `a + b * c` is `a + (b * c)`: `factor` binds tighter than `term`. */
  lemma PrecedenceExample(stof: string -> real)
    ensures var toks := [Name("a"), Token(Plus, "+"), Name("b"), Token(Star, "*"), Name("c"), EofToken];
      ParseExpression(stof, toks, 0) ==
      Ok(Parsed(BinaryExpr(IdentifierExpr("a"), Token(Plus, "+"),
                           BinaryExpr(IdentifierExpr("b"), Token(Star, "*"), IdentifierExpr("c"))), 5))
  {
    var toks := [Name("a"), Token(Plus, "+"), Name("b"), Token(Star, "*"), Name("c"), EofToken];
    AtomIsUnary(stof, toks, 0);
    AtomIsUnary(stof, toks, 2);
    AtomIsUnary(stof, toks, 4);
    FactorOfUnary(stof, toks, 0, IdentifierExpr("a"), 1);
    FactorOfProduct(stof, toks, 2, IdentifierExpr("b"), IdentifierExpr("c"), 3, 5);
    TermOfSum(stof, toks, 0, IdentifierExpr("a"), BinaryExpr(IdentifierExpr("b"), Token(Star, "*"), IdentifierExpr("c")), 1, 5);
    ExpressionIsTerm(stof, toks, 0);
  }

  /** `sin sin x` is `sin (sin x)`. */
  lemma NestedSineExample(stof: string -> real)
    ensures var toks := [Token(Sin, "sin"), Token(Sin, "sin"), Name("x"), EofToken];
      ParseUnary(stof, toks, 0) ==
      Ok(Parsed(UnaryExpr(Token(Sin, "sin"), UnaryExpr(Token(Sin, "sin"), IdentifierExpr("x"))), 3))
  {
    var toks := [Token(Sin, "sin"), Token(Sin, "sin"), Name("x"), EofToken];
    assert PrefixRun(toks, 0, 2);
    PrefixesNestRight(stof, toks, 0, 2);
  }

  // ---------------------------------------------------------------------------
  // Failures and their messages
  // ---------------------------------------------------------------------------

  /** `integ` must be followed by `(`, two `,` and `)` around its three terms. */
  lemma IntegMessages(stof: string -> real, toks: seq<Token>, i: nat)
    requires WellFormed(toks) && i < |toks| && toks[i].kind == Integ
    ensures var r := ParseExpression(stof, toks, i);
      (toks[i + 1].kind != LeftParen ==> r == Err("expected a '('")) &&
      (toks[i + 1].kind == LeftParen ==>
        var f := ParseTerm(stof, toks, i + 2);
        (f.Err? ==> r == Err(f.msg)) &&
        (f.Ok? && toks[f.value.next].kind != Comma ==> r == Err("expected a ','")) &&
        (f.Ok? && toks[f.value.next].kind == Comma ==>
          var a := ParseTerm(stof, toks, f.value.next + 1);
          (a.Err? ==> r == Err(a.msg)) &&
          (a.Ok? && toks[a.value.next].kind != Comma ==> r == Err("expected a ','")) &&
          (a.Ok? && toks[a.value.next].kind == Comma ==>
            var b := ParseTerm(stof, toks, a.value.next + 1);
            (b.Err? ==> r == Err(b.msg)) &&
            (b.Ok? && toks[b.value.next].kind != RightParen ==> r == Err("expected a ')'")) &&
            (b.Ok? && toks[b.value.next].kind == RightParen ==>
              r == Ok(Parsed(IntegExpr(f.value.tree, a.value.tree, b.value.tree), b.value.next + 1))))))
  {
  }

  /** The word each command keyword names in its message. */
  function CommandWord(k: TokenType): string
  {
    if k == Show then "show" else if k == Hide then "hide" else if k == Clear then "clear"
    else if k == Clean then "clean" else "exit"
  }

  function CommandStmt(k: TokenType): Stmt
  {
    if k == Show then ShowStmt else if k == Hide then HideStmt else if k == Clear then ClearStmt
    else if k == Clean then CleanStmt else ExitStmt
  }

  /** A command keyword succeeds exactly when `;` follows it at once. */
  lemma CommandNeedsSemicolon(stof: string -> real, toks: seq<Token>, i: nat)
    requires WellFormed(toks) && i < |toks|
    requires var k := toks[i].kind; k == Show || k == Hide || k == Clear || k == Clean || k == Exit
    ensures var r := ParseStatement(stof, toks, i);
      (r.Ok? <==> toks[i + 1].kind == Semicolon) &&
      (r.Ok? ==> r.value == Parsed(CommandStmt(toks[i].kind), i + 2)) &&
      (r.Err? ==> r.msg == "Expected ';' after '" + CommandWord(toks[i].kind) + "'.")
  {
  }

  /** `var` must be followed by a name. */
  lemma VarNeedsName(stof: string -> real, toks: seq<Token>, i: nat)
    requires WellFormed(toks) && i < |toks| && toks[i].kind == Var
    ensures toks[i + 1].kind != Tokens.Identifier ==>
      ParseStatement(stof, toks, i) == Err("identifier expected after 'var'")
  {
  }

  /** `var name ;` declares without an initializer; anything else but `=` after the
      name asks for the missing `;`. */
  lemma VarWithoutInit(stof: string -> real, toks: seq<Token>, i: nat)
    requires WellFormed(toks) && i + 1 < |toks| && toks[i].kind == Var && toks[i + 1].kind == Tokens.Identifier
    requires toks[i + 2].kind != Equal
    ensures var r := ParseStatement(stof, toks, i);
      (toks[i + 2].kind == Semicolon ==> r == Ok(Parsed(VariableStmt(toks[i + 1].lexeme, None), i + 3))) &&
      (toks[i + 2].kind != Semicolon ==> r == Err(SemicolonMsg))
  {
  }

  /** `var name = e ;` declares with the initializer `e`. */
  lemma VarWithInit(stof: string -> real, toks: seq<Token>, i: nat, e: Expr, k: nat)
    requires WellFormed(toks) && i + 1 < |toks| && toks[i].kind == Var && toks[i + 1].kind == Tokens.Identifier
    requires toks[i + 2].kind == Equal && i + 3 < k < |toks|
    requires ParseExpression(stof, toks, i + 3) == Ok(Parsed(e, k))
    ensures var r := ParseStatement(stof, toks, i);
      (toks[k].kind == Semicolon ==> r == Ok(Parsed(VariableStmt(toks[i + 1].lexeme, Some(e)), k + 1))) &&
      (toks[k].kind != Semicolon ==> r == Err(SemicolonMsg))
  {
  }

  /** A `primary` that is no number, name or parenthesised expression fails, and so does
      one whose `)` is missing; an `ERROR` token is one of the former. */
  lemma PrimaryMessages(stof: string -> real, toks: seq<Token>, i: nat)
    requires WellFormed(toks) && i < |toks|
    ensures var k := toks[i].kind;
      k != Number && k != Tokens.Identifier && k != LeftParen ==> ParsePrimary(stof, toks, i) == Err(UnrecognisedMsg)
    ensures toks[i].kind == LeftParen ==>
      var inner := ParseExpression(stof, toks, i + 1);
      inner.Ok? && toks[inner.value.next].kind != RightParen ==> ParsePrimary(stof, toks, i) == Err(UnrecognisedMsg)
    ensures toks[i].kind == Error ==> ParseUnary(stof, toks, i) == Err(UnrecognisedMsg)
  {
    if toks[i].kind == Error {
      UnaryIsPrimary(stof, toks, i);
    }
  }

  /** `plot` needs a `,` between its two expressions and `line` one after each of its
      first three. */
  lemma CommaMessages(stof: string -> real, toks: seq<Token>, i: nat, e: Expr, k: nat)
    requires WellFormed(toks) && i < k < |toks| && ParseExpression(stof, toks, i + 1) == Ok(Parsed(e, k))
    requires toks[k].kind != Comma
    ensures toks[i].kind == Plot ==> ParseStatement(stof, toks, i) == Err("Expected ',' after first expression.")
    ensures toks[i].kind == Line ==> ParseStatement(stof, toks, i) == Err("Expected ',' after first expression.")
  {
  }

  /** Every statement but a command ends in `;`; a missing one is reported as such. */
  lemma PrintNeedsSemicolon(stof: string -> real, toks: seq<Token>, i: nat, e: Expr, k: nat)
    requires WellFormed(toks) && i < k < |toks| && toks[i].kind == Print
    requires ParseExpression(stof, toks, i + 1) == Ok(Parsed(e, k))
    ensures toks[k].kind == Semicolon ==> ParseStatement(stof, toks, i) == Ok(Parsed(PrintStmt(e), k + 1))
    ensures toks[k].kind != Semicolon ==> ParseStatement(stof, toks, i) == Err(SemicolonMsg)
  {
  }
}
