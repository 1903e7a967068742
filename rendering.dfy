/** The fully parenthesised token form of an expression tree, and where its parts lie
    when that form sits inside a longer token vector. */
module Rendering {
  import opened Tokens
  import opened Ast
  import opened Parser

  // ---------------------------------------------------------------------------
  // Rendering a tree back into tokens
  // ---------------------------------------------------------------------------

  const OpenTok := Token(LeftParen, "(")
  const CloseTok := Token(RightParen, ")")
  const CommaTok := Token(Comma, ",")
  const IntegTok := Token(Integ, "integ")
  const SemicolonTok := Token(Semicolon, ";")

  /** The fully parenthesised token form of a tree: every binary and `integ` node is
      wrapped in parentheses, so the whole rendering is one `unary`. */
  function Render(e: Expr, lex: real -> string): seq<Token>
  {
    match e
    case LiteralExpr(v) => [Token(Tokens.Number, lex(v))]
    case IdentifierExpr(name) => [Token(Tokens.Identifier, name)]
    case UnaryExpr(op, a) => [op] + Render(a, lex)
    case BinaryExpr(l, op, r) => [OpenTok] + (Render(l, lex) + ([op] + (Render(r, lex) + [CloseTok])))
    case IntegExpr(f, a, b) =>
      [OpenTok, IntegTok, OpenTok] + (Render(f, lex) + ([CommaTok] + (Render(a, lex) + ([CommaTok] + (Render(b, lex) + [CloseTok, CloseTok])))))
  }

  /** A tree the parser could have produced: every operator sits at a level of the
      grammar that accepts it, and `lex` prints every literal as a lexeme that `stof`
      reads back exactly. */
  predicate Printable(e: Expr, stof: string -> real, lex: real -> string)
  {
    match e
    case LiteralExpr(v) => stof(lex(v)) == v
    case IdentifierExpr(_) => true
    case UnaryExpr(op, a) => IsUnaryOp(op.kind) && Printable(a, stof, lex)
    case BinaryExpr(l, op, r) =>
      (IsTermOp(op.kind) || IsFactorOp(op.kind)) && Printable(l, stof, lex) && Printable(r, stof, lex)
    case IntegExpr(f, a, b) => Printable(f, stof, lex) && Printable(a, stof, lex) && Printable(b, stof, lex)
  }

  // ---------------------------------------------------------------------------
  // Token sequences inside a token vector
  // ---------------------------------------------------------------------------

  /** `toks` holds the tokens `s` from position `i` on. */
  predicate At(toks: seq<Token>, i: nat, s: seq<Token>)
    decreases |s|
  {
    i + |s| <= |toks| && (s == [] || (toks[i] == s[0] && At(toks, i + 1, s[1..])))
  }

  lemma AtHead(toks: seq<Token>, i: nat, t: Token, s: seq<Token>)
    requires At(toks, i, [t] + s)
    ensures i < |toks| && toks[i] == t && At(toks, i + 1, s)
  {
    assert ([t] + s)[1..] == s;
  }

  lemma AtOne(toks: seq<Token>, i: nat, t: Token)
    requires At(toks, i, [t])
    ensures i < |toks| && toks[i] == t
  {
  }

  lemma {:induction false} AtSplit(toks: seq<Token>, i: nat, a: seq<Token>, b: seq<Token>)
    requires At(toks, i, a + b)
    ensures At(toks, i, a) && At(toks, i + |a|, b)
    decreases |a|
  {
    if a == [] {
      assert a + b == b;
    } else {
      assert a + b == [a[0]] + (a[1..] + b);
      AtHead(toks, i, a[0], a[1..] + b);
      AtSplit(toks, i + 1, a[1..], b);
    }
  }

  /** Every suffix of a token vector lies in it. */
  lemma {:induction false} AtSuffix(toks: seq<Token>, i: nat)
    requires i <= |toks|
    ensures At(toks, i, toks[i..])
    decreases |toks| - i
  {
    if i < |toks| {
      assert toks[i..][1..] == toks[i + 1..];
      AtSuffix(toks, i + 1);
    }
  }

  // ---------------------------------------------------------------------------
  // Where the parts of a rendering lie
  // ---------------------------------------------------------------------------

  /** `toks` holds `s` from position `i` on, so its first token sits at `i`. */
  lemma AtFirst(toks: seq<Token>, i: nat, s: seq<Token>)
    requires At(toks, i, s) && s != []
    ensures i < |toks| && toks[i] == s[0]
  {
  }

  /** The layout `( l op r )` of a binary rendering. */
  lemma BinaryLayout(toks: seq<Token>, i: nat, rl: seq<Token>, op: Token, rr: seq<Token>)
    requires At(toks, i, [OpenTok] + (rl + ([op] + (rr + [CloseTok]))))
    ensures var j := i + 1 + |rl|;
      j + 1 + |rr| < |toks| && toks[i] == OpenTok && At(toks, i + 1, rl) && toks[j] == op &&
      At(toks, j + 1, rr) && toks[j + 1 + |rr|] == CloseTok
  {
    AtHead(toks, i, OpenTok, rl + ([op] + (rr + [CloseTok])));
    AtSplit(toks, i + 1, rl, [op] + (rr + [CloseTok]));
    var j := i + 1 + |rl|;
    AtHead(toks, j, op, rr + [CloseTok]);
    AtSplit(toks, j + 1, rr, [CloseTok]);
    AtOne(toks, j + 1 + |rr|, CloseTok);
  }

  /** The three opening tokens `( integ (` of an `integ` rendering. */
  lemma IntegHead(toks: seq<Token>, i: nat, tail: seq<Token>)
    requires At(toks, i, [OpenTok, IntegTok, OpenTok] + tail)
    ensures i + 3 <= |toks| && toks[i] == OpenTok && toks[i + 1] == IntegTok && toks[i + 2] == OpenTok
    ensures At(toks, i + 3, tail)
  {
    assert [OpenTok, IntegTok, OpenTok] + tail == [OpenTok] + ([IntegTok] + ([OpenTok] + tail));
    AtHead(toks, i, OpenTok, [IntegTok] + ([OpenTok] + tail));
    AtHead(toks, i + 1, IntegTok, [OpenTok] + tail);
    AtHead(toks, i + 2, OpenTok, tail);
  }

  /** The part `, a , b ) )` of an `integ` rendering, from the first comma on. */
  lemma IntegTail(toks: seq<Token>, j1: nat, ra: seq<Token>, rb: seq<Token>)
    requires At(toks, j1, [CommaTok] + (ra + ([CommaTok] + (rb + [CloseTok, CloseTok]))))
    ensures var j2 := j1 + 1 + |ra|;
      var j3 := j2 + 1 + |rb|;
      j3 + 1 < |toks| && toks[j1] == CommaTok && At(toks, j1 + 1, ra) && toks[j2] == CommaTok &&
      At(toks, j2 + 1, rb) && toks[j3] == CloseTok && toks[j3 + 1] == CloseTok
  {
    AtHead(toks, j1, CommaTok, ra + ([CommaTok] + (rb + [CloseTok, CloseTok])));
    AtSplit(toks, j1 + 1, ra, [CommaTok] + (rb + [CloseTok, CloseTok]));
    var j2 := j1 + 1 + |ra|;
    AtHead(toks, j2, CommaTok, rb + [CloseTok, CloseTok]);
    AtSplit(toks, j2 + 1, rb, [CloseTok, CloseTok]);
    var j3 := j2 + 1 + |rb|;
    assert [CloseTok, CloseTok] == [CloseTok] + [CloseTok];
    AtHead(toks, j3, CloseTok, [CloseTok]);
    AtOne(toks, j3 + 1, CloseTok);
  }

  /** The layout `( integ ( f , a , b ) )` of an `integ` rendering. */
  lemma IntegLayout(toks: seq<Token>, i: nat, rf: seq<Token>, ra: seq<Token>, rb: seq<Token>)
    requires At(toks, i, [OpenTok, IntegTok, OpenTok] + (rf + ([CommaTok] + (ra + ([CommaTok] + (rb + [CloseTok, CloseTok]))))))
    ensures var j1 := i + 3 + |rf|;
      var j2 := j1 + 1 + |ra|;
      var j3 := j2 + 1 + |rb|;
      j3 + 1 < |toks| &&
      toks[i] == OpenTok && toks[i + 1] == IntegTok && toks[i + 2] == OpenTok &&
      At(toks, i + 3, rf) && toks[j1] == CommaTok && At(toks, j1 + 1, ra) && toks[j2] == CommaTok &&
      At(toks, j2 + 1, rb) && toks[j3] == CloseTok && toks[j3 + 1] == CloseTok
  {
    var rest := [CommaTok] + (ra + ([CommaTok] + (rb + [CloseTok, CloseTok])));
    IntegHead(toks, i, rf + rest);
    AtSplit(toks, i + 3, rf, rest);
    IntegTail(toks, i + 3 + |rf|, ra, rb);
  }

  // ---------------------------------------------------------------------------
  // Where the parts of a rendering lie
  // ---------------------------------------------------------------------------

  /** A printable rendering is never empty and never starts with `integ`. */
  lemma RenderStart(e: Expr, stof: string -> real, lex: real -> string)
    requires Printable(e, stof, lex)
    ensures Render(e, lex) != [] && Render(e, lex)[0].kind != Integ
  {
  }

  /** The first token of a printable rendering laid in a token vector is never `integ`. */
  lemma RenderHead(e: Expr, stof: string -> real, lex: real -> string, toks: seq<Token>, i: nat)
    requires Printable(e, stof, lex) && At(toks, i, Render(e, lex))
    ensures i < |toks| && toks[i].kind != Integ
  {
    RenderStart(e, stof, lex);
    AtFirst(toks, i, Render(e, lex));
  }

  /** The parts of a printable tree are printable. */
  lemma PrintableParts(e: Expr, stof: string -> real, lex: real -> string)
    requires Printable(e, stof, lex)
    ensures e.UnaryExpr? ==> IsUnaryOp(e.op.kind) && Printable(e.expr, stof, lex)
    ensures e.BinaryExpr? ==>
      (IsTermOp(e.op.kind) || IsFactorOp(e.op.kind)) && Printable(e.left, stof, lex) && Printable(e.right, stof, lex)
    ensures e.IntegExpr? ==>
      Printable(e.formula, stof, lex) && Printable(e.limitStart, stof, lex) && Printable(e.limitEnd, stof, lex)
  {
  }

  lemma PrefixParts(e: Expr, lex: real -> string, toks: seq<Token>, i: nat)
    requires e.UnaryExpr? && At(toks, i, Render(e, lex))
    ensures |Render(e, lex)| == 1 + |Render(e.expr, lex)|
    ensures i < |toks| && toks[i] == e.op && At(toks, i + 1, Render(e.expr, lex))
  {
    AtHead(toks, i, e.op, Render(e.expr, lex));
  }

  lemma BinaryParts(e: Expr, lex: real -> string, toks: seq<Token>, i: nat)
    requires e.BinaryExpr? && At(toks, i, Render(e, lex))
    ensures |Render(e, lex)| == |Render(e.left, lex)| + |Render(e.right, lex)| + 3
    ensures var j := i + 1 + |Render(e.left, lex)|;
      j + 1 + |Render(e.right, lex)| < |toks| &&
      toks[i].kind == LeftParen && At(toks, i + 1, Render(e.left, lex)) && toks[j] == e.op &&
      At(toks, j + 1, Render(e.right, lex)) && toks[j + 1 + |Render(e.right, lex)|].kind == RightParen
  {
    BinaryLayout(toks, i, Render(e.left, lex), e.op, Render(e.right, lex));
  }

  lemma IntegParts(e: Expr, lex: real -> string, toks: seq<Token>, i: nat, j1: nat, j2: nat, j3: nat)
    requires e.IntegExpr? && At(toks, i, Render(e, lex))
    requires j1 == i + 3 + |Render(e.formula, lex)| && j2 == j1 + 1 + |Render(e.limitStart, lex)|
    requires j3 == j2 + 1 + |Render(e.limitEnd, lex)|
    ensures |Render(e, lex)| == j3 + 2 - i
    ensures j3 + 1 < |toks|
    ensures toks[i].kind == LeftParen && toks[i + 1].kind == Integ && toks[i + 2].kind == LeftParen
    ensures At(toks, i + 3, Render(e.formula, lex)) && toks[j1].kind == Comma
    ensures At(toks, j1 + 1, Render(e.limitStart, lex)) && toks[j2].kind == Comma
    ensures At(toks, j2 + 1, Render(e.limitEnd, lex))
    ensures toks[j3].kind == RightParen && toks[j3 + 1].kind == RightParen
  {
    IntegLayout(toks, i, Render(e.formula, lex), Render(e.limitStart, lex), Render(e.limitEnd, lex));
  }
}
