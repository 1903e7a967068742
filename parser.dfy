/** Recursive-descent parser: one statement per call to `Parse`, over a fixed token
    vector and a cursor that only moves forward. A thrown message is an `Err`. */
module Parser {
  import opened Tokens
  import opened Results
  import opened Ast

  /** What the parser relies on: the token vector ends in EOF, as the lexer's always
      does. No `match` or `consume` asks for EOF, so the cursor never passes it. */
  predicate WellFormed(toks: seq<Token>)
  {
    |toks| > 0 && toks[|toks| - 1].kind == Eof
  }

  /** A parsed tree and the cursor position after it. */
  datatype Parsed<+T> = Parsed(tree: T, next: nat)

  /** The prefix operators `unary` matches, in the order it tests them. */
  const UnaryOps: seq<TokenType> := [Minus, Plus, Sin, Cos, Tan, Cosec, Sec, Cot, Log, Abs]

  /** The operators of the additive level `term`. */
  const TermOps: seq<TokenType> := [Minus, Plus]

  /** The operators of the level `factor`: power shares it with `*` and `/`. */
  const FactorOps: seq<TokenType> := [Star, Slash, Power]

  predicate IsUnaryOp(k: TokenType)
  {
    k in UnaryOps
  }

  predicate IsTermOp(k: TokenType)
  {
    k in TermOps
  }

  predicate IsFactorOp(k: TokenType)
  {
    k in FactorOps
  }

  const UnrecognisedMsg: string := "unrecognised character encountered."
  const SemicolonMsg: string := "forgot ';'?"

  // ---------------------------------------------------------------------------
  // Specification: the grammar as functions of the token vector and a position
  // ---------------------------------------------------------------------------

  /** `consume`: the position after a token of the expected kind, or the message. */
  function Expect(toks: seq<Token>, i: nat, kind: TokenType, msg: string): (r: Result<nat>)
    requires WellFormed(toks) && i < |toks| && kind != Eof
    ensures r.Ok? <==> toks[i].kind == kind
    ensures r.Ok? ==> r.value == i + 1 < |toks|
    ensures r.Err? ==> r.msg == msg
  {
    if toks[i].kind == kind then Ok(i + 1) else Err(msg)
  }

  function ParseExpression(stof: string -> real, toks: seq<Token>, i: nat): (r: Result<Parsed<Expr>>)
    requires WellFormed(toks) && i < |toks|
    ensures r.Ok? ==> i < r.value.next < |toks|
    decreases |toks| - i, 4
  {
    if toks[i].kind == Integ then
      var open :- Expect(toks, i + 1, LeftParen, "expected a '('");
      var formula :- ParseTerm(stof, toks, open);
      var comma1 :- Expect(toks, formula.next, Comma, "expected a ','");
      var start :- ParseTerm(stof, toks, comma1);
      var comma2 :- Expect(toks, start.next, Comma, "expected a ','");
      var end :- ParseTerm(stof, toks, comma2);
      var close :- Expect(toks, end.next, RightParen, "expected a ')'");
      Ok(Parsed(IntegExpr(formula.tree, start.tree, end.tree), close))
    else
      ParseTerm(stof, toks, i)
  }

  function ParseTerm(stof: string -> real, toks: seq<Token>, i: nat): (r: Result<Parsed<Expr>>)
    requires WellFormed(toks) && i < |toks|
    ensures r.Ok? ==> i < r.value.next < |toks|
    decreases |toks| - i, 3
  {
    var left :- ParseFactor(stof, toks, i);
    TermTail(stof, toks, left.tree, left.next)
  }

  /** The loop of `term`: while the next token is `-` or `+`, combine to the left. */
  function TermTail(stof: string -> real, toks: seq<Token>, left: Expr, j: nat): (r: Result<Parsed<Expr>>)
    requires WellFormed(toks) && j < |toks|
    ensures r.Ok? ==> j <= r.value.next < |toks|
    decreases |toks| - j, 3
  {
    if IsTermOp(toks[j].kind) then
      var right :- ParseFactor(stof, toks, j + 1);
      TermTail(stof, toks, BinaryExpr(left, toks[j], right.tree), right.next)
    else
      Ok(Parsed(left, j))
  }

  function ParseFactor(stof: string -> real, toks: seq<Token>, i: nat): (r: Result<Parsed<Expr>>)
    requires WellFormed(toks) && i < |toks|
    ensures r.Ok? ==> i < r.value.next < |toks|
    decreases |toks| - i, 2
  {
    var left :- ParseUnary(stof, toks, i);
    FactorTail(stof, toks, left.tree, left.next)
  }

  /** The loop of `factor`: while the next token is `*`, `/` or `^`, combine to the left. */
  function FactorTail(stof: string -> real, toks: seq<Token>, left: Expr, j: nat): (r: Result<Parsed<Expr>>)
    requires WellFormed(toks) && j < |toks|
    ensures r.Ok? ==> j <= r.value.next < |toks|
    decreases |toks| - j, 2
  {
    if IsFactorOp(toks[j].kind) then
      var right :- ParseUnary(stof, toks, j + 1);
      FactorTail(stof, toks, BinaryExpr(left, toks[j], right.tree), right.next)
    else
      Ok(Parsed(left, j))
  }

  function ParseUnary(stof: string -> real, toks: seq<Token>, i: nat): (r: Result<Parsed<Expr>>)
    requires WellFormed(toks) && i < |toks|
    ensures r.Ok? ==> i < r.value.next < |toks|
    decreases |toks| - i, 1
  {
    if IsUnaryOp(toks[i].kind) then
      var operand :- ParseUnary(stof, toks, i + 1);
      Ok(Parsed(UnaryExpr(toks[i], operand.tree), operand.next))
    else
      ParsePrimary(stof, toks, i)
  }

  function ParsePrimary(stof: string -> real, toks: seq<Token>, i: nat): (r: Result<Parsed<Expr>>)
    requires WellFormed(toks) && i < |toks|
    ensures r.Ok? ==> i < r.value.next < |toks|
    decreases |toks| - i, 0
  {
    var kind := toks[i].kind;
    if kind == Number then Ok(Parsed(LiteralExpr(stof(toks[i].lexeme)), i + 1))
    else if kind == Identifier then Ok(Parsed(IdentifierExpr(toks[i].lexeme), i + 1))
    else if kind == LeftParen then
      var inner :- ParseExpression(stof, toks, i + 1);
      if toks[inner.next].kind == RightParen then Ok(Parsed(inner.tree, inner.next + 1))
      else Err(UnrecognisedMsg)
    else Err(UnrecognisedMsg)
  }

  function ParseExprStmt(stof: string -> real, toks: seq<Token>, i: nat): (r: Result<Parsed<Stmt>>)
    requires WellFormed(toks) && i < |toks|
    ensures r.Ok? ==> i < r.value.next < |toks|
    ensures r.Ok? ==> toks[r.value.next - 1].kind == Semicolon
  {
    var e :- ParseExpression(stof, toks, i);
    var semi :- Expect(toks, e.next, Semicolon, SemicolonMsg);
    Ok(Parsed(ExprStmt(e.tree), semi))
  }

  function ParsePrintStmt(stof: string -> real, toks: seq<Token>, i: nat): (r: Result<Parsed<Stmt>>)
    requires WellFormed(toks) && i < |toks|
    ensures r.Ok? ==> i < r.value.next < |toks|
    ensures r.Ok? ==> toks[r.value.next - 1].kind == Semicolon
  {
    var e :- ParseExpression(stof, toks, i);
    var semi :- Expect(toks, e.next, Semicolon, SemicolonMsg);
    Ok(Parsed(PrintStmt(e.tree), semi))
  }

  function ParseVarDecl(stof: string -> real, toks: seq<Token>, i: nat): (r: Result<Parsed<Stmt>>)
    requires WellFormed(toks) && i < |toks|
    ensures r.Ok? ==> i < r.value.next < |toks|
    ensures r.Ok? ==> toks[r.value.next - 1].kind == Semicolon
  {
    var afterName :- Expect(toks, i, Identifier, "identifier expected after 'var'");
    var name := toks[i].lexeme;
    if toks[afterName].kind == Equal then
      var init :- ParseExpression(stof, toks, afterName + 1);
      var semi :- Expect(toks, init.next, Semicolon, SemicolonMsg);
      Ok(Parsed(VariableStmt(name, Some(init.tree)), semi))
    else
      var semi :- Expect(toks, afterName, Semicolon, SemicolonMsg);
      Ok(Parsed(VariableStmt(name, None), semi))
  }

  function ParseGraphStmt(stof: string -> real, toks: seq<Token>, i: nat): (r: Result<Parsed<Stmt>>)
    requires WellFormed(toks) && i < |toks|
    ensures r.Ok? ==> i < r.value.next < |toks|
    ensures r.Ok? ==> toks[r.value.next - 1].kind == Semicolon
  {
    var e :- ParseExpression(stof, toks, i);
    var semi :- Expect(toks, e.next, Semicolon, SemicolonMsg);
    Ok(Parsed(GraphStmt(e.tree), semi))
  }

  function ParsePlotStmt(stof: string -> real, toks: seq<Token>, i: nat): (r: Result<Parsed<Stmt>>)
    requires WellFormed(toks) && i < |toks|
    ensures r.Ok? ==> i < r.value.next < |toks|
    ensures r.Ok? ==> toks[r.value.next - 1].kind == Semicolon
  {
    var a :- ParseExpression(stof, toks, i);
    var comma :- Expect(toks, a.next, Comma, "Expected ',' after first expression.");
    var b :- ParseExpression(stof, toks, comma);
    var semi :- Expect(toks, b.next, Semicolon, SemicolonMsg);
    Ok(Parsed(PlotStmt(a.tree, b.tree), semi))
  }

  function ParseLineStmt(stof: string -> real, toks: seq<Token>, i: nat): (r: Result<Parsed<Stmt>>)
    requires WellFormed(toks) && i < |toks|
    ensures r.Ok? ==> i < r.value.next < |toks|
    ensures r.Ok? ==> toks[r.value.next - 1].kind == Semicolon
  {
    var a :- ParseExpression(stof, toks, i);
    var comma1 :- Expect(toks, a.next, Comma, "Expected ',' after first expression.");
    var b :- ParseExpression(stof, toks, comma1);
    var comma2 :- Expect(toks, b.next, Comma, "Expected ',' after second expression.");
    var c :- ParseExpression(stof, toks, comma2);
    var comma3 :- Expect(toks, c.next, Comma, "Expected ',' after third expression.");
    var d :- ParseExpression(stof, toks, comma3);
    var semi :- Expect(toks, d.next, Semicolon, SemicolonMsg);
    Ok(Parsed(LineStmt(a.tree, b.tree, c.tree, d.tree), semi))
  }

  /** A command keyword that must be followed at once by `;`. */
  function ParseCommand(toks: seq<Token>, i: nat, cmd: Stmt, word: string): (r: Result<Parsed<Stmt>>)
    requires WellFormed(toks) && i < |toks|
    ensures r.Ok? ==> i < r.value.next < |toks|
    ensures r.Ok? <==> toks[i].kind == Semicolon
    ensures r.Ok? ==> r.value == Parsed(cmd, i + 1)
    ensures r.Err? ==> r.msg == "Expected ';' after '" + word + "'."
  {
    var semi :- Expect(toks, i, Semicolon, "Expected ';' after '" + word + "'.");
    Ok(Parsed(cmd, semi))
  }

  function ParseStatement(stof: string -> real, toks: seq<Token>, i: nat): (r: Result<Parsed<Stmt>>)
    requires WellFormed(toks) && i < |toks|
    ensures r.Ok? ==> i < r.value.next < |toks|
    ensures r.Ok? ==> toks[r.value.next - 1].kind == Semicolon
  {
    var kind := toks[i].kind;
    if kind == Print then ParsePrintStmt(stof, toks, i + 1)
    else if kind == Var then ParseVarDecl(stof, toks, i + 1)
    else if kind == Graph then ParseGraphStmt(stof, toks, i + 1)
    else if kind == Plot then ParsePlotStmt(stof, toks, i + 1)
    else if kind == Line then ParseLineStmt(stof, toks, i + 1)
    else if kind == Show then ParseCommand(toks, i + 1, ShowStmt, "show")
    else if kind == Hide then ParseCommand(toks, i + 1, HideStmt, "hide")
    else if kind == Clear then ParseCommand(toks, i + 1, ClearStmt, "clear")
    else if kind == Clean then ParseCommand(toks, i + 1, CleanStmt, "clean")
    else if kind == Exit then ParseCommand(toks, i + 1, ExitStmt, "exit")
    else ParseExprStmt(stof, toks, i)
  }

  /** `parse`: nothing at EOF, otherwise one statement. */
  function ParseStep(stof: string -> real, toks: seq<Token>, i: nat): (r: Result<Parsed<Option<Stmt>>>)
    requires WellFormed(toks) && i < |toks|
    ensures r.Ok? ==> i <= r.value.next < |toks|
    ensures r.Ok? && r.value.tree.None? <==> toks[i].kind == Eof
    ensures r.Ok? && r.value.tree.Some? ==> i < r.value.next && toks[r.value.next - 1].kind == Semicolon
  {
    if toks[i].kind == Eof then Ok(Parsed(None, i))
    else
      var s :- ParseStatement(stof, toks, i);
      Ok(Parsed(Some(s.tree), s.next))
  }

  /** A method's result paired with the cursor it leaves, in the shape of the specification. */
  function Lift<T>(r: Result<T>, cur: nat): Result<Parsed<T>>
  {
    match r
    case Ok(t) => Ok(Parsed(t, cur))
    case Err(m) => Err(m)
  }

  // ---------------------------------------------------------------------------
  // The parser object
  // ---------------------------------------------------------------------------

  class Parser {
    /** The library conversion `std::stof`, applied to number lexemes. */
    const stof: string -> real
    /** The parser's own copy of the tokens; only `cur` ever changes. */
    const tokens: seq<Token>
    var cur: nat

    ghost predicate Valid()
      reads this
    {
      WellFormed(tokens) && cur < |tokens|
    }

    constructor (tokens: seq<Token>, stof: string -> real)
      requires WellFormed(tokens)
      ensures Valid() && this.tokens == tokens && this.stof == stof && cur == 0
    {
      this.tokens := tokens;
      this.stof := stof;
      cur := 0;
    }

    function Peek(): Token
      reads this
      requires cur < |tokens|
    {
      tokens[cur]
    }

    predicate IsAtEnd()
      reads this
    {
      cur >= |tokens| || Peek().kind == Eof
    }

    method Advance()
      modifies this
      ensures cur == old(cur) + 1
    {
      cur := cur + 1;
    }

    function Previous(): Token
      reads this
      requires 0 < cur <= |tokens|
    {
      tokens[cur - 1]
    }

    method Match(kind: TokenType) returns (ok: bool)
      requires Valid() && kind != Eof
      modifies this
      ensures Valid()
      ensures ok == (tokens[old(cur)].kind == kind)
      ensures cur == if ok then old(cur) + 1 else old(cur)
    {
      if Peek().kind == kind {
        Advance();
        return true;
      }
      return false;
    }

    /** The variadic `match`: tests the kinds left to right, consumes at most one token. */
    method MatchAny(kinds: seq<TokenType>) returns (ok: bool)
      requires Valid() && Eof !in kinds
      modifies this
      ensures Valid()
      ensures ok == (tokens[old(cur)].kind in kinds)
      ensures cur == if ok then old(cur) + 1 else old(cur)
    {
      var n := 0;
      while n < |kinds|
        invariant 0 <= n <= |kinds| && cur == old(cur)
        invariant tokens[cur].kind !in kinds[..n]
      {
        ok := Match(kinds[n]);
        if ok {
          return;
        }
        n := n + 1;
      }
      assert kinds[..n] == kinds;
      return false;
    }

    method Consume(kind: TokenType, msg: string) returns (r: Result<()>)
      requires Valid() && kind != Eof
      modifies this
      ensures Valid()
      ensures Expect(tokens, old(cur), kind, msg) == if r.Ok? then Ok(cur) else Err(r.msg)
    {
      var ok := Match(kind);
      if !ok {
        return Err(msg);
      }
      return Ok(());
    }

    method Parse() returns (r: Result<Option<Stmt>>)
      requires Valid()
      modifies this
      ensures Valid()
      ensures ParseStep(stof, tokens, old(cur)) == Lift(r, cur)
    {
      if IsAtEnd() {
        return Ok(None);
      }
      var s :- Statement();
      return Ok(Some(s));
    }

    method Statement() returns (r: Result<Stmt>)
      requires Valid()
      modifies this
      ensures Valid()
      ensures ParseStatement(stof, tokens, old(cur)) == Lift(r, cur)
    {
      // The chain of `match(...)` calls in the source tests one kind after another
      // and consumes the keyword on the first hit; dispatching on the kind is the same.
      var kind := Peek().kind;
      if kind == Print {
        Advance(); r := PrintStmt();
      } else if kind == Var {
        Advance(); r := VarDecl();
      } else if kind == Graph {
        Advance(); r := GraphStmt();
      } else if kind == Plot {
        Advance(); r := PlotStmt();
      } else if kind == Line {
        Advance(); r := LineStmt();
      } else if kind == Show {
        Advance(); r := Command(Ast.ShowStmt, "show");
      } else if kind == Hide {
        Advance(); r := Command(Ast.HideStmt, "hide");
      } else if kind == Clear {
        Advance(); r := Command(Ast.ClearStmt, "clear");
      } else if kind == Clean {
        Advance(); r := Command(Ast.CleanStmt, "clean");
      } else if kind == Exit {
        Advance(); r := Command(Ast.ExitStmt, "exit");
      } else {
        r := ExprStmt();
      }
    }

    /** The body shared by the five command keywords: `consume(';', ...)`. */
    method Command(cmd: Stmt, word: string) returns (r: Result<Stmt>)
      requires Valid()
      modifies this
      ensures Valid()
      ensures ParseCommand(tokens, old(cur), cmd, word) == Lift(r, cur)
    {
      var semi :- Consume(Semicolon, "Expected ';' after '" + word + "'.");
      return Ok(cmd);
    }

    method ExprStmt() returns (r: Result<Stmt>)
      requires Valid()
      modifies this
      ensures Valid()
      ensures ParseExprStmt(stof, tokens, old(cur)) == Lift(r, cur)
    {
      var e :- Expression();
      var semi :- Consume(Semicolon, SemicolonMsg);
      return Ok(Ast.ExprStmt(e));
    }

    method PrintStmt() returns (r: Result<Stmt>)
      requires Valid()
      modifies this
      ensures Valid()
      ensures ParsePrintStmt(stof, tokens, old(cur)) == Lift(r, cur)
    {
      var e :- Expression();
      var semi :- Consume(Semicolon, SemicolonMsg);
      return Ok(Ast.PrintStmt(e));
    }

    method VarDecl() returns (r: Result<Stmt>)
      requires Valid()
      modifies this
      ensures Valid()
      ensures ParseVarDecl(stof, tokens, old(cur)) == Lift(r, cur)
    {
      var named :- Consume(Identifier, "identifier expected after 'var'");
      var name := Previous().lexeme;
      var init: Option<Expr> := None;
      var hasInit := Match(Equal);
      if hasInit {
        var e :- Expression();
        init := Some(e);
      }
      var semi :- Consume(Semicolon, SemicolonMsg);
      return Ok(VariableStmt(name, init));
    }

    method GraphStmt() returns (r: Result<Stmt>)
      requires Valid()
      modifies this
      ensures Valid()
      ensures ParseGraphStmt(stof, tokens, old(cur)) == Lift(r, cur)
    {
      var e :- Expression();
      var semi :- Consume(Semicolon, SemicolonMsg);
      return Ok(Ast.GraphStmt(e));
    }

    method PlotStmt() returns (r: Result<Stmt>)
      requires Valid()
      modifies this
      ensures Valid()
      ensures ParsePlotStmt(stof, tokens, old(cur)) == Lift(r, cur)
    {
      var a :- Expression();
      var comma :- Consume(Comma, "Expected ',' after first expression.");
      var b :- Expression();
      var semi :- Consume(Semicolon, SemicolonMsg);
      return Ok(Ast.PlotStmt(a, b));
    }

    method LineStmt() returns (r: Result<Stmt>)
      requires Valid()
      modifies this
      ensures Valid()
      ensures ParseLineStmt(stof, tokens, old(cur)) == Lift(r, cur)
    {
      var a :- Expression();
      var comma1 :- Consume(Comma, "Expected ',' after first expression.");
      var b :- Expression();
      var comma2 :- Consume(Comma, "Expected ',' after second expression.");
      var c :- Expression();
      var comma3 :- Consume(Comma, "Expected ',' after third expression.");
      var d :- Expression();
      var semi :- Consume(Semicolon, SemicolonMsg);
      return Ok(Ast.LineStmt(a, b, c, d));
    }

    method Expression() returns (r: Result<Expr>)
      requires Valid()
      modifies this
      ensures Valid()
      ensures ParseExpression(stof, tokens, old(cur)) == Lift(r, cur)
      decreases |tokens| - cur, 4
    {
      var isInteg := Match(Integ);
      if isInteg {
        var open :- Consume(LeftParen, "expected a '('");
        var formula :- Term();
        var comma1 :- Consume(Comma, "expected a ','");
        var start :- Term();
        var comma2 :- Consume(Comma, "expected a ','");
        var end :- Term();
        var close :- Consume(RightParen, "expected a ')'");
        return Ok(IntegExpr(formula, start, end));
      }
      r := Term();
    }

    method Term() returns (r: Result<Expr>)
      requires Valid()
      modifies this
      ensures Valid()
      ensures ParseTerm(stof, tokens, old(cur)) == Lift(r, cur)
      decreases |tokens| - cur, 3
    {
      var left :- Factor();
      ghost var start := old(cur);
      while true
        invariant Valid() && start < cur
        invariant ParseTerm(stof, tokens, start) == TermTail(stof, tokens, left, cur)
        decreases |tokens| - cur
      {
        var more := MatchAny(TermOps);
        if !more {
          return Ok(left);
        }
        var op := Previous();
        var right :- Factor();
        left := BinaryExpr(left, op, right);
      }
    }

    method Factor() returns (r: Result<Expr>)
      requires Valid()
      modifies this
      ensures Valid()
      ensures ParseFactor(stof, tokens, old(cur)) == Lift(r, cur)
      decreases |tokens| - cur, 2
    {
      var left :- Unary();
      ghost var start := old(cur);
      while true
        invariant Valid() && start < cur
        invariant ParseFactor(stof, tokens, start) == FactorTail(stof, tokens, left, cur)
        decreases |tokens| - cur
      {
        var more := MatchAny(FactorOps);
        if !more {
          return Ok(left);
        }
        var op := Previous();
        var right :- Unary();
        left := BinaryExpr(left, op, right);
      }
    }

    method Unary() returns (r: Result<Expr>)
      requires Valid()
      modifies this
      ensures Valid()
      ensures ParseUnary(stof, tokens, old(cur)) == Lift(r, cur)
      decreases |tokens| - cur, 1
    {
      var isPrefix := MatchAny(UnaryOps);
      if isPrefix {
        var op := Previous();
        var operand :- Unary();
        return Ok(UnaryExpr(op, operand));
      }
      r := Primary();
    }

    method Primary() returns (r: Result<Expr>)
      requires Valid()
      modifies this
      ensures Valid()
      ensures ParsePrimary(stof, tokens, old(cur)) == Lift(r, cur)
      decreases |tokens| - cur, 0
    {
      var ok := Match(Number);
      if ok {
        return Ok(LiteralExpr(stof(Previous().lexeme)));
      }
      ok := Match(Identifier);
      if ok {
        return Ok(IdentifierExpr(Previous().lexeme));
      }
      ok := Match(LeftParen);
      if ok {
        var e :- Expression();
        var closed := Match(RightParen);
        if closed {
          return Ok(e);
        }
      }
      return Err(UnrecognisedMsg);
    }
  }
}
