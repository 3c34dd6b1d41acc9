/** What the PoliteLang parser promises beyond one call: the token list of a statement
    parses back to that statement, expressions fold to the left, and nothing the
    tokenizer emits ever parses as a `Given` loop. */
module PoliteParserProps {
  import opened Common
  import opened PoliteLexer
  import opened PoliteLexerProps
  import opened PoliteParser

  // ---------------------------------------------------------------------------
  // Statements back to tokens

  function UnparseExpr(e: Expr): (u: seq<Token>)
    ensures |u| > 0
  {
    match e
    case Lit(text) => [Token(Literal, text)]
    case Ident(name) => [Token(Identifier, name)]
    case Binary(l, op, r) => UnparseExpr(l) + [Token(Operator, op)] + UnparseExpr(r)
    case Group(inner) => [Token(Separator, "(")] + UnparseExpr(inner) + [Token(Separator, ")")]
  }

  function UnparseStmt(s: Stmt): (u: seq<Token>)
    ensures |u| > 0 && u[0] == Token(Keyword, LeadingKeyword(s))
    decreases s, 2
  {
    match s
    case Assignment(name, value) =>
      [Token(Keyword, "pls"), Token(Identifier, name), Token(Operator, "=")] + UnparseExpr(value) +
      [Token(EndStatement, EndMarker)]
    case Print(command, arg) =>
      [Token(Keyword, command), Token(Separator, "(")] + UnparseExpr(arg) +
      [Token(Separator, ")"), Token(EndStatement, EndMarker)]
    case If(cond, thenBody, elseBody) =>
      [Token(Keyword, "Check")] + UnparseCondition(cond) + UnparseBraced(thenBody) + UnparseElse(elseBody)
    case While(cond, body) =>
      [Token(Keyword, "During")] + UnparseCondition(cond) + UnparseBraced(body)
    case ForEach(name, iterable, body) =>
      [Token(Keyword, "Given"), Token(Identifier, name), Token(Keyword, "in")] + UnparseExpr(iterable) +
      UnparseBraced(body)
  }

  /** `( cond )` after `Check` and `During`. */
  function UnparseCondition(cond: Expr): (u: seq<Token>)
    ensures |u| == |UnparseExpr(cond)| + 2
  {
    [Token(Separator, "(")] + UnparseExpr(cond) + [Token(Separator, ")")]
  }

  function UnparseElse(elseBody: ElsePart): seq<Token>
    decreases elseBody, 2
  {
    match elseBody
    case NoElse => []
    case Otherwise(body) => [Token(Keyword, "otherwise")] + UnparseBraced(body)
  }

  function UnparseBraced(body: seq<Stmt>): (u: seq<Token>)
    ensures |u| >= 2 && u[0] == Token(Separator, "{")
    decreases body, 1
  {
    [Token(Separator, "{")] + UnparseBody(body) + [Token(Separator, "}")]
  }

  function UnparseBody(stmts: seq<Stmt>): seq<Token>
    decreases stmts, 0
  {
    if stmts == [] then [] else UnparseStmt(stmts[0]) + UnparseBody(stmts[1..])
  }

  /** The statements the parser can produce: print statements use one of the three
      print keywords and operator chains nest to the left. */
  predicate WfStmt(s: Stmt)
    decreases s, 1
  {
    match s
    case Assignment(_, value) => LeftNested(value)
    case Print(command, arg) => command in PrintCommands && LeftNested(arg)
    case If(cond, thenBody, elseBody) => LeftNested(cond) && WfBody(thenBody) && WfElse(elseBody)
    case While(cond, body) => LeftNested(cond) && WfBody(body)
    case ForEach(_, iterable, body) => LeftNested(iterable) && WfBody(body)
  }

  predicate WfElse(elseBody: ElsePart)
    decreases elseBody, 1
  {
    match elseBody
    case NoElse => true
    case Otherwise(body) => WfBody(body)
  }

  predicate WfBody(stmts: seq<Stmt>)
    decreases stmts, 0
  {
    stmts == [] || (WfStmt(stmts[0]) && WfBody(stmts[1..]))
  }

  /** Sizes that shrink from a statement to the statements it holds. */
  function StmtSize(s: Stmt): nat
    decreases s, 1
  {
    match s
    case If(_, thenBody, elseBody) => 1 + BodySize(thenBody) + ElseSize(elseBody)
    case While(_, body) => 1 + BodySize(body)
    case ForEach(_, _, body) => 1 + BodySize(body)
    case _ => 1
  }

  function ElseSize(elseBody: ElsePart): nat
    decreases elseBody, 1
  {
    match elseBody
    case NoElse => 0
    case Otherwise(body) => 1 + BodySize(body)
  }

  function BodySize(stmts: seq<Stmt>): nat
    decreases stmts, 0
  {
    if stmts == [] then 0 else 1 + StmtSize(stmts[0]) + BodySize(stmts[1..])
  }

  // ---------------------------------------------------------------------------
  // Token lists with a known stretch
  //
  // The lemmas below take every position they talk about as a variable, tied to the
  // positions before it by an equation, so that a fact about one stretch is stated at
  // exactly the position the next lemma asks for.

  /** After a statement, the next token (if any) does not read `otherwise`: a lone
      `Check` would otherwise take it as its else part. */
  predicate NotOtherwise(tokens: seq<Token>, pos: nat) {
    pos >= |tokens| || tokens[pos].value != "otherwise"
  }

  // ---------------------------------------------------------------------------
  // Expressions: parsing the tokens of a left-nested expression gives it back

  function ExprSize(e: Expr): nat {
    match e
    case Lit(_) => 1
    case Ident(_) => 1
    case Binary(l, _, r) => ExprSize(l) + ExprSize(r) + 1
    case Group(inner) => ExprSize(inner) + 1
  }

  /** The first operand of an operator chain. */
  function Leftmost(e: Expr): (r: Expr)
    ensures !r.Binary? && ExprSize(r) <= ExprSize(e)
    ensures LeftNested(e) ==> LeftNested(r)
  {
    if e.Binary? then Leftmost(e.left) else e
  }

  /** The tokens of an operator chain after its first operand. */
  function ChainTail(e: Expr): seq<Token> {
    if e.Binary? then ChainTail(e.left) + [Token(Operator, e.op)] + UnparseExpr(e.right) else []
  }

  /** The chain `e` with its first operand replaced by `x`. */
  function Rebase(e: Expr, x: Expr): (r: Expr)
    ensures LeftNested(e) && LeftNested(x) ==> LeftNested(r)
  {
    if e.Binary? then Binary(Rebase(e.left, x), e.op, e.right) else x
  }

  lemma {:induction false} ChainSplit(e: Expr)
    ensures UnparseExpr(e) == UnparseExpr(Leftmost(e)) + ChainTail(e)
    ensures Rebase(e, Leftmost(e)) == e
  {
    if e.Binary? {
      ChainSplit(e.left);
      assert UnparseExpr(e) == UnparseExpr(e.left) + [Token(Operator, e.op)] + UnparseExpr(e.right);
    }
  }

  // One lemma per step of the expression parser: what it returns once its parts are
  // known.

  lemma GroupSteps(tokens: seq<Token>, pos: nat, inner: Expr, p1: nat, close: nat, end: nat)
    requires p1 == pos + 1 && end == close + 1 && p1 <= |tokens|
    requires TokensAt(tokens, pos, [Token(Separator, "(")])
    requires ExpressionAt(tokens, p1) == Success(Parsed(inner, close))
    requires TokensAt(tokens, close, [Token(Separator, ")")])
    ensures PrimaryAt(tokens, pos) == Success(Parsed(Group(inner), end))
  {
    TokensAtIndex(tokens, pos, [Token(Separator, "(")], 0, pos);
    TokensAtIndex(tokens, close, [Token(Separator, ")")], 0, close);
    assert ExpressionAt(tokens, pos + 1) == Success(Parsed(inner, close));
  }

  lemma OperatorStep(tokens: seq<Token>, pos: nat, left: Expr, op: string, p1: nat, right: Expr, next: nat)
    requires p1 == pos + 1 && LeftNested(left)
    requires TokensAt(tokens, pos, [Token(Operator, op)])
    requires PrimaryAt(tokens, p1) == Success(Parsed(right, next))
    ensures next <= |tokens| && LeftNested(Binary(left, op, right))
    ensures OperatorsAt(tokens, pos, left) == OperatorsAt(tokens, next, Binary(left, op, right))
  {
    TokensAtIndex(tokens, pos, [Token(Operator, op)], 0, pos);
    assert PrimaryAt(tokens, pos + 1) == Success(Parsed(right, next));
  }

  lemma OperatorsEnd(tokens: seq<Token>, pos: nat, e: Expr)
    requires pos <= |tokens| && LeftNested(e)
    requires pos == |tokens| || tokens[pos].kind != Operator
    ensures OperatorsAt(tokens, pos, e) == Success(Parsed(e, pos))
  {
  }

  lemma ExpressionSteps(tokens: seq<Token>, pos: nat, first: Expr, mid: nat)
    requires pos <= |tokens| && PrimaryAt(tokens, pos) == Success(Parsed(first, mid))
    ensures mid <= |tokens| && LeftNested(first)
    ensures ExpressionAt(tokens, pos) == OperatorsAt(tokens, mid, first)
  {
  }

  lemma {:induction false} PrimaryRoundTrip(tokens: seq<Token>, pos: nat, e: Expr, end: nat)
    requires !e.Binary? && LeftNested(e) && TokensAt(tokens, pos, UnparseExpr(e))
    requires end == pos + |UnparseExpr(e)|
    ensures PrimaryAt(tokens, pos) == Success(Parsed(e, end))
    decreases ExprSize(e), 0
  {
    TokensAtIndex(tokens, pos, UnparseExpr(e), 0, pos);
    if e.Group? {
      var u := UnparseExpr(e.inner);
      var p1 := pos + 1;
      var close := p1 + |u|;
      TokensAtSplit3(tokens, pos, [Token(Separator, "(")], u, [Token(Separator, ")")], p1, close);
      TokensAtIndex(tokens, close, [Token(Separator, ")")], 0, close);
      ExpressionRoundTrip(tokens, p1, e.inner, close);
      GroupSteps(tokens, pos, e.inner, p1, close, end);
    }
  }

  /** Reading the rest of a chain folds each operator and operand onto `x`, leftmost
      first. */
  lemma {:induction false} ChainRoundTrip(tokens: seq<Token>, pos: nat, x: Expr, e: Expr, end: nat)
    requires LeftNested(e) && LeftNested(x) && TokensAt(tokens, pos, ChainTail(e))
    requires end == pos + |ChainTail(e)|
    ensures OperatorsAt(tokens, pos, x) == OperatorsAt(tokens, end, Rebase(e, x))
    decreases ExprSize(e), 1
  {
    if e.Binary? {
      var t := ChainTail(e.left);
      var u := UnparseExpr(e.right);
      var q := pos + |t|;
      var q1 := q + 1;
      TokensAtSplit3(tokens, pos, t, [Token(Operator, e.op)], u, q, q1);
      ChainRoundTrip(tokens, pos, x, e.left, q);
      PrimaryRoundTrip(tokens, q1, e.right, end);
      OperatorStep(tokens, q, Rebase(e.left, x), e.op, q1, e.right, end);
    }
  }

  lemma {:induction false} ExpressionRoundTrip(tokens: seq<Token>, pos: nat, e: Expr, end: nat)
    requires LeftNested(e) && TokensAt(tokens, pos, UnparseExpr(e))
    requires end == pos + |UnparseExpr(e)|
    requires end == |tokens| || tokens[end].kind != Operator
    ensures ExpressionAt(tokens, pos) == Success(Parsed(e, end))
    decreases ExprSize(e), 2
  {
    var first := Leftmost(e);
    var mid := pos + |UnparseExpr(first)|;
    ChainSplit(e);
    TokensAtSplit(tokens, pos, UnparseExpr(first), ChainTail(e), mid);
    PrimaryRoundTrip(tokens, pos, first, mid);
    ExpressionSteps(tokens, pos, first, mid);
    ChainRoundTrip(tokens, mid, first, e, end);
    OperatorsEnd(tokens, end, e);
  }

  // ---------------------------------------------------------------------------
  // Statements, blocks and programs

  /** `stmts` are read as a block from `pos`, up to `end`. */
  predicate BlockReads(tokens: seq<Token>, pos: nat, stmts: seq<Stmt>, end: nat) {
    pos <= |tokens| && BlockAt(tokens, pos) == Success(Parsed(stmts, end))
  }

  /** `s` is read as a statement from `pos`, up to `end`. */
  predicate StatementReads(tokens: seq<Token>, pos: nat, s: Stmt, end: nat) {
    pos <= |tokens| && StatementAt(tokens, pos) == Success(Parsed(s, end))
  }

  /** The then-block and else part of `parse_if`, read from `pos`. */
  function IfTailAt(tokens: seq<Token>, pos: nat): Result<Parsed<(seq<Stmt>, ElsePart)>, ParseError>
    requires pos <= |tokens|
  {
    var thenBody :- BracedAt(tokens, pos);
    var elseBody :- ElseAt(tokens, thenBody.next);
    Success(Parsed((thenBody.value, elseBody.value), elseBody.next))
  }

  // One lemma per parse function: what it returns once each of its steps is known.

  lemma AssignmentSteps(tokens: seq<Token>, pos: nat, name: string, e: Expr, p3: nat, close: nat, end: nat)
    requires p3 == pos + 3 && end == close + 1 && p3 <= |tokens|
    requires TokensAt(tokens, pos, [Token(Keyword, "pls"), Token(Identifier, name), Token(Operator, "=")])
    requires ExpressionAt(tokens, p3) == Success(Parsed(e, close))
    requires TokensAt(tokens, close, [Token(EndStatement, EndMarker)])
    ensures AssignmentAt(tokens, pos) == Success(Parsed(Assignment(name, e), end))
  {
    var head := [Token(Keyword, "pls"), Token(Identifier, name), Token(Operator, "=")];
    TokensAtIndex(tokens, pos, head, 0, pos);
    TokensAtIndex(tokens, pos, head, 1, pos + 1);
    TokensAtIndex(tokens, pos, head, 2, pos + 2);
    TokensAtIndex(tokens, close, [Token(EndStatement, EndMarker)], 0, close);
    assert ExpectAt(tokens, pos + 1, Identifier, None) == Success(Token(Identifier, name));
    assert ExpectAt(tokens, pos + 2, Operator, Some("=")).Success?;
    assert ExpressionAt(tokens, pos + 3) == Success(Parsed(e, close));
  }

  lemma PrintSteps(tokens: seq<Token>, pos: nat, command: string, e: Expr, p2: nat, close: nat, end: nat)
    requires p2 == pos + 2 && end == close + 2 && p2 <= |tokens|
    requires TokensAt(tokens, pos, [Token(Keyword, command), Token(Separator, "(")])
    requires ExpressionAt(tokens, p2) == Success(Parsed(e, close))
    requires TokensAt(tokens, close, [Token(Separator, ")"), Token(EndStatement, EndMarker)])
    ensures PrintAt(tokens, pos, command) == Success(Parsed(Print(command, e), end))
  {
    var head := [Token(Keyword, command), Token(Separator, "(")];
    var tail := [Token(Separator, ")"), Token(EndStatement, EndMarker)];
    TokensAtIndex(tokens, pos, head, 0, pos);
    TokensAtIndex(tokens, pos, head, 1, pos + 1);
    TokensAtIndex(tokens, close, tail, 0, close);
    TokensAtIndex(tokens, close, tail, 1, close + 1);
    assert ExpectAt(tokens, pos + 1, Separator, Some("(")).Success?;
    assert ExpectAt(tokens, close + 1, EndStatement, Some(EndMarker)).Success?;
    assert ExpressionAt(tokens, pos + 2) == Success(Parsed(e, close));
  }

  lemma IfSteps(tokens: seq<Token>, pos: nat, c: Expr, p1: nat, p2: nat, close: nat, open: nat,
                t: seq<Stmt>, el: ElsePart, end: nat)
    requires p1 == pos + 1 && p2 == p1 + 1 && open == close + 1 && p2 <= |tokens| && open <= |tokens|
    requires TokensAt(tokens, pos, [Token(Keyword, "Check")]) && TokensAt(tokens, p1, [Token(Separator, "(")])
    requires ExpressionAt(tokens, p2) == Success(Parsed(c, close))
    requires TokensAt(tokens, close, [Token(Separator, ")")])
    requires IfTailAt(tokens, open) == Success(Parsed((t, el), end))
    ensures IfAt(tokens, pos) == Success(Parsed(If(c, t, el), end))
  {
    TokensAtIndex(tokens, pos, [Token(Keyword, "Check")], 0, pos);
    TokensAtIndex(tokens, p1, [Token(Separator, "(")], 0, pos + 1);
    TokensAtIndex(tokens, close, [Token(Separator, ")")], 0, close);
    IfStepsTokens(tokens, pos, c, close, t, el, end);
  }

  lemma IfStepsTokens(tokens: seq<Token>, pos: nat, c: Expr, close: nat, t: seq<Stmt>, el: ElsePart, end: nat)
    requires pos + 2 <= |tokens| && close < |tokens|
    requires tokens[pos] == Token(Keyword, "Check") && tokens[pos + 1] == Token(Separator, "(")
    requires ExpressionAt(tokens, pos + 2) == Success(Parsed(c, close))
    requires tokens[close] == Token(Separator, ")")
    requires IfTailAt(tokens, close + 1) == Success(Parsed((t, el), end))
    ensures IfAt(tokens, pos) == Success(Parsed(If(c, t, el), end))
  {
    assert ExpectAt(tokens, pos, Keyword, Some("Check")).Success?;
    assert ExpectAt(tokens, pos + 1, Separator, Some("(")).Success?;
    assert ExpectAt(tokens, close, Separator, Some(")")).Success?;
  }

  lemma IfTailSteps(tokens: seq<Token>, pos: nat, t: seq<Stmt>, q: nat, el: ElsePart, end: nat)
    requires pos <= |tokens| && q <= |tokens|
    requires BracedAt(tokens, pos) == Success(Parsed(t, q))
    requires ElseAt(tokens, q) == Success(Parsed(el, end))
    ensures IfTailAt(tokens, pos) == Success(Parsed((t, el), end))
  {
  }

  lemma WhileSteps(tokens: seq<Token>, pos: nat, c: Expr, p1: nat, p2: nat, close: nat, open: nat,
                   body: seq<Stmt>, end: nat)
    requires p1 == pos + 1 && p2 == p1 + 1 && open == close + 1 && p2 <= |tokens| && open <= |tokens|
    requires TokensAt(tokens, pos, [Token(Keyword, "During")]) && TokensAt(tokens, p1, [Token(Separator, "(")])
    requires ExpressionAt(tokens, p2) == Success(Parsed(c, close))
    requires TokensAt(tokens, close, [Token(Separator, ")")])
    requires BracedAt(tokens, open) == Success(Parsed(body, end))
    ensures WhileAt(tokens, pos) == Success(Parsed(While(c, body), end))
  {
    TokensAtIndex(tokens, pos, [Token(Keyword, "During")], 0, pos);
    TokensAtIndex(tokens, p1, [Token(Separator, "(")], 0, pos + 1);
    TokensAtIndex(tokens, close, [Token(Separator, ")")], 0, close);
    WhileStepsTokens(tokens, pos, c, close, body, end);
  }

  lemma WhileStepsTokens(tokens: seq<Token>, pos: nat, c: Expr, close: nat, body: seq<Stmt>, end: nat)
    requires pos + 2 <= |tokens| && close < |tokens|
    requires tokens[pos] == Token(Keyword, "During") && tokens[pos + 1] == Token(Separator, "(")
    requires ExpressionAt(tokens, pos + 2) == Success(Parsed(c, close))
    requires tokens[close] == Token(Separator, ")")
    requires BracedAt(tokens, close + 1) == Success(Parsed(body, end))
    ensures WhileAt(tokens, pos) == Success(Parsed(While(c, body), end))
  {
    assert ExpectAt(tokens, pos, Keyword, Some("During")).Success?;
    assert ExpectAt(tokens, pos + 1, Separator, Some("(")).Success?;
    assert ExpectAt(tokens, close, Separator, Some(")")).Success?;
  }

  lemma ForSteps(tokens: seq<Token>, pos: nat, name: string, e: Expr, p3: nat, open: nat, body: seq<Stmt>, end: nat)
    requires p3 == pos + 3 && p3 <= |tokens| && open <= |tokens|
    requires TokensAt(tokens, pos, [Token(Keyword, "Given"), Token(Identifier, name), Token(Keyword, "in")])
    requires ExpressionAt(tokens, p3) == Success(Parsed(e, open))
    requires BracedAt(tokens, open) == Success(Parsed(body, end))
    ensures ForAt(tokens, pos) == Success(Parsed(ForEach(name, e, body), end))
  {
    var head := [Token(Keyword, "Given"), Token(Identifier, name), Token(Keyword, "in")];
    TokensAtIndex(tokens, pos, head, 0, pos);
    TokensAtIndex(tokens, pos, head, 1, pos + 1);
    TokensAtIndex(tokens, pos, head, 2, pos + 2);
    assert ExpectAt(tokens, pos + 1, Identifier, None) == Success(Token(Identifier, name));
    assert ExpectAt(tokens, pos + 2, Keyword, Some("in")).Success?;
    assert ExpressionAt(tokens, pos + 3) == Success(Parsed(e, open));
  }

  lemma ElseSteps(tokens: seq<Token>, pos: nat, body: seq<Stmt>, p1: nat, end: nat)
    requires p1 == pos + 1 && p1 <= |tokens|
    requires TokensAt(tokens, pos, [Token(Keyword, "otherwise")])
    requires BracedAt(tokens, p1) == Success(Parsed(body, end))
    ensures ElseAt(tokens, pos) == Success(Parsed(Otherwise(body), end))
  {
    TokensAtIndex(tokens, pos, [Token(Keyword, "otherwise")], 0, pos);
    assert BracedAt(tokens, pos + 1) == Success(Parsed(body, end));
  }

  lemma BracedSteps(tokens: seq<Token>, pos: nat, body: seq<Stmt>, p1: nat, close: nat, end: nat)
    requires p1 == pos + 1 && end == close + 1
    requires TokensAt(tokens, pos, [Token(Separator, "{")])
    requires BlockReads(tokens, p1, body, close)
    requires TokensAt(tokens, close, [Token(Separator, "}")])
    ensures BracedAt(tokens, pos) == Success(Parsed(body, end))
  {
    TokensAtIndex(tokens, pos, [Token(Separator, "{")], 0, pos);
    TokensAtIndex(tokens, close, [Token(Separator, "}")], 0, close);
    assert BlockAt(tokens, pos + 1) == Success(Parsed(body, close));
  }

  lemma BlockSteps(tokens: seq<Token>, pos: nat, s: Stmt, next: nat, rest: seq<Stmt>, end: nat)
    requires pos < |tokens| && tokens[pos].kind != Separator
    requires StatementReads(tokens, pos, s, next)
    requires BlockReads(tokens, next, rest, end)
    ensures BlockReads(tokens, pos, [s] + rest, end)
  {
  }

  lemma BlockEndSteps(tokens: seq<Token>, pos: nat)
    requires pos == |tokens| || (pos < |tokens| && tokens[pos].kind == Separator)
    ensures BlockReads(tokens, pos, [], pos)
  {
  }

  lemma ProgramSteps(tokens: seq<Token>, pos: nat, s: Stmt, next: nat, rest: seq<Stmt>)
    requires pos < |tokens|
    requires StatementReads(tokens, pos, s, next)
    requires ProgramFrom(tokens, next) == Success(rest)
    ensures ProgramFrom(tokens, pos) == Success([s] + rest)
  {
  }

  /** Which parse function `parse_statement` hands a keyword to. */
  lemma StatementDispatch(tokens: seq<Token>, pos: nat)
    requires pos < |tokens| && tokens[pos].kind == Keyword
    ensures tokens[pos].value == "pls" ==> StatementAt(tokens, pos) == AssignmentAt(tokens, pos)
    ensures tokens[pos].value in PrintCommands ==> StatementAt(tokens, pos) == PrintAt(tokens, pos, tokens[pos].value)
    ensures tokens[pos].value == "Check" ==> StatementAt(tokens, pos) == IfAt(tokens, pos)
    ensures tokens[pos].value == "During" ==> StatementAt(tokens, pos) == WhileAt(tokens, pos)
    ensures tokens[pos].value == "Given" ==> StatementAt(tokens, pos) == ForAt(tokens, pos)
  {
  }

  lemma LeadingKeywordOfStatement(s: Stmt)
    requires WfStmt(s)
    ensures LeadingKeyword(s) in StatementKeywords && LeadingKeyword(s) != "otherwise"
  {
  }

  // The round trips themselves, one per parse function.

  lemma {:induction false} StatementRoundTrip(tokens: seq<Token>, pos: nat, s: Stmt, end: nat)
    requires WfStmt(s) && TokensAt(tokens, pos, UnparseStmt(s)) && end == pos + |UnparseStmt(s)|
    requires NotOtherwise(tokens, end)
    ensures StatementReads(tokens, pos, s, end)
    decreases StmtSize(s), 6
  {
    TokensAtIndex(tokens, pos, UnparseStmt(s), 0, pos);
    StatementDispatch(tokens, pos);
    match s
    case Assignment(_, _) => AssignmentRoundTrip(tokens, pos, s, end);
    case Print(_, _) => PrintRoundTrip(tokens, pos, s, end);
    case If(cond, thenBody, elseBody) => IfRoundTrip(tokens, pos, cond, thenBody, elseBody, end);
    case While(cond, body) => WhileRoundTrip(tokens, pos, cond, body, end);
    case ForEach(_, _, _) => ForRoundTrip(tokens, pos, s, end);
  }

  lemma AssignmentRoundTrip(tokens: seq<Token>, pos: nat, s: Stmt, end: nat)
    requires s.Assignment? && WfStmt(s) && TokensAt(tokens, pos, UnparseStmt(s))
    requires end == pos + |UnparseStmt(s)|
    ensures AssignmentAt(tokens, pos) == Success(Parsed(s, end))
  {
    var head := [Token(Keyword, "pls"), Token(Identifier, s.name), Token(Operator, "=")];
    var u := UnparseExpr(s.value);
    var tail := [Token(EndStatement, EndMarker)];
    var p3 := pos + 3;
    var close := p3 + |u|;
    TokensAtSplit3(tokens, pos, head, u, tail, p3, close);
    TokensAtIndex(tokens, close, tail, 0, close);
    ExpressionRoundTrip(tokens, p3, s.value, close);
    AssignmentSteps(tokens, pos, s.name, s.value, p3, close, end);
  }

  lemma PrintRoundTrip(tokens: seq<Token>, pos: nat, s: Stmt, end: nat)
    requires s.Print? && WfStmt(s) && TokensAt(tokens, pos, UnparseStmt(s))
    requires end == pos + |UnparseStmt(s)|
    ensures PrintAt(tokens, pos, s.command) == Success(Parsed(s, end))
  {
    var head := [Token(Keyword, s.command), Token(Separator, "(")];
    var u := UnparseExpr(s.arg);
    var tail := [Token(Separator, ")"), Token(EndStatement, EndMarker)];
    var p2 := pos + 2;
    var close := p2 + |u|;
    TokensAtSplit3(tokens, pos, head, u, tail, p2, close);
    TokensAtIndex(tokens, close, tail, 0, close);
    ExpressionRoundTrip(tokens, p2, s.arg, close);
    PrintSteps(tokens, pos, s.command, s.arg, p2, close, end);
  }

  /** `( cond )` of `Check` and `During`, read from `pos`. */
  lemma ConditionRoundTrip(tokens: seq<Token>, pos: nat, cond: Expr, p1: nat, close: nat)
    requires LeftNested(cond) && TokensAt(tokens, pos, UnparseCondition(cond))
    requires p1 == pos + 1 && close == p1 + |UnparseExpr(cond)|
    ensures p1 <= |tokens|
    ensures TokensAt(tokens, pos, [Token(Separator, "(")])
    ensures ExpressionAt(tokens, p1) == Success(Parsed(cond, close))
    ensures TokensAt(tokens, close, [Token(Separator, ")")])
  {
    var close1 := [Token(Separator, ")")];
    TokensAtSplit3(tokens, pos, [Token(Separator, "(")], UnparseExpr(cond), close1, p1, close);
    TokensAtIndex(tokens, close, close1, 0, close);
    ExpressionRoundTrip(tokens, p1, cond, close);
  }

  lemma {:induction false} IfRoundTrip(tokens: seq<Token>, pos: nat, cond: Expr, thenBody: seq<Stmt>, elseBody: ElsePart, end: nat)
    requires LeftNested(cond) && WfBody(thenBody) && WfElse(elseBody)
    requires TokensAt(tokens, pos, UnparseStmt(If(cond, thenBody, elseBody)))
    requires end == pos + |UnparseStmt(If(cond, thenBody, elseBody))| && NotOtherwise(tokens, end)
    ensures IfAt(tokens, pos) == Success(Parsed(If(cond, thenBody, elseBody), end))
    decreases StmtSize(If(cond, thenBody, elseBody)), 5
  {
    var c := UnparseCondition(cond);
    var b := UnparseBraced(thenBody);
    var p1 := pos + 1;
    var p2 := p1 + 1;
    var open := p1 + |c|;
    var close := open - 1;
    var q := open + |b|;
    TokensAtSplit4(tokens, pos, [Token(Keyword, "Check")], c, b, UnparseElse(elseBody), p1, open, q);
    ConditionRoundTrip(tokens, p1, cond, p2, close);
    IfTailRoundTrip(tokens, open, thenBody, elseBody, q, end);
    IfSteps(tokens, pos, cond, p1, p2, close, open, thenBody, elseBody, end);
  }

  lemma {:induction false} IfTailRoundTrip(tokens: seq<Token>, pos: nat, thenBody: seq<Stmt>, elseBody: ElsePart, q: nat, end: nat)
    requires WfBody(thenBody) && WfElse(elseBody)
    requires q == pos + |UnparseBraced(thenBody)| && end == q + |UnparseElse(elseBody)|
    requires TokensAt(tokens, pos, UnparseBraced(thenBody)) && TokensAt(tokens, q, UnparseElse(elseBody))
    requires NotOtherwise(tokens, end)
    ensures IfTailAt(tokens, pos) == Success(Parsed((thenBody, elseBody), end))
    decreases 1 + BodySize(thenBody) + ElseSize(elseBody), 4
  {
    BracedRoundTrip(tokens, pos, thenBody, q);
    ElseRoundTrip(tokens, q, elseBody, end);
    IfTailSteps(tokens, pos, thenBody, q, elseBody, end);
  }

  lemma {:induction false} WhileRoundTrip(tokens: seq<Token>, pos: nat, cond: Expr, body: seq<Stmt>, end: nat)
    requires LeftNested(cond) && WfBody(body) && TokensAt(tokens, pos, UnparseStmt(While(cond, body)))
    requires end == pos + |UnparseStmt(While(cond, body))|
    ensures WhileAt(tokens, pos) == Success(Parsed(While(cond, body), end))
    decreases StmtSize(While(cond, body)), 5
  {
    var c := UnparseCondition(cond);
    var p1 := pos + 1;
    var p2 := p1 + 1;
    var open := p1 + |c|;
    var close := open - 1;
    TokensAtSplit3(tokens, pos, [Token(Keyword, "During")], c, UnparseBraced(body), p1, open);
    ConditionRoundTrip(tokens, p1, cond, p2, close);
    BracedRoundTrip(tokens, open, body, end);
    WhileSteps(tokens, pos, cond, p1, p2, close, open, body, end);
  }

  lemma {:induction false} ForRoundTrip(tokens: seq<Token>, pos: nat, s: Stmt, end: nat)
    requires s.ForEach? && WfStmt(s) && TokensAt(tokens, pos, UnparseStmt(s))
    requires end == pos + |UnparseStmt(s)|
    ensures ForAt(tokens, pos) == Success(Parsed(s, end))
    decreases StmtSize(s), 5
  {
    var head := [Token(Keyword, "Given"), Token(Identifier, s.name), Token(Keyword, "in")];
    var u := UnparseExpr(s.iterable);
    var braced := UnparseBraced(s.body);
    var p3 := pos + 3;
    var open := p3 + |u|;
    TokensAtSplit3(tokens, pos, head, u, braced, p3, open);
    TokensAtIndex(tokens, open, braced, 0, open);
    ExpressionRoundTrip(tokens, p3, s.iterable, open);
    BracedRoundTrip(tokens, open, s.body, end);
    ForSteps(tokens, pos, s.name, s.iterable, p3, open, s.body, end);
  }

  lemma {:induction false} ElseRoundTrip(tokens: seq<Token>, pos: nat, elseBody: ElsePart, end: nat)
    requires WfElse(elseBody) && TokensAt(tokens, pos, UnparseElse(elseBody))
    requires end == pos + |UnparseElse(elseBody)|
    requires elseBody.NoElse? ==> NotOtherwise(tokens, end)
    ensures ElseAt(tokens, pos) == Success(Parsed(elseBody, end))
    decreases ElseSize(elseBody), 3
  {
    match elseBody
    case NoElse =>
    case Otherwise(body) =>
      var p1 := pos + 1;
      TokensAtSplit(tokens, pos, [Token(Keyword, "otherwise")], UnparseBraced(body), p1);
      BracedRoundTrip(tokens, p1, body, end);
      ElseSteps(tokens, pos, body, p1, end);
  }

  lemma {:induction false} BracedRoundTrip(tokens: seq<Token>, pos: nat, body: seq<Stmt>, end: nat)
    requires WfBody(body) && TokensAt(tokens, pos, UnparseBraced(body))
    requires end == pos + |UnparseBraced(body)|
    ensures BracedAt(tokens, pos) == Success(Parsed(body, end))
    decreases BodySize(body), 2
  {
    var u := UnparseBody(body);
    var closing := [Token(Separator, "}")];
    var p1 := pos + 1;
    var close := p1 + |u|;
    TokensAtSplit3(tokens, pos, [Token(Separator, "{")], u, closing, p1, close);
    TokensAtIndex(tokens, close, closing, 0, close);
    BlockRoundTrip(tokens, p1, body, close);
    BracedSteps(tokens, pos, body, p1, close, end);
  }

  /** A block reads back when what follows it stops the block loop and is not an
      `otherwise` (the closing brace, or the end of the list). */
  lemma {:induction false} BlockRoundTrip(tokens: seq<Token>, pos: nat, stmts: seq<Stmt>, end: nat)
    requires WfBody(stmts) && TokensAt(tokens, pos, UnparseBody(stmts))
    requires end == pos + |UnparseBody(stmts)|
    requires end == |tokens| || (tokens[end].kind == Separator && tokens[end].value != "otherwise")
    ensures BlockReads(tokens, pos, stmts, end)
    decreases BodySize(stmts), 1
  {
    if stmts == [] {
      BlockEndSteps(tokens, pos);
    } else {
      var mid := pos + |UnparseStmt(stmts[0])|;
      assert [stmts[0]] + stmts[1..] == stmts;
      TokensAtSplit(tokens, pos, UnparseStmt(stmts[0]), UnparseBody(stmts[1..]), mid);
      BlockConsRoundTrip(tokens, pos, stmts[0], mid, stmts[1..], end);
    }
  }

  lemma {:induction false} BlockConsRoundTrip(tokens: seq<Token>, pos: nat, s: Stmt, mid: nat, rest: seq<Stmt>, end: nat)
    requires WfStmt(s) && WfBody(rest)
    requires mid == pos + |UnparseStmt(s)| && end == mid + |UnparseBody(rest)|
    requires TokensAt(tokens, pos, UnparseStmt(s)) && TokensAt(tokens, mid, UnparseBody(rest))
    requires end == |tokens| || (tokens[end].kind == Separator && tokens[end].value != "otherwise")
    ensures BlockReads(tokens, pos, [s] + rest, end)
    decreases 1 + StmtSize(s) + BodySize(rest), 0
  {
    TokensAtIndex(tokens, pos, UnparseStmt(s), 0, pos);
    NextStatement(tokens, mid, rest, end);
    StatementRoundTrip(tokens, pos, s, mid);
    BlockRoundTrip(tokens, mid, rest, end);
    BlockSteps(tokens, pos, s, mid, rest, end);
  }

  /** The token after a statement: the start of the next one (never `otherwise`), or
      whatever follows the block. */
  lemma NextStatement(tokens: seq<Token>, pos: nat, rest: seq<Stmt>, end: nat)
    requires WfBody(rest) && TokensAt(tokens, pos, UnparseBody(rest)) && end == pos + |UnparseBody(rest)|
    requires end == |tokens| || tokens[end].value != "otherwise"
    ensures NotOtherwise(tokens, pos)
  {
    if rest != [] {
      var u := UnparseStmt(rest[0]);
      TokensAtSplit(tokens, pos, u, UnparseBody(rest[1..]), pos + |u|);
      TokensAtIndex(tokens, pos, u, 0, pos);
      LeadingKeywordOfStatement(rest[0]);
    }
  }

  lemma {:induction false} ProgramRoundTripFrom(tokens: seq<Token>, pos: nat, stmts: seq<Stmt>)
    requires WfBody(stmts) && TokensAt(tokens, pos, UnparseBody(stmts))
    requires pos + |UnparseBody(stmts)| == |tokens|
    ensures ProgramFrom(tokens, pos) == Success(stmts)
    decreases stmts
  {
    if stmts != [] {
      var s := stmts[0];
      var mid := pos + |UnparseStmt(s)|;
      TokensAtSplit(tokens, pos, UnparseStmt(s), UnparseBody(stmts[1..]), mid);
      NextStatement(tokens, mid, stmts[1..], |tokens|);
      StatementRoundTrip(tokens, pos, s, mid);
      ProgramRoundTripFrom(tokens, mid, stmts[1..]);
      TokensAtIndex(tokens, pos, UnparseStmt(s), 0, pos);
      ProgramSteps(tokens, pos, s, mid, stmts[1..]);
      assert [s] + stmts[1..] == stmts;
    }
  }

  /** The tokens of a program parse back to that program. */
  lemma ProgramRoundTrip(stmts: seq<Stmt>)
    requires WfBody(stmts)
    ensures Program(UnparseBody(stmts)) == Success(stmts)
  {
    ProgramRoundTripFrom(UnparseBody(stmts), 0, stmts);
  }
}
