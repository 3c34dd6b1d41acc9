/** What the C-like parser promises beyond one call: the tokens of every expression
    and statement tree parse back to that tree, parentheses leave no node behind,
    each branch holds exactly one statement, and nothing `lexical_initial.py` emits
    ever parses to an ASSIGNMENT node. */
module CParserProps {
  import opened Common
  import opened CTokens
  import opened CParser
  import LexicalInitial

  // ---------------------------------------------------------------------------
  // Trees back to tokens

  /** The token a literal leaf came from: a float exactly when its text holds a `.`. */
  function LiteralToken(v: string): Token {
    Token(if '.' in v then FloatLiteral else IntegerLiteral, v)
  }

  function UnparseExpr(e: Node): (u: seq<Token>)
    requires IsExpr(e)
    ensures |u| > 0
    decreases e, 0
  {
    match e.kind
    case BinaryOpNode =>
      UnparseExpr(e.children[0]) + [Token(Operator, e.value.value)] + UnparseOperand(e.children[1])
    case LiteralNode => [LiteralToken(e.value.value)]
    case IdentifierNode => [Token(Identifier, e.value.value)]
  }

  /** The right operand of an operator: in parentheses when it is itself an operator
      node, since the loop of `parse_expression` folds to the left. */
  function UnparseOperand(e: Node): (u: seq<Token>)
    requires IsExpr(e)
    ensures |u| > 0
    decreases e, 1
  {
    if e.kind == BinaryOpNode then [Token(Separator, "(")] + UnparseExpr(e) + [Token(Separator, ")")]
    else UnparseExpr(e)
  }

  /** The declared type in the value of a declaration node. */
  function DeclaredType(v: string): string {
    if |v| >= 4 && v[..4] == "int " then "int" else "float"
  }

  /** The declared name in the value of a declaration node. */
  function DeclaredName(v: string): string
    requires IsDeclaration(v)
  {
    v[|DeclaredType(v)| + 1..]
  }

  function UnparseStmt(s: Node): (u: seq<Token>)
    requires IsStmt(s)
    ensures |u| > 0 && StartsStatement(u[0]) && u[0] != Token(Keyword, "else")
    decreases s, 2
  {
    match s.kind
    case AssignmentNode =>
      if s.value.None? then UnparseAssignment(s.children[0].value.value, s.children[1])
      else UnparseDeclaration(s.value.value, s.children[0])
    case ConditionalNode => UnparseIf(s.children[0], s.children[1]) + UnparseElse(s)
    case LoopNode => UnparseWhile(s.children[0], s.children[1])
    case PrintNode => UnparsePrint(s.children[0])
  }

  function UnparseAssignment(name: string, e: Node): (u: seq<Token>)
    requires IsExpr(e)
    ensures |u| > 0 && u[0] == Token(Identifier, name)
  {
    [Token(Identifier, name), Token(Assignment, "=")] + UnparseExpr(e) + [Token(Separator, ";")]
  }

  function UnparseDeclaration(v: string, e: Node): (u: seq<Token>)
    requires IsDeclaration(v) && IsExpr(e)
    ensures |u| > 0 && u[0] == Token(Keyword, DeclaredType(v))
  {
    [Token(Keyword, DeclaredType(v)), Token(Identifier, DeclaredName(v)), Token(Assignment, "=")] +
    UnparseExpr(e) + [Token(Separator, ";")]
  }

  /** A conditional up to the end of its then-branch. */
  function UnparseIf(cond: Node, thenPart: Node): (u: seq<Token>)
    requires IsExpr(cond) && IsStmt(thenPart)
    ensures |u| > 0 && u[0] == Token(Keyword, "if")
    decreases thenPart, 4
  {
    [Token(Keyword, "if")] + UnparseCondition(cond) + UnparseBlock(thenPart)
  }

  /** The `else` part of a conditional node, empty when it has two children. */
  function UnparseElse(s: Node): seq<Token>
    requires IsStmt(s) && s.kind == ConditionalNode
    decreases s, 1
  {
    if |s.children| == 3 then [Token(Keyword, "else")] + UnparseBlock(s.children[2]) else []
  }

  function UnparseWhile(cond: Node, body: Node): (u: seq<Token>)
    requires IsExpr(cond) && IsStmt(body)
    ensures |u| > 0 && u[0] == Token(Keyword, "while")
    decreases body, 4
  {
    [Token(Keyword, "while")] + UnparseCondition(cond) + UnparseBlock(body)
  }

  function UnparsePrint(e: Node): (u: seq<Token>)
    requires IsExpr(e)
    ensures |u| > 0 && u[0] == Token(Keyword, "print")
  {
    [Token(Keyword, "print")] + UnparseCondition(e) + [Token(Separator, ";")]
  }

  function UnparseCondition(e: Node): seq<Token>
    requires IsExpr(e)
  {
    [Token(Separator, "(")] + UnparseExpr(e) + [Token(Separator, ")")]
  }

  function UnparseBlock(s: Node): seq<Token>
    requires IsStmt(s)
    decreases s, 3
  {
    [Token(Separator, "{")] + UnparseStmt(s) + [Token(Separator, "}")]
  }

  function UnparseProgram(stmts: seq<Node>): seq<Token>
    requires forall i :: 0 <= i < |stmts| ==> IsStmt(stmts[i])
  {
    if stmts == [] then [] else UnparseStmt(stmts[0]) + UnparseProgram(stmts[1..])
  }

  // ---------------------------------------------------------------------------
  // Expressions

  function ExprSize(e: Node): nat {
    if |e.children| == 2 then 1 + ExprSize(e.children[0]) + ExprSize(e.children[1]) else 1
  }

  /** The first operand of an operator chain. */
  function Leftmost(e: Node): (r: Node)
    requires IsExpr(e)
    ensures IsExpr(r) && r.kind != BinaryOpNode && ExprSize(r) <= ExprSize(e)
  {
    if e.kind == BinaryOpNode then Leftmost(e.children[0]) else e
  }

  /** The tokens of an operator chain after its first operand. */
  function ChainTail(e: Node): seq<Token>
    requires IsExpr(e)
  {
    if e.kind == BinaryOpNode then ChainTail(e.children[0]) + [Token(Operator, e.value.value)] + UnparseOperand(e.children[1])
    else []
  }

  /** The chain `e` with its first operand replaced by `x`. */
  function Rebase(e: Node, x: Node): (r: Node)
    requires IsExpr(e) && IsExpr(x)
    ensures IsExpr(r)
  {
    if e.kind == BinaryOpNode then Node(BinaryOpNode, e.value, [Rebase(e.children[0], x), e.children[1]]) else x
  }

  lemma {:induction false} ChainSplit(e: Node)
    requires IsExpr(e)
    ensures UnparseExpr(e) == UnparseExpr(Leftmost(e)) + ChainTail(e)
    ensures Rebase(e, Leftmost(e)) == e
  {
    if e.kind == BinaryOpNode {
      ChainSplit(e.children[0]);
      assert [e.children[0], e.children[1]] == e.children;
    }
  }

  lemma TermLeafRoundTrip(tokens: seq<Token>, pos: nat, e: Node)
    requires IsExpr(e) && e.kind != BinaryOpNode && TokensAt(tokens, pos, UnparseExpr(e))
    ensures TermAt(tokens, pos) == Success(Parsed(e, pos + 1))
  {
    TokensAtIndex(tokens, pos, UnparseExpr(e), 0, pos);
  }

  /** An operand reads back as itself, through its parentheses when it has them. */
  lemma {:induction false} OperandRoundTrip(tokens: seq<Token>, pos: nat, e: Node, end: nat)
    requires IsExpr(e) && TokensAt(tokens, pos, UnparseOperand(e))
    requires end == pos + |UnparseOperand(e)|
    ensures TermAt(tokens, pos) == Success(Parsed(e, end))
    decreases ExprSize(e), 2
  {
    if e.kind == BinaryOpNode {
      var u := UnparseExpr(e);
      var p1 := pos + 1;
      var close := p1 + |u|;
      var closing := [Token(Separator, ")")];
      TokensAtSplit3(tokens, pos, [Token(Separator, "(")], u, closing, p1, close);
      TokensAtIndex(tokens, pos, [Token(Separator, "(")], 0, pos);
      TokensAtIndex(tokens, close, closing, 0, close);
      ExpressionRoundTrip(tokens, p1, e, close);
      ParenthesizedTerm(tokens, pos, e, close);
    } else {
      TermLeafRoundTrip(tokens, pos, e);
    }
  }

  /** A parenthesised expression is the term of its inner expression. */
  lemma ParenthesizedTerm(tokens: seq<Token>, pos: nat, e: Node, close: nat)
    requires pos < |tokens| && tokens[pos] == Token(Separator, "(")
    requires ExpressionAt(tokens, pos + 1) == Success(Parsed(e, close))
    requires close < |tokens| && tokens[close] == Token(Separator, ")")
    ensures TermAt(tokens, pos) == Success(Parsed(e, close + 1))
  {
  }

  lemma OperatorStep(tokens: seq<Token>, pos: nat, left: Node, op: string, p1: nat, right: Node, next: nat)
    requires p1 == pos + 1 && IsExpr(left)
    requires TokensAt(tokens, pos, [Token(Operator, op)])
    requires TermAt(tokens, p1) == Success(Parsed(right, next))
    ensures next <= |tokens| && IsExpr(Node(BinaryOpNode, Some(op), [left, right]))
    ensures OperatorsAt(tokens, pos, left) == OperatorsAt(tokens, next, Node(BinaryOpNode, Some(op), [left, right]))
  {
    TokensAtIndex(tokens, pos, [Token(Operator, op)], 0, pos);
    assert TermAt(tokens, pos + 1) == Success(Parsed(right, next));
  }

  /** Reading the rest of a chain folds each operator and operand onto `x`, leftmost
      first. */
  lemma {:induction false} ChainRoundTrip(tokens: seq<Token>, pos: nat, x: Node, e: Node, end: nat)
    requires IsExpr(e) && IsExpr(x) && TokensAt(tokens, pos, ChainTail(e))
    requires end == pos + |ChainTail(e)|
    ensures OperatorsAt(tokens, pos, x) == OperatorsAt(tokens, end, Rebase(e, x))
    decreases ExprSize(e), 0
  {
    if e.kind == BinaryOpNode {
      var t := ChainTail(e.children[0]);
      var u := UnparseOperand(e.children[1]);
      var q := pos + |t|;
      var q1 := q + 1;
      TokensAtSplit3(tokens, pos, t, [Token(Operator, e.value.value)], u, q, q1);
      ChainRoundTrip(tokens, pos, x, e.children[0], q);
      OperandRoundTrip(tokens, q1, e.children[1], end);
      OperatorStep(tokens, q, Rebase(e.children[0], x), e.value.value, q1, e.children[1], end);
    }
  }

  /** The tokens of an expression tree parse back to it, when no operator follows. */
  lemma {:induction false} ExpressionRoundTrip(tokens: seq<Token>, pos: nat, e: Node, end: nat)
    requires IsExpr(e) && TokensAt(tokens, pos, UnparseExpr(e))
    requires end == pos + |UnparseExpr(e)|
    requires end == |tokens| || tokens[end].kind != Operator
    ensures ExpressionAt(tokens, pos) == Success(Parsed(e, end))
    decreases ExprSize(e), 1
  {
    var first := Leftmost(e);
    var mid := pos + 1;
    ChainSplit(e);
    TokensAtSplit(tokens, pos, UnparseExpr(first), ChainTail(e), mid);
    TermLeafRoundTrip(tokens, pos, first);
    ChainRoundTrip(tokens, mid, first, e, end);
  }

  // ---------------------------------------------------------------------------
  // Statements and programs

  /** No `else` keyword at `pos`: a conditional without one would take it. */
  predicate NotElse(tokens: seq<Token>, pos: nat) {
    !ElseNext(tokens, pos)
  }

  lemma ConditionRoundTrip(tokens: seq<Token>, pos: nat, e: Node, end: nat)
    requires IsExpr(e) && TokensAt(tokens, pos, UnparseCondition(e))
    requires end == pos + |UnparseCondition(e)|
    ensures ConditionAt(tokens, pos) == Success(Parsed(e, end))
  {
    var u := UnparseExpr(e);
    var p1 := pos + 1;
    var close := p1 + |u|;
    var closing := [Token(Separator, ")")];
    TokensAtSplit3(tokens, pos, [Token(Separator, "(")], u, closing, p1, close);
    TokensAtIndex(tokens, pos, [Token(Separator, "(")], 0, pos);
    TokensAtIndex(tokens, close, closing, 0, close);
    ExpressionRoundTrip(tokens, p1, e, close);
    assert ExpressionAt(tokens, pos + 1) == Success(Parsed(e, close));
  }

  lemma {:induction false} BlockRoundTrip(tokens: seq<Token>, pos: nat, s: Node, end: nat)
    requires IsStmt(s) && TokensAt(tokens, pos, UnparseBlock(s))
    requires end == pos + |UnparseBlock(s)|
    ensures BlockAt(tokens, pos) == Success(Parsed(s, end))
    decreases s, 3
  {
    var u := UnparseStmt(s);
    var p1 := pos + 1;
    var close := p1 + |u|;
    var closing := [Token(Separator, "}")];
    TokensAtSplit3(tokens, pos, [Token(Separator, "{")], u, closing, p1, close);
    TokensAtIndex(tokens, pos, [Token(Separator, "{")], 0, pos);
    TokensAtIndex(tokens, close, closing, 0, close);
    StatementRoundTrip(tokens, p1, s, close);
    assert StatementAt(tokens, pos + 1) == Success(Parsed(s, close));
  }

  /** The tokens of a statement tree parse back to it, when no `else` follows. */
  lemma {:induction false} StatementRoundTrip(tokens: seq<Token>, pos: nat, s: Node, end: nat)
    requires IsStmt(s) && TokensAt(tokens, pos, UnparseStmt(s))
    requires end == pos + |UnparseStmt(s)| && NotElse(tokens, end)
    ensures StatementAt(tokens, pos) == Success(Parsed(s, end))
    decreases s, 2
  {
    match s.kind
    case AssignmentNode =>
      if s.value.None? {
        var name := s.children[0].value.value;
        AssignmentRoundTrip(tokens, pos, name, s.children[1], end);
        StatementDispatch(tokens, pos);
        assert [Leaf(IdentifierNode, name), s.children[1]] == s.children;
      } else {
        var v := s.value.value;
        DeclarationRoundTrip(tokens, pos, v, s.children[0], end);
        DeclarationValue(v);
        StatementDispatch(tokens, pos);
        assert [s.children[0]] == s.children;
      }
    case ConditionalNode =>
      assert UnparseStmt(s) == UnparseIf(s.children[0], s.children[1]) + UnparseElse(s);
      ConditionalRoundTrip(tokens, pos, s, end);
      StatementDispatch(tokens, pos);
    case LoopNode =>
      WhileRoundTrip(tokens, pos, s.children[0], s.children[1], end);
      StatementDispatch(tokens, pos);
      assert [s.children[0], s.children[1]] == s.children;
    case PrintNode =>
      PrintRoundTrip(tokens, pos, s.children[0], end);
      StatementDispatch(tokens, pos);
      assert [s.children[0]] == s.children;
  }

  /** Which parse function `parse_statement` hands each leading token to. */
  lemma StatementDispatch(tokens: seq<Token>, pos: nat)
    requires pos < |tokens|
    ensures tokens[pos].kind == Identifier ==> StatementAt(tokens, pos) == AssignmentAt(tokens, pos)
    ensures tokens[pos].kind == Keyword && tokens[pos].value in DeclarationTypes ==>
              StatementAt(tokens, pos) == DeclarationAt(tokens, pos)
    ensures tokens[pos] == Token(Keyword, "if") ==> StatementAt(tokens, pos) == ConditionalAt(tokens, pos)
    ensures tokens[pos] == Token(Keyword, "while") ==> StatementAt(tokens, pos) == WhileAt(tokens, pos)
    ensures tokens[pos] == Token(Keyword, "print") ==> StatementAt(tokens, pos) == PrintAt(tokens, pos)
  {
  }

  lemma {:induction false} AssignmentRoundTrip(tokens: seq<Token>, pos: nat, name: string, e: Node, end: nat)
    requires IsExpr(e) && TokensAt(tokens, pos, UnparseAssignment(name, e))
    requires end == pos + |UnparseAssignment(name, e)|
    ensures pos < |tokens| && tokens[pos] == Token(Identifier, name)
    ensures AssignmentAt(tokens, pos) == Success(Parsed(Node(AssignmentNode, None, [Leaf(IdentifierNode, name), e]), end))
  {
    var head := [Token(Identifier, name), Token(Assignment, "=")];
    var u := UnparseExpr(e);
    var tail := [Token(Separator, ";")];
    var p2 := pos + 2;
    var close := p2 + |u|;
    TokensAtSplit3(tokens, pos, head, u, tail, p2, close);
    TokensAtIndex(tokens, pos, head, 0, pos);
    TokensAtIndex(tokens, pos, head, 1, pos + 1);
    TokensAtIndex(tokens, close, tail, 0, close);
    ExpressionRoundTrip(tokens, p2, e, close);
    AssignmentSteps(tokens, pos, name, e, close);
  }

  lemma {:induction false} AssignmentSteps(tokens: seq<Token>, pos: nat, name: string, e: Node, close: nat)
    requires pos + 2 <= |tokens| && tokens[pos] == Token(Identifier, name) && tokens[pos + 1] == Token(Assignment, "=")
    requires ExpressionAt(tokens, pos + 2) == Success(Parsed(e, close))
    requires close < |tokens| && tokens[close] == Token(Separator, ";")
    ensures AssignmentAt(tokens, pos) == Success(Parsed(Node(AssignmentNode, None, [Leaf(IdentifierNode, name), e]), close + 1))
  {
  }


  /** The value of a declaration node is its type, a space and its name. */
  lemma DeclarationValue(v: string)
    requires IsDeclaration(v)
    ensures DeclaredType(v) in DeclarationTypes && DeclaredType(v) + " " + DeclaredName(v) == v
  {
    var k := |DeclaredType(v)|;
    assert v[..k + 1] == DeclaredType(v) + " ";
    assert v == v[..k + 1] + v[k + 1..];
  }

  lemma {:induction false} DeclarationRoundTrip(tokens: seq<Token>, pos: nat, v: string, e: Node, end: nat)
    requires IsDeclaration(v) && IsExpr(e) && TokensAt(tokens, pos, UnparseDeclaration(v, e))
    requires end == pos + |UnparseDeclaration(v, e)|
    ensures pos < |tokens| && tokens[pos] == Token(Keyword, DeclaredType(v))
    ensures DeclarationAt(tokens, pos) == Success(Parsed(Node(AssignmentNode, Some(v), [e]), end))
  {
    var head := [Token(Keyword, DeclaredType(v)), Token(Identifier, DeclaredName(v)), Token(Assignment, "=")];
    var u := UnparseExpr(e);
    var tail := [Token(Separator, ";")];
    var p3 := pos + 3;
    var close := p3 + |u|;
    TokensAtSplit3(tokens, pos, head, u, tail, p3, close);
    TokensAtIndex(tokens, pos, head, 0, pos);
    TokensAtIndex(tokens, pos, head, 1, pos + 1);
    TokensAtIndex(tokens, pos, head, 2, pos + 2);
    TokensAtIndex(tokens, close, tail, 0, close);
    ExpressionRoundTrip(tokens, p3, e, close);
    DeclarationValue(v);
    DeclarationSteps(tokens, pos, DeclaredType(v), DeclaredName(v), e, close);
  }

  lemma {:induction false} DeclarationSteps(tokens: seq<Token>, pos: nat, t: string, name: string, e: Node, close: nat)
    requires t in DeclarationTypes
    requires pos + 3 <= |tokens| && tokens[pos] == Token(Keyword, t) && tokens[pos + 1] == Token(Identifier, name)
    requires tokens[pos + 2] == Token(Assignment, "=")
    requires ExpressionAt(tokens, pos + 3) == Success(Parsed(e, close))
    requires close < |tokens| && tokens[close] == Token(Separator, ";")
    ensures DeclarationAt(tokens, pos) == Success(Parsed(Node(AssignmentNode, Some(t + " " + name), [e]), close + 1))
  {
  }


  lemma {:induction false} PrintRoundTrip(tokens: seq<Token>, pos: nat, e: Node, end: nat)
    requires IsExpr(e) && TokensAt(tokens, pos, UnparsePrint(e)) && end == pos + |UnparsePrint(e)|
    ensures pos < |tokens| && tokens[pos] == Token(Keyword, "print")
    ensures PrintAt(tokens, pos) == Success(Parsed(Node(PrintNode, None, [e]), end))
  {
    var c := UnparseCondition(e);
    var tail := [Token(Separator, ";")];
    var p1 := pos + 1;
    var semi := p1 + |c|;
    TokensAtSplit3(tokens, pos, [Token(Keyword, "print")], c, tail, p1, semi);
    TokensAtIndex(tokens, pos, [Token(Keyword, "print")], 0, pos);
    TokensAtIndex(tokens, semi, tail, 0, semi);
    ConditionRoundTrip(tokens, p1, e, semi);
    PrintSteps(tokens, pos, e, semi);
  }

  lemma {:induction false} PrintSteps(tokens: seq<Token>, pos: nat, e: Node, semi: nat)
    requires pos < |tokens| && tokens[pos] == Token(Keyword, "print")
    requires ConditionAt(tokens, pos + 1) == Success(Parsed(e, semi))
    requires semi < |tokens| && tokens[semi] == Token(Separator, ";")
    ensures PrintAt(tokens, pos) == Success(Parsed(Node(PrintNode, None, [e]), semi + 1))
  {
  }


  lemma {:induction false} WhileRoundTrip(tokens: seq<Token>, pos: nat, cond: Node, body: Node, end: nat)
    requires IsExpr(cond) && IsStmt(body)
    requires TokensAt(tokens, pos, UnparseWhile(cond, body)) && end == pos + |UnparseWhile(cond, body)|
    ensures pos < |tokens| && tokens[pos] == Token(Keyword, "while")
    ensures WhileAt(tokens, pos) == Success(Parsed(Node(LoopNode, None, [cond, body]), end))
    decreases body, 4
  {
    var c := UnparseCondition(cond);
    var p1 := pos + 1;
    var open := p1 + |c|;
    TokensAtSplit3(tokens, pos, [Token(Keyword, "while")], c, UnparseBlock(body), p1, open);
    TokensAtIndex(tokens, pos, [Token(Keyword, "while")], 0, pos);
    ConditionRoundTrip(tokens, p1, cond, open);
    BlockRoundTrip(tokens, open, body, end);
    WhileSteps(tokens, pos, cond, open, body, end);
  }

  lemma {:induction false} WhileSteps(tokens: seq<Token>, pos: nat, cond: Node, open: nat, body: Node, end: nat)
    requires pos < |tokens| && tokens[pos] == Token(Keyword, "while")
    requires ConditionAt(tokens, pos + 1) == Success(Parsed(cond, open))
    requires BlockAt(tokens, open) == Success(Parsed(body, end))
    ensures WhileAt(tokens, pos) == Success(Parsed(Node(LoopNode, None, [cond, body]), end))
  {
  }


  /** The optional else branch of a conditional node. */
  function ElseOf(s: Node): (r: Option<Node>)
    requires IsStmt(s) && s.kind == ConditionalNode
    ensures r.Some? ==> IsStmt(r.value)
  {
    if |s.children| == 3 then Some(s.children[2]) else None
  }

  lemma {:induction false} ConditionalRoundTrip(tokens: seq<Token>, pos: nat, s: Node, end: nat)
    requires IsStmt(s) && s.kind == ConditionalNode
    requires TokensAt(tokens, pos, UnparseIf(s.children[0], s.children[1]) + UnparseElse(s))
    requires end == pos + |UnparseIf(s.children[0], s.children[1])| + |UnparseElse(s)| && NotElse(tokens, end)
    ensures pos < |tokens| && tokens[pos] == Token(Keyword, "if")
    ensures ConditionalAt(tokens, pos) == Success(Parsed(s, end))
    decreases s, 1
  {
    var cond := s.children[0];
    var thenPart := s.children[1];
    var head := UnparseIf(cond, thenPart);
    var open := pos + 1 + |UnparseCondition(cond)|;
    var q := pos + |head|;
    TokensAtSplit(tokens, pos, head, UnparseElse(s), q);
    IfHeadRoundTrip(tokens, pos, cond, thenPart, open, q);
    ElseRoundTrip(tokens, q, s, end);
    ConditionalAssembled(tokens, pos, s, open, q, end);
  }

  /** A conditional node comes back whole once its parts have been read. */
  lemma {:induction false} ConditionalAssembled(tokens: seq<Token>, pos: nat, s: Node, open: nat, q: nat, end: nat)
    requires IsStmt(s) && s.kind == ConditionalNode
    requires pos < |tokens| && tokens[pos] == Token(Keyword, "if")
    requires ConditionAt(tokens, pos + 1) == Success(Parsed(s.children[0], open))
    requires BlockAt(tokens, open) == Success(Parsed(s.children[1], q))
    requires ElseAt(tokens, q) == Success(Parsed(ElseOf(s), end))
    ensures ConditionalAt(tokens, pos) == Success(Parsed(s, end))
  {
    IfSteps(tokens, pos, s.children[0], open, s.children[1], q, ElseOf(s), end);
    ConditionalParts(s);
  }

  /** A conditional node is rebuilt from its condition, its then-branch and its optional
      else-branch. */
  lemma ConditionalParts(s: Node)
    requires IsStmt(s) && s.kind == ConditionalNode
    ensures ConditionalNodeOf(s.children[0], s.children[1], ElseOf(s)) == s
  {
    if |s.children| == 3 {
      assert [s.children[0], s.children[1], s.children[2]] == s.children;
    } else {
      assert [s.children[0], s.children[1]] == s.children;
    }
  }

  /** The tokens of a conditional up to the end of its then-branch, read from `pos`. */
  lemma {:induction false} IfHeadRoundTrip(tokens: seq<Token>, pos: nat, cond: Node, thenPart: Node, open: nat, q: nat)
    requires IsExpr(cond) && IsStmt(thenPart) && TokensAt(tokens, pos, UnparseIf(cond, thenPart))
    requires open == pos + 1 + |UnparseCondition(cond)| && q == pos + |UnparseIf(cond, thenPart)|
    ensures pos < |tokens| && tokens[pos] == Token(Keyword, "if")
    ensures ConditionAt(tokens, pos + 1) == Success(Parsed(cond, open))
    ensures BlockAt(tokens, open) == Success(Parsed(thenPart, q))
    decreases thenPart, 4
  {
    var p1 := pos + 1;
    TokensAtSplit3(tokens, pos, [Token(Keyword, "if")], UnparseCondition(cond), UnparseBlock(thenPart), p1, open);
    TokensAtIndex(tokens, pos, [Token(Keyword, "if")], 0, pos);
    ConditionRoundTrip(tokens, p1, cond, open);
    BlockRoundTrip(tokens, open, thenPart, q);
  }

  lemma {:induction false} ElseRoundTrip(tokens: seq<Token>, pos: nat, s: Node, end: nat)
    requires IsStmt(s) && s.kind == ConditionalNode
    requires TokensAt(tokens, pos, UnparseElse(s)) && end == pos + |UnparseElse(s)|
    requires |s.children| == 2 ==> NotElse(tokens, end)
    ensures ElseAt(tokens, pos) == Success(Parsed(ElseOf(s), end))
    decreases s, 0
  {
    if |s.children| == 3 {
      var p1 := pos + 1;
      TokensAtSplit(tokens, pos, [Token(Keyword, "else")], UnparseBlock(s.children[2]), p1);
      TokensAtIndex(tokens, pos, [Token(Keyword, "else")], 0, pos);
      BlockRoundTrip(tokens, p1, s.children[2], end);
      assert BlockAt(tokens, pos + 1) == Success(Parsed(s.children[2], end));
    }
  }

  lemma {:induction false} IfSteps(tokens: seq<Token>, pos: nat, cond: Node, open: nat, thenPart: Node, q: nat,
                elsePart: Option<Node>, end: nat)
    requires pos < |tokens| && tokens[pos] == Token(Keyword, "if")
    requires ConditionAt(tokens, pos + 1) == Success(Parsed(cond, open))
    requires BlockAt(tokens, open) == Success(Parsed(thenPart, q))
    requires ElseAt(tokens, q) == Success(Parsed(elsePart, end))
    ensures ConditionalAt(tokens, pos) == Success(Parsed(ConditionalNodeOf(cond, thenPart, elsePart), end))
  {
  }


  /** The tokens of a list of statement trees parse back to that list. */
  lemma {:induction false} ParseRoundTripFrom(tokens: seq<Token>, pos: nat, stmts: seq<Node>)
    requires forall i :: 0 <= i < |stmts| ==> IsStmt(stmts[i])
    requires TokensAt(tokens, pos, UnparseProgram(stmts)) && pos + |UnparseProgram(stmts)| == |tokens|
    ensures ParseFrom(tokens, pos) == Success(stmts)
    decreases stmts
  {
    if stmts != [] {
      var s := stmts[0];
      var u := UnparseStmt(s);
      var mid := pos + |u|;
      TokensAtSplit(tokens, pos, u, UnparseProgram(stmts[1..]), mid);
      NextIsNotElse(tokens, mid, stmts[1..]);
      StatementRoundTrip(tokens, pos, s, mid);
      ParseRoundTripFrom(tokens, mid, stmts[1..]);
      assert [s] + stmts[1..] == stmts;
    }
  }

  /** What follows a statement in a program is the next statement or the end. */
  lemma NextIsNotElse(tokens: seq<Token>, pos: nat, stmts: seq<Node>)
    requires forall i :: 0 <= i < |stmts| ==> IsStmt(stmts[i])
    requires TokensAt(tokens, pos, UnparseProgram(stmts)) && pos + |UnparseProgram(stmts)| == |tokens|
    ensures NotElse(tokens, pos)
  {
    if stmts != [] {
      var u := UnparseStmt(stmts[0]);
      TokensAtSplit(tokens, pos, u, UnparseProgram(stmts[1..]), pos + |u|);
      TokensAtIndex(tokens, pos, u, 0, pos);
    }
  }

  /** Every list of statement trees is what `parse` makes of its tokens. */
  lemma ParseRoundTrip(stmts: seq<Node>)
    requires forall i :: 0 <= i < |stmts| ==> IsStmt(stmts[i])
    ensures Parse(UnparseProgram(stmts)) == Success(stmts)
  {
    ParseRoundTripFrom(UnparseProgram(stmts), 0, stmts);
  }

  // ---------------------------------------------------------------------------
  // Consequences

  /** Parentheses around a left operand leave no node behind: `(a op b) op' c` reads as
      the same tree as `a op b op' c`. */
  lemma ParenthesizedLeftOperand(tokens: seq<Token>, pos: nat, e: Node, end: nat)
    requires IsExpr(e) && e.kind == BinaryOpNode
    requires TokensAt(tokens, pos, [Token(Separator, "(")] + UnparseExpr(e.children[0]) + [Token(Separator, ")")] +
                                   [Token(Operator, e.value.value)] + UnparseOperand(e.children[1]))
    requires end == pos + |UnparseExpr(e.children[0])| + 3 + |UnparseOperand(e.children[1])|
    requires end == |tokens| || tokens[end].kind != Operator
    ensures ExpressionAt(tokens, pos) == Success(Parsed(e, end))
    ensures ExpressionAt(UnparseExpr(e), 0).Success? && ExpressionAt(UnparseExpr(e), 0).value.value == e
  {
    var left := e.children[0];
    var right := e.children[1];
    var open := [Token(Separator, "(")];
    var inner := UnparseExpr(left);
    var close := pos + 1 + |inner|;
    var opPos := close + 1;
    var operand := UnparseOperand(right);
    TokensAtSplit4(tokens, pos, open + inner, [Token(Separator, ")")], [Token(Operator, e.value.value)], operand,
                   close, opPos, opPos + 1);
    TokensAtSplit(tokens, pos, open, inner, pos + 1);
    TokensAtIndex(tokens, pos, open, 0, pos);
    TokensAtIndex(tokens, close, [Token(Separator, ")")], 0, close);
    ExpressionRoundTrip(tokens, pos + 1, left, close);
    ParenthesizedTerm(tokens, pos, left, close);
    OperandRoundTrip(tokens, opPos + 1, right, end);
    OperatorStep(tokens, opPos, left, e.value.value, opPos + 1, right, end);
    assert [left, right] == e.children;
    ExpressionRoundTrip(UnparseExpr(e), 0, e, |UnparseExpr(e)|);
  }

  /** A branch holds exactly one statement: after it, `parse_conditional` and
      `parse_while` want the closing brace, and a second statement is an error. */
  lemma {:induction false} BlockHoldsOneStatement(tokens: seq<Token>, pos: nat, s1: Node, s2: Node)
    requires IsStmt(s1) && IsStmt(s2)
    requires TokensAt(tokens, pos, [Token(Separator, "{")] + UnparseStmt(s1) + UnparseStmt(s2))
    ensures BlockAt(tokens, pos) ==
              Failure(Expected(Separator, Some("}"), Some(UnparseStmt(s2)[0])))
  {
    var u1 := UnparseStmt(s1);
    var u2 := UnparseStmt(s2);
    var mid := pos + 1 + |u1|;
    TokensAtSplit3(tokens, pos, [Token(Separator, "{")], u1, u2, pos + 1, mid);
    TokensAtIndex(tokens, pos, [Token(Separator, "{")], 0, pos);
    TokensAtIndex(tokens, mid, u2, 0, mid);
    StatementRoundTrip(tokens, pos + 1, s1, mid);
  }

  /** `lexical_initial.py` writes `=` as an OPERATOR token and never as an ASSIGNMENT
      token, so whatever `parse` accepts from it holds no ASSIGNMENT node: no
      assignment and no declaration. */
  lemma InitialLexerParsesNoAssignment(source: string)
    ensures Parse(LexicalInitial.Lex(source)).Success? ==>
              forall i :: 0 <= i < |Parse(LexicalInitial.Lex(source)).value| ==>
                !HasAssignment(Parse(LexicalInitial.Lex(source)).value[i])
  {
    var tokens := LexicalInitial.Lex(source);
    LexicalInitial.LexWellFormed(source);
    assert !AssignmentTokenIn(tokens, 0, |tokens|);
  }
}
