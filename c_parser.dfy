/** The parser of the C-like language: a recursive-descent parser over the tokens of
    `lexical_temp.py` that builds `ASTNode` trees. One cursor walks the token list;
    every `expect` either consumes the token it names or raises. */
module CParser {
  import opened Common
  import opened CTokens

  /** `ASTNodeType`. */
  datatype NodeType =
    | AssignmentNode | ExpressionNode | ConditionalNode | LoopNode
    | PrintNode | BinaryOpNode | LiteralNode | IdentifierNode

  /** `ASTNode`: a kind, an optional value and the children added in order. */
  datatype Node = Node(kind: NodeType, value: Option<string>, children: seq<Node>)

  /** The exceptions the parser raises. `NoToken` stands for the attribute error of
      reading the kind of a missing token at the end of the list. */
  datatype ParseError =
    | Expected(kind: TokenType, value: Option<string>, got: Option<Token>)
    | UnexpectedToken(token: Token)
    | UnexpectedType(typeName: string)
    | UnexpectedStatement(token: Token)
    | NoToken

  /** A node parsed from the tokens and the cursor position just past it. */
  datatype Parsed<T> = Parsed(value: T, next: nat)

  /** The types a declaration may start with. */
  const DeclarationTypes: set<string> := {"int", "float"}

  function Leaf(kind: NodeType, value: string): Node {
    Node(kind, Some(value), [])
  }

  // ---------------------------------------------------------------------------
  // The shapes the parser builds

  /** An expression tree: literal and identifier leaves carrying their text, and
      operator nodes with exactly two operands. */
  predicate IsExpr(n: Node) {
    match n.kind
    case LiteralNode => n.value.Some? && n.children == []
    case IdentifierNode => n.value.Some? && n.children == []
    case BinaryOpNode => n.value.Some? && |n.children| == 2 && IsExpr(n.children[0]) && IsExpr(n.children[1])
    case _ => false
  }

  /** The value of a declaration: a type, a space, the declared name. */
  predicate IsDeclaration(v: string) {
    (|v| >= 4 && v[..4] == "int ") || (|v| >= 6 && v[..6] == "float ")
  }

  /** A statement tree, by the kind of its root. */
  predicate IsStmt(n: Node) {
    match n.kind
    case AssignmentNode =>
      (n.value.None? && |n.children| == 2 && n.children[0].kind == IdentifierNode &&
       n.children[0].value.Some? && n.children[0].children == [] && IsExpr(n.children[1])) ||
      (n.value.Some? && IsDeclaration(n.value.value) && |n.children| == 1 && IsExpr(n.children[0]))
    case ConditionalNode =>
      n.value.None? && 2 <= |n.children| <= 3 && IsExpr(n.children[0]) &&
      forall i :: 1 <= i < |n.children| ==> IsStmt(n.children[i])
    case LoopNode =>
      n.value.None? && |n.children| == 2 && IsExpr(n.children[0]) && IsStmt(n.children[1])
    case PrintNode =>
      n.value.None? && |n.children| == 1 && IsExpr(n.children[0])
    case _ => false
  }

  /** An ASSIGNMENT node somewhere in the tree. */
  predicate HasAssignment(n: Node) {
    n.kind == AssignmentNode || exists i :: 0 <= i < |n.children| && HasAssignment(n.children[i])
  }

  /** Some token in `tokens[lo..hi]` is an ASSIGNMENT token. */
  predicate AssignmentTokenIn(tokens: seq<Token>, lo: nat, hi: nat) {
    exists i :: lo <= i < hi && i < |tokens| && tokens[i].kind == Assignment
  }

  // ---------------------------------------------------------------------------
  // The parser as functions of the token list and the cursor position

  /** `expect`: the token at `pos` when it exists, has kind `kind` and, when a value is
      asked for, that value; otherwise the error names what was expected and what
      was found. */
  function ExpectAt(tokens: seq<Token>, pos: nat, kind: TokenType, value: Option<string>): (r: Result<Token, ParseError>)
    ensures r.Success? <==>
      pos < |tokens| && tokens[pos].kind == kind && (value.None? || tokens[pos].value == value.value)
    ensures r.Success? ==> r.value == tokens[pos]
    ensures r.Failure? ==> r.error == Expected(kind, value, if pos < |tokens| then Some(tokens[pos]) else None)
  {
    if pos < |tokens| && tokens[pos].kind == kind && (value.None? || tokens[pos].value == value.value) then
      Success(tokens[pos])
    else
      Failure(Expected(kind, value, if pos < |tokens| then Some(tokens[pos]) else None))
  }

  /** `parse_term`: a literal, an identifier, or a parenthesised expression, which
      comes back as the inner expression itself. */
  function TermAt(tokens: seq<Token>, pos: nat): (r: Result<Parsed<Node>, ParseError>)
    requires pos <= |tokens|
    ensures r.Success? ==> pos < r.value.next <= |tokens| && IsExpr(r.value.value)
    ensures pos == |tokens| ==> r == Failure(NoToken)
    ensures pos < |tokens| && tokens[pos].kind in {IntegerLiteral, FloatLiteral} ==>
              r == Success(Parsed(Leaf(LiteralNode, tokens[pos].value), pos + 1))
    ensures pos < |tokens| && tokens[pos].kind == Identifier ==>
              r == Success(Parsed(Leaf(IdentifierNode, tokens[pos].value), pos + 1))
    ensures pos < |tokens| && tokens[pos].kind !in {IntegerLiteral, FloatLiteral, Identifier} &&
              tokens[pos] != Token(Separator, "(") ==>
              r == Failure(UnexpectedToken(tokens[pos]))
    decreases |tokens| - pos, 0
  {
    if pos == |tokens| then Failure(NoToken)
    else
      var t := tokens[pos];
      if t.kind == IntegerLiteral || t.kind == FloatLiteral then Success(Parsed(Leaf(LiteralNode, t.value), pos + 1))
      else if t.kind == Identifier then Success(Parsed(Leaf(IdentifierNode, t.value), pos + 1))
      else if t.kind == Separator && t.value == "(" then
        var inner :- ExpressionAt(tokens, pos + 1);
        var close :- ExpectAt(tokens, inner.next, Separator, Some(")"));
        Success(Parsed(inner.value, inner.next + 1))
      else Failure(UnexpectedToken(t))
  }

  /** The operator loop of `parse_expression`: while an OPERATOR token follows, make
      it a BINARY_OP node over `left` and the next term. */
  function OperatorsAt(tokens: seq<Token>, pos: nat, left: Node): (r: Result<Parsed<Node>, ParseError>)
    requires pos <= |tokens| && IsExpr(left)
    ensures r.Success? ==> pos <= r.value.next <= |tokens| && IsExpr(r.value.value)
    ensures r.Success? ==> r.value.next == |tokens| || tokens[r.value.next].kind != Operator
    decreases |tokens| - pos, 1
  {
    if pos < |tokens| && tokens[pos].kind == Operator then
      var right :- TermAt(tokens, pos + 1);
      OperatorsAt(tokens, right.next, Node(BinaryOpNode, Some(tokens[pos].value), [left, right.value]))
    else
      Success(Parsed(left, pos))
  }

  /** `parse_expression`: a term followed by the operator loop. */
  function ExpressionAt(tokens: seq<Token>, pos: nat): (r: Result<Parsed<Node>, ParseError>)
    requires pos <= |tokens|
    ensures r.Success? ==> pos < r.value.next <= |tokens| && IsExpr(r.value.value)
    ensures r.Success? ==> r.value.next == |tokens| || tokens[r.value.next].kind != Operator
    decreases |tokens| - pos, 2
  {
    var first :- TermAt(tokens, pos);
    OperatorsAt(tokens, first.next, first.value)
  }

  /** `parse_assignment`: `IDENT = expr ;`, an ASSIGNMENT node over the identifier and
      the expression. */
  function AssignmentAt(tokens: seq<Token>, pos: nat): (r: Result<Parsed<Node>, ParseError>)
    requires pos <= |tokens|
    ensures r.Success? ==> pos + 3 < r.value.next <= |tokens| && IsStmt(r.value.value)
    ensures r.Success? ==>
      tokens[pos].kind == Identifier && tokens[pos + 1] == Token(Assignment, "=") &&
      tokens[r.value.next - 1] == Token(Separator, ";") &&
      r.value.value.kind == AssignmentNode && r.value.value.value.None? &&
      r.value.value.children[0] == Leaf(IdentifierNode, tokens[pos].value)
    decreases |tokens| - pos, 3
  {
    var id :- ExpectAt(tokens, pos, Identifier, None);
    var eq :- ExpectAt(tokens, pos + 1, Assignment, Some("="));
    var e :- ExpressionAt(tokens, pos + 2);
    var semi :- ExpectAt(tokens, e.next, Separator, Some(";"));
    Success(Parsed(Node(AssignmentNode, None, [Leaf(IdentifierNode, id.value), e.value]), e.next + 1))
  }

  /** `parse_print`: `print ( expr ) ;`. */
  function PrintAt(tokens: seq<Token>, pos: nat): (r: Result<Parsed<Node>, ParseError>)
    requires pos <= |tokens|
    ensures r.Success? ==> pos + 4 < r.value.next <= |tokens| && IsStmt(r.value.value)
    ensures r.Success? ==> r.value.value.kind == PrintNode && tokens[pos] == Token(Keyword, "print")
    ensures r.Success? ==> !HasAssignment(r.value.value)
    decreases |tokens| - pos, 3
  {
    var kw :- ExpectAt(tokens, pos, Keyword, Some("print"));
    var open :- ExpectAt(tokens, pos + 1, Separator, Some("("));
    var e :- ExpressionAt(tokens, pos + 2);
    var close :- ExpectAt(tokens, e.next, Separator, Some(")"));
    var semi :- ExpectAt(tokens, e.next + 1, Separator, Some(";"));
    ExprHasNoAssignment(e.value);
    Success(Parsed(Node(PrintNode, None, [e.value]), e.next + 2))
  }

  /** `parse_declaration`: `TYPE IDENT = expr ;` with TYPE `int` or `float`, an
      ASSIGNMENT node whose value is the type and the name and whose one child is the
      expression. */
  function DeclarationAt(tokens: seq<Token>, pos: nat): (r: Result<Parsed<Node>, ParseError>)
    requires pos <= |tokens|
    ensures r.Success? ==> pos + 4 < r.value.next <= |tokens| && IsStmt(r.value.value)
    ensures r.Success? ==>
      tokens[pos].kind == Keyword && tokens[pos].value in DeclarationTypes &&
      tokens[pos + 1].kind == Identifier && tokens[pos + 2] == Token(Assignment, "=") &&
      r.value.value.kind == AssignmentNode &&
      r.value.value.value == Some(tokens[pos].value + " " + tokens[pos + 1].value)
    ensures pos < |tokens| && tokens[pos].kind == Keyword && tokens[pos].value !in DeclarationTypes ==>
      r == Failure(UnexpectedType(tokens[pos].value))
    decreases |tokens| - pos, 3
  {
    var typeToken :- ExpectAt(tokens, pos, Keyword, None);
    if typeToken.value !in DeclarationTypes then Failure(UnexpectedType(typeToken.value))
    else
      var id :- ExpectAt(tokens, pos + 1, Identifier, None);
      var eq :- ExpectAt(tokens, pos + 2, Assignment, Some("="));
      var e :- ExpressionAt(tokens, pos + 3);
      var semi :- ExpectAt(tokens, e.next, Separator, Some(";"));
      var v := typeToken.value + " " + id.value;
      assert v[..|typeToken.value| + 1] == typeToken.value + " ";
      Success(Parsed(Node(AssignmentNode, Some(v), [e.value]), e.next + 1))
  }

  /** `{ stmt }`, the braced single statement that `parse_conditional` and
      `parse_while` read as a branch or a body. */
  function BlockAt(tokens: seq<Token>, pos: nat): (r: Result<Parsed<Node>, ParseError>)
    requires pos <= |tokens|
    ensures r.Success? ==> pos + 2 < r.value.next <= |tokens| && IsStmt(r.value.value)
    ensures r.Success? ==> tokens[pos] == Token(Separator, "{") && tokens[r.value.next - 1] == Token(Separator, "}")
    ensures r.Success? && HasAssignment(r.value.value) ==> AssignmentTokenIn(tokens, pos, r.value.next)
    decreases |tokens| - pos, 4
  {
    var brace :- ExpectAt(tokens, pos, Separator, Some("{"));
    var body :- StatementAt(tokens, pos + 1);
    var bodyEnd :- ExpectAt(tokens, body.next, Separator, Some("}"));
    Success(Parsed(body.value, body.next + 1))
  }

  /** `( expr )`, the condition of `parse_conditional` and `parse_while`. */
  function ConditionAt(tokens: seq<Token>, pos: nat): (r: Result<Parsed<Node>, ParseError>)
    requires pos <= |tokens|
    ensures r.Success? ==> pos + 2 < r.value.next <= |tokens| && IsExpr(r.value.value)
    ensures r.Success? ==> !HasAssignment(r.value.value)
    ensures r.Success? ==>
              tokens[pos] == Token(Separator, "(") && tokens[r.value.next - 1] == Token(Separator, ")")
    ensures !(pos < |tokens| && tokens[pos] == Token(Separator, "(")) ==> r.Failure?
    decreases |tokens| - pos, 3
  {
    var open :- ExpectAt(tokens, pos, Separator, Some("("));
    var cond :- ExpressionAt(tokens, pos + 1);
    var close :- ExpectAt(tokens, cond.next, Separator, Some(")"));
    ExprHasNoAssignment(cond.value);
    Success(Parsed(cond.value, cond.next + 1))
  }

  /** Whether an `else` keyword comes next, after the then-branch of a conditional. */
  predicate ElseNext(tokens: seq<Token>, pos: nat) {
    pos < |tokens| && tokens[pos].kind == Keyword && tokens[pos].value == "else"
  }

  /** `parse_conditional`: `if ( expr ) { stmt }`, then `else { stmt }` when an `else`
      keyword follows: a CONDITIONAL node over the condition and one or two branches. */
  function ConditionalAt(tokens: seq<Token>, pos: nat): (r: Result<Parsed<Node>, ParseError>)
    requires pos <= |tokens|
    ensures r.Success? ==> pos + 6 < r.value.next <= |tokens| && IsStmt(r.value.value)
    ensures r.Success? ==> r.value.value.kind == ConditionalNode && tokens[pos] == Token(Keyword, "if")
    ensures r.Success? && HasAssignment(r.value.value) ==> AssignmentTokenIn(tokens, pos, r.value.next)
    decreases |tokens| - pos, 6
  {
    var kw :- ExpectAt(tokens, pos, Keyword, Some("if"));
    var cond :- ConditionAt(tokens, pos + 1);
    var thenPart :- BlockAt(tokens, cond.next);
    var elsePart :- ElseAt(tokens, thenPart.next);
    ConditionalShape(cond.value, thenPart.value, elsePart.value);
    Success(Parsed(ConditionalNodeOf(cond.value, thenPart.value, elsePart.value), elsePart.next))
  }

  /** The optional `else { stmt }` of `parse_conditional`: `None`, reading nothing,
      when no `else` keyword comes next. */
  function ElseAt(tokens: seq<Token>, pos: nat): (r: Result<Parsed<Option<Node>>, ParseError>)
    requires pos <= |tokens|
    ensures r.Success? ==> pos <= r.value.next <= |tokens|
    ensures r.Success? ==> (r.value.value.Some? <==> ElseNext(tokens, pos))
    ensures r.Success? && r.value.value.Some? ==> IsStmt(r.value.value.value)
    ensures r.Success? && r.value.value.Some? && HasAssignment(r.value.value.value) ==>
              AssignmentTokenIn(tokens, pos, r.value.next)
    decreases |tokens| - pos, 5
  {
    if ElseNext(tokens, pos) then
      var elsePart :- BlockAt(tokens, pos + 1);
      Success(Parsed(Some(elsePart.value), elsePart.next))
    else
      Success(Parsed(None, pos))
  }

  /** `parse_while`: `while ( expr ) { stmt }`, a LOOP node over the condition and the
      body. */
  function WhileAt(tokens: seq<Token>, pos: nat): (r: Result<Parsed<Node>, ParseError>)
    requires pos <= |tokens|
    ensures r.Success? ==> pos + 6 < r.value.next <= |tokens| && IsStmt(r.value.value)
    ensures r.Success? ==> r.value.value.kind == LoopNode && tokens[pos] == Token(Keyword, "while")
    ensures r.Success? && HasAssignment(r.value.value) ==> AssignmentTokenIn(tokens, pos, r.value.next)
    decreases |tokens| - pos, 5
  {
    var kw :- ExpectAt(tokens, pos, Keyword, Some("while"));
    var cond :- ConditionAt(tokens, pos + 1);
    var body :- BlockAt(tokens, cond.next);
    Success(Parsed(Node(LoopNode, None, [cond.value, body.value]), body.next))
  }

  /** `parse_statement`: the first token chooses the statement form. */
  function StatementAt(tokens: seq<Token>, pos: nat): (r: Result<Parsed<Node>, ParseError>)
    requires pos <= |tokens|
    ensures r.Success? ==> pos < r.value.next <= |tokens| && IsStmt(r.value.value)
    ensures r.Success? && HasAssignment(r.value.value) ==> AssignmentTokenIn(tokens, pos, r.value.next)
    ensures pos == |tokens| ==> r == Failure(NoToken)
    ensures pos < |tokens| && !StartsStatement(tokens[pos]) ==> r == Failure(UnexpectedStatement(tokens[pos]))
    decreases |tokens| - pos, 7
  {
    if pos == |tokens| then Failure(NoToken)
    else
      var t := tokens[pos];
      if t.kind == Keyword && t.value in DeclarationTypes then DeclarationAt(tokens, pos)
      else if t.kind == Identifier then AssignmentAt(tokens, pos)
      else if t.kind == Keyword && t.value == "if" then ConditionalAt(tokens, pos)
      else if t.kind == Keyword && t.value == "while" then WhileAt(tokens, pos)
      else if t.kind == Keyword && t.value == "print" then PrintAt(tokens, pos)
      else Failure(UnexpectedStatement(t))
  }

  /** The tokens `parse_statement` accepts as the start of a statement. */
  predicate StartsStatement(t: Token) {
    t.kind == Identifier || (t.kind == Keyword && t.value in {"int", "float", "if", "while", "print"})
  }

  /** The loop of `parse`: statements until no token remains. */
  function ParseFrom(tokens: seq<Token>, pos: nat): (r: Result<seq<Node>, ParseError>)
    requires pos <= |tokens|
    ensures r.Success? ==> forall i :: 0 <= i < |r.value| ==> IsStmt(r.value[i])
    ensures r.Success? ==> |r.value| <= |tokens| - pos
    ensures r.Success? && (exists i :: 0 <= i < |r.value| && HasAssignment(r.value[i])) ==>
              AssignmentTokenIn(tokens, pos, |tokens|)
    decreases |tokens| - pos
  {
    if pos == |tokens| then Success([])
    else
      var s :- StatementAt(tokens, pos);
      var rest :- ParseFrom(tokens, s.next);
      Success([s.value] + rest)
  }

  /** `parse`. */
  function Parse(tokens: seq<Token>): (r: Result<seq<Node>, ParseError>)
    ensures r.Success? ==> forall i :: 0 <= i < |r.value| ==> IsStmt(r.value[i])
    ensures r.Success? ==> |r.value| <= |tokens|
    ensures tokens != [] && StatementAt(tokens, 0).Failure? ==> r == Failure(StatementAt(tokens, 0).error)
  {
    ParseFrom(tokens, 0)
  }

  // ---------------------------------------------------------------------------
  // The parser object

  /** A method's outcome agrees with the function that specifies it: the same node
      or error, and on success the cursor just past what was parsed. */
  predicate Agrees<T(==)>(r: Result<T, ParseError>, spec: Result<Parsed<T>, ParseError>, position: nat) {
    match spec
    case Success(p) => r == Success(p.value) && position == p.next
    case Failure(e) => r == Failure(e)
  }


  class Parser {
    const tokens: seq<Token>
    var position: nat

    constructor (tokens: seq<Token>)
      ensures this.tokens == tokens && position == 0
    {
      this.tokens := tokens;
      position := 0;
    }

    /** `current_token`: the token under the cursor, `None` past the end. */
    method CurrentToken() returns (t: Option<Token>)
      ensures t.Some? <==> position < |tokens|
      ensures t.Some? ==> t.value == tokens[position]
    {
      t := if position < |tokens| then Some(tokens[position]) else None;
    }

    method Advance()
      requires position < |tokens|
      modifies this`position
      ensures position == old(position) + 1
    {
      position := position + 1;
    }

    /** `expect`: consumes exactly the token asked for, or leaves the cursor where it
        was and fails. */
    method Expect(kind: TokenType, value: Option<string>) returns (r: Result<Token, ParseError>)
      requires position <= |tokens|
      modifies this`position
      ensures r == ExpectAt(tokens, old(position), kind, value)
      ensures position == if r.Success? then old(position) + 1 else old(position)
    {
      var token := CurrentToken();
      if token.Some? && token.value.kind == kind && (value.None? || token.value.value == value.value) {
        Advance();
        return Success(token.value);
      }
      return Failure(Expected(kind, value, token));
    }

    /** `parse`: statements until no token remains. */
    method Parse() returns (r: Result<seq<Node>, ParseError>)
      requires position <= |tokens|
      modifies this`position
      ensures r == ParseFrom(tokens, old(position))
      ensures r.Success? ==> position == |tokens|
    {
      var statements := [];
      PrependAllNil(ParseFrom(tokens, position));
      while position < |tokens|
        invariant old(position) <= position <= |tokens|
        invariant ParseFrom(tokens, old(position)) == PrependAll(statements, ParseFrom(tokens, position))
        decreases |tokens| - position
      {
        ghost var p := position;
        var s := ParseStatement();
        ParseFromStep(tokens, p, s, position);
        if s.Failure? {
          return Failure(s.error);
        }
        PrependAllAppend(statements, [s.value], ParseFrom(tokens, position));
        statements := statements + [s.value];
      }
      assert statements + [] == statements;
      return Success(statements);
    }

    /** `parse_statement`. */
    method ParseStatement() returns (r: Result<Node, ParseError>)
      requires position <= |tokens|
      modifies this`position
      ensures Agrees(r, StatementAt(tokens, old(position)), position)
      decreases |tokens| - position, 7
    {
      var token := CurrentToken();
      if token.None? {
        return Failure(NoToken);
      }
      var t := token.value;
      if t.kind == Keyword && t.value in DeclarationTypes {
        r := ParseDeclaration();
      } else if t.kind == Identifier {
        r := ParseAssignment();
      } else if t.kind == Keyword && t.value == "if" {
        r := ParseConditional();
      } else if t.kind == Keyword && t.value == "while" {
        r := ParseWhile();
      } else if t.kind == Keyword && t.value == "print" {
        r := ParsePrint();
      } else {
        r := Failure(UnexpectedStatement(t));
      }
    }

    /** `parse_assignment`. */
    method ParseAssignment() returns (r: Result<Node, ParseError>)
      requires position <= |tokens|
      modifies this`position
      ensures Agrees(r, AssignmentAt(tokens, old(position)), position)
      decreases |tokens| - position, 3
    {
      var identifier :- Expect(Identifier, None);
      var eq :- Expect(Assignment, Some("="));
      var e :- ParseExpression();
      var semi :- Expect(Separator, Some(";"));
      return Success(Node(AssignmentNode, None, [Leaf(IdentifierNode, identifier.value), e]));
    }

    /** `parse_declaration`. */
    method ParseDeclaration() returns (r: Result<Node, ParseError>)
      requires position <= |tokens|
      modifies this`position
      ensures Agrees(r, DeclarationAt(tokens, old(position)), position)
      decreases |tokens| - position, 3
    {
      var typeToken :- Expect(Keyword, None);
      if typeToken.value !in DeclarationTypes {
        return Failure(UnexpectedType(typeToken.value));
      }
      var identifier :- Expect(Identifier, None);
      var eq :- Expect(Assignment, Some("="));
      var e :- ParseExpression();
      var semi :- Expect(Separator, Some(";"));
      return Success(Node(AssignmentNode, Some(typeToken.value + " " + identifier.value), [e]));
    }

    /** `parse_print`. */
    method ParsePrint() returns (r: Result<Node, ParseError>)
      requires position <= |tokens|
      modifies this`position
      ensures Agrees(r, PrintAt(tokens, old(position)), position)
      decreases |tokens| - position, 3
    {
      var kw :- Expect(Keyword, Some("print"));
      var open :- Expect(Separator, Some("("));
      var e :- ParseExpression();
      var close :- Expect(Separator, Some(")"));
      var semi :- Expect(Separator, Some(";"));
      return Success(Node(PrintNode, None, [e]));
    }

    /** `parse_conditional`. */
    method ParseConditional() returns (r: Result<Node, ParseError>)
      requires position <= |tokens|
      modifies this`position
      ensures Agrees(r, ConditionalAt(tokens, old(position)), position)
      decreases |tokens| - position, 6
    {
      var kw :- Expect(Keyword, Some("if"));
      var cond :- ParseCondition();
      var thenPart :- ParseBlock();
      var elsePart :- ParseElse();
      return Success(ConditionalNodeOf(cond, thenPart, elsePart));
    }

    /** The `else` check of `parse_conditional`: a second branch when the current token
        is the `else` keyword, nothing otherwise. */
    method ParseElse() returns (r: Result<Option<Node>, ParseError>)
      requires position <= |tokens|
      modifies this`position
      ensures Agrees(r, ElseAt(tokens, old(position)), position)
      decreases |tokens| - position, 5
    {
      var token := CurrentToken();
      if token.Some? && token.value.kind == Keyword && token.value.value == "else" {
        Advance();
        var elsePart :- ParseBlock();
        return Success(Some(elsePart));
      }
      return Success(None);
    }

    /** `parse_while`. */
    method ParseWhile() returns (r: Result<Node, ParseError>)
      requires position <= |tokens|
      modifies this`position
      ensures Agrees(r, WhileAt(tokens, old(position)), position)
      decreases |tokens| - position, 5
    {
      var kw :- Expect(Keyword, Some("while"));
      var cond :- ParseCondition();
      var body :- ParseBlock();
      return Success(Node(LoopNode, None, [cond, body]));
    }

    /** The `expect("(")`, `parse_expression`, `expect(")")` that open
        `parse_conditional` and `parse_while`. */
    method ParseCondition() returns (r: Result<Node, ParseError>)
      requires position <= |tokens|
      modifies this`position
      ensures Agrees(r, ConditionAt(tokens, old(position)), position)
      decreases |tokens| - position, 3
    {
      var open :- Expect(Separator, Some("("));
      var cond :- ParseExpression();
      var close :- Expect(Separator, Some(")"));
      return Success(cond);
    }

    /** The `expect("{")`, `parse_statement`, `expect("}")` of each branch and body. */
    method ParseBlock() returns (r: Result<Node, ParseError>)
      requires position <= |tokens|
      modifies this`position
      ensures Agrees(r, BlockAt(tokens, old(position)), position)
      decreases |tokens| - position, 4
    {
      var brace :- Expect(Separator, Some("{"));
      var body :- ParseStatement();
      var close :- Expect(Separator, Some("}"));
      return Success(body);
    }

    /** `parse_expression`: a term, then each operator and term folded onto it. */
    method ParseExpression() returns (r: Result<Node, ParseError>)
      requires position <= |tokens|
      modifies this`position
      ensures Agrees(r, ExpressionAt(tokens, old(position)), position)
      decreases |tokens| - position, 2
    {
      var left :- ParseTerm();
      while position < |tokens| && tokens[position].kind == Operator
        invariant old(position) < position <= |tokens| && IsExpr(left)
        invariant ExpressionAt(tokens, old(position)) == OperatorsAt(tokens, position, left)
        decreases |tokens| - position
      {
        var operator := tokens[position];
        Advance();
        var right :- ParseTerm();
        left := Node(BinaryOpNode, Some(operator.value), [left, right]);
      }
      return Success(left);
    }

    /** `parse_term`. */
    method ParseTerm() returns (r: Result<Node, ParseError>)
      requires position <= |tokens|
      modifies this`position
      ensures Agrees(r, TermAt(tokens, old(position)), position)
      decreases |tokens| - position, 0
    {
      var token := CurrentToken();
      if token.None? {
        return Failure(NoToken);
      }
      var t := token.value;
      if t.kind == IntegerLiteral || t.kind == FloatLiteral {
        Advance();
        return Success(Leaf(LiteralNode, t.value));
      } else if t.kind == Identifier {
        Advance();
        return Success(Leaf(IdentifierNode, t.value));
      } else if t.kind == Separator && t.value == "(" {
        Advance();
        var e :- ParseExpression();
        var close :- Expect(Separator, Some(")"));
        return Success(e);
      }
      return Failure(UnexpectedToken(t));
    }
  }



  /** One iteration of the loop of `parse`. */
  lemma ParseFromStep(tokens: seq<Token>, pos: nat, s: Result<Node, ParseError>, next: nat)
    requires pos < |tokens|
    requires Agrees(s, StatementAt(tokens, pos), next)
    ensures s.Success? ==> next <= |tokens| && ParseFrom(tokens, pos) == PrependAll([s.value], ParseFrom(tokens, next))
    ensures s.Failure? ==> ParseFrom(tokens, pos) == Failure(s.error)
  {
  }

  /** An expression tree holds no ASSIGNMENT node. */
  lemma {:induction false} ExprHasNoAssignment(n: Node)
    requires IsExpr(n)
    ensures !HasAssignment(n)
  {
    if n.kind == BinaryOpNode {
      ExprHasNoAssignment(n.children[0]);
      ExprHasNoAssignment(n.children[1]);
      assert forall i :: 0 <= i < |n.children| ==> n.children[i] == n.children[0] || n.children[i] == n.children[1];
    }
  }

  /** The CONDITIONAL node `parse_conditional` builds. */
  function ConditionalNodeOf(cond: Node, thenPart: Node, elsePart: Option<Node>): Node {
    match elsePart
    case None => Node(ConditionalNode, None, [cond, thenPart])
    case Some(e) => Node(ConditionalNode, None, [cond, thenPart, e])
  }

  /** A CONDITIONAL node over a condition and one or two branches is a statement, and
      any ASSIGNMENT node in it lies in a branch. */
  lemma ConditionalShape(cond: Node, thenPart: Node, elsePart: Option<Node>)
    requires IsExpr(cond) && !HasAssignment(cond) && IsStmt(thenPart)
    requires elsePart.Some? ==> IsStmt(elsePart.value)
    ensures IsStmt(ConditionalNodeOf(cond, thenPart, elsePart))
    ensures HasAssignment(ConditionalNodeOf(cond, thenPart, elsePart)) ==>
              HasAssignment(thenPart) || (elsePart.Some? && HasAssignment(elsePart.value))
  {
  }
}
