/** The PoliteLang parser: a recursive-descent parser over the tokenizer's tokens. One
    cursor walks the token list; every `expect` either consumes the token it names or
    raises. The parser builds its results as text; here they are `Expr`/`Stmt` values
    and `RenderExpr`/`RenderStmt` give back the text the parser builds. */
module PoliteParser {
  import opened Common
  import opened PoliteLexer

  datatype Expr =
    | Lit(text: string)
    | Ident(name: string)
    | Binary(left: Expr, op: string, right: Expr)
    | Group(inner: Expr)

  datatype Stmt =
    | Assignment(name: string, value: Expr)
    | Print(command: string, arg: Expr)
    | If(cond: Expr, thenBody: seq<Stmt>, elseBody: ElsePart)
    | While(cond: Expr, body: seq<Stmt>)
    | ForEach(name: string, iterable: Expr, body: seq<Stmt>)

  /** The else body of an `If`: the parser's `None` when there is no `otherwise`. */
  datatype ElsePart = NoElse | Otherwise(body: seq<Stmt>)

  /** The exceptions the parser raises. `NoToken` stands for the attribute error of
      reading the kind of a missing token at the end of the list. */
  datatype ParseError =
    | Expected(what: string, got: Option<Token>)
    | UnexpectedStatement(token: Token)
    | ExpectedExpression(token: Token)
    | NoToken

  /** A value parsed from the tokens and the cursor position just past it. */
  datatype Parsed<T> = Parsed(value: T, next: nat)

  const StatementKeywords: set<string> := {"pls", "show", "whisper", "shout", "Check", "During", "Given"}
  const PrintCommands: set<string> := {"show", "whisper", "shout"}

  /** The keyword a statement of this form starts with. */
  function LeadingKeyword(s: Stmt): string {
    match s
    case Assignment(_, _) => "pls"
    case Print(command, _) => command
    case If(_, _, _) => "Check"
    case While(_, _) => "During"
    case ForEach(_, _, _) => "Given"
  }

  /** Operator chains nest to the left: the right operand of an operator is never
      itself an operator application. */
  predicate LeftNested(e: Expr) {
    match e
    case Lit(_) => true
    case Ident(_) => true
    case Binary(l, _, r) => LeftNested(l) && !r.Binary? && LeftNested(r)
    case Group(inner) => LeftNested(inner)
  }

  // ---------------------------------------------------------------------------
  // The parser as functions of the token list and the cursor position

  /** `expect`: the token at `pos` when it exists, has kind `kind` and, when a value is
      asked for, that value; otherwise the error names what was expected. */
  function ExpectAt(tokens: seq<Token>, pos: nat, kind: TokenType, value: Option<string>): (r: Result<Token, ParseError>)
    ensures r.Success? <==>
      pos < |tokens| && tokens[pos].kind == kind && (value.None? || tokens[pos].value == value.value)
    ensures r.Success? ==> r.value == tokens[pos]
    ensures r.Failure? ==> r.error.Expected? && r.error.got == (if pos < |tokens| then Some(tokens[pos]) else None)
  {
    if pos < |tokens| && tokens[pos].kind == kind && (value.None? || tokens[pos].value == value.value) then
      Success(tokens[pos])
    else
      var what := if value.Some? && value.value != "" then value.value else KindName(kind);
      Failure(Expected(what, if pos < |tokens| then Some(tokens[pos]) else None))
  }

  /** `parse_primary`: a literal, an identifier, or a parenthesised expression. */
  function PrimaryAt(tokens: seq<Token>, pos: nat): (r: Result<Parsed<Expr>, ParseError>)
    requires pos <= |tokens|
    ensures r.Success? ==> pos < r.value.next <= |tokens| && LeftNested(r.value.value) && !r.value.value.Binary?
    ensures pos == |tokens| ==> r == Failure(NoToken)
    ensures pos < |tokens| && tokens[pos].kind == Literal ==> r == Success(Parsed(Lit(tokens[pos].value), pos + 1))
    ensures pos < |tokens| && tokens[pos].kind == Identifier ==> r == Success(Parsed(Ident(tokens[pos].value), pos + 1))
    ensures pos < |tokens| && tokens[pos].kind !in {Literal, Identifier} && tokens[pos] != Token(Separator, "(") ==>
              r == Failure(ExpectedExpression(tokens[pos]))
    decreases |tokens| - pos, 0
  {
    if pos == |tokens| then Failure(NoToken)
    else
      var t := tokens[pos];
      if t.kind == Literal then Success(Parsed(Lit(t.value), pos + 1))
      else if t.kind == Identifier then Success(Parsed(Ident(t.value), pos + 1))
      else if t.kind == Separator && t.value == "(" then
        var inner :- ExpressionAt(tokens, pos + 1);
        var close :- ExpectAt(tokens, inner.next, Separator, Some(")"));
        Success(Parsed(Group(inner.value), inner.next + 1))
      else Failure(ExpectedExpression(t))
  }

  /** The operator loop of `parse_expression`: while an OPERATOR token follows, fold it
      and the next primary into `left`. */
  function OperatorsAt(tokens: seq<Token>, pos: nat, left: Expr): (r: Result<Parsed<Expr>, ParseError>)
    requires pos <= |tokens| && LeftNested(left)
    ensures r.Success? ==> pos <= r.value.next <= |tokens| && LeftNested(r.value.value)
    ensures r.Success? ==> r.value.next == |tokens| || tokens[r.value.next].kind != Operator
    decreases |tokens| - pos, 1
  {
    if pos < |tokens| && tokens[pos].kind == Operator then
      var right :- PrimaryAt(tokens, pos + 1);
      OperatorsAt(tokens, right.next, Binary(left, tokens[pos].value, right.value))
    else
      Success(Parsed(left, pos))
  }

  /** `parse_expression`: a primary followed by the operator loop. */
  function ExpressionAt(tokens: seq<Token>, pos: nat): (r: Result<Parsed<Expr>, ParseError>)
    requires pos <= |tokens|
    ensures r.Success? ==> pos < r.value.next <= |tokens| && LeftNested(r.value.value)
    ensures r.Success? ==> r.value.next == |tokens| || tokens[r.value.next].kind != Operator
    decreases |tokens| - pos, 2
  {
    var first :- PrimaryAt(tokens, pos);
    OperatorsAt(tokens, first.next, first.value)
  }

  /** `parse_assignment`: `pls IDENT = expr thanks~`. */
  function AssignmentAt(tokens: seq<Token>, pos: nat): (r: Result<Parsed<Stmt>, ParseError>)
    requires pos <= |tokens|
    ensures r.Success? ==> pos + 4 < r.value.next <= |tokens| && r.value.value.Assignment?
    ensures r.Success? ==>
      tokens[pos] == Token(Keyword, "pls") && tokens[pos + 1].kind == Identifier &&
      tokens[pos + 2] == Token(Operator, "=") && tokens[r.value.next - 1] == Token(EndStatement, EndMarker) &&
      r.value.value.name == tokens[pos + 1].value
    decreases |tokens| - pos, 3
  {
    var kw :- ExpectAt(tokens, pos, Keyword, Some("pls"));
    var id :- ExpectAt(tokens, pos + 1, Identifier, None);
    var eq :- ExpectAt(tokens, pos + 2, Operator, Some("="));
    var e :- ExpressionAt(tokens, pos + 3);
    var end :- ExpectAt(tokens, e.next, EndStatement, Some(EndMarker));
    Success(Parsed(Assignment(id.value, e.value), e.next + 1))
  }

  /** `parse_print`: `command ( expr ) thanks~`. */
  function PrintAt(tokens: seq<Token>, pos: nat, command: string): (r: Result<Parsed<Stmt>, ParseError>)
    requires pos <= |tokens|
    ensures r.Success? ==> pos + 4 < r.value.next <= |tokens| && r.value.value.Print? && r.value.value.command == command
    ensures r.Success? ==>
      tokens[pos] == Token(Keyword, command) && tokens[pos + 1] == Token(Separator, "(") &&
      tokens[r.value.next - 2] == Token(Separator, ")") && tokens[r.value.next - 1] == Token(EndStatement, EndMarker)
    decreases |tokens| - pos, 3
  {
    var kw :- ExpectAt(tokens, pos, Keyword, Some(command));
    var open :- ExpectAt(tokens, pos + 1, Separator, Some("("));
    var e :- ExpressionAt(tokens, pos + 2);
    var close :- ExpectAt(tokens, e.next, Separator, Some(")"));
    var end :- ExpectAt(tokens, e.next + 1, EndStatement, Some(EndMarker));
    Success(Parsed(Print(command, e.value), e.next + 2))
  }

  /** `{ block }`, the body of `Check`, `otherwise`, `During` and `Given`. */
  function BracedAt(tokens: seq<Token>, pos: nat): (r: Result<Parsed<seq<Stmt>>, ParseError>)
    requires pos <= |tokens|
    ensures r.Success? ==> pos + 1 < r.value.next <= |tokens|
    ensures r.Success? ==> tokens[pos] == Token(Separator, "{") && tokens[r.value.next - 1] == Token(Separator, "}")
    decreases |tokens| - pos, 3
  {
    var open :- ExpectAt(tokens, pos, Separator, Some("{"));
    var body :- BlockAt(tokens, pos + 1);
    var close :- ExpectAt(tokens, body.next, Separator, Some("}"));
    Success(Parsed(body.value, body.next + 1))
  }

  /** The optional `otherwise { block }` of `parse_if`: it is taken exactly when the
      token at `pos` has the value `otherwise`, whatever its kind. */
  function ElseAt(tokens: seq<Token>, pos: nat): (r: Result<Parsed<ElsePart>, ParseError>)
    requires pos <= |tokens|
    ensures (pos < |tokens| && tokens[pos].value == "otherwise") <==> (r.Failure? || r.value.value.Otherwise?)
    ensures r.Success? ==> pos <= r.value.next <= |tokens|
    ensures r.Success? && r.value.value.NoElse? ==> r.value.next == pos
    decreases |tokens| - pos, 4
  {
    if pos < |tokens| && tokens[pos].value == "otherwise" then
      var body :- BracedAt(tokens, pos + 1);
      Success(Parsed(Otherwise(body.value), body.next))
    else
      Success(Parsed(NoElse, pos))
  }

  /** `parse_if`: `Check ( expr ) { block }`, then the optional else part. */
  function IfAt(tokens: seq<Token>, pos: nat): (r: Result<Parsed<Stmt>, ParseError>)
    requires pos <= |tokens|
    ensures r.Success? ==> pos + 4 < r.value.next <= |tokens| && r.value.value.If?
    ensures r.Success? ==> tokens[pos] == Token(Keyword, "Check") && tokens[pos + 1] == Token(Separator, "(")
    decreases |tokens| - pos, 5
  {
    var kw :- ExpectAt(tokens, pos, Keyword, Some("Check"));
    var open :- ExpectAt(tokens, pos + 1, Separator, Some("("));
    var c :- ExpressionAt(tokens, pos + 2);
    var close :- ExpectAt(tokens, c.next, Separator, Some(")"));
    var thenBody :- BracedAt(tokens, c.next + 1);
    var elseBody :- ElseAt(tokens, thenBody.next);
    Success(Parsed(If(c.value, thenBody.value, elseBody.value), elseBody.next))
  }

  /** `parse_while`: `During ( expr ) { block }`. */
  function WhileAt(tokens: seq<Token>, pos: nat): (r: Result<Parsed<Stmt>, ParseError>)
    requires pos <= |tokens|
    ensures r.Success? ==> pos + 4 < r.value.next <= |tokens| && r.value.value.While?
    ensures r.Success? ==> tokens[pos] == Token(Keyword, "During") && tokens[pos + 1] == Token(Separator, "(")
    decreases |tokens| - pos, 3
  {
    var kw :- ExpectAt(tokens, pos, Keyword, Some("During"));
    var open :- ExpectAt(tokens, pos + 1, Separator, Some("("));
    var c :- ExpressionAt(tokens, pos + 2);
    var close :- ExpectAt(tokens, c.next, Separator, Some(")"));
    var body :- BracedAt(tokens, c.next + 1);
    Success(Parsed(While(c.value, body.value), body.next))
  }

  /** `parse_for`: `Given IDENT in expr { block }`, with `in` a KEYWORD token. */
  function ForAt(tokens: seq<Token>, pos: nat): (r: Result<Parsed<Stmt>, ParseError>)
    requires pos <= |tokens|
    ensures r.Success? ==> pos < r.value.next <= |tokens| && r.value.value.ForEach?
    ensures r.Success? ==> pos + 2 < |tokens| && tokens[pos + 2] == Token(Keyword, "in")
    decreases |tokens| - pos, 3
  {
    var kw :- ExpectAt(tokens, pos, Keyword, Some("Given"));
    var id :- ExpectAt(tokens, pos + 1, Identifier, None);
    var inKw :- ExpectAt(tokens, pos + 2, Keyword, Some("in"));
    var e :- ExpressionAt(tokens, pos + 3);
    var body :- BracedAt(tokens, e.next);
    Success(Parsed(ForEach(id.value, e.value, body.value), body.next))
  }

  /** `parse_statement`: dispatch on the leading keyword. */
  function StatementAt(tokens: seq<Token>, pos: nat): (r: Result<Parsed<Stmt>, ParseError>)
    requires pos <= |tokens|
    ensures r.Success? ==> pos < r.value.next <= |tokens|
    ensures r.Success? ==>
      tokens[pos].kind == Keyword && tokens[pos].value in StatementKeywords &&
      LeadingKeyword(r.value.value) == tokens[pos].value
    ensures pos == |tokens| ==> r == Failure(NoToken)
    ensures pos < |tokens| && !(tokens[pos].kind == Keyword && tokens[pos].value in StatementKeywords) ==>
              r == Failure(UnexpectedStatement(tokens[pos]))
    decreases |tokens| - pos, 6
  {
    if pos == |tokens| then Failure(NoToken)
    else
      var t := tokens[pos];
      if t.kind == Keyword && t.value == "pls" then AssignmentAt(tokens, pos)
      else if t.kind == Keyword && t.value in PrintCommands then PrintAt(tokens, pos, t.value)
      else if t.kind == Keyword && t.value == "Check" then IfAt(tokens, pos)
      else if t.kind == Keyword && t.value == "During" then WhileAt(tokens, pos)
      else if t.kind == Keyword && t.value == "Given" then ForAt(tokens, pos)
      else Failure(UnexpectedStatement(t))
  }

  /** `parse_program_block`: statements until a SEPARATOR token or the end, which it
      does not consume. */
  function BlockAt(tokens: seq<Token>, pos: nat): (r: Result<Parsed<seq<Stmt>>, ParseError>)
    requires pos <= |tokens|
    ensures r.Success? ==> pos <= r.value.next <= |tokens|
    ensures r.Success? ==> r.value.next == |tokens| || tokens[r.value.next].kind == Separator
    decreases |tokens| - pos, 7
  {
    if pos < |tokens| && tokens[pos].kind != Separator then
      var s :- StatementAt(tokens, pos);
      var rest :- BlockAt(tokens, s.next);
      Success(Parsed([s.value] + rest.value, rest.next))
    else
      Success(Parsed([], pos))
  }

  /** `parse_program`: statements until the end of the token list. */
  function ProgramFrom(tokens: seq<Token>, pos: nat): (r: Result<seq<Stmt>, ParseError>)
    requires pos <= |tokens|
    ensures r.Success? ==> |r.value| <= |tokens| - pos
    ensures r.Success? && pos < |tokens| ==>
      r.value != [] && LeadingKeyword(r.value[0]) == tokens[pos].value
    ensures pos < |tokens| && StatementAt(tokens, pos).Failure? ==>
      r == Failure(StatementAt(tokens, pos).error)
    decreases |tokens| - pos
  {
    if pos == |tokens| then Success([])
    else
      var s :- StatementAt(tokens, pos);
      var rest :- ProgramFrom(tokens, s.next);
      Success([s.value] + rest)
  }

  function Program(tokens: seq<Token>): (r: Result<seq<Stmt>, ParseError>)
    ensures r.Success? ==> |r.value| <= |tokens|
  {
    ProgramFrom(tokens, 0)
  }

  // ---------------------------------------------------------------------------
  // The text the parser builds

  /** The f-strings of `parse_primary` and `parse_expression`. Exactly the compound
      expressions are wrapped in parentheses. */
  function RenderExpr(e: Expr): (r: string)
    ensures |r| > 0 && r[|r| - 1] == ')'
    ensures (e.Binary? || e.Group?) <==> r[0] == '('
  {
    match e
    case Lit(text) => "Literal(" + text + ")"
    case Ident(name) => "Identifier(" + name + ")"
    case Binary(l, op, r) => "(" + RenderExpr(l) + " " + op + " " + RenderExpr(r) + ")"
    case Group(inner) => "(" + RenderExpr(inner) + ")"
  }

  function Upper(c: char): char {
    if 'a' <= c <= 'z' then (c as int - 32) as char else c
  }

  function Lower(c: char): char {
    if 'A' <= c <= 'Z' then (c as int + 32) as char else c
  }

  /** `str.capitalize` on ASCII: the same letters, the first not in lower case and the
      rest not in upper case. */
  function Capitalize(s: string): (r: string)
    ensures |r| == |s|
    ensures forall i :: 0 <= i < |s| ==> Lower(r[i]) == Lower(s[i])
    ensures |s| > 0 ==> !('a' <= r[0] <= 'z')
    ensures forall i :: 1 <= i < |r| ==> !('A' <= r[i] <= 'Z')
  {
    if s == [] then [] else [Upper(s[0])] + seq(|s| - 1, i requires 0 <= i < |s| - 1 => Lower(s[i + 1]))
  }

  function HexDigit(d: int): char
    requires 0 <= d < 16
  {
    if d < 10 then ('0' as int + d) as char else ('a' as int + d - 10) as char
  }

  function HexValue(c: char): (r: Option<int>)
    ensures r.Some? ==> 0 <= r.value < 16
  {
    if '0' <= c <= '9' then Some(c as int - '0' as int)
    else if 'a' <= c <= 'f' then Some(c as int - 'a' as int + 10)
    else if 'A' <= c <= 'F' then Some(c as int - 'A' as int + 10)
    else None
  }

  function Cons(c: char, rest: Option<string>): Option<string> {
    match rest
    case None => None
    case Some(t) => Some([c] + t)
  }

  /** How Python reads the body of a quoted string literal back: the escapes `\\`,
      `\'`, `\"`, `\t`, `\n`, `\r` and `\xHH`, and every other character as itself.
      `None` for an escape it does not accept. */
  function Unescape(t: string): Option<string>
    decreases |t|
  {
    if t == [] then Some([])
    else if t[0] != '\\' then Cons(t[0], Unescape(t[1..]))
    else if |t| < 2 then None
    else if t[1] == '\\' || t[1] == '\'' || t[1] == '"' then Cons(t[1], Unescape(t[2..]))
    else if t[1] == 't' then Cons('\t', Unescape(t[2..]))
    else if t[1] == 'n' then Cons('\n', Unescape(t[2..]))
    else if t[1] == 'r' then Cons('\r', Unescape(t[2..]))
    else if t[1] == 'x' && |t| >= 4 && HexValue(t[2]).Some? && HexValue(t[3]).Some? then
      Cons((16 * HexValue(t[2]).value + HexValue(t[3]).value) as char, Unescape(t[4..]))
    else None
  }

  /** One character inside a `repr` quoted with `q`: the character itself, or an escape
      starting with a backslash. The quote never appears unescaped. */
  function ReprChar(c: char, q: char): (r: string)
    requires q == '\'' || q == '"'
    ensures r != [] && r[0] != q
    ensures r[0] != '\\' ==> r == [c]
  {
    if c == q || c == '\\' then ['\\', c]
    else if c == '\t' then "\\t"
    else if c == '\n' then "\\n"
    else if c == '\r' then "\\r"
    else if c as int < 32 || c as int == 127 then "\\x" + [HexDigit(c as int / 16), HexDigit(c as int % 16)]
    else [c]
  }

  lemma HexRoundTrip(d: int)
    requires 0 <= d < 16
    ensures HexValue(HexDigit(d)) == Some(d)
  {
  }

  /** Reading back one escaped character, followed by anything that reads back. */
  lemma ReprCharRead(c: char, q: char, rest: string, x: string)
    requires q == '\'' || q == '"'
    requires Unescape(rest) == Some(x)
    ensures Unescape(ReprChar(c, q) + rest) == Some([c] + x)
  {
    var e := ReprChar(c, q);
    var t := e + rest;
    if |e| == 1 {
      assert t[0] == c && c != '\\' && t[1..] == rest;
    } else if |e| == 2 {
      assert t[0] == '\\' && t[1] == e[1] && t[2..] == rest;
      assert Unescape(t) == Cons(c, Unescape(rest));
    } else {
      var hi, lo := c as int / 16, c as int % 16;
      HexRoundTrip(hi);
      HexRoundTrip(lo);
      assert t[0] == '\\' && t[1] == 'x' && t[2] == HexDigit(hi) && t[3] == HexDigit(lo);
      assert t[4..] == rest;
      assert (16 * hi + lo) as char == c;
    }
  }

  /** The escaped body of a `repr`: Python reads it back as the original text. */
  function ReprBody(s: string, q: char): (r: string)
    requires q == '\'' || q == '"'
    ensures Unescape(r) == Some(s)
  {
    if s == [] then []
    else
      var rest := ReprBody(s[1..], q);
      ReprCharRead(s[0], q, rest, s[1..]);
      assert [s[0]] + s[1..] == s;
      ReprChar(s[0], q) + rest
  }

  /** `repr` of a string: single quotes unless the text holds a single quote and no
      double quote; the text between the quotes reads back as `s`. */
  function Repr(s: string): (r: string)
    ensures |r| >= 2 && r[0] == r[|r| - 1] && (r[0] == '\'' || r[0] == '"')
    ensures r[0] == '"' <==> '\'' in s && '"' !in s
    ensures Unescape(r[1..|r| - 1]) == Some(s)
  {
    var q := if '\'' in s && '"' !in s then '"' else '\'';
    var r := [q] + ReprBody(s, q) + [q];
    assert r[1..|r| - 1] == ReprBody(s, q);
    r
  }

  /** The f-strings of the statement parsers: each statement's text opens with its
      kind's name, an assignment or print closes with `)`, and a loop with the list of
      its body. */
  function RenderStmt(s: Stmt): (r: string)
    ensures s.Assignment? ==> "Assignment(" + s.name + " = " <= r && r[|r| - 1] == ')'
    ensures s.Print? ==> Capitalize(s.command) + "(" <= r && r[|r| - 1] == ')'
    ensures s.If? ==> "If(" <= r
    ensures s.While? ==> "While(" <= r && r[|r| - 1] == ']'
    ensures s.ForEach? ==> "ForEach(" + s.name + " in " <= r && r[|r| - 1] == ']'
    decreases s, 2
  {
    match s
    case Assignment(name, value) => "Assignment(" + name + " = " + RenderExpr(value) + ")"
    case Print(command, arg) => Capitalize(command) + "(" + RenderExpr(arg) + ")"
    case If(cond, thenBody, elseBody) =>
      "If(" + RenderExpr(cond) + ") Then " + RenderList(thenBody) + " Else " +
      RenderElse(elseBody)
    case While(cond, body) => "While(" + RenderExpr(cond) + ") Do " + RenderList(body)
    case ForEach(name, iterable, body) =>
      "ForEach(" + name + " in " + RenderExpr(iterable) + ") Do " + RenderList(body)
  }

  /** The else body as the f-string shows it: `None` exactly when there is none. */
  function RenderElse(elseBody: ElsePart): (r: string)
    ensures r == "None" <==> elseBody.NoElse?
    decreases elseBody, 2
  {
    match elseBody
    case NoElse => "None"
    case Otherwise(body) => RenderList(body)
  }

  /** A list of statement texts as Python prints it: `[` and the items' `repr`s joined
      by `, ` and `]`; `[]` exactly for the empty list. */
  function RenderList(stmts: seq<Stmt>): (r: string)
    ensures |r| >= 2 && r[0] == '[' && r[|r| - 1] == ']'
    ensures r == "[]" <==> stmts == []
    decreases stmts, 1
  {
    "[" + RenderItems(stmts) + "]"
  }

  /** The items of a list display: empty exactly for no items, and otherwise opening
      with the quote of the first item's `repr`. */
  function RenderItems(stmts: seq<Stmt>): (r: string)
    ensures r == [] <==> stmts == []
    ensures r != [] ==> r[0] == '\'' || r[0] == '"'
    decreases stmts, 0
  {
    if stmts == [] then ""
    else if |stmts| == 1 then Repr(RenderStmt(stmts[0]))
    else Repr(RenderStmt(stmts[0])) + ", " + RenderItems(stmts[1..])
  }

  // ---------------------------------------------------------------------------
  // The parser object

  /** A method's outcome agrees with the function that specifies it: the same value
      or error, and on success the cursor just past what was parsed. */
  predicate Agrees<T(==)>(r: Result<T, ParseError>, spec: Result<Parsed<T>, ParseError>, position: nat) {
    match spec
    case Success(p) => r == Success(p.value) && position == p.next
    case Failure(e) => r == Failure(e)
  }

  /** `spec` with `prefix` put in front of its statements. */
  function Prepend(prefix: seq<Stmt>, spec: Result<Parsed<seq<Stmt>>, ParseError>): Result<Parsed<seq<Stmt>>, ParseError> {
    match spec
    case Success(p) => Success(Parsed(prefix + p.value, p.next))
    case Failure(e) => Failure(e)
  }

  class Parser {
    const tokens: seq<Token>
    var position: nat

    constructor (tokens: seq<Token>)
      ensures this.tokens == tokens && position == 0
    {
      this.tokens := tokens;
      position := 0;
    }

    /** `current_token`: the token under the cursor, `None` past the end. */
    method CurrentToken() returns (t: Option<Token>)
      ensures t.Some? <==> position < |tokens|
      ensures t.Some? ==> t.value == tokens[position]
    {
      t := if position < |tokens| then Some(tokens[position]) else None;
    }

    method Advance()
      requires position < |tokens|
      modifies this`position
      ensures position == old(position) + 1
    {
      position := position + 1;
    }

    method Expect(kind: TokenType, value: Option<string>) returns (r: Result<Token, ParseError>)
      requires position <= |tokens|
      modifies this`position
      ensures r == ExpectAt(tokens, old(position), kind, value)
      ensures position == if r.Success? then old(position) + 1 else old(position)
      ensures position <= |tokens|
    {
      var token := CurrentToken();
      if token.Some? && token.value.kind == kind && (value.None? || token.value.value == value.value) {
        Advance();
        return Success(token.value);
      }
      var what := if value.Some? && value.value != "" then value.value else KindName(kind);
      return Failure(Expected(what, token));
    }

    method ParseProgram() returns (r: Result<seq<Stmt>, ParseError>)
      requires position <= |tokens|
      modifies this`position
      ensures r == ProgramFrom(tokens, old(position))
      ensures r.Success? ==> position == |tokens|
    {
      var statements := [];
      PrependAllNil(ProgramFrom(tokens, position));
      while position < |tokens|
        invariant old(position) <= position <= |tokens|
        invariant ProgramFrom(tokens, old(position)) == PrependAll(statements, ProgramFrom(tokens, position))
        decreases |tokens| - position
      {
        ghost var p := position;
        var s := ParseStatement();
        ProgramFromStep(tokens, p, s, position);
        if s.Failure? {
          return Failure(s.error);
        }
        PrependAllAppend(statements, [s.value], ProgramFrom(tokens, position));
        statements := statements + [s.value];
      }
      assert statements + [] == statements;
      return Success(statements);
    }

    method ParseStatement() returns (r: Result<Stmt, ParseError>)
      requires position <= |tokens|
      modifies this`position
      ensures Agrees(r, StatementAt(tokens, old(position)), position)
      ensures position <= |tokens|
      decreases |tokens| - position, 6
    {
      var token := CurrentToken();
      if token.None? {
        return Failure(NoToken);
      }
      var t := token.value;
      if t.kind == Keyword {
        if t.value == "pls" {
          r := ParseAssignment();
          return;
        } else if t.value == "show" {
          r := ParsePrint("show");
          return;
        } else if t.value == "whisper" {
          r := ParsePrint("whisper");
          return;
        } else if t.value == "shout" {
          r := ParsePrint("shout");
          return;
        } else if t.value == "Check" {
          r := ParseIf();
          return;
        } else if t.value == "During" {
          r := ParseWhile();
          return;
        } else if t.value == "Given" {
          r := ParseFor();
          return;
        }
      }
      return Failure(UnexpectedStatement(t));
    }

    method ParseAssignment() returns (r: Result<Stmt, ParseError>)
      requires position <= |tokens|
      modifies this`position
      ensures Agrees(r, AssignmentAt(tokens, old(position)), position)
      ensures position <= |tokens|
      decreases |tokens| - position, 3
    {
      var kw :- Expect(Keyword, Some("pls"));
      var id :- Expect(Identifier, None);
      var eq :- Expect(Operator, Some("="));
      var e :- ParseExpression();
      var end :- Expect(EndStatement, Some(EndMarker));
      return Success(Assignment(id.value, e));
    }

    method ParsePrint(command: string) returns (r: Result<Stmt, ParseError>)
      requires position <= |tokens|
      modifies this`position
      ensures Agrees(r, PrintAt(tokens, old(position), command), position)
      ensures position <= |tokens|
      decreases |tokens| - position, 3
    {
      var kw :- Expect(Keyword, Some(command));
      var open :- Expect(Separator, Some("("));
      var e :- ParseExpression();
      var close :- Expect(Separator, Some(")"));
      var end :- Expect(EndStatement, Some(EndMarker));
      return Success(Print(command, e));
    }

    method ParseBraced() returns (r: Result<seq<Stmt>, ParseError>)
      requires position <= |tokens|
      modifies this`position
      ensures Agrees(r, BracedAt(tokens, old(position)), position)
      ensures position <= |tokens|
      decreases |tokens| - position, 3
    {
      var open :- Expect(Separator, Some("{"));
      var body :- ParseProgramBlock();
      var close :- Expect(Separator, Some("}"));
      return Success(body);
    }

    method ParseIf() returns (r: Result<Stmt, ParseError>)
      requires position <= |tokens|
      modifies this`position
      ensures Agrees(r, IfAt(tokens, old(position)), position)
      ensures position <= |tokens|
      decreases |tokens| - position, 5
    {
      var kw :- Expect(Keyword, Some("Check"));
      var open :- Expect(Separator, Some("("));
      var condition :- ParseExpression();
      var close :- Expect(Separator, Some(")"));
      var ifBody :- ParseBraced();
      var elseBody :- ParseElse();
      return Success(If(condition, ifBody, elseBody));
    }

    /** The `otherwise` check at the end of `parse_if`. */
    method ParseElse() returns (r: Result<ElsePart, ParseError>)
      requires position <= |tokens|
      modifies this`position
      ensures Agrees(r, ElseAt(tokens, old(position)), position)
      ensures position <= |tokens|
      decreases |tokens| - position, 4
    {
      var token := CurrentToken();
      if token.Some? && token.value.value == "otherwise" {
        Advance();
        var body :- ParseBraced();
        return Success(Otherwise(body));
      }
      return Success(NoElse);
    }

    method ParseWhile() returns (r: Result<Stmt, ParseError>)
      requires position <= |tokens|
      modifies this`position
      ensures Agrees(r, WhileAt(tokens, old(position)), position)
      ensures position <= |tokens|
      decreases |tokens| - position, 3
    {
      var kw :- Expect(Keyword, Some("During"));
      var open :- Expect(Separator, Some("("));
      var condition :- ParseExpression();
      var close :- Expect(Separator, Some(")"));
      var body :- ParseBraced();
      return Success(While(condition, body));
    }

    method ParseFor() returns (r: Result<Stmt, ParseError>)
      requires position <= |tokens|
      modifies this`position
      ensures Agrees(r, ForAt(tokens, old(position)), position)
      ensures position <= |tokens|
      decreases |tokens| - position, 3
    {
      var kw :- Expect(Keyword, Some("Given"));
      var id :- Expect(Identifier, None);
      var inKw :- Expect(Keyword, Some("in"));
      var e :- ParseExpression();
      var body :- ParseBraced();
      return Success(ForEach(id.value, e, body));
    }

    method ParseProgramBlock() returns (r: Result<seq<Stmt>, ParseError>)
      requires position <= |tokens|
      modifies this`position
      ensures Agrees(r, BlockAt(tokens, old(position)), position)
      ensures position <= |tokens|
      decreases |tokens| - position, 7
    {
      var statements := [];
      PrependNil(BlockAt(tokens, position));
      while position < |tokens| && tokens[position].kind != Separator
        invariant old(position) <= position <= |tokens|
        invariant BlockAt(tokens, old(position)) == Prepend(statements, BlockAt(tokens, position))
        decreases |tokens| - position
      {
        ghost var p := position;
        var s := ParseStatement();
        BlockAtStep(tokens, p, s, position);
        if s.Failure? {
          return Failure(s.error);
        }
        PrependAppend(statements, [s.value], BlockAt(tokens, position));
        statements := statements + [s.value];
      }
      assert statements + [] == statements;
      return Success(statements);
    }

    method ParseExpression() returns (r: Result<Expr, ParseError>)
      requires position <= |tokens|
      modifies this`position
      ensures Agrees(r, ExpressionAt(tokens, old(position)), position)
      ensures position <= |tokens|
      decreases |tokens| - position, 2
    {
      var left :- ParsePrimary();
      while position < |tokens| && tokens[position].kind == Operator
        invariant old(position) < position <= |tokens| && LeftNested(left)
        invariant ExpressionAt(tokens, old(position)) == OperatorsAt(tokens, position, left)
        decreases |tokens| - position
      {
        var operator := tokens[position];
        Advance();
        var right :- ParsePrimary();
        left := Binary(left, operator.value, right);
      }
      return Success(left);
    }

    method ParsePrimary() returns (r: Result<Expr, ParseError>)
      requires position <= |tokens|
      modifies this`position
      ensures Agrees(r, PrimaryAt(tokens, old(position)), position)
      ensures position <= |tokens|
      decreases |tokens| - position, 0
    {
      var token := CurrentToken();
      if token.None? {
        return Failure(NoToken);
      }
      var t := token.value;
      if t.kind == Literal {
        Advance();
        return Success(Lit(t.value));
      } else if t.kind == Identifier {
        Advance();
        return Success(Ident(t.value));
      } else if t.kind == Separator && t.value == "(" {
        Advance();
        var e :- ParseExpression();
        var close :- Expect(Separator, Some(")"));
        return Success(Group(e));
      }
      return Failure(ExpectedExpression(t));
    }
  }


  lemma PrependNil(x: Result<Parsed<seq<Stmt>>, ParseError>)
    ensures Prepend([], x) == x
  {
    if x.Success? {
      assert [] + x.value.value == x.value.value;
    }
  }

  lemma PrependAppend(a: seq<Stmt>, b: seq<Stmt>, x: Result<Parsed<seq<Stmt>>, ParseError>)
    ensures Prepend(a, Prepend(b, x)) == Prepend(a + b, x)
  {
    if x.Success? {
      assert a + (b + x.value.value) == (a + b) + x.value.value;
    }
  }



  /** One iteration of the block loop: a statement, then the rest of the block; a
      failed statement fails the block. */
  lemma BlockAtStep(tokens: seq<Token>, pos: nat, s: Result<Stmt, ParseError>, next: nat)
    requires pos < |tokens| && tokens[pos].kind != Separator
    requires Agrees(s, StatementAt(tokens, pos), next)
    ensures s.Success? ==> next <= |tokens| && BlockAt(tokens, pos) == Prepend([s.value], BlockAt(tokens, next))
    ensures s.Failure? ==> BlockAt(tokens, pos) == Failure(s.error)
  {
  }

  /** One iteration of the program loop. */
  lemma ProgramFromStep(tokens: seq<Token>, pos: nat, s: Result<Stmt, ParseError>, next: nat)
    requires pos < |tokens|
    requires Agrees(s, StatementAt(tokens, pos), next)
    ensures s.Success? ==> next <= |tokens| && ProgramFrom(tokens, pos) == PrependAll([s.value], ProgramFrom(tokens, next))
    ensures s.Failure? ==> ProgramFrom(tokens, pos) == Failure(s.error)
  {
  }
}
