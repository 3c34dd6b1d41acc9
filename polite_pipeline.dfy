/** The PoliteLang tokenizer and parser together, and worked examples of the parser's
    folding. The parser asks for `in` as a KEYWORD token in `Given x in e { … }`, but the
    tokenizer's keyword list has no `in`: no `Given` statement ever parses from the
    tokenizer's output. */
module PolitePipeline {
  import opened Common
  import opened PoliteLexer
  import opened PoliteLexerProps
  import opened PoliteParser

  /** No `Given` statement anywhere in `s`, bodies included. */
  ghost predicate GivenFree(s: Stmt)
    decreases s
  {
    match s
    case If(_, thenBody, elseBody) =>
      AllGivenFree(thenBody) && (elseBody.Otherwise? ==> AllGivenFree(elseBody.body))
    case While(_, body) => AllGivenFree(body)
    case ForEach(_, _, _) => false
    case _ => true
  }

  ghost predicate AllGivenFree(stmts: seq<Stmt>)
    decreases stmts
  {
    forall i :: 0 <= i < |stmts| ==> GivenFree(stmts[i])
  }

  /** No token is the keyword `in`. */
  predicate NoInKeyword(tokens: seq<Token>) {
    forall i :: 0 <= i < |tokens| ==> tokens[i] != Token(Keyword, "in")
  }

  // ---------------------------------------------------------------------------
  // Without an `in` keyword, nothing the parser builds holds a `Given` statement

  lemma {:induction false} StatementGivenFree(tokens: seq<Token>, pos: nat)
    requires pos <= |tokens| && NoInKeyword(tokens)
    ensures StatementAt(tokens, pos).Success? ==> GivenFree(StatementAt(tokens, pos).value.value)
    decreases |tokens| - pos, 6
  {
    if StatementAt(tokens, pos).Success? {
      var t := tokens[pos];
      if t.value == "Check" {
        IfGivenFree(tokens, pos);
      } else if t.value == "During" {
        WhileGivenFree(tokens, pos);
      }
    }
  }

  lemma {:induction false} IfGivenFree(tokens: seq<Token>, pos: nat)
    requires pos <= |tokens| && NoInKeyword(tokens)
    ensures IfAt(tokens, pos).Success? ==> GivenFree(IfAt(tokens, pos).value.value)
    decreases |tokens| - pos, 5
  {
    var r := IfAt(tokens, pos);
    if r.Success? {
      var p2 := pos + 2;
      var c := ExpressionAt(tokens, p2).value;
      var open := c.next + 1;
      var thenBody := BracedAt(tokens, open).value;
      var elseBody := ElseAt(tokens, thenBody.next).value;
      assert r.value.value == If(c.value, thenBody.value, elseBody.value);
      BracedGivenFree(tokens, open);
      ElseGivenFree(tokens, thenBody.next);
    }
  }

  lemma {:induction false} ElseGivenFree(tokens: seq<Token>, pos: nat)
    requires pos <= |tokens| && NoInKeyword(tokens)
    ensures ElseAt(tokens, pos).Success? && ElseAt(tokens, pos).value.value.Otherwise? ==>
              AllGivenFree(ElseAt(tokens, pos).value.value.body)
    decreases |tokens| - pos, 4
  {
    var r := ElseAt(tokens, pos);
    if r.Success? && r.value.value.Otherwise? {
      var p1 := pos + 1;
      assert r.value.value.body == BracedAt(tokens, p1).value.value;
      BracedGivenFree(tokens, p1);
    }
  }

  lemma {:induction false} WhileGivenFree(tokens: seq<Token>, pos: nat)
    requires pos <= |tokens| && NoInKeyword(tokens)
    ensures WhileAt(tokens, pos).Success? ==> GivenFree(WhileAt(tokens, pos).value.value)
    decreases |tokens| - pos, 3
  {
    var r := WhileAt(tokens, pos);
    if r.Success? {
      var p2 := pos + 2;
      var c := ExpressionAt(tokens, p2).value;
      var open := c.next + 1;
      assert r.value.value == While(c.value, BracedAt(tokens, open).value.value);
      BracedGivenFree(tokens, open);
    }
  }

  lemma {:induction false} BracedGivenFree(tokens: seq<Token>, pos: nat)
    requires pos <= |tokens| && NoInKeyword(tokens)
    ensures BracedAt(tokens, pos).Success? ==> AllGivenFree(BracedAt(tokens, pos).value.value)
    decreases |tokens| - pos, 3
  {
    var r := BracedAt(tokens, pos);
    if r.Success? {
      var p1 := pos + 1;
      assert r.value.value == BlockAt(tokens, p1).value.value;
      BlockGivenFree(tokens, p1);
    }
  }

  lemma {:induction false} BlockGivenFree(tokens: seq<Token>, pos: nat)
    requires pos <= |tokens| && NoInKeyword(tokens)
    ensures BlockAt(tokens, pos).Success? ==> AllGivenFree(BlockAt(tokens, pos).value.value)
    decreases |tokens| - pos, 7
  {
    var r := BlockAt(tokens, pos);
    if r.Success? && pos < |tokens| && tokens[pos].kind != Separator {
      var s := StatementAt(tokens, pos).value;
      var rest := BlockAt(tokens, s.next).value;
      assert r.value.value == [s.value] + rest.value;
      StatementGivenFree(tokens, pos);
      BlockGivenFree(tokens, s.next);
    }
  }

  lemma {:induction false} ProgramGivenFree(tokens: seq<Token>, pos: nat)
    requires pos <= |tokens| && NoInKeyword(tokens)
    ensures ProgramFrom(tokens, pos).Success? ==> AllGivenFree(ProgramFrom(tokens, pos).value)
    decreases |tokens| - pos
  {
    var r := ProgramFrom(tokens, pos);
    if r.Success? && pos < |tokens| {
      var s := StatementAt(tokens, pos).value;
      var rest := ProgramFrom(tokens, s.next).value;
      assert r.value == [s.value] + rest;
      StatementGivenFree(tokens, pos);
      ProgramGivenFree(tokens, s.next);
    }
  }

  /** Whatever the text, a program parsed from its tokens holds no `Given` statement:
      the tokenizer never emits `in` as a keyword. */
  lemma GivenNeverParses(source: string)
    ensures Program(Lex(source)).Success? ==> AllGivenFree(Program(Lex(source)).value)
  {
    var tokens := Lex(source);
    LexWellFormed(source);
    assert NoInKeyword(tokens) by {
      forall i | 0 <= i < |tokens|
        ensures tokens[i] != Token(Keyword, "in")
      {
        assert tokens[i] in tokens;
      }
    }
    ProgramGivenFree(tokens, 0);
  }

  // ---------------------------------------------------------------------------
  // Left-associative folding

  /** `1 + 2 + 3` folds to the left. */
  lemma LeftFoldExample()
    ensures ExpressionAt([Token(Literal, "1"), Token(Operator, "+"), Token(Literal, "2"),
                          Token(Operator, "+"), Token(Literal, "3")], 0) ==
            Success(Parsed(Binary(Binary(Lit("1"), "+", Lit("2")), "+", Lit("3")), 5))
  {
    var tokens := [Token(Literal, "1"), Token(Operator, "+"), Token(Literal, "2"),
                   Token(Operator, "+"), Token(Literal, "3")];
    var one := Binary(Lit("1"), "+", Lit("2"));
    var two := Binary(one, "+", Lit("3"));
    assert OperatorsAt(tokens, 5, two) == Success(Parsed(two, 5));
    assert PrimaryAt(tokens, 4) == Success(Parsed(Lit("3"), 5));
    assert OperatorsAt(tokens, 3, one) == Success(Parsed(two, 5));
    assert PrimaryAt(tokens, 2) == Success(Parsed(Lit("2"), 3));
    assert OperatorsAt(tokens, 1, Lit("1")) == Success(Parsed(two, 5));
  }

  /** The folded `1 + 2 + 3` renders with one pair of parentheses per operator. */
  lemma LeftFoldRendering()
    ensures RenderExpr(Binary(Binary(Lit("1"), "+", Lit("2")), "+", Lit("3"))) ==
            "((Literal(1) + Literal(2)) + Literal(3))"
  {
    var inner := RenderExpr(Binary(Lit("1"), "+", Lit("2")));
    assert inner == "(Literal(1) + Literal(2))" by {
      assert RenderExpr(Lit("1")) == "Literal(1)";
      assert RenderExpr(Lit("2")) == "Literal(2)";
    }
    assert RenderExpr(Lit("3")) == "Literal(3)";
    OuterText(inner);
  }

  lemma OuterText(inner: string)
    requires inner == "(Literal(1) + Literal(2))"
    ensures "(" + inner + " " + "+" + " " + "Literal(3)" + ")" == "((Literal(1) + Literal(2)) + Literal(3))"
  {
    var s := "(" + inner + " " + "+" + " " + "Literal(3)" + ")";
    assert |s| == 40;
    assert forall i :: 0 <= i < 40 ==> s[i] == "((Literal(1) + Literal(2)) + Literal(3))"[i];
  }
}
