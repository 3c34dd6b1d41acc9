/** The tokenizer of lexical_temp.py: one cursor over the input, whitespace skipped, an
    alphanumeric word, a number (or an illegal identifier), and otherwise a
    one-character token whose kind sets `=` apart as the assignment. */
module LexicalTemp {
  import opened Common
  import opened NumberRuns
  import opened CTokens

  /** The kind of a one-character token. */
  function SymbolKind(c: char): (r: TokenType)
    ensures r == Assignment <==> c == '='
    ensures r == Operator <==> c in "+-*/<>"
    ensures r == Separator <==> c in "();{}"
    ensures r == Punctuation <==> c in "!\"'"
    ensures r in {Assignment, Operator, Separator, Punctuation, Unknown}
  {
    if c == '=' then Assignment
    else if c in "+-*/<>" then Operator
    else if c in "();{}" then Separator
    else if c in "!\"'" then Punctuation
    else Unknown
  }

  /** One iteration of the `tokenize` loop at index `p`. */
  function Step(source: string, p: nat): (r: Scan)
    requires p < |source|
    ensures p < r.next <= |source|
  {
    var c := source[p];
    if IsSpace(c) then Scan(None, p + 1)
    else if IsAlpha(c) then WordScan(source, p)
    else if IsDigit(c) then NumberScan(source, p)
    else Scan(Some(Token(SymbolKind(c), [c])), p + 1)
  }

  /** The tokens `tokenize` returns when it starts at index `p` of `source`: at most
      one per character left. */
  function LexFrom(source: string, p: nat): (r: seq<Token>)
    ensures |r| <= if p < |source| then |source| - p else 0
    decreases |source| - p
  {
    if p >= |source| then []
    else
      Emit(Step(source, p).token) + LexFrom(source, Step(source, p).next)
  }

  /** The tokens `tokenize` returns for the whole text `s`: never more tokens than
      characters. */
  function Lex(s: string): (r: seq<Token>)
    ensures |r| <= |s|
  {
    LexFrom(s, 0)
  }

  lemma LexFromAfterScan(source: string, p: nat, q: nat, token: Option<Token>)
    requires p < |source| && token == Step(source, p).token && q == Step(source, p).next
    ensures LexFrom(source, p) == Emit(token) + LexFrom(source, q)
  {
  }

  /** What every token looks like: a word or a number of the shape its kind says, or a
      single character that is neither blank nor alphanumeric, of its symbol kind. */
  ghost predicate WellFormedToken(t: Token) {
    if t.kind in {Keyword, Identifier, IntegerLiteral, FloatLiteral, IllegalIdentifier} then
      WellFormedWordOrNumber(t)
    else
      |t.value| == 1 && !IsSpace(t.value[0]) && !IsAlnum(t.value[0]) && SymbolKind(t.value[0]) == t.kind
  }

  class LexicalAnalyzer {
    const input: string
    var position: nat

    constructor (source: string)
      ensures input == source && position == 0
    {
      input := source;
      position := 0;
    }

    /** `tokenize`: the tokens of the input from the cursor on. */
    method Tokenize() returns (tokens: seq<Token>)
      modifies this`position
      ensures tokens == LexFrom(input, old(position))
      ensures position == if old(position) < |input| then |input| else old(position)
    {
      tokens := [];
      while position < |input|
        invariant old(position) < |input| ==> position <= |input|
        invariant old(position) >= |input| ==> position == old(position)
        invariant tokens + LexFrom(input, position) == LexFrom(input, old(position))
        decreases |input| - position
      {
        ghost var before := tokens;
        ghost var p := position;
        var token := ScanOne();
        if token.Some? {
          tokens := tokens + [token.value];
        }
        LexFromAfterScan(input, p, position, token);
        Glue(before, Emit(token), LexFrom(input, position), LexFrom(input, p), tokens, LexFrom(input, old(position)));
      }
    }

    /** The body of the `tokenize` loop. */
    method ScanOne() returns (token: Option<Token>)
      requires position < |input|
      modifies this`position
      ensures token == Step(input, old(position)).token
      ensures position == Step(input, old(position)).next
    {
      var c := input[position];
      if IsSpace(c) {
        position := position + 1;
        token := None;
      } else if IsAlpha(c) {
        var start := position;
        position := ReadAlnum(input, position);
        var word := input[start..position];
        if word in Keywords {
          token := Some(Token(Keyword, word));
        } else {
          token := Some(Token(Identifier, word));
        }
      } else if IsDigit(c) {
        var start := position;
        position := ReadNumber(input, position);
        var number := input[start..position];
        if position < |input| && IsAlpha(input[position]) {
          ghost var k := position;
          var text, end := ReadIllegal(input, position, number);
          position := end;
          assert text == input[start..position] by {
            assert input[start..k] + input[k..position] == input[start..position];
          }
          token := Some(Token(IllegalIdentifier, text));
        } else if '.' in number {
          token := Some(Token(FloatLiteral, number));
        } else {
          token := Some(Token(IntegerLiteral, number));
        }
      } else if c == '=' {
        token := Some(Token(Assignment, [c]));
        position := position + 1;
      } else if c in "+-*/<>" {
        token := Some(Token(Operator, [c]));
        position := position + 1;
      } else if c in "();{}" {
        token := Some(Token(Separator, [c]));
        position := position + 1;
      } else if c in "!\"'" {
        token := Some(Token(Punctuation, [c]));
        position := position + 1;
      } else {
        token := Some(Token(Unknown, [c]));
        position := position + 1;
      }
    }
  }

  // ---------------------------------------------------------------------------
  // What the scan promises

  /** The token of one iteration, when there is one, has the shape of its kind. */
  lemma StepWellFormed(source: string, p: nat)
    requires p < |source|
    ensures Step(source, p).token.Some? ==> WellFormedToken(Step(source, p).token.value)
  {
    var c := source[p];
    if IsSpace(c) {
    } else if IsAlpha(c) {
      WordScanWellFormed(source, p);
    } else if IsDigit(c) {
      NumberScanWellFormed(source, p);
    }
  }

  lemma {:induction false} LexFromWellFormed(source: string, p: nat)
    ensures forall t :: t in LexFrom(source, p) ==> WellFormedToken(t)
    decreases |source| - p
  {
    if p < |source| {
      var q := Step(source, p).next;
      StepWellFormed(source, p);
      LexFromAfterScan(source, p, q, Step(source, p).token);
      LexFromWellFormed(source, q);
    }
  }

  /** Every token of a scan has the shape of its kind: `=` is always the assignment
      token, and the operators, separators and punctuation are single characters of
      their classes. */
  lemma LexWellFormed(s: string)
    ensures forall t :: t in Lex(s) ==> WellFormedToken(t)
    ensures forall t :: t in Lex(s) && t.kind == Assignment ==> t.value == "="
    ensures forall t :: t in Lex(s) && t.kind == Operator ==> |t.value| == 1 && t.value[0] in "+-*/<>"
  {
    LexFromWellFormed(s, 0);
  }

  /** `<=` is two tokens: the operator `<` and the assignment `=`. */
  lemma LessEqualExample()
    ensures Lex("<=") == [Token(Operator, "<"), Token(Assignment, "=")]
  {
    var s := "<=";
    assert Step(s, 1) == Scan(Some(Token(Assignment, "=")), 2);
    assert LexFrom(s, 1) == [Token(Assignment, "=")];
    assert Step(s, 0) == Scan(Some(Token(Operator, "<")), 1);
  }

  /** `_` is not a word character: `a_b` is an identifier, an unknown `_`, and another
      identifier. */
  lemma UnderscoreExample()
    ensures Lex("a_b") == [Token(Identifier, "a"), Token(Unknown, "_"), Token(Identifier, "b")]
  {
    var s := "a_b";
    assert AlnumEnd(s, 3) == 3;
    assert AlnumEnd(s, 2) == 3;
    assert s[2..3] == "b";
    assert Step(s, 2) == Scan(Some(Token(Identifier, "b")), 3);
    assert LexFrom(s, 2) == [Token(Identifier, "b")];
    assert Step(s, 1) == Scan(Some(Token(Unknown, "_")), 2);
    assert AlnumEnd(s, 1) == 1;
    assert AlnumEnd(s, 0) == 1;
    assert s[0..1] == "a";
    assert Step(s, 0) == Scan(Some(Token(Identifier, "a")), 1);
  }
}
