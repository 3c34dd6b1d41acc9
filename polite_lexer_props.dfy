/** What the PoliteLang tokenizer promises. Each rule of the priority chain, applied
    where the text holds what the rule matches, emits exactly the token the rule
    describes and leaves the cursor just past what it matched; `LexFromAfterScan`
    then carries the scan on from there. */
module PoliteLexerProps {
  import opened Common
  import opened NumberRuns
  import opened PoliteLexer

  // ---------------------------------------------------------------------------
  // Texts that emit nothing

  /** Whitespace is skipped without a token. */
  lemma StepBlank(source: string, p: nat)
    requires p < |source| && IsSpace(source[p])
    ensures Step(source, p) == Scan(None, p + 1)
  {
  }

  /** A `:)` comment is skipped up to and including the end of its line (`e` is where
      the line ends); on the last line the cursor stops one past the end of the text. */
  lemma StepComment(source: string, p: nat, e: nat)
    requires StartsAt(source, p, ":)") && p + 2 <= e <= |source|
    requires forall j :: p + 2 <= j < e ==> source[j] != '\n'
    requires e == |source| || source[e] == '\n'
    ensures Step(source, p) == Scan(None, e + 1)
  {
    assert source[p] == ':' && source[p + 1] == ')';
    assert RuleAt(source, p) == CommentRule;
    FindIs(source, p, '\n', e);
  }

  // ---------------------------------------------------------------------------
  // Texts that emit one token

  /** `thanks~` is the end-of-statement token, whatever follows it. */
  lemma StepEndStatement(source: string, p: nat)
    requires StartsAt(source, p, EndMarker)
    ensures Step(source, p) == Scan(Some(Token(EndStatement, EndMarker)), p + |EndMarker|)
  {
    assert source[p] == 't';
    assert RuleAt(source, p) == EndRule;
  }

  /** A two-character operator is one token, never its one-character prefix. */
  lemma StepLongOperator(source: string, p: nat, op: string)
    requires op in Operators && |op| > 1 && StartsAt(source, p, op)
    ensures Step(source, p) == Scan(Some(Token(Operator, op)), p + 2)
  {
    assert op == ">=" || op == "<=" || op == "==" || op == "!=";
    assert source[p] == op[0] && source[p + 1] == '=';
    assert RuleAt(source, p) == LongOperatorRule;
    StartsAtSlice(source, p, op);
  }

  /** A one-character operator, when it does not start a two-character one. */
  lemma StepOperator(source: string, p: nat)
    requires p < |source| && [source[p]] in Operators && !LongOperatorAhead(source, p)
    ensures Step(source, p) == Scan(Some(Token(Operator, [source[p]])), p + 1)
  {
    OperatorCharsAreOperators(source[p]);
    assert RuleAt(source, p) == OperatorRule;
  }

  /** A separator, unless it is the `:` that opens a comment. */
  lemma StepSeparator(source: string, p: nat)
    requires p < |source| && source[p] in Separators && !StartsAt(source, p, ":)")
    ensures Step(source, p) == Scan(Some(Token(Separator, [source[p]])), p + 1)
  {
    assert RuleAt(source, p) == SeparatorRule;
  }

  /** A maximal word is a keyword exactly when it is listed and an identifier
      otherwise; it is never illegal, since it does not start with a digit. It loses
      only to `thanks~`. */
  lemma StepWord(source: string, p: nat, w: string)
    requires StartsAt(source, p, w) && IsWord(w) && !StartsAt(source, p, EndMarker)
    requires p + |w| == |source| || !IsWordChar(source[p + |w|])
    ensures Step(source, p) == Scan(Some(Token(if w in Keywords then Keyword else Identifier, w)), p + |w|)
  {
    assert source[p] == w[0];
    assert RuleAt(source, p) == WordRule;
    WordEndIs(source, p, p + |w|);
    StartsAtSlice(source, p, w);
  }

  /** A number: digits with at most one `.`, ended by something that is neither a
      digit, a letter, nor a second `.`. */
  lemma StepNumber(source: string, p: nat, n: string)
    requires StartsAt(source, p, n) && IsNumberText(n)
    requires p + |n| < |source| ==>
               !IsDigit(source[p + |n|]) && !IsAlpha(source[p + |n|]) && (source[p + |n|] == '.' ==> '.' in n)
    ensures Step(source, p) == Scan(Some(Token(Literal, n)), p + |n|)
  {
    RuleAtDigit(source, p);
    NumberEndAt(source, p, n);
  }

  /** A number followed by a letter: the number and the word run after it form one
      illegal identifier, never a literal followed by an identifier. */
  lemma StepIllegalIdentifier(source: string, p: nat, n: string, w: string)
    requires StartsAt(source, p, n) && IsNumberText(n)
    requires StartsAt(source, p + |n|, w) && |w| > 0 && IsAlpha(w[0])
    requires forall i :: 0 <= i < |w| ==> IsWordChar(w[i])
    requires p + |n| + |w| == |source| || !IsWordChar(source[p + |n| + |w|])
    ensures Step(source, p) == Scan(Some(Token(IllegalIdentifier, n + w)), p + |n| + |w|)
  {
    var k := p + |n|;
    var e := k + |w|;
    RuleAtDigit(source, p);
    assert source[k] == w[0];
    NumberEndAt(source, p, n);
    WordEndAt(source, k, w);
    StartsAtConcat(source, p, n, w);
    assert Step(source, p) == NumberScan(source, p);
  }

  /** `read_identifier` reads exactly a run of word characters that nothing extends. */
  lemma WordEndAt(source: string, p: nat, w: string)
    requires StartsAt(source, p, w) && forall i :: 0 <= i < |w| ==> IsWordChar(w[i])
    requires p + |w| == |source| || !IsWordChar(source[p + |w|])
    ensures WordEnd(source, p) == p + |w|
  {
    WordEndIs(source, p, p + |w|);
  }

  /** A digit always starts the number rule. */
  lemma RuleAtDigit(source: string, p: nat)
    requires p < |source| && IsDigit(source[p])
    ensures RuleAt(source, p) == NumberRule
  {
    assert !StartsAt(source, p, ":)") && !StartsAt(source, p, EndMarker) by {
      assert source[p] != ':' && source[p] != 't';
    }
  }

  /** A closed string literal: its text is what lies between the quotes. */
  lemma StepString(source: string, p: nat, t: string)
    requires p < |source| && source[p] == '"'
    requires StartsAt(source, p + 1, t) && '"' !in t
    requires p + 1 + |t| < |source| && source[p + 1 + |t|] == '"'
    ensures Step(source, p) == Scan(Some(Token(Literal, t)), p + |t| + 2)
  {
    assert RuleAt(source, p) == StringRule;
    FindIs(source, p + 1, '"', p + 1 + |t|);
    StartsAtSlice(source, p + 1, t);
  }

  /** A string literal without its closing quote keeps the text up to the end of the
      input, where the cursor stops. */
  lemma StepUnterminatedString(source: string, p: nat)
    requires p < |source| && source[p] == '"'
    requires forall j :: p < j < |source| ==> source[j] != '"'
    ensures Step(source, p) == Scan(Some(Token(Literal, source[p + 1..])), |source|)
  {
    assert RuleAt(source, p) == StringRule;
    FindIs(source, p + 1, '"', |source|);
    assert Step(source, p) == StringScan(source, p);
    assert source[p + 1..|source|] == source[p + 1..];
  }

  /** A character no rule claims is a token of its own. */
  lemma StepUnknown(source: string, p: nat)
    requires p < |source| && IsUnknownChar(source[p]) && !LongOperatorAhead(source, p)
    ensures Step(source, p) == Scan(Some(Token(Unknown, [source[p]])), p + 1)
  {
    assert RuleAt(source, p) == UnknownRule;
  }

  // ---------------------------------------------------------------------------
  // The shape of every emitted token

  /** The token of one iteration, when there is one, has the shape of its kind. */
  lemma StepWellFormed(source: string, p: nat)
    requires p < |source|
    ensures Step(source, p).token.Some? ==> WellFormedToken(Step(source, p).token.value)
  {
    match RuleAt(source, p)
    case Blank =>
    case CommentRule =>
    case StringRule =>
      StringScanWellFormed(source, p);
    case EndRule =>
    case LongOperatorRule =>
      LongOperatorText(source, p);
    case OperatorRule =>
      OperatorCharsAreOperators(source[p]);
    case SeparatorRule =>
    case WordRule =>
      WordScanWellFormed(source, p);
    case NumberRule =>
      NumberScanWellFormed(source, p);
    case UnknownRule =>
  }

  /** The string branch emits a literal without quotes. */
  lemma StringScanWellFormed(source: string, p: nat)
    requires p < |source|
    ensures StringScan(source, p).token.Some? && WellFormedToken(StringScan(source, p).token.value)
  {
    var k := Find(source, p + 1, '"');
    FindSpec(source, p + 1, '"');
    var t := source[p + 1..k];
    assert forall j :: 0 <= j < |t| ==> t[j] == source[p + 1 + j];
  }

  /** The word branch emits a keyword or an identifier with the shape of a word. */
  lemma WordScanWellFormed(source: string, p: nat)
    requires p < |source| && (IsAlpha(source[p]) || source[p] == '_')
    ensures WordScan(source, p).token.Some? && WellFormedToken(WordScan(source, p).token.value)
  {
    var e := WordEnd(source, p);
    WordEndSpec(source, p);
    var w := source[p..e];
    assert forall j :: 0 <= j < |w| ==> w[j] == source[p + j];
    assert IsWord(w);
  }

  /** The number branch emits a literal without quotes, or an illegal identifier that
      splits into a number and a word run. */
  lemma NumberScanWellFormed(source: string, p: nat)
    requires p < |source| && IsDigit(source[p])
    ensures NumberScan(source, p).token.Some? && WellFormedToken(NumberScan(source, p).token.value)
  {
    var k := NumberEnd(source, p, false);
    NumberEndSpec(source, p, false);
    if k < |source| && IsAlpha(source[k]) {
      var e := WordEnd(source, k);
      WordEndSpec(source, k);
      var t := source[p..e];
      assert t[..k - p] == source[p..k];
      NumberRunSlice(source, p, k);
      assert forall i :: k - p <= i < |t| ==> t[i] == source[p + i];
      assert IllegalSplit(t, k - p);
    } else {
      assert forall i :: 0 <= i < k - p ==> source[p..k][i] == source[p + i];
    }
  }

  lemma {:induction false} LexFromWellFormed(source: string, p: nat)
    ensures forall t :: t in LexFrom(source, p) ==> WellFormedToken(t)
    decreases |source| - p
  {
    if p < |source| {
      var q := Step(source, p).next;
      StepWellFormed(source, p);
      LexFromAfterScan(source, p, q, Step(source, p).token);
      LexFromWellFormed(source, q);
    } else {
      LexFromEnd(source, p);
    }
  }

  /** Every token of a scan has the shape of its kind; in particular no token is a
      comment and no keyword token carries `thanks~`. */
  lemma LexWellFormed(s: string)
    ensures forall t :: t in Lex(s) ==> WellFormedToken(t)
    ensures forall t :: t in Lex(s) ==> t.kind != Comment
    ensures forall t :: t in Lex(s) && t.kind == Keyword ==> t.value != EndMarker
  {
    LexFromWellFormed(s, 0);
    assert !IsWord(EndMarker) by { assert !IsWordChar(EndMarker[6]); }
  }
}
