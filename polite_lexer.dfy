/** The PoliteLang tokenizer: source text to `(kind, text)` tokens, scanned by one
    cursor with a strict priority order (whitespace, `:)` comment, string, `thanks~`,
    two-character operator, one-character operator, separator, word, number, unknown). */
module PoliteLexer {
  import opened Common
  import opened NumberRuns

  datatype TokenType =
    | Keyword | Identifier | Literal | Operator | Separator
    | EndStatement | Comment | Unknown | IllegalIdentifier

  datatype Token = Token(kind: TokenType, value: string)

  /** The enum member's value, which error messages show for a kind. */
  function KindName(k: TokenType): string {
    match k
    case Keyword => "KEYWORD"
    case Identifier => "IDENTIFIER"
    case Literal => "LITERAL"
    case Operator => "OPERATOR"
    case Separator => "SEPARATOR"
    case EndStatement => "END_STATEMENT"
    case Comment => "COMMENT"
    case Unknown => "UNKNOWN"
    case IllegalIdentifier => "ILLEGAL_IDENTIFIER"
  }

  const Keywords: set<string> :=
    {"show", "whisper", "shout", "pls", "thanks~", "yep", "nah", "Check", "otherwise", "During", "Given"}

  const Operators: set<string> := {"+", "-", "*", "/", "<", ">", ">=", "<=", "==", "!=", "="}

  const Separators: set<char> := {'(', ')', '{', '}', '[', ']', ':', ','}

  /** The one-character members of `Operators`, as characters. */
  const OperatorChars: set<char> := {'+', '-', '*', '/', '<', '>', '='}

  lemma OperatorCharsAreOperators(c: char)
    ensures c in OperatorChars <==> [c] in Operators
  {
  }

  /** The operators in the order the operator loop tries them: longest first. */
  const OperatorsByLength: seq<string> := [">=", "<=", "==", "!=", "+", "-", "*", "/", "<", ">", "="]

  const EndMarker: string := "thanks~"

  /** Sorting the operators by descending length puts the four two-character
      operators before the seven one-character ones. */
  lemma OperatorsByLengthIsSorted()
    ensures forall op :: op in Operators <==> op in OperatorsByLength
    ensures forall i :: 0 <= i < 4 ==> |OperatorsByLength[i]| == 2
    ensures forall i :: 4 <= i < |OperatorsByLength| ==> |OperatorsByLength[i]| == 1
  {
  }

  // ---------------------------------------------------------------------------
  // Character classes and the texts the scanner produces

  predicate IsWordChar(c: char) {
    IsAlnum(c) || c == '_'
  }

  /** An identifier-shaped word: a letter or `_`, then letters, digits or `_`. */
  predicate IsWord(w: string) {
    |w| > 0 && (IsAlpha(w[0]) || w[0] == '_') && forall i :: 0 <= i < |w| ==> IsWordChar(w[i])
  }

  /** The text of a number: a digit, then digits with at most one `.`. */
  predicate IsNumberText(t: string) {
    |t| > 0 && IsDigit(t[0]) && NumberRun(t, 0, |t|)
  }

  /** `t[..k]` is a number and `t[k..]` a word-character run that starts with a letter. */
  predicate IllegalSplit(t: string, k: int) {
    0 < k < |t| && IsNumberText(t[..k]) && IsAlpha(t[k]) &&
    forall i :: k <= i < |t| ==> IsWordChar(t[i])
  }

  /** A character that no rule other than the last one claims (on its own). */
  predicate IsUnknownChar(c: char) {
    !IsSpace(c) && c != '"' && c !in OperatorChars && c !in Separators &&
    !IsAlpha(c) && c != '_' && !IsDigit(c)
  }

  /** What every token the scanner emits looks like, kind by kind. */
  ghost predicate WellFormedToken(t: Token) {
    match t.kind
    case Keyword => t.value in Keywords && IsWord(t.value)
    case Identifier => t.value !in Keywords && IsWord(t.value)
    case Literal => '"' !in t.value
    case Operator => t.value in Operators
    case Separator => |t.value| == 1 && t.value[0] in Separators
    case EndStatement => t.value == EndMarker
    case Comment => false
    case Unknown => |t.value| == 1 && IsUnknownChar(t.value[0])
    case IllegalIdentifier => exists k :: 0 < k < |t.value| && IllegalSplit(t.value, k)
  }

  // ---------------------------------------------------------------------------
  // The scanning loops of the helper methods, as functions of the cursor

  /** Where the loop of `read_identifier` stops when it starts at `i`. */
  function WordEnd(s: string, i: nat): (r: nat)
    requires i <= |s|
    ensures i <= r <= |s|
    ensures i < |s| && IsWordChar(s[i]) ==> i < r
    decreases |s| - i
  {
    if i == |s| || !IsWordChar(s[i]) then i else WordEnd(s, i + 1)
  }

  /** Where a loop that looks for `stop` from `i` on stops: the index of the first
      `stop`, or `|s|` when there is none. */
  function Find(s: string, i: nat, stop: char): (r: nat)
    requires i <= |s|
    ensures i <= r <= |s|
    decreases |s| - i
  {
    if i == |s| || s[i] == stop then i else Find(s, i + 1, stop)
  }

  /** The first operator of `ops` that occurs in `source` at `p`. */
  function FirstMatch(ops: seq<string>, source: string, p: nat): (r: Option<string>)
    ensures r.None? <==> forall i :: 0 <= i < |ops| ==> !StartsAt(source, p, ops[i])
    ensures r.Some? ==> exists i :: 0 <= i < |ops| && ops[i] == r.value && StartsAt(source, p, r.value) &&
                                    forall j :: 0 <= j < i ==> !StartsAt(source, p, ops[j])
  {
    if ops == [] then None
    else if StartsAt(source, p, ops[0]) then Some(ops[0])
    else
      var r := FirstMatch(ops[1..], source, p);
      assert forall i :: 1 <= i < |ops| ==> ops[i] == ops[1..][i - 1];
      r
  }

  /** The guard of the operator branch, as the source writes it: some operator
      longer than one character occurs at `p`. */
  ghost predicate AnyLongOperatorAt(source: string, p: nat) {
    exists op :: op in Operators && |op| > 1 && StartsAt(source, p, op)
  }

  /** The same guard, spelled out on characters: `>=`, `<=`, `==` or `!=` occurs at `p`. */
  /** The search goes on past an operator that is not at the cursor, and can only
      run out when nothing matches. */
  lemma FirstMatchSkip(ops: seq<string>, i: nat, source: string, p: nat)
    requires i < |ops| && !StartsAt(source, p, ops[i]) && FirstMatch(ops[i..], source, p).Some?
    ensures i + 1 < |ops| && FirstMatch(ops[i + 1..], source, p) == FirstMatch(ops[i..], source, p)
  {
    assert ops[i..][1..] == ops[i + 1..];
  }

  /** The search stops at the first operator at the cursor. */
  lemma FirstMatchHit(ops: seq<string>, i: nat, source: string, p: nat)
    requires i < |ops| && StartsAt(source, p, ops[i])
    ensures FirstMatch(ops[i..], source, p) == Some(ops[i])
  {
    assert ops[i..][0] == ops[i];
  }

  predicate LongOperatorAhead(source: string, p: nat) {
    p + 1 < |source| && source[p + 1] == '=' && source[p] in {'>', '<', '=', '!'}
  }

  /** What the guard sees is one of the two-character operators. */
  lemma LongOperatorText(source: string, p: nat)
    requires LongOperatorAhead(source, p)
    ensures source[p..p + 2] in Operators && |source[p..p + 2]| == 2
    ensures StartsAt(source, p, source[p..p + 2])
  {
    var op := source[p..p + 2];
    assert op == [source[p], '='];
    if source[p] == '>' { assert op == ">="; }
    else if source[p] == '<' { assert op == "<="; }
    else if source[p] == '=' { assert op == "=="; }
    else { assert op == "!="; }
  }

  lemma LongOperatorAheadIsAny(source: string, p: nat)
    ensures LongOperatorAhead(source, p) <==> AnyLongOperatorAt(source, p)
  {
    if LongOperatorAhead(source, p) {
      LongOperatorText(source, p);
    }
    if AnyLongOperatorAt(source, p) {
      var op :| op in Operators && |op| > 1 && StartsAt(source, p, op);
      assert op == ">=" || op == "<=" || op == "==" || op == "!=";
      assert source[p] == op[0] && source[p + 1] == op[1];
    }
  }

  /** The operator loop tries the operators longest first, so once the guard holds the
      operator it stops at is the two-character one at the cursor, never its
      one-character prefix. */
  lemma LongOperatorMatch(source: string, p: nat)
    requires LongOperatorAhead(source, p)
    ensures FirstMatch(OperatorsByLength, source, p) == Some(source[p..p + 2])
  {
    var r := FirstMatch(OperatorsByLength, source, p);
    LongOperatorText(source, p);
    assert source[p..p + 2] == OperatorsByLength[0] || source[p..p + 2] == OperatorsByLength[1] ||
           source[p..p + 2] == OperatorsByLength[2] || source[p..p + 2] == OperatorsByLength[3];
    var i :| 0 <= i < |OperatorsByLength| && OperatorsByLength[i] == r.value && StartsAt(source, p, r.value) &&
             forall j :: 0 <= j < i ==> !StartsAt(source, p, OperatorsByLength[j]);
    assert i < 4;
    assert r.value == [source[p], source[p + 1]] == source[p..p + 2];
  }

  /** `validate_identifier`: a word that starts with a digit is illegal. */
  function ValidateIdentifier(word: string): (t: Token)
    requires word != []
    ensures t.value == word
    ensures t.kind == (if IsDigit(word[0]) then IllegalIdentifier else Identifier)
  {
    if IsDigit(word[0]) then Token(IllegalIdentifier, word) else Token(Identifier, word)
  }

  // ---------------------------------------------------------------------------
  // One iteration of the `tokenize` loop and the whole scan

  /** The rules of one iteration, in the order they are tried. */
  datatype Rule =
    | Blank | CommentRule | StringRule | EndRule | LongOperatorRule
    | OperatorRule | SeparatorRule | WordRule | NumberRule | UnknownRule

  /** The first rule, in priority order, whose guard holds at index `p`. Since the
      guards overlap only where a comment starts with the separator `:`, `thanks~`
      starts with a letter or an operator is followed by `=`, each rule applies
      exactly where its guard holds and those overlaps do not send the text elsewhere. */
  function RuleAt(source: string, p: nat): (r: Rule)
    requires p < |source|
    ensures r == Blank <==> IsSpace(source[p])
    ensures r == CommentRule <==> StartsAt(source, p, ":)")
    ensures r == StringRule <==> source[p] == '"'
    ensures r == EndRule <==> StartsAt(source, p, EndMarker)
    ensures r == LongOperatorRule <==> LongOperatorAhead(source, p)
    ensures r == OperatorRule <==> source[p] in OperatorChars && !LongOperatorAhead(source, p)
    ensures r == SeparatorRule <==> source[p] in Separators && !StartsAt(source, p, ":)")
    ensures r == WordRule <==> (IsAlpha(source[p]) || source[p] == '_') && !StartsAt(source, p, EndMarker)
    ensures r == NumberRule <==> IsDigit(source[p])
    ensures r == UnknownRule <==>
      !IsSpace(source[p]) && source[p] != '"' && source[p] !in OperatorChars &&
      source[p] !in Separators && !IsWordChar(source[p]) && !LongOperatorAhead(source, p)
  {
    var c := source[p];
    if IsSpace(c) then Blank
    else if StartsAt(source, p, ":)") then CommentRule
    else if c == '"' then StringRule
    else if StartsAt(source, p, EndMarker) then EndRule
    else if LongOperatorAhead(source, p) then LongOperatorRule
    else if c in OperatorChars then OperatorRule
    else if c in Separators then SeparatorRule
    else if IsAlpha(c) || c == '_' then WordRule
    else if IsDigit(c) then NumberRule
    else UnknownRule
  }

  /** What one iteration emits and where it leaves the cursor. */
  datatype Scan = Scan(token: Option<Token>, next: nat)

  /** A string literal: the text up to the closing quote, which is skipped when present. */
  function StringScan(source: string, p: nat): Scan
    requires p < |source|
  {
    var k := Find(source, p + 1, '"');
    Scan(Some(Token(Literal, source[p + 1..k])), if k < |source| then k + 1 else k)
  }

  /** A word: a keyword when it is one, otherwise whatever `validate_identifier` says. */
  function WordScan(source: string, p: nat): Scan
    requires p < |source| && IsWordChar(source[p])
  {
    var e := WordEnd(source, p);
    var w := source[p..e];
    Scan(Some(if w in Keywords then Token(Keyword, w) else ValidateIdentifier(w)), e)
  }

  /** A number, or, when a letter follows it, the number and the word run after it as
      one illegal identifier. */
  function NumberScan(source: string, p: nat): Scan
    requires p < |source|
  {
    var k := NumberEnd(source, p, false);
    if k < |source| && IsAlpha(source[k]) then
      var e := WordEnd(source, k);
      Scan(Some(Token(IllegalIdentifier, source[p..e])), e)
    else
      Scan(Some(Token(Literal, source[p..k])), k)
  }

  /** One iteration of the `tokenize` loop at index `p`. */
  function Step(source: string, p: nat): (r: Scan)
    requires p < |source|
    ensures p < r.next <= |source| + 1
  {
    match RuleAt(source, p)
    case Blank => Scan(None, p + 1)
    case CommentRule => Scan(None, Find(source, p, '\n') + 1)
    case StringRule => StringScan(source, p)
    case EndRule => Scan(Some(Token(EndStatement, EndMarker)), p + |EndMarker|)
    case LongOperatorRule => Scan(Some(Token(Operator, source[p..p + 2])), p + 2)
    case OperatorRule => Scan(Some(Token(Operator, [source[p]])), p + 1)
    case SeparatorRule => Scan(Some(Token(Separator, [source[p]])), p + 1)
    case WordRule => WordScan(source, p)
    case NumberRule => NumberScan(source, p)
    case UnknownRule => Scan(Some(Token(Unknown, [source[p]])), p + 1)
  }

  /** The tokens `tokenize` returns when it starts at index `p` of `source`: at most
      one per character left. */
  function LexFrom(source: string, p: nat): (r: seq<Token>)
    ensures |r| <= if p < |source| then |source| - p else 0
    decreases |source| - p
  {
    if p >= |source| then []
    else
      Emit(Step(source, p).token) + LexFrom(source, Step(source, p).next)
  }

  /** The tokens `tokenize` returns for the whole text `s`: never more tokens than
      characters. */
  function Lex(s: string): (r: seq<Token>)
    ensures |r| <= |s|
  {
    LexFrom(s, 0)
  }

  /** The tokens from index `p` on: what the iteration at `p` emits, then the tokens
      from where it leaves the cursor. */
  lemma LexFromAfterScan(source: string, p: nat, q: nat, token: Option<Token>)
    requires p < |source| && token == Step(source, p).token && q == Step(source, p).next
    ensures LexFrom(source, p) == Emit(token) + LexFrom(source, q)
  {
  }

  lemma LexFromEnd(source: string, p: nat)
    requires p >= |source|
    ensures LexFrom(source, p) == []
  {
  }

  // ---------------------------------------------------------------------------
  // The analyzer object

  class LexicalAnalyzer {
    const source: string
    var position: nat

    constructor (source: string)
      ensures this.source == source && position == 0
    {
      this.source := source;
      position := 0;
    }

    /** `tokenize`: the tokens of the text from the cursor on. */
    method Tokenize() returns (tokens: seq<Token>)
      modifies this`position
      ensures tokens == LexFrom(source, old(position))
      ensures position >= |source|
      ensures old(position) < |source| ==> position <= |source| + 1
    {
      tokens := [];
      while position < |source|
        invariant old(position) < |source| ==> position <= |source| + 1
        invariant tokens + LexFrom(source, position) == LexFrom(source, old(position))
        decreases |source| - position
      {
        ghost var before := tokens;
        ghost var p := position;
        var token := ScanOne();
        if token.Some? {
          tokens := tokens + [token.value];
        }
        LexFromAfterScan(source, p, position, token);
        Glue(before, Emit(token), LexFrom(source, position), LexFrom(source, p), tokens, LexFrom(source, old(position)));
      }
    }

    /** One iteration of the `tokenize` loop: the first rule, in priority order,
        that holds at the cursor decides what is emitted. */
    method ScanOne() returns (token: Option<Token>)
      requires position < |source|
      modifies this`position
      ensures token == Step(source, old(position)).token
      ensures position == Step(source, old(position)).next
    {
      ghost var p := position;
      var c := source[position];
      if IsSpace(c) {
        assert RuleAt(source, p) == Blank;
        token := None;
        position := position + 1;
      } else if StartsAt(source, position, ":)") {
        assert RuleAt(source, p) == CommentRule;
        token := None;
        SkipComment();
      } else if c == '"' {
        assert RuleAt(source, p) == StringRule;
        var literal := ReadString();
        token := Some(Token(Literal, literal));
      } else if StartsAt(source, position, EndMarker) {
        assert RuleAt(source, p) == EndRule;
        token := Some(Token(EndStatement, EndMarker));
        position := position + |EndMarker|;
      } else if LongOperatorAhead(source, position) {
        assert RuleAt(source, p) == LongOperatorRule;
        token := ScanLongOperator();
      } else if c in OperatorChars {
        assert RuleAt(source, p) == OperatorRule;
        token := Some(Token(Operator, [c]));
        position := position + 1;
      } else if c in Separators {
        assert RuleAt(source, p) == SeparatorRule;
        token := Some(Token(Separator, [c]));
        position := position + 1;
      } else if IsAlpha(c) || c == '_' {
        assert RuleAt(source, p) == WordRule;
        token := ScanWord();
      } else if IsDigit(c) {
        assert RuleAt(source, p) == NumberRule;
        token := ScanNumber();
      } else {
        assert RuleAt(source, p) == UnknownRule;
        token := Some(Token(Unknown, [c]));
        position := position + 1;
      }
    }

    /** The long-operator branch: the operators are tried longest first and the first
        one at the cursor is emitted. */
    method ScanLongOperator() returns (token: Option<Token>)
      requires position < |source| && LongOperatorAhead(source, position)
      modifies this`position
      ensures token == Some(Token(Operator, source[old(position)..old(position) + 2]))
      ensures position == old(position) + 2
    {
      ghost var p := position;
      ghost var found := source[p..p + 2];
      LongOperatorMatch(source, p);
      var i := 0;
      while !StartsAt(source, position, OperatorsByLength[i])
        invariant 0 <= i < |OperatorsByLength| && position == p
        invariant FirstMatch(OperatorsByLength[i..], source, p) == Some(found)
        decreases |OperatorsByLength| - i
      {
        FirstMatchSkip(OperatorsByLength, i, source, p);
        i := i + 1;
      }
      FirstMatchHit(OperatorsByLength, i, source, p);
      var op := OperatorsByLength[i];
      token := Some(Token(Operator, op));
      position := position + |op|;
    }

    /** The word branch: `read_identifier`, then keyword or `validate_identifier`. */
    method ScanWord() returns (token: Option<Token>)
      requires position < |source| && IsWordChar(source[position])
      modifies this`position
      ensures token == WordScan(source, old(position)).token
      ensures position == WordScan(source, old(position)).next
    {
      var word := ReadIdentifier();
      if word in Keywords {
        token := Some(Token(Keyword, word));
      } else {
        token := Some(ValidateIdentifier(word));
      }
    }

    /** The number branch: `read_number`, and when a letter follows, `read_identifier`
        glued on as an illegal identifier. */
    method ScanNumber() returns (token: Option<Token>)
      requires position < |source|
      modifies this`position
      ensures token == NumberScan(source, old(position)).token
      ensures position == NumberScan(source, old(position)).next
    {
      ghost var p := position;
      var number := ReadNumber();
      ghost var q := position;
      if position < |source| && IsAlpha(source[position]) {
        var suffix := ReadIdentifier();
        assert number + suffix == source[p..position] by {
          assert source[p..q] + source[q..position] == source[p..position];
        }
        token := Some(Token(IllegalIdentifier, number + suffix));
      } else {
        token := Some(Token(Literal, number));
      }
    }

    /** `read_identifier`: the maximal run of letters, digits and `_` at the cursor. */
    method ReadIdentifier() returns (word: string)
      requires position <= |source|
      modifies this`position
      ensures position == WordEnd(source, old(position))
      ensures word == source[old(position)..position]
    {
      var start := position;
      while position < |source| && (IsAlnum(source[position]) || source[position] == '_')
        invariant start <= position <= |source|
        invariant WordEnd(source, position) == WordEnd(source, start)
        decreases |source| - position
      {
        position := position + 1;
      }
      word := source[start..position];
    }

    /** `read_number`: digits with at most one `.`; a second `.` ends the number. */
    method ReadNumber() returns (number: string)
      requires position <= |source|
      modifies this`position
      ensures position == NumberEnd(source, old(position), false)
      ensures number == source[old(position)..position]
    {
      var start := position;
      var hasDecimal := false;
      while position < |source| && (IsDigit(source[position]) || (source[position] == '.' && !hasDecimal))
        invariant start <= position <= |source|
        invariant NumberEnd(source, position, hasDecimal) == NumberEnd(source, start, false)
        decreases |source| - position
      {
        if source[position] == '.' {
          hasDecimal := true;
        }
        position := position + 1;
      }
      number := source[start..position];
    }

    /** `read_string`: skip the opening quote, read up to the closing quote or the end,
        and skip the closing quote when there is one. */
    method ReadString() returns (literal: string)
      requires position < |source|
      modifies this`position
      ensures literal == StringScan(source, old(position)).token.value.value
      ensures position == StringScan(source, old(position)).next
    {
      position := position + 1;
      var start := position;
      while position < |source| && source[position] != '"'
        invariant start <= position <= |source|
        invariant Find(source, position, '"') == Find(source, start, '"')
        decreases |source| - position
      {
        position := position + 1;
      }
      if position >= |source| || source[position] != '"' {
        literal := source[start..position];
        return;
      }
      literal := source[start..position];
      position := position + 1;
    }

    /** `skip_comment`: move past the end of the line (one past the end of the text
        when the comment is on the last line). */
    method SkipComment()
      requires position <= |source|
      modifies this`position
      ensures position == Find(source, old(position), '\n') + 1
    {
      var start := position;
      while position < |source| && source[position] != '\n'
        invariant start <= position <= |source|
        invariant Find(source, position, '\n') == Find(source, start, '\n')
        decreases |source| - position
      {
        position := position + 1;
      }
      position := position + 1;
    }
  }

  // ---------------------------------------------------------------------------
  // What the scanning loops stop at

  /** `read_identifier` stops at the first character that is not a letter, digit or `_`. */
  lemma {:induction false} WordEndSpec(s: string, i: nat)
    requires i <= |s|
    ensures forall j :: i <= j < WordEnd(s, i) ==> IsWordChar(s[j])
    ensures WordEnd(s, i) == |s| || !IsWordChar(s[WordEnd(s, i)])
    decreases |s| - i
  {
    if i < |s| && IsWordChar(s[i]) {
      WordEndSpec(s, i + 1);
    }
  }

  /** Conversely, a run of word characters that nothing extends is what it reads. */
  lemma {:induction false} WordEndIs(s: string, i: nat, e: nat)
    requires i <= e <= |s|
    requires forall j :: i <= j < e ==> IsWordChar(s[j])
    requires e == |s| || !IsWordChar(s[e])
    ensures WordEnd(s, i) == e
    decreases e - i
  {
    if i < e {
      WordEndIs(s, i + 1, e);
    }
  }

  /** The search stops at the first `stop`, or at the end. */
  lemma {:induction false} FindSpec(s: string, i: nat, stop: char)
    requires i <= |s|
    ensures forall j :: i <= j < Find(s, i, stop) ==> s[j] != stop
    ensures Find(s, i, stop) < |s| ==> s[Find(s, i, stop)] == stop
    decreases |s| - i
  {
    if i < |s| && s[i] != stop {
      FindSpec(s, i + 1, stop);
    }
  }

  lemma {:induction false} FindIs(s: string, i: nat, stop: char, e: nat)
    requires i <= e <= |s|
    requires forall j :: i <= j < e ==> s[j] != stop
    requires e == |s| || s[e] == stop
    ensures Find(s, i, stop) == e
    decreases e - i
  {
    if i < e {
      FindIs(s, i + 1, stop, e);
    }
  }
}
