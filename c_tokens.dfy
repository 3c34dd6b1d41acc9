/** What the two tokenizers of the C-like language share: the token kinds, the keyword
    list, and the word and number branches of their scanning loops, which the two
    files spell out identically. */
module CTokens {
  import opened Common
  import opened NumberRuns

  datatype TokenType =
    | Keyword | Identifier | IntegerLiteral | FloatLiteral | Operator
    | Assignment | Separator | Punctuation | Unknown | IllegalIdentifier

  datatype Token = Token(kind: TokenType, value: string)

  const Keywords: set<string> := {"int", "float", "bool", "print", "if", "else", "return", "while"}

  /** A word as these tokenizers read it: a letter, then letters and digits (no `_`). */
  predicate IsAlnumWord(w: string) {
    |w| > 0 && IsAlpha(w[0]) && forall i :: 0 <= i < |w| ==> IsAlnum(w[i])
  }

  /** The kind of a word: a keyword exactly when it is listed. */
  function WordToken(w: string): Token {
    Token(if w in Keywords then Keyword else Identifier, w)
  }

  /** The kind of a number: a float exactly when its text holds a `.`. */
  function NumberToken(n: string): Token {
    Token(if '.' in n then FloatLiteral else IntegerLiteral, n)
  }

  /** What every word or number token looks like, kind by kind. */
  ghost predicate WellFormedWordOrNumber(t: Token) {
    match t.kind
    case Keyword => t.value in Keywords && IsAlnumWord(t.value)
    case Identifier => t.value !in Keywords && IsAlnumWord(t.value)
    case IntegerLiteral => |t.value| > 0 && forall i :: 0 <= i < |t.value| ==> IsDigit(t.value[i])
    case FloatLiteral =>
      |t.value| > 0 && IsDigit(t.value[0]) && NumberRun(t.value, 0, |t.value|) && '.' in t.value
    case IllegalIdentifier => exists k :: IllegalSplit(t.value, k)
    case _ => false
  }

  /** `t[..k]` is a number and `t[k..]` an alphanumeric run that starts with a letter. */
  predicate IllegalSplit(t: string, k: int) {
    0 < k < |t| && IsDigit(t[0]) && NumberRun(t, 0, k) && IsAlpha(t[k]) &&
    forall i :: k <= i < |t| ==> IsAlnum(t[i])
  }

  // ---------------------------------------------------------------------------
  // The word and number branches

  /** Where the loop over `isalnum` characters stops when it starts at `i`. */
  function AlnumEnd(s: string, i: nat): (r: nat)
    requires i <= |s|
    ensures i <= r <= |s|
    ensures i < |s| && IsAlnum(s[i]) ==> i < r
    decreases |s| - i
  {
    if i == |s| || !IsAlnum(s[i]) then i else AlnumEnd(s, i + 1)
  }

  /** What one iteration emits and where it leaves the cursor. */
  datatype Scan = Scan(token: Option<Token>, next: nat)

  /** The word branch: the maximal alphanumeric run, keyword or identifier. */
  function WordScan(source: string, p: nat): Scan
    requires p < |source|
  {
    var e := AlnumEnd(source, p);
    Scan(Some(WordToken(source[p..e])), e)
  }

  /** The number branch: a number, or, when a letter follows it, the number and the
      alphanumeric run after it as one illegal identifier. */
  function NumberScan(source: string, p: nat): Scan
    requires p < |source|
  {
    var k := NumberEnd(source, p, false);
    if k < |source| && IsAlpha(source[k]) then
      var e := AlnumEnd(source, k);
      Scan(Some(Token(IllegalIdentifier, source[p..e])), e)
    else
      Scan(Some(NumberToken(source[p..k])), k)
  }

  // ---------------------------------------------------------------------------
  // The inner loops of the two `tokenize` methods

  /** The word loop: move past the letters and digits at `start`. */
  method ReadAlnum(source: string, start: nat) returns (end: nat)
    requires start <= |source|
    ensures end == AlnumEnd(source, start)
  {
    end := start;
    while end < |source| && IsAlnum(source[end])
      invariant start <= end <= |source|
      invariant AlnumEnd(source, end) == AlnumEnd(source, start)
      decreases |source| - end
    {
      end := end + 1;
    }
  }

  /** The number loop: digits and `.`, breaking out at a second `.`. */
  method ReadNumber(source: string, start: nat) returns (end: nat)
    requires start <= |source|
    ensures end == NumberEnd(source, start, false)
  {
    end := start;
    var hasDecimal := false;
    while end < |source| && (IsDigit(source[end]) || source[end] == '.')
      invariant start <= end <= |source|
      invariant NumberEnd(source, end, hasDecimal) == NumberEnd(source, start, false)
      decreases |source| - end
    {
      if source[end] == '.' {
        if hasDecimal {
          break;
        }
        hasDecimal := true;
      }
      end := end + 1;
    }
  }

  /** The illegal-identifier loop: append the letters and digits at `start`, one by
      one, to the number already read. */
  method ReadIllegal(source: string, start: nat, number: string) returns (text: string, end: nat)
    requires start <= |source|
    ensures end == AlnumEnd(source, start)
    ensures text == number + source[start..end]
  {
    text := number;
    end := start;
    while end < |source| && IsAlnum(source[end])
      invariant start <= end <= |source|
      invariant AlnumEnd(source, end) == AlnumEnd(source, start)
      invariant text == number + source[start..end]
      decreases |source| - end
    {
      text := text + [source[end]];
      assert source[start..end + 1] == source[start..end] + [source[end]];
      end := end + 1;
    }
  }

  // ---------------------------------------------------------------------------
  // What the loops stop at

  lemma {:induction false} AlnumEndSpec(s: string, i: nat)
    requires i <= |s|
    ensures forall j :: i <= j < AlnumEnd(s, i) ==> IsAlnum(s[j])
    ensures AlnumEnd(s, i) == |s| || !IsAlnum(s[AlnumEnd(s, i)])
    decreases |s| - i
  {
    if i < |s| && IsAlnum(s[i]) {
      AlnumEndSpec(s, i + 1);
    }
  }

  lemma {:induction false} AlnumEndIs(s: string, i: nat, e: nat)
    requires i <= e <= |s|
    requires forall j :: i <= j < e ==> IsAlnum(s[j])
    requires e == |s| || !IsAlnum(s[e])
    ensures AlnumEnd(s, i) == e
    decreases e - i
  {
    if i < e {
      AlnumEndIs(s, i + 1, e);
    }
  }

  // ---------------------------------------------------------------------------
  // The two branches, on texts of the shape they read

  /** A maximal alphanumeric word is a keyword exactly when it is listed, and an
      identifier otherwise. */
  lemma WordScanIs(source: string, p: nat, w: string)
    requires StartsAt(source, p, w) && IsAlnumWord(w)
    requires p + |w| == |source| || !IsAlnum(source[p + |w|])
    ensures WordScan(source, p) == Scan(Some(Token(if w in Keywords then Keyword else Identifier, w)), p + |w|)
  {
    AlnumEndIs(source, p, p + |w|);
    StartsAtSlice(source, p, w);
  }

  /** A number that no letter follows is a float exactly when it holds a `.`. */
  lemma NumberScanIs(source: string, p: nat, n: string)
    requires StartsAt(source, p, n) && |n| > 0 && IsDigit(n[0]) && NumberRun(n, 0, |n|)
    requires p + |n| < |source| ==>
               !IsDigit(source[p + |n|]) && !IsAlpha(source[p + |n|]) && (source[p + |n|] == '.' ==> '.' in n)
    ensures NumberScan(source, p) == Scan(Some(Token(if '.' in n then FloatLiteral else IntegerLiteral, n)), p + |n|)
  {
    NumberEndAt(source, p, n);
  }

  /** A number followed by a letter: one illegal identifier spanning the number and
      the alphanumeric run after it. */
  lemma NumberScanIllegal(source: string, p: nat, n: string, w: string)
    requires StartsAt(source, p, n) && |n| > 0 && IsDigit(n[0]) && NumberRun(n, 0, |n|)
    requires StartsAt(source, p + |n|, w) && |w| > 0 && IsAlpha(w[0])
    requires forall i :: 0 <= i < |w| ==> IsAlnum(w[i])
    requires p + |n| + |w| == |source| || !IsAlnum(source[p + |n| + |w|])
    ensures NumberScan(source, p) == Scan(Some(Token(IllegalIdentifier, n + w)), p + |n| + |w|)
  {
    var k := p + |n|;
    var e := k + |w|;
    assert source[k] == w[0];
    NumberEndAt(source, p, n);
    AlnumEndIs(source, k, e);
    StartsAtConcat(source, p, n, w);
  }

  // ---------------------------------------------------------------------------
  // The shape of what the two branches emit

  lemma WordScanWellFormed(source: string, p: nat)
    requires p < |source| && IsAlpha(source[p])
    ensures WordScan(source, p).token.Some? && WellFormedWordOrNumber(WordScan(source, p).token.value)
  {
    var e := AlnumEnd(source, p);
    AlnumEndSpec(source, p);
    var w := source[p..e];
    assert forall j :: 0 <= j < |w| ==> w[j] == source[p + j];
    assert IsAlnumWord(w);
  }

  lemma NumberScanWellFormed(source: string, p: nat)
    requires p < |source| && IsDigit(source[p])
    ensures NumberScan(source, p).token.Some? && WellFormedWordOrNumber(NumberScan(source, p).token.value)
  {
    var k := NumberEnd(source, p, false);
    NumberEndSpec(source, p, false);
    NumberRunSlice(source, p, k);
    if k < |source| && IsAlpha(source[k]) {
      var e := AlnumEnd(source, k);
      AlnumEndSpec(source, k);
      var t := source[p..e];
      assert t[..k - p] == source[p..k];
      assert forall i :: 0 <= i < |t| ==> t[i] == source[p + i];
      NumberRunPrefix(t, k - p);
      assert IllegalSplit(t, k - p);
    } else {
      var n := source[p..k];
      assert forall i :: 0 <= i < |n| ==> n[i] == source[p + i];
      if '.' !in n {
        assert forall i :: 0 <= i < |n| ==> IsDigit(n[i]);
      }
    }
  }

  /** A number run at the head of `t` is a number run of `t`'s prefix, and back. */
  lemma NumberRunPrefix(t: string, k: nat)
    requires k <= |t| && NumberRun(t[..k], 0, k)
    ensures NumberRun(t, 0, k)
  {
    assert forall a :: 0 <= a < k ==> t[..k][a] == t[a];
  }
}
