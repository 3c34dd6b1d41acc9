/** The number-reading loop shared by the tokenizers: digits with at most one `.`,
    a second `.` ending the number. */
module NumberRuns {
  import opened Common

  /** No two `.` among `s[i..j]`. */
  predicate AtMostOneDotIn(s: string, i: nat, j: nat)
    requires j <= |s|
  {
    forall a, b :: i <= a < b < j && s[a] == '.' ==> s[b] != '.'
  }

  /** Some `.` among `s[i..j]`. */
  predicate DotIn(s: string, i: nat, j: nat)
    requires j <= |s|
  {
    exists a :: i <= a < j && s[a] == '.'
  }

  /** `s[i..j]` is made of digits and `.`, with at most one `.`. */
  predicate NumberRun(s: string, i: nat, j: nat)
    requires j <= |s|
  {
    (forall a :: i <= a < j ==> IsDigit(s[a]) || s[a] == '.') && AtMostOneDotIn(s, i, j)
  }

  /** Where the loop of `read_number` stops when it starts at `i`; `hasDecimal` says
      a `.` was already read. */
  function NumberEnd(s: string, i: nat, hasDecimal: bool): (r: nat)
    requires i <= |s|
    ensures i <= r <= |s|
    ensures i < |s| && IsDigit(s[i]) ==> i < r
    decreases |s| - i
  {
    if i == |s| then i
    else if IsDigit(s[i]) then NumberEnd(s, i + 1, hasDecimal)
    else if s[i] == '.' && !hasDecimal then NumberEnd(s, i + 1, true)
    else i
  }

  /** `read_number` reads digits with at most one `.` (none when one was read before),
      and stops at a character that is neither a digit nor a `.` it may still take. */
  lemma {:induction false} NumberEndSpec(s: string, i: nat, hasDecimal: bool)
    requires i <= |s|
    ensures NumberRun(s, i, NumberEnd(s, i, hasDecimal))
    ensures hasDecimal ==> !DotIn(s, i, NumberEnd(s, i, hasDecimal))
    ensures NumberEnd(s, i, hasDecimal) < |s| ==>
              !IsDigit(s[NumberEnd(s, i, hasDecimal)]) &&
              (s[NumberEnd(s, i, hasDecimal)] == '.' ==> hasDecimal || DotIn(s, i, NumberEnd(s, i, hasDecimal)))
    decreases |s| - i
  {
    var r := NumberEnd(s, i, hasDecimal);
    if i < |s| && (IsDigit(s[i]) || (s[i] == '.' && !hasDecimal)) {
      var h := if IsDigit(s[i]) then hasDecimal else true;
      assert r == NumberEnd(s, i + 1, h);
      NumberEndSpec(s, i + 1, h);
      assert DotIn(s, i, r) <==> s[i] == '.' || DotIn(s, i + 1, r);
    }
  }

  lemma {:induction false} NumberEndIs(s: string, i: nat, hasDecimal: bool, e: nat)
    requires i <= e <= |s|
    requires NumberRun(s, i, e) && (hasDecimal ==> !DotIn(s, i, e))
    requires e < |s| ==> !IsDigit(s[e]) && (s[e] == '.' ==> hasDecimal || DotIn(s, i, e))
    ensures NumberEnd(s, i, hasDecimal) == e
    decreases e - i
  {
    if i < e {
      var h := if IsDigit(s[i]) then hasDecimal else true;
      assert DotIn(s, i, e) <==> s[i] == '.' || DotIn(s, i + 1, e);
      NumberEndIs(s, i + 1, h, e);
    }
  }

  /** A number run keeps its shape when cut out of the text. */
  lemma NumberRunSlice(s: string, i: nat, j: nat)
    requires i <= j <= |s| && NumberRun(s, i, j)
    ensures NumberRun(s[i..j], 0, j - i)
  {
    var t := s[i..j];
    assert forall a :: 0 <= a < |t| ==> t[a] == s[i + a];
  }

  /** The number loop of either tokenizer reads exactly a number text that nothing extends. */
  lemma NumberEndAt(source: string, p: nat, n: string)
    requires StartsAt(source, p, n) && NumberRun(n, 0, |n|)
    requires p + |n| < |source| ==> !IsDigit(source[p + |n|]) && (source[p + |n|] == '.' ==> '.' in n)
    ensures NumberEnd(source, p, false) == p + |n| && source[p..p + |n|] == n
  {
    var e := p + |n|;
    assert forall a :: p <= a < e ==> source[a] == n[a - p];
    if e < |source| && source[e] == '.' {
      var a :| 0 <= a < |n| && n[a] == '.';
      assert source[p + a] == '.';
    }
    NumberEndIs(source, p, false, e);
    StartsAtSlice(source, p, n);
  }
}
