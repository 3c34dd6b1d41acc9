/** The two checks `lexical_initial.py` runs on the raw source text before it
    tokenizes: brackets match, and every `}` (after the first character) follows a `;`. */
module SourceChecks {
  import opened Common

  // ---------------------------------------------------------------------------
  // Rule 1: matching brackets

  predicate IsOpen(c: char) {
    c == '(' || c == '{' || c == '['
  }

  predicate IsClose(c: char) {
    c == ')' || c == '}' || c == ']'
  }

  predicate IsBracket(c: char) {
    IsOpen(c) || IsClose(c)
  }

  /** `bracket_pairs`: the closing bracket of an opening one. */
  function Closer(c: char): char
    requires IsOpen(c)
  {
    if c == '(' then ')' else if c == '{' then '}' else ']'
  }

  /** One character of the loop: push an opener, pop a matching closer, fail on a
      closer that does not match the top of the stack (or meets an empty stack). Only
      a closer can fail, each step moves the stack height by one bracket, and the stack
      only ever holds openers. */
  function BracketStep(c: char, stack: seq<char>): (r: Option<seq<char>>)
    ensures r.None? ==> IsClose(c)
    ensures r.Some? ==> |r.value| == if IsOpen(c) then |stack| + 1 else if IsClose(c) then |stack| - 1 else |stack|
    ensures r.Some? && (forall k :: 0 <= k < |stack| ==> IsOpen(stack[k])) ==>
      forall k :: 0 <= k < |r.value| ==> IsOpen(r.value[k])
  {
    if IsOpen(c) then Some(stack + [c])
    else if IsClose(c) then
      if stack != [] && IsOpen(stack[|stack| - 1]) && Closer(stack[|stack| - 1]) == c then
        Some(stack[..|stack| - 1])
      else None
    else Some(stack)
  }

  /** The stack after the loop has read `s[i..j]` starting from `stack`, or `None` once
      it has returned early: at once when the first character is a closer met on an
      empty stack. The stack only ever holds openers. */
  function Run(s: string, i: nat, j: nat, stack: seq<char>): (r: Option<seq<char>>)
    requires i <= j <= |s|
    ensures i < j && IsClose(s[i]) && stack == [] ==> r.None?
    ensures r.Some? && (forall k :: 0 <= k < |stack| ==> IsOpen(stack[k])) ==>
      forall k :: 0 <= k < |r.value| ==> IsOpen(r.value[k])
    decreases j - i
  {
    if j == i then Some(stack)
    else
      match Run(s, i, j - 1, stack)
      case None => None
      case Some(t) => BracketStep(s[j - 1], t)
  }

  /** What `check_matching_bracket` answers: the loop never returns early and ends
      with an empty stack. A balanced text neither starts with a closer nor ends with
      an opener. */
  predicate Balanced(s: string): (r: bool)
    ensures r && |s| > 0 ==> !IsClose(s[0]) && !IsOpen(s[|s| - 1])
  {
    Run(s, 0, |s|, []) == Some([])
  }

  /** `check_matching_bracket`. */
  method CheckMatchingBracket(code: string) returns (ok: bool)
    ensures ok == Balanced(code)
    ensures ok <==> Matched(code, 0, |code|)
  {
    BalancedIsMatched(code);
    var stack: seq<char> := [];
    var i := 0;
    while i < |code|
      invariant i <= |code|
      invariant Run(code, 0, i, []) == Some(stack)
      invariant forall k :: 0 <= k < |stack| ==> IsOpen(stack[k])
    {
      var c := code[i];
      if IsOpen(c) {
        stack := stack + [c];
      } else if IsClose(c) {
        if stack == [] || Closer(stack[|stack| - 1]) != c {
          RunStaysFailed(code, 0, i + 1, |code|, []);
          return false;
        }
        stack := stack[..|stack| - 1];
      }
      i := i + 1;
    }
    return stack == [];
  }

  // ---------------------------------------------------------------------------
  // An independent description: the bracket grammar

  /** Brackets in `s[i..j]` nest properly, other characters being ignored: either there
      are no brackets at all, or the first bracket is an opener closed at some `b` by
      its own closer, with matched text between and after them. */
  ghost predicate Matched(s: string, i: nat, j: nat)
    requires i <= j <= |s|
    decreases j - i, 1
  {
    NoBrackets(s, i, j) || exists a, b :: MatchedPair(s, i, j, a, b)
  }

  ghost predicate MatchedPair(s: string, i: nat, j: nat, a: nat, b: nat)
    requires i <= j <= |s|
    decreases j - i, 0
  {
    i <= a < b < j && NoBrackets(s, i, a) && IsOpen(s[a]) && s[b] == Closer(s[a]) &&
    Matched(s, a + 1, b) && Matched(s, b + 1, j)
  }

  predicate NoBrackets(s: string, i: nat, j: nat)
    requires j <= |s|
  {
    forall k :: i <= k < j ==> !IsBracket(s[k])
  }

  /** The index of the first bracket in `s[i..j]`, or `j`. */
  function FirstBracket(s: string, i: nat, j: nat): (r: nat)
    requires i <= j <= |s|
    ensures i <= r <= j
    ensures NoBrackets(s, i, r) && (r < j ==> IsBracket(s[r]))
    decreases j - i
  {
    if i == j || IsBracket(s[i]) then i else FirstBracket(s, i + 1, j)
  }

  /** The loop accepts exactly the texts the grammar describes. */
  lemma BalancedIsMatched(s: string)
    ensures Balanced(s) <==> Matched(s, 0, |s|)
  {
    if Balanced(s) {
      RunMatched(s, 0, |s|);
    }
    if Matched(s, 0, |s|) {
      MatchedRun(s, 0, |s|, []);
    }
  }

  // ---------------------------------------------------------------------------
  // Facts about the loop

  /** Reading `s[i..j]` is reading `s[i..k]`, then `s[k..j]` from where that left off. */
  lemma {:induction false} RunSplit(s: string, i: nat, k: nat, j: nat, stack: seq<char>)
    requires i <= k <= j <= |s|
    ensures Run(s, i, j, stack) ==
              if Run(s, i, k, stack).None? then None else Run(s, k, j, Run(s, i, k, stack).value)
    decreases j - k
  {
    if j > k {
      RunSplit(s, i, k, j - 1, stack);
    }
  }

  /** Once the loop has returned early, the answer stays `False`. */
  lemma RunStaysFailed(s: string, i: nat, k: nat, j: nat, stack: seq<char>)
    requires i <= k <= j <= |s| && Run(s, i, k, stack).None?
    ensures Run(s, i, j, stack).None?
  {
    RunSplit(s, i, k, j, stack);
  }

  /** Text without brackets leaves the stack alone. */
  lemma {:induction false} RunNoBrackets(s: string, i: nat, j: nat, stack: seq<char>)
    requires i <= j <= |s| && NoBrackets(s, i, j)
    ensures Run(s, i, j, stack) == Some(stack)
    decreases j - i
  {
    if j > i {
      RunNoBrackets(s, i, j - 1, stack);
    }
  }

  /** Matched text takes any stack back to itself. */
  lemma {:induction false} MatchedRun(s: string, i: nat, j: nat, stack: seq<char>)
    requires i <= j <= |s| && Matched(s, i, j)
    ensures Run(s, i, j, stack) == Some(stack)
    decreases j - i
  {
    if NoBrackets(s, i, j) {
      RunNoBrackets(s, i, j, stack);
    } else {
      var a: nat, b: nat :| MatchedPair(s, i, j, a, b);
      var o := s[a];
      var a1 := a + 1;
      var b1 := b + 1;
      RunNoBrackets(s, i, a, stack);
      assert Run(s, i, a1, stack) == Some(stack + [o]);
      MatchedRun(s, a1, b, stack + [o]);
      RunSplit(s, i, a1, b, stack);
      assert (stack + [o])[..|stack|] == stack;
      assert Run(s, i, b1, stack) == Some(stack);
      MatchedRun(s, b1, j, stack);
      RunSplit(s, i, b1, j, stack);
    }
  }

  /** Text the loop takes from an empty stack back to an empty stack is matched. */
  lemma {:induction false} RunMatched(s: string, i: nat, j: nat)
    requires i <= j <= |s| && Run(s, i, j, []) == Some([])
    ensures Matched(s, i, j)
    decreases j - i
  {
    var a := FirstBracket(s, i, j);
    if a < j {
      var a1 := a + 1;
      RunNoBrackets(s, i, a, []);
      RunSplit(s, i, a, j, []);
      RunSplit(s, a, a1, j, []);
      assert Run(s, a, a1, []) == BracketStep(s[a], []);
      var o := s[a];
      assert IsOpen(o);
      assert Run(s, i, a, []) == Some([]);
      assert Run(s, a, j, []) == Some([]);
      assert [] + [o] == [o];
      assert Run(s, a, a1, []) == Some([o]);
      assert Run(s, a1, j, [o]) == Some([]);
      assert [o] + [] == [o];
      var b := FindClose(s, a1, a1, j, o, []);
      var b1 := b + 1;
      RunMatched(s, a1, b);
      RunMatched(s, b1, j);
      assert MatchedPair(s, i, j, a, b);
    }
  }

  /** After an opener `o` at `start - 1`, the loop meets the closer that pops `o`: the
      text in between is balanced on its own, and the loop goes on from there with
      the stack it had before `o`. `k` is how far the search has got and `r` what the
      text since `start` has pushed. */
  lemma {:induction false} FindClose(s: string, start: nat, k: nat, j: nat, o: char, r: seq<char>) returns (b: nat)
    requires start <= k <= j <= |s| && IsOpen(o)
    requires Run(s, start, k, []) == Some(r)
    requires Run(s, k, j, [o] + r) == Some([])
    ensures k <= b < j && s[b] == Closer(o)
    ensures Run(s, start, b, []) == Some([])
    ensures Run(s, b + 1, j, []) == Some([])
    decreases j - k
  {
    if k == j {
      assert false;
    }
    var k1 := k + 1;
    var c := s[k];
    RunSplit(s, k, k1, j, [o] + r);
    assert Run(s, k, k1, [o] + r) == BracketStep(c, [o] + r);
    assert Run(s, start, k1, []) == BracketStep(c, r);
    if IsOpen(c) {
      assert [o] + r + [c] == [o] + (r + [c]);
      b := FindClose(s, start, k1, j, o, r + [c]);
    } else if IsClose(c) {
      if r == [] {
        b := k;
      } else {
        assert ([o] + r)[..|r|] == [o] + r[..|r| - 1];
        b := FindClose(s, start, k1, j, o, r[..|r| - 1]);
      }
    } else {
      b := FindClose(s, start, k1, j, o, r);
    }
  }

  // ---------------------------------------------------------------------------
  // Rule 2: a semicolon before every closing brace

  /** Every `}` at an index of at least one follows a `;`; a `}` at index zero is never
      looked at. */
  predicate SemicolonsBeforeBraces(code: string) {
    forall k :: 1 <= k < |code| && code[k] == '}' ==> code[k - 1] == ';'
  }

  /** `check_semicolon`. */
  method CheckSemicolon(code: string) returns (ok: bool)
    ensures ok == SemicolonsBeforeBraces(code)
  {
    var i := 1;
    while i < |code|
      invariant 1 <= i
      invariant forall k :: 1 <= k < i && k < |code| && code[k] == '}' ==> code[k - 1] == ';'
    {
      if code[i] == '}' {
        if code[i - 1] != ';' {
          return false;
        }
      }
      i := i + 1;
    }
    return true;
  }

  /** The rule splits at any point: both halves pass, and a `}` that starts the second
      half follows a `;` at the end of the first. */
  lemma SemicolonsConcat(a: string, b: string)
    ensures SemicolonsBeforeBraces(a + b) <==>
              SemicolonsBeforeBraces(a) && SemicolonsBeforeBraces(b) &&
              (|a| > 0 && |b| > 0 && b[0] == '}' ==> a[|a| - 1] == ';')
  {
    var s := a + b;
    assert forall k :: 0 <= k < |a| ==> s[k] == a[k];
    assert forall k :: 0 <= k < |b| ==> s[|a| + k] == b[k];
    if SemicolonsBeforeBraces(s) {
      assert forall k :: 1 <= k < |b| && b[k] == '}' ==> s[|a| + k] == '}' && s[|a| + k - 1] == b[k - 1];
      if |a| > 0 && |b| > 0 && b[0] == '}' {
        assert s[|a|] == '}';
      }
    }
  }
}
