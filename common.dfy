/** Shared vocabulary: optional values, results that stand for Python exceptions,
    and the ASCII reading of Python's str character predicates. */
module Common {

  datatype Option<+T> = None | Some(value: T)

  /** The outcome of an operation that may raise: `Failure` carries the exception. */
  datatype Result<+T, +E> = Success(value: T) | Failure(error: E) {
    predicate IsFailure() { Failure? }

    function PropagateFailure<U>(): Result<U, E>
      requires Failure?
    {
      Failure(error)
    }

    function Extract(): T
      requires Success?
    {
      value
    }
  }

  /** `str.isspace` restricted to ASCII: tab, line feed, vertical tab, form feed,
      carriage return, the four information separators and the space. */
  predicate IsSpace(c: char) {
    ('\t' <= c <= '\r') || (28 <= c as int <= 31) || c == ' '
  }

  /** `str.isalpha` restricted to ASCII letters. */
  predicate IsAlpha(c: char) {
    ('a' <= c <= 'z') || ('A' <= c <= 'Z')
  }

  /** `str.isdigit` restricted to ASCII digits. */
  predicate IsDigit(c: char) {
    '0' <= c <= '9'
  }

  /** `str.isalnum` restricted to ASCII. */
  predicate IsAlnum(c: char) {
    IsAlpha(c) || IsDigit(c)
  }

  /** `s.startswith(t, p)`: the text `t` occurs in `s` at index `p`. */
  predicate StartsAt(s: string, p: nat, t: string) {
    p + |t| <= |s| && forall j :: p <= j < p + |t| ==> s[j] == t[j - p]
  }

  lemma StartsAtSlice(s: string, p: nat, t: string)
    requires StartsAt(s, p, t)
    ensures s[p..p + |t|] == t
  {
    assert forall j :: p <= j < p + |t| ==> s[p..p + |t|][j - p] == s[j];
  }

  lemma StartsAtConcat(s: string, p: nat, a: string, b: string)
    requires StartsAt(s, p, a) && StartsAt(s, p + |a|, b)
    ensures s[p..p + |a| + |b|] == a + b
  {
    StartsAtSlice(s, p, a);
    StartsAtSlice(s, p + |a|, b);
    assert s[p..p + |a| + |b|] == s[p..p + |a|] + s[p + |a|..p + |a| + |b|];
  }

  /** The tokens one scanning step appends: none, or the one it found. */
  function Emit<T>(t: Option<T>): seq<T> {
    if t.Some? then [t.value] else []
  }

  /** Re-bracketing of the invariant of a scanning loop. */
  lemma Glue<T>(before: seq<T>, emitted: seq<T>, rest: seq<T>, here: seq<T>, tokens: seq<T>, whole: seq<T>)
    requires here == emitted + rest && before + here == whole && tokens == before + emitted
    ensures tokens + rest == whole
  {
    assert (before + emitted) + rest == before + (emitted + rest);
  }

  /** `spec` with `prefix` put in front of the list it holds: how a loop that appends
      each parsed item relates to the function that parses the rest. */
  function PrependAll<T, E>(prefix: seq<T>, spec: Result<seq<T>, E>): Result<seq<T>, E> {
    match spec
    case Success(p) => Success(prefix + p)
    case Failure(e) => Failure(e)
  }

  lemma PrependAllNil<T, E>(x: Result<seq<T>, E>)
    ensures PrependAll([], x) == x
  {
    if x.Success? {
      assert [] + x.value == x.value;
    }
  }

  lemma PrependAllAppend<T, E>(a: seq<T>, b: seq<T>, x: Result<seq<T>, E>)
    ensures PrependAll(a, PrependAll(b, x)) == PrependAll(a + b, x)
  {
    if x.Success? {
      assert a + (b + x.value) == (a + b) + x.value;
    }
  }

  /** `u` occurs in `s` at index `pos`. */
  predicate TokensAt<T(==)>(s: seq<T>, pos: nat, u: seq<T>) {
    pos + |u| <= |s| && forall i :: 0 <= i < |u| ==> s[pos + i] == u[i]
  }

  lemma TokensAtSplit<T>(s: seq<T>, pos: nat, a: seq<T>, b: seq<T>, mid: nat)
    requires mid == pos + |a| && TokensAt(s, pos, a + b)
    ensures TokensAt(s, pos, a) && TokensAt(s, mid, b)
  {
    forall i | 0 <= i < |a|
      ensures s[pos + i] == a[i]
    {
      assert (a + b)[i] == a[i];
    }
    forall i | 0 <= i < |b|
      ensures s[mid + i] == b[i]
    {
      assert (a + b)[|a| + i] == b[i];
    }
  }

  lemma TokensAtSplit3<T>(s: seq<T>, pos: nat, a: seq<T>, b: seq<T>, c: seq<T>, p1: nat, p2: nat)
    requires p1 == pos + |a| && p2 == p1 + |b| && TokensAt(s, pos, a + b + c)
    ensures TokensAt(s, pos, a) && TokensAt(s, p1, b) && TokensAt(s, p2, c)
  {
    TokensAtSplit(s, pos, a + b, c, p2);
    TokensAtSplit(s, pos, a, b, p1);
  }

  lemma TokensAtSplit4<T>(s: seq<T>, pos: nat, a: seq<T>, b: seq<T>, c: seq<T>, d: seq<T>,
                          p1: nat, p2: nat, p3: nat)
    requires p1 == pos + |a| && p2 == p1 + |b| && p3 == p2 + |c| && TokensAt(s, pos, a + b + c + d)
    ensures TokensAt(s, pos, a) && TokensAt(s, p1, b) && TokensAt(s, p2, c) && TokensAt(s, p3, d)
  {
    TokensAtSplit(s, pos, a + b + c, d, p3);
    TokensAtSplit3(s, pos, a, b, c, p1, p2);
  }

  lemma TokensAtIndex<T>(s: seq<T>, pos: nat, u: seq<T>, i: nat, p: nat)
    requires TokensAt(s, pos, u) && i < |u| && p == pos + i
    ensures p < |s| && s[p] == u[i]
  {
  }
}
