/**
 * The precedence reduction that ends `complexEvaluator`. The scanner leaves two parallel
 * lists, operands and operators. For each terminal symbol in turn, the leftmost occurrence
 * of that symbol is combined with the operands on either side of it until none is left;
 * the answer is the first operand that remains.
 *
 * `Pass`, `Tiers` and `Reduced` specify the reduction; `ReduceOperators` is the loop, proved
 * equal to `Reduced`.
 */
module Reduction {
  import opened Outcomes
  import opened ComplexNumbers
  import opened TerminalSymbols
  import opened Operands

  /** The two lists the reduction works on. */
  datatype Lists = Lists(operands: seq<Complex>, operators: seq<char>)

  /** `List.indexOf`: the leftmost position of `x`. */
  function IndexOf(s: seq<char>, x: char): (k: nat)
    requires x in s
    ensures k < |s| && s[k] == x && x !in s[..k]
  {
    if s[0] == x then 0 else 1 + IndexOf(s[1..], x)
  }

  /** `s` with every occurrence of `x` removed, the rest in order. */
  function Without(s: seq<char>, x: char): (r: seq<char>)
    ensures x !in r && |r| <= |s|
    ensures forall c :: c in r ==> c in s
    ensures x !in s ==> r == s
  {
    if s == [] then []
    else if s[0] == x then Without(s[1..], x)
    else [s[0]] + Without(s[1..], x)
  }

  /** `s` without the characters of `xs`, the rest in order. */
  function WithoutAll(s: seq<char>, xs: seq<char>): (r: seq<char>)
    ensures forall c :: c in xs ==> c !in r
    ensures forall c :: c in r ==> c in s
    ensures (forall c :: c in s ==> c in xs) ==> r == []
    decreases |xs|
  {
    if xs == [] then
      assert s != [] ==> s[0] in s;
      s
    else
      assert forall c :: c in xs ==> c == xs[0] || c in xs[1..];
      WithoutAll(Without(s, xs[0]), xs[1..])
  }

  /** One reduction step at position `k`: `operands[k]` becomes `v`, `operands[k+1]` and
      `operators[k]` are removed, and everything else keeps its relative order. */
  function Collapse(l: Lists, k: nat, v: Complex): (r: Lists)
    requires k < |l.operators| && k + 1 < |l.operands|
    ensures |r.operands| == |l.operands| - 1 && |r.operators| == |l.operators| - 1
    ensures r.operands[k] == v
    ensures forall m :: 0 <= m < k ==> r.operands[m] == l.operands[m] && r.operators[m] == l.operators[m]
    ensures forall m :: k < m < |r.operands| ==> r.operands[m] == l.operands[m + 1]
    ensures forall m :: k <= m < |r.operators| ==> r.operators[m] == l.operators[m + 1]
  {
    var operands := l.operands[k := v];
    Lists(operands[..k + 1] + operands[k + 2..], l.operators[..k] + l.operators[k + 1..])
  }

  /** The `while` loop for one symbol: reduce its leftmost occurrence until none is left. */
  function Pass(math: Transcendental, l: Lists, sym: char): (r: Result<Lists>)
    ensures IsTerminal(sym) && r.Err? ==> !r.error.InvalidOperator?
    decreases |l.operators|
  {
    if sym !in l.operators then Ok(l)
    else
      var k := IndexOf(l.operators, sym);
      if k + 1 >= |l.operands| then Err(IndexOutOfBounds)
      else
        var v :- Compute(math, l.operands[k], l.operands[k + 1], sym);
        Pass(math, Collapse(l, k, v), sym)
  }

  /** The passes for `syms`, in order. */
  function Tiers(math: Transcendental, l: Lists, syms: seq<char>): (r: Result<Lists>)
    ensures (forall c :: c in syms ==> IsTerminal(c)) && r.Err? ==> !r.error.InvalidOperator?
    decreases |syms|
  {
    if syms == [] then Ok(l)
    else
      var l' :- Pass(math, l, syms[0]);
      Tiers(math, l', syms[1..])
  }

  /** Continue an outcome of earlier passes with the passes for `syms`. */
  function Then(math: Transcendental, r: Result<Lists>, syms: seq<char>): Result<Lists>
  {
    if r.Err? then r else Tiers(math, r.value, syms)
  }

  /** All five tiers, then the first operand. */
  function Reduced(math: Transcendental, operands: seq<Complex>, operators: seq<char>): Result<Complex>
  {
    var l :- Tiers(math, Lists(operands, operators), Terminals);
    if l.operands == [] then Err(NoSuchElement) else Ok(l.operands[0])
  }

  // Properties of the reduction.

  lemma {:induction false} WithoutRemovesAt(s: seq<char>, k: nat, x: char)
    requires k < |s| && s[k] == x && x !in s[..k]
    ensures Without(s[..k] + s[k + 1..], x) == Without(s, x)
    decreases k
  {
    if k > 0 {
      assert (s[..k] + s[k + 1..])[0] == s[0];
      assert (s[..k] + s[k + 1..])[1..] == s[1..][..k - 1] + s[1..][k..];
      WithoutRemovesAt(s[1..], k - 1, x);
    } else {
      assert s[..k] + s[k + 1..] == s[1..];
    }
  }

  /** A successful pass removes exactly the symbol's occurrences, leaves every other
      operator in order, and keeps the difference between the two lengths. */
  lemma {:induction false} PassRemovesSymbol(math: Transcendental, l: Lists, sym: char)
    requires Pass(math, l, sym).Ok?
    ensures Pass(math, l, sym).value.operators == Without(l.operators, sym)
    ensures |Pass(math, l, sym).value.operands| - |Pass(math, l, sym).value.operators|
         == |l.operands| - |l.operators|
    decreases |l.operators|
  {
    if sym in l.operators {
      var k := IndexOf(l.operators, sym);
      var v := Compute(math, l.operands[k], l.operands[k + 1], sym).value;
      PassRemovesSymbol(math, Collapse(l, k, v), sym);
      WithoutRemovesAt(l.operators, k, sym);
    }
  }

  /** When there is one more operand than operators, a pass for a terminal symbol can only
      fail on a zero divisor: every operator has its right-hand operand. */
  lemma {:induction false} PassWellFormed(math: Transcendental, l: Lists, sym: char)
    requires IsTerminal(sym) && |l.operands| == |l.operators| + 1
    ensures Pass(math, l, sym).Ok? || Pass(math, l, sym) == Err(DivisionByZero)
    decreases |l.operators|
  {
    if sym in l.operators {
      var k := IndexOf(l.operators, sym);
      var c := Compute(math, l.operands[k], l.operands[k + 1], sym);
      if c.Ok? {
        var next := Collapse(l, k, c.value);
        PassWellFormed(math, next, sym);
        assert Pass(math, l, sym) == Pass(math, next, sym);
      }
    }
  }

  /** Operators outside `syms` are never consumed, and those in `syms` are all gone. */
  lemma {:induction false} TiersRemoveSymbols(math: Transcendental, l: Lists, syms: seq<char>)
    requires Tiers(math, l, syms).Ok?
    ensures Tiers(math, l, syms).value.operators == WithoutAll(l.operators, syms)
    ensures |Tiers(math, l, syms).value.operands| - |Tiers(math, l, syms).value.operators|
         == |l.operands| - |l.operators|
    decreases |syms|
  {
    if syms != [] {
      PassRemovesSymbol(math, l, syms[0]);
      TiersRemoveSymbols(math, Pass(math, l, syms[0]).value, syms[1..]);
    }
  }

  lemma {:induction false} TiersWellFormed(math: Transcendental, l: Lists, syms: seq<char>)
    requires forall c :: c in syms ==> IsTerminal(c)
    requires |l.operands| == |l.operators| + 1
    ensures Tiers(math, l, syms).Ok? || Tiers(math, l, syms) == Err(DivisionByZero)
    decreases |syms|
  {
    if syms != [] {
      PassWellFormed(math, l, syms[0]);
      var p := Pass(math, l, syms[0]);
      if p.Ok? {
        PassRemovesSymbol(math, l, syms[0]);
        TiersWellFormed(math, p.value, syms[1..]);
      }
    }
  }

  /** The tiers run one after the other: the passes for `a + b` are those for `a` followed
      by those for `b`. */
  lemma {:induction false} TiersCompose(math: Transcendental, l: Lists, a: seq<char>, b: seq<char>)
    ensures Tiers(math, l, a + b) == Then(math, Tiers(math, l, a), b)
    decreases |a|
  {
    if a == [] {
      assert a + b == b;
    } else {
      assert (a + b)[0] == a[0] && (a + b)[1..] == a[1..] + b;
      var p := Pass(math, l, a[0]);
      if p.Ok? {
        TiersCompose(math, p.value, a[1..], b);
      }
    }
  }

  /** Precedence: the pass for the terminal of rank `k` starts only once every terminal of
      smaller rank is gone, so in a flat chain every power is reduced before any division,
      every division before any multiplication, and every subtraction before any addition. */
  lemma PrecedenceOfTiers(math: Transcendental, l: Lists, k: nat)
    requires k < |Terminals|
    ensures Tiers(math, l, Terminals) == Then(math, Tiers(math, l, Terminals[..k]), Terminals[k..])
    ensures Tiers(math, l, Terminals[..k]).Ok? ==>
      forall j :: 0 <= j < k ==> Terminals[j] !in Tiers(math, l, Terminals[..k]).value.operators
  {
    assert Terminals == Terminals[..k] + Terminals[k..];
    TiersCompose(math, l, Terminals[..k], Terminals[k..]);
    if Tiers(math, l, Terminals[..k]).Ok? {
      TiersRemoveSymbols(math, l, Terminals[..k]);
      forall j | 0 <= j < k
        ensures Terminals[j] !in Tiers(math, l, Terminals[..k]).value.operators
      {
        assert Terminals[j] in Terminals[..k];
      }
    }
  }

  /** Lists in the shape the scanner leaves after a complete expression (one operand more
      than operators) reduce to a value, unless some division has a zero divisor. */
  lemma ReducedWellFormed(math: Transcendental, operands: seq<Complex>, operators: seq<char>)
    requires |operands| == |operators| + 1
    ensures Reduced(math, operands, operators).Ok? || Reduced(math, operands, operators) == Err(DivisionByZero)
  {
    var l := Lists(operands, operators);
    TiersWellFormed(math, l, Terminals);
    if Tiers(math, l, Terminals).Ok? {
      TiersRemoveSymbols(math, l, Terminals);
    }
  }

  /** Passes for symbols that do not occur change nothing. */
  lemma {:induction false} TiersAbsent(math: Transcendental, l: Lists, syms: seq<char>)
    requires forall c :: c in syms ==> c !in l.operators
    ensures Tiers(math, l, syms) == Ok(l)
    decreases |syms|
  {
    if syms != [] {
      TiersAbsent(math, l, syms[1..]);
    }
  }

  /** Lists with as many operands as operators, all of them terminals, never reduce to a
      value: the last operator has no right-hand operand, or, with both lists empty, there
      is no first operand. */
  lemma ReducedShort(math: Transcendental, operands: seq<Complex>, operators: seq<char>)
    requires |operands| == |operators|
    requires forall c :: c in operators ==> IsTerminal(c)
    ensures Reduced(math, operands, operators).Err?
  {
    var l := Lists(operands, operators);
    if Tiers(math, l, Terminals).Ok? {
      TiersRemoveSymbols(math, l, Terminals);
    }
  }

  /** Without terminal operators nothing is combined, and the answer is `getFirst` of the
      operands as they stand: the first one, or "no such element" when there is none. */
  lemma ReducedTakesFirst(math: Transcendental, operands: seq<Complex>, operators: seq<char>)
    requires forall c :: c in operators ==> !IsTerminal(c)
    ensures operands == [] ==> Reduced(math, operands, operators) == Err(NoSuchElement)
    ensures operands != [] ==> Reduced(math, operands, operators) == Ok(operands[0])
  {
    TiersAbsent(math, Lists(operands, operators), Terminals);
  }

  /** The reduction loop over the two lists, as `complexEvaluator` writes it. */
  method ReduceOperators(math: Transcendental, operands0: seq<Complex>, operators0: seq<char>) returns (r: Result<Complex>)
    ensures r == Reduced(math, operands0, operators0)
  {
    var operands, operators := operands0, operators0;
    for t := 0 to |Terminals|
      invariant Tiers(math, Lists(operands0, operators0), Terminals)
             == Tiers(math, Lists(operands, operators), Terminals[t..])
    {
      var sym := Terminals[t];
      assert Terminals[t..][0] == sym && Terminals[t..][1..] == Terminals[t + 1..];
      while operators != [] && sym in operators
        invariant Tiers(math, Lists(operands0, operators0), Terminals)
               == Then(math, Pass(math, Lists(operands, operators), sym), Terminals[t + 1..])
        decreases |operators|
      {
        var index := IndexOf(operators, sym);
        if index + 1 >= |operands| {
          return Err(IndexOutOfBounds);
        }
        var v := Compute(math, operands[index], operands[index + 1], sym);
        if v.Err? {
          return Err(v.error);
        }
        assert Lists(operands[index := v.value][..index + 1] + operands[index := v.value][index + 2..],
                     operators[..index] + operators[index + 1..])
            == Collapse(Lists(operands, operators), index, v.value);
        operands := operands[index := v.value];
        operands := operands[..index + 1] + operands[index + 2..];
        operators := operators[..index] + operators[index + 1..];
      }
    }
    if operands == [] {
      return Err(NoSuchElement);
    }
    return Ok(operands[0]);
  }
}
