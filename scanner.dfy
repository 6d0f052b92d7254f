/**
 * The specification of `complexEvaluator`: the character scanner with its pending-text
 * buffer and unary-minus flag, the recursion into bracketed groups and function calls, and
 * the final reduction. `Eval` is the value (or the error) the Java method produces for an
 * equation; the class in `expression_evaluator.dfy` computes it with loops.
 */
module Scanner {
  import opened Outcomes
  import opened ComplexNumbers
  import opened TerminalSymbols
  import opened Operands
  import opened Reduction

  /** The scanner's working state: the two lists, the pending text and the minus flag. */
  datatype ScanState = ScanState(operands: seq<Complex>, operators: seq<char>, buffer: string, negative: bool)

  const Initial: ScanState := ScanState([], [], "", false)

  /** Net bracket depth of a text: opening minus closing brackets. */
  function Depth(s: string): int
  {
    if s == [] then 0
    else Depth(s[..|s| - 1]) + (if s[|s| - 1] == '(' then 1 else if s[|s| - 1] == ')' then -1 else 0)
  }

  /** Position `m` closes a bracket opened just before `k`, `depth` levels further out. */
  predicate Closes(eq: string, k: nat, depth: nat, m: nat)
  {
    k <= m < |eq| && eq[m] == ')' && depth + Depth(eq[k..m]) == 0
  }

  /** Some position closes the bracket opened just before `k`. */
  predicate Closed(eq: string, k: nat)
  {
    exists m :: k <= m < |eq| && Closes(eq, k, 0, m)
  }

  /** The bracket scan: from position `k` at nesting `depth`, the first `)` met at depth
      zero. Running past the end is the Java `StringIndexOutOfBoundsException`. */
  function FindClose(eq: string, k: nat, depth: nat): (r: Result<nat>)
    ensures r.Ok? ==> k <= r.value < |eq| && eq[r.value] == ')'
    ensures r.Err? ==> r.error == UnbalancedParenthesis
    decreases |eq| - k
  {
    if k >= |eq| then Err(UnbalancedParenthesis)
    else if eq[k] == ')' && depth == 0 then Ok(k)
    else if eq[k] == '(' then FindClose(eq, k + 1, depth + 1)
    else if eq[k] == ')' then FindClose(eq, k + 1, depth - 1)
    else FindClose(eq, k + 1, depth)
  }

  /** A successful bracket scan returns the first closing position, and a failed one means
      there is none: the two together characterise `FindClose` by `Closes`. */
  lemma {:induction false} FindCloseFirst(eq: string, k: nat, depth: nat)
    ensures FindClose(eq, k, depth).Ok? ==>
      Closes(eq, k, depth, FindClose(eq, k, depth).value)
      && forall m :: k <= m < FindClose(eq, k, depth).value ==> !Closes(eq, k, depth, m)
    ensures FindClose(eq, k, depth).Err? ==> forall m :: k <= m < |eq| ==> !Closes(eq, k, depth, m)
    decreases |eq| - k
  {
    if k < |eq| && !(eq[k] == ')' && depth == 0) {
      var d := if eq[k] == '(' then depth + 1 else if eq[k] == ')' then depth - 1 else depth;
      FindCloseFirst(eq, k + 1, d);
      forall m | k + 1 <= m < |eq|
        ensures Closes(eq, k, depth, m) <==> Closes(eq, k + 1, d, m)
      {
        DepthShift(eq, k, m);
      }
      assert !Closes(eq, k, depth, k);
    } else if k < |eq| {
      assert eq[k..k] == [];
    }
  }

  /** The depth of `eq[k..m]` is that of the first character plus the depth of the rest. */
  lemma {:induction false} DepthShift(eq: string, k: nat, m: nat)
    requires k < m <= |eq|
    ensures Depth(eq[k..m]) == (if eq[k] == '(' then 1 else if eq[k] == ')' then -1 else 0) + Depth(eq[k + 1..m])
    decreases m - k
  {
    if m == k + 1 {
      assert eq[k..m][..0] == [];
      assert eq[k + 1..m] == [];
    } else {
      DepthShift(eq, k, m - 1);
      assert eq[k..m][..m - 1 - k] == eq[k..m - 1];
      assert eq[k + 1..m][..m - 1 - (k + 1)] == eq[k + 1..m - 1];
    }
  }

  /** The function applied to a bracketed group: none, `sin`, `cos`, `tan` (the sine over
      the cosine) or `log` (the natural logarithm); any other name is not supported. */
  function Apply(math: Transcendental, name: string, z: Complex): (r: Result<Complex>)
    ensures r.Ok? <==> name in {"", "sin", "cos", "log"} || (name == "tan" && math.cos(z) != Zero)
    ensures r.Err? ==> r.error == if name == "tan" then NonFiniteQuotient else FunctionNotSupported(name)
  {
    if name == "" then Ok(z)
    else if name == "sin" then Ok(math.sin(z))
    else if name == "cos" then Ok(math.cos(z))
    else if name == "tan" then
      var c := math.cos(z);
      if c == Zero then Err(NonFiniteQuotient) else Ok(Divide(math.sin(z), c))
    else if name == "log" then Ok(math.ln(z))
    else Err(FunctionNotSupported(name))
  }

  /** No name passes the value through; `sin`, `cos` and `log` are the platform's sine,
      cosine and natural logarithm. */
  lemma ApplyValues(math: Transcendental, z: Complex)
    ensures Apply(math, "", z) == Ok(z)
    ensures Apply(math, "sin", z) == Ok(math.sin(z))
    ensures Apply(math, "cos", z) == Ok(math.cos(z))
    ensures Apply(math, "log", z) == Ok(math.ln(z))
  {
  }

  /** The tangent times the cosine is the sine. */
  lemma TangentTimesCosine(math: Transcendental, z: Complex)
    requires Apply(math, "tan", z).Ok?
    ensures Multiply(Apply(math, "tan", z).value, math.cos(z)) == math.sin(z)
  {
    DivideThenMultiply(math.sin(z), math.cos(z));
  }

  /** Push the operand read from `token`, negated when the minus flag is set; the flag is
      cleared and nothing else changes. */
  function PushOperand(host: Host, vars: map<string, Complex>, st: ScanState, token: string): (r: Result<ScanState>)
    ensures r.Ok? <==> Operand(host.parseReal, vars, token).Ok?
    ensures r.Ok? ==> |r.value.operands| == |st.operands| + 1
    ensures r.Ok? ==> r.value == st.(operands := st.operands + [Signed(Operand(host.parseReal, vars, token).value, st.negative)],
                                     negative := false)
  {
    var z :- Operand(host.parseReal, vars, token);
    Ok(st.(operands := st.operands + [Signed(z, st.negative)], negative := false))
  }

  /** One turn of the `for` loop at position `i`; returns the next position and state. */
  function Step(host: Host, vars: map<string, Complex>, eq: string, i: nat, st: ScanState): (r: Result<(nat, ScanState)>)
    requires i < |eq|
    ensures r.Ok? ==> i < r.value.0 <= |eq| + 1
    ensures r.Ok? && |st.operands| == |st.operators| ==> Shape(eq, r.value.0, r.value.1)
    ensures r.Err? ==> !r.error.InvalidOperator?
    decreases |eq|, 0, 4
  {
    if IsTerminal(eq[i]) then
      match AtTerminal(host, vars, st, eq[i])
      case Ok(st') => Ok((i + 1, st'))
      case Err(e) => Err(e)
    else AtText(host, vars, eq, i, st.(buffer := st.buffer + [eq[i]]))
  }

  /** A terminal symbol: with pending text, push the operand and then the symbol; with
      none, a `-` only sets the minus flag and anything else is an invalid equation. */
  function AtTerminal(host: Host, vars: map<string, Complex>, st: ScanState, c: char): (r: Result<ScanState>)
    ensures Trim(st.buffer) != [] && r.Ok? ==>
      |r.value.operands| == |st.operands| + 1 && r.value.operands[..|st.operands|] == st.operands
      && r.value.operators == st.operators + [c] && r.value.buffer == [] && !r.value.negative
    ensures Trim(st.buffer) == [] ==>
      (r.Ok? <==> c == '-') && (r.Ok? ==> r.value == st.(negative := true)) && (r.Err? ==> r.error == InvalidEquation)
    ensures r.Err? ==> !r.error.InvalidOperator?
  {
    var token := Trim(st.buffer);
    if token != [] then
      match PushOperand(host, vars, st, token)
      case Ok(st') => Ok(st'.(operators := st'.operators + [c], buffer := []))
      case Err(e) => Err(e)
    else if c == '-' then Ok(st.(negative := true))
    else Err(InvalidEquation)
  }

  /** Any other character, already appended to the buffer: at the last position the
      pending text is pushed as an operand; a `(` then opens a group. */
  function AtText(host: Host, vars: map<string, Complex>, eq: string, i: nat, st: ScanState): (r: Result<(nat, ScanState)>)
    requires i < |eq| && st.buffer != [] && st.buffer[|st.buffer| - 1] == eq[i]
    ensures r.Ok? ==> i < r.value.0 <= |eq| + 1
    ensures r.Ok? && |st.operands| == |st.operators| ==> Shape(eq, r.value.0, r.value.1)
    ensures r.Err? ==> !r.error.InvalidOperator?
    decreases |eq|, 0, 3
  {
    if i == |eq| - 1 then AtLast(host, vars, eq, i, st)
    else if eq[i] == '(' then Group(host, vars, eq, i, st)
    else Ok((i + 1, st))
  }

  /** The last character: non-blank pending text is pushed as the final operand (the
      buffer is kept), and a `(` there still opens a group, which finds no `)`. */
  function AtLast(host: Host, vars: map<string, Complex>, eq: string, i: nat, st: ScanState): (r: Result<(nat, ScanState)>)
    requires i == |eq| - 1 && st.buffer != [] && st.buffer[|st.buffer| - 1] == eq[i]
    ensures r.Ok? ==> r == Ok((|eq|, r.value.1))
    ensures Trim(st.buffer) == [] ==> r == Ok((|eq|, st))
    ensures Trim(st.buffer) != [] && r.Ok? ==>
      |r.value.1.operands| == |st.operands| + 1 && r.value.1.operators == st.operators
    ensures r.Err? ==> !r.error.InvalidOperator?
    decreases |eq|, 0, 2
  {
    if Trim(st.buffer) == [] then Ok((i + 1, st))
    else
      match PushOperand(host, vars, st, Trim(st.buffer))
      case Ok(st') => if eq[i] == '(' then Group(host, vars, eq, i, st') else Ok((i + 1, st'))
      case Err(e) => Err(e)
  }

  /** The `(` branch: the function name is the trimmed text before the bracket, the group
      is the text strictly inside the matching brackets, evaluated recursively and negated
      when the flag is set; the character after `)` is recorded as an operator unchecked. */
  function Group(host: Host, vars: map<string, Complex>, eq: string, i: nat, st: ScanState): (r: Result<(nat, ScanState)>)
    requires i < |eq| && st.buffer != [] && st.buffer[|st.buffer| - 1] == '('
    ensures r.Ok? ==> i + 2 < r.value.0 <= |eq| + 1 && eq[r.value.0 - 2] == ')'
    ensures r.Ok? ==> |r.value.1.operands| == |st.operands| + 1 && r.value.1.operands[..|st.operands|] == st.operands
    ensures r.Ok? ==> r.value.1.operators == st.operators + (if r.value.0 <= |eq| then [eq[r.value.0 - 1]] else [])
    ensures r.Ok? ==> r.value.1.buffer == [] && !r.value.1.negative
    ensures r.Err? ==> !r.error.InvalidOperator?
    decreases |eq|, 0, 1
  {
    GroupOutcome(eq, st, GroupValue(host, vars, eq, i, CalledName(st.buffer), st.negative))
  }

  /** The position of the matching `)` and the value of the group: the text strictly
      inside the brackets evaluated recursively, negated when the flag is set, and passed
      to the named function. */
  function GroupValue(host: Host, vars: map<string, Complex>, eq: string, i: nat, name: string, negative: bool): (r: Result<(nat, Complex)>)
    requires i < |eq|
    ensures r.Ok? ==> i < r.value.0 < |eq| && eq[r.value.0] == ')'
    ensures r.Err? ==> !r.error.InvalidOperator?
    decreases |eq|, 0, 0
  {
    var j := FindClose(eq, i + 1, 0);
    if j.Err? then Err(j.error)
    else
      var v := Eval(host, vars, eq[i + 1..j.value]);
      if v.Err? then Err(v.error)
      else
        var f := Apply(host.math, name, Scale(v.value, if negative then -1.0 else 1.0));
        if f.Err? then Err(f.error) else Ok((j.value, f.value))
  }

  /** What a group evaluates to: the bracket scan's error; otherwise the recursive
      evaluation's error for the text strictly inside the brackets; otherwise the named
      function applied to that value, negated first when the flag is set. */
  lemma GroupEvaluates(host: Host, vars: map<string, Complex>, eq: string, i: nat, name: string, negative: bool)
    requires i < |eq|
    ensures FindClose(eq, i + 1, 0).Err? ==> GroupValue(host, vars, eq, i, name, negative) == Err(UnbalancedParenthesis)
    ensures FindClose(eq, i + 1, 0).Ok? && Eval(host, vars, eq[i + 1..FindClose(eq, i + 1, 0).value]).Err? ==>
      GroupValue(host, vars, eq, i, name, negative) == Err(Eval(host, vars, eq[i + 1..FindClose(eq, i + 1, 0).value]).error)
    ensures FindClose(eq, i + 1, 0).Ok? && Eval(host, vars, eq[i + 1..FindClose(eq, i + 1, 0).value]).Ok? ==>
      GroupValue(host, vars, eq, i, name, negative)
      == GroupApplied(FindClose(eq, i + 1, 0).value,
                      Apply(host.math, name, Signed(Eval(host, vars, eq[i + 1..FindClose(eq, i + 1, 0).value]).value, negative)))
  {
    if negative {
    } else {
      var j := FindClose(eq, i + 1, 0);
      if j.Ok? {
        var v := Eval(host, vars, eq[i + 1..j.value]);
        if v.Ok? {
          ScaleByOne(v.value);
        }
      }
    }
  }

  /** A group closed at `j` whose function gave `f`. */
  function GroupApplied(j: nat, f: Result<Complex>): (r: Result<(nat, Complex)>)
    ensures r.Ok? <==> f.Ok?
    ensures r.Ok? ==> r.value == (j, f.value)
    ensures r.Err? ==> r.error == f.error
  {
    if f.Err? then Err(f.error) else Ok((j, f.value))
  }

  /** The step a group ends with: its error, or the position after the character that
      follows its `)` and the state `AfterGroup` describes. */
  function GroupOutcome(eq: string, st: ScanState, g: Result<(nat, Complex)>): (r: Result<(nat, ScanState)>)
    ensures r.Err? <==> g.Err?
    ensures r.Err? ==> r.error == g.error
    ensures r.Ok? ==> r.value.0 == g.value.0 + 2 && r.value.1 == AfterGroup(eq, g.value.0, st, g.value.1)
  {
    if g.Err? then Err(g.error) else Ok((g.value.0 + 2, AfterGroup(eq, g.value.0, st, g.value.1)))
  }

  /** The state after a group closed at `j` produced `f`: `f` is pushed, the character
      after the `)` (if any) becomes an operator, and the buffer and flag are reset. */
  function AfterGroup(eq: string, j: nat, st: ScanState, f: Complex): (st': ScanState)
    ensures st'.operands == st.operands + [f] && st'.buffer == [] && !st'.negative
    ensures st'.operators == st.operators + (if j + 1 < |eq| then [eq[j + 1]] else [])
  {
    var operators := if j + 1 < |eq| then st.operators + [eq[j + 1]] else st.operators;
    ScanState(st.operands + [f], operators, [], false)
  }

  /** The trimmed text before a `(`, without its last character (the bracket itself). */
  function CalledName(buffer: string): string
  {
    var t := Trim(buffer);
    if t == [] then [] else t[..|t| - 1]
  }

  /** The name and the bracket make up the trimmed buffer. */
  lemma CalledNameTrimmed(buffer: string)
    requires buffer != [] && buffer[|buffer| - 1] == '('
    ensures CalledName(buffer) + ['('] == Trim(buffer)
  {
    TrimKeepsLast(buffer[..|buffer| - 1], '(');
    assert buffer[..|buffer| - 1] + ['('] == buffer;
    var t := Trim(buffer);
    assert CalledName(buffer) == t[..|t| - 1];
    assert t[..|t| - 1] + [t[|t| - 1]] == t;
  }

  /** The `for` loop from position `i` on. */
  function ScanFrom(host: Host, vars: map<string, Complex>, eq: string, i: nat, st: ScanState): (r: Result<ScanState>)
    requires i <= |eq| + 1
    ensures r.Err? ==> !r.error.InvalidOperator?
    decreases |eq|, 1, |eq| + 1 - i
  {
    if i >= |eq| then Ok(st)
    else
      var next :- Step(host, vars, eq, i, st);
      ScanFrom(host, vars, eq, next.0, next.1)
  }

  /** `complexEvaluator`: scan the whole equation, then reduce. `compute`'s "Invalid
      operator" case is unreachable from here: the reduction only applies terminals. */
  function Eval(host: Host, vars: map<string, Complex>, eq: string): (r: Result<Complex>)
    ensures r.Err? ==> !r.error.InvalidOperator?
    decreases |eq|, 2
  {
    var st :- ScanFrom(host, vars, eq, 0, Initial);
    Reduced(host.math, st.operands, st.operators)
  }

  /** One turn of the scan: a failed step ends it with the step's error. */
  lemma ScanFromStep(host: Host, vars: map<string, Complex>, eq: string, i: nat, st: ScanState)
    requires i < |eq|
    ensures Step(host, vars, eq, i, st).Ok? ==>
      ScanFrom(host, vars, eq, i, st) == ScanFrom(host, vars, eq, Step(host, vars, eq, i, st).value.0, Step(host, vars, eq, i, st).value.1)
    ensures Step(host, vars, eq, i, st).Err? ==> ScanFrom(host, vars, eq, i, st) == Err(Step(host, vars, eq, i, st).error)
  {
  }

  // The shape the scanner leaves behind.

  /** While the scan is inside the text the two lists have equal length; only the final
      operand, read at the last character or from a group that ends the text, makes the
      operands one longer. */
  predicate Shape(eq: string, i: nat, st: ScanState)
  {
    |st.operands| == |st.operators| || (i >= |eq| && |st.operands| == |st.operators| + 1)
  }

  /** A bracket that is never closed is an error, never a value. */
  lemma UnclosedGroup(host: Host, vars: map<string, Complex>, eq: string, i: nat, st: ScanState)
    requires i < |eq| && st.buffer != [] && st.buffer[|st.buffer| - 1] == '('
    requires !Closed(eq, i + 1)
    ensures Group(host, vars, eq, i, st) == Err(UnbalancedParenthesis)
  {
    FindCloseFirst(eq, i + 1, 0);
  }

  /** The text a group is evaluated from, strictly inside its brackets, is balanced: no
      prefix closes more brackets than it opens, and the whole opens as many as it closes.
      It is shorter than the equation, so the recursion ends. */
  lemma GroupIsBalanced(eq: string, i: nat)
    requires i < |eq| && FindClose(eq, i + 1, 0).Ok?
    ensures var j := FindClose(eq, i + 1, 0).value;
      eq[j] == ')' && Depth(eq[i + 1..j]) == 0 && |eq[i + 1..j]| < |eq|
    ensures var j := FindClose(eq, i + 1, 0).value;
      forall p :: i + 1 <= p <= j ==> InnerDepth(eq, i, p) >= 0
  {
    FindCloseFirst(eq, i + 1, 0);
    var j := FindClose(eq, i + 1, 0).value;
    forall p | i + 1 <= p <= j
      ensures InnerDepth(eq, i, p) >= 0
    {
      PrefixDepth(eq, i + 1, j, p);
    }
  }

  /** The depth of the text after the `(` at `open`, up to `p`. */
  function InnerDepth(eq: string, open: nat, p: nat): int
    requires open < p <= |eq|
  {
    Depth(eq[open + 1..p])
  }

  /** Before the first closing position, no prefix goes below depth zero. */
  lemma {:induction false} PrefixDepth(eq: string, k: nat, j: nat, p: nat)
    requires k <= p <= j < |eq|
    requires forall m :: k <= m < j ==> !Closes(eq, k, 0, m)
    ensures Depth(eq[k..p]) >= 0
    decreases p - k
  {
    if p == k {
      assert eq[k..p] == [];
    } else {
      PrefixDepth(eq, k, j, p - 1);
      assert eq[k..p][..p - 1 - k] == eq[k..p - 1];
      assert eq[k..p][p - 1 - k] == eq[p - 1];
      assert !Closes(eq, k, 0, p - 1);
    }
  }

  /** Every successful scan ends with as many operands as operators, or one more. */
  lemma {:induction false} ScanShape(host: Host, vars: map<string, Complex>, eq: string, i: nat, st: ScanState)
    requires i <= |eq| + 1 && Shape(eq, i, st)
    requires ScanFrom(host, vars, eq, i, st).Ok?
    ensures var st' := ScanFrom(host, vars, eq, i, st).value;
      |st'.operands| == |st'.operators| || |st'.operands| == |st'.operators| + 1
    decreases |eq| + 1 - i
  {
    if i < |eq| {
      var next := Step(host, vars, eq, i, st).value;
      ScanShape(host, vars, eq, next.0, next.1);
    }
  }

  /** A scan that leaves one operand more than operators is reduced to a value unless a
      division by zero occurs; a scan that leaves equal lengths and only terminal operators
      never gives a value. */
  lemma EvalAfterScan(host: Host, vars: map<string, Complex>, eq: string)
    requires ScanFrom(host, vars, eq, 0, Initial).Ok?
    ensures var st := ScanFrom(host, vars, eq, 0, Initial).value;
      |st.operands| == |st.operators| || |st.operands| == |st.operators| + 1
    ensures var st := ScanFrom(host, vars, eq, 0, Initial).value;
      |st.operands| == |st.operators| + 1 ==>
        Eval(host, vars, eq).Ok? || Eval(host, vars, eq) == Err(DivisionByZero)
    ensures var st := ScanFrom(host, vars, eq, 0, Initial).value;
      |st.operands| == |st.operators| && (forall c :: c in st.operators ==> IsTerminal(c)) ==>
        Eval(host, vars, eq).Err?
  {
    var st := ScanFrom(host, vars, eq, 0, Initial).value;
    ScanShape(host, vars, eq, 0, Initial);
    if |st.operands| == |st.operators| + 1 {
      ReducedWellFormed(host.math, st.operands, st.operators);
    } else if forall c :: c in st.operators ==> IsTerminal(c) {
      ReducedShort(host.math, st.operands, st.operators);
    }
  }
}
