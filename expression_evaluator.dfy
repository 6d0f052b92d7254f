/**
 * The evaluator object: a variable table updated in place, and `complexEvaluator`, which
 * walks the equation character by character over two growing lists, a pending-text buffer
 * and a minus flag, recurses into bracketed groups, and ends with the precedence
 * reduction. The method is proved to compute `Scanner.Eval`.
 */
module Evaluator {
  import opened Outcomes
  import opened ComplexNumbers
  import opened TerminalSymbols
  import opened Operands
  import opened Reduction
  import opened Scanner

  class ExpressionEvaluator {
    /** The platform routines: number parsing, the `Math` functions, the formatter. */
    const host: Host
    /** The variable table, owned by the evaluator. */
    var variables: map<string, Complex>

    /** An evaluator with an empty table. */
    constructor (host: Host)
      ensures this.host == host && variables == map[]
    {
      this.host := host;
      variables := map[];
    }

    /** An evaluator starting from the given table. */
    constructor WithVariables(host: Host, vars: map<string, Complex>)
      ensures this.host == host && variables == vars
    {
      this.host := host;
      variables := vars;
    }

    /** Replace the whole table. */
    method SetVariables(vars: map<string, Complex>)
      modifies this
      ensures variables == vars
    {
      variables := vars;
    }

    /** Bind `name` to `value`, replacing any earlier binding; no other name changes. */
    method SetVariable(name: string, value: Complex)
      modifies this
      ensures variables == old(variables)[name := value]
      ensures Lookup(variables, name) == Some(value)
      ensures forall n :: n != name ==> Lookup(variables, n) == Lookup(old(variables), n)
    {
      variables := variables[name := value];
    }

    /** The real overload: `value` is stored with a zero imaginary part. */
    method SetRealVariable(name: string, value: real)
      modifies this
      ensures variables == old(variables)[name := Complex(value, 0.0)]
      ensures Lookup(variables, name) == Some(Complex(value, 0.0))
      ensures forall n :: n != name ==> Lookup(variables, n) == Lookup(old(variables), n)
    {
      variables := variables[name := Complex(value, 0.0)];
    }

    /** The binding of `name`; `None` stands for Java's `null`. */
    function GetVariable(name: string): (r: Option<Complex>)
      reads this
      ensures r.Some? <==> name in variables
      ensures r.Some? ==> r.value == variables[name]
    {
      Lookup(variables, name)
    }

    /** Delete the binding of `name`, if any; every other binding is unchanged. */
    method RemoveVariable(name: string)
      modifies this
      ensures variables == old(variables) - {name}
      ensures Lookup(variables, name) == None
      ensures forall n :: n != name ==> Lookup(variables, n) == Lookup(old(variables), n)
    {
      variables := variables - {name};
    }

    /** `complexEvaluator`: the scan, the groups evaluated recursively, then the reduction. */
    method ComplexEvaluator(eq: string) returns (r: Result<Complex>)
      ensures r == Eval(host, variables, eq)
      decreases |eq|, 5
    {
      var operands: seq<Complex> := [];
      var operators: seq<char> := [];
      var sb: string := [];
      var negative := false;
      var i := 0;
      while i < |eq|
        invariant i <= |eq| + 1
        invariant ScanFrom(host, variables, eq, 0, Initial)
               == ScanFrom(host, variables, eq, i, ScanState(operands, operators, sb, negative))
        decreases |eq| + 1 - i
      {
        ScanFromStep(host, variables, eq, i, ScanState(operands, operators, sb, negative));
        var next := ScanStep(eq, i, operands, operators, sb, negative);
        if next.Err? {
          return Err(next.error);
        }
        i := next.value.0;
        operands, operators, sb, negative := next.value.1.operands, next.value.1.operators, next.value.1.buffer, next.value.1.negative;
      }
      r := ReduceOperators(host.math, operands, operators);
    }

    /** One turn of the loop at `i`: a terminal symbol, or any other character, which is
        appended to the pending text. */
    method ScanStep(eq: string, i: nat, operands: seq<Complex>, operators: seq<char>, sb: string, negative: bool)
      returns (r: Result<(nat, ScanState)>)
      requires i < |eq|
      ensures r == Step(host, variables, eq, i, ScanState(operands, operators, sb, negative))
      decreases |eq|, 4
    {
      var c := eq[i];
      if IsTerminal(c) {
        var t := ScanTerminal(c, operands, operators, sb, negative);
        if t.Err? {
          return Err(t.error);
        }
        return Ok((i + 1, t.value));
      }
      r := ScanText(eq, i, operands, operators, sb + [c], negative);
    }

    /** A terminal symbol ends the pending text: non-blank text becomes an operand (negated
        when the flag is set) and the symbol an operator; a `-` with no text before it sets
        the flag instead, and any other symbol there is an invalid equation. */
    method ScanTerminal(c: char, operands: seq<Complex>, operators: seq<char>, sb: string, negative: bool)
      returns (r: Result<ScanState>)
      ensures r == AtTerminal(host, variables, ScanState(operands, operators, sb, negative), c)
    {
      var variable := Trim(sb);
      if variable != [] {
        var z := Operand(host.parseReal, variables, variable);
        if z.Err? {
          return Err(z.error);
        }
        assert PushOperand(host, variables, ScanState(operands, operators, sb, negative), variable)
            == Ok(ScanState(operands + [Signed(z.value, negative)], operators, sb, false));
        return Ok(ScanState(operands + [Signed(z.value, negative)], operators + [c], [], false));
      } else if c == '-' {
        return Ok(ScanState(operands, operators, sb, true));
      } else {
        return Err(InvalidEquation);
      }
    }

    /** A character other than a terminal symbol, already appended to `sb`: at the last
        position the pending text is pushed as the final operand, and a `(` opens a group. */
    method ScanText(eq: string, i: nat, operands: seq<Complex>, operators: seq<char>, sb: string, negative: bool)
      returns (r: Result<(nat, ScanState)>)
      requires i < |eq| && sb != [] && sb[|sb| - 1] == eq[i]
      ensures r == AtText(host, variables, eq, i, ScanState(operands, operators, sb, negative))
      decreases |eq|, 3
    {
      if i == |eq| - 1 {
        r := ScanLast(eq, i, operands, operators, sb, negative);
      } else if eq[i] == '(' {
        r := OpenGroup(eq, i, operands, operators, sb, negative);
      } else {
        r := Ok((i + 1, ScanState(operands, operators, sb, negative)));
      }
    }

    /** The last character: non-blank pending text is pushed as the final operand, and a
        `(` there still opens a group. */
    method ScanLast(eq: string, i: nat, operands: seq<Complex>, operators: seq<char>, sb: string, negative: bool)
      returns (r: Result<(nat, ScanState)>)
      requires i == |eq| - 1 && sb != [] && sb[|sb| - 1] == eq[i]
      ensures r == AtLast(host, variables, eq, i, ScanState(operands, operators, sb, negative))
      decreases |eq|, 2
    {
      var variable := Trim(sb);
      if variable == [] {
        return Ok((i + 1, ScanState(operands, operators, sb, negative)));
      }
      var z := Operand(host.parseReal, variables, variable);
      if z.Err? {
        return Err(z.error);
      }
      var operands' := operands + [Signed(z.value, negative)];
      assert PushOperand(host, variables, ScanState(operands, operators, sb, negative), variable)
          == Ok(ScanState(operands', operators, sb, false));
      if eq[i] == '(' {
        r := OpenGroup(eq, i, operands', operators, sb, false);
      } else {
        r := Ok((i + 1, ScanState(operands', operators, sb, false)));
      }
    }

    /** The `(` at `open` with `sb` pending, as one step of the scan: the group's value
        is pushed as an operand and the character after its `)`, if there is one, as an
        operator, unchecked; the scan resumes after that character. */
    method OpenGroup(eq: string, open: nat, operands: seq<Complex>, operators: seq<char>, sb: string, negative: bool)
      returns (r: Result<(nat, ScanState)>)
      requires open < |eq| && sb != [] && sb[|sb| - 1] == '('
      ensures r == Group(host, variables, eq, open, ScanState(operands, operators, sb, negative))
      decreases |eq|, 1
    {
      var g := EvaluateGroup(eq, open, CalledName(sb), negative);
      r := GroupOutcome(eq, ScanState(operands, operators, sb, negative), g);
    }

    /** The `(` at `open`: scan forward, counting nested brackets, to the first `)` at
        depth zero; evaluate the text in between, negate it when `negative`, and apply the
        function `name`. Running past the end of the text is an error. */
    method EvaluateGroup(eq: string, open: nat, name: string, negative: bool) returns (r: Result<(nat, Complex)>)
      requires open < |eq|
      ensures r == GroupValue(host, variables, eq, open, name, negative)
      decreases |eq|, 0
    {
      var i := open + 1;
      var count: nat := 0;
      var sub: string := [];
      while i < |eq| && (eq[i] != ')' || count != 0)
        invariant open + 1 <= i <= |eq|
        invariant sub == eq[open + 1..i]
        invariant FindClose(eq, open + 1, 0) == FindClose(eq, i, count)
        decreases |eq| - i
      {
        if eq[i] == '(' {
          count := count + 1;
        } else if eq[i] == ')' {
          count := count - 1;
        }
        sub := sub + [eq[i]];
        i := i + 1;
      }
      if i >= |eq| {
        return Err(UnbalancedParenthesis);
      }
      var v := ComplexEvaluator(sub);
      if v.Err? {
        return Err(v.error);
      }
      var f := Apply(host.math, name, Scale(v.value, if negative then -1.0 else 1.0));
      if f.Err? {
        return Err(f.error);
      }
      return Ok((i, f.value));
    }

    /** `evaluateEquation`: the value of the equation, rendered by the platform formatter. */
    method EvaluateEquation(eq: string, precision: int) returns (r: Result<string>)
      ensures r == (match Eval(host, variables, eq)
                    case Ok(v) => Ok(host.format(v, precision))
                    case Err(e) => Err(e))
    {
      var v := ComplexEvaluator(eq);
      if v.Err? {
        return Err(v.error);
      }
      return Ok(host.format(v.value, precision));
    }
  }

  /** `Map.get` on the table: the binding, or `None`. */
  function Lookup(vars: map<string, Complex>, name: string): (r: Option<Complex>)
    ensures r.Some? <==> name in vars
    ensures r.Some? ==> r.value == vars[name]
  {
    if name in vars then Some(vars[name]) else None
  }
}
