/**
 * Concrete consequences of `complexEvaluator` as written, each for every platform that
 * parses the literals involved in the usual way and for every variable table.
 */
module Behaviour {
  import opened Outcomes
  import opened ComplexNumbers
  import opened TerminalSymbols
  import opened Operands
  import opened Reduction
  import opened Scanner

  /** An empty equation leaves both lists empty, and `getFirst` on the empty list fails. */
  lemma EmptyEquation(host: Host, vars: map<string, Complex>)
    ensures Eval(host, vars, "") == Err(NoSuchElement)
  {
    assert Tiers(host.math, Lists([], []), Terminals) == Ok(Lists([], [])) by {
      TiersAbsent(host.math, Lists([], []), Terminals);
    }
  }

  /** A lone literal is its own value. */
  lemma SingleLiteral(host: Host, vars: map<string, Complex>)
    requires host.parseReal("1") == Some(1.0)
    ensures Eval(host, vars, "1") == Ok(Complex(1.0, 0.0))
  {
    var one := Complex(1.0, 0.0);
    var st := ScanState([one], [], "1", false);
    LiteralStep(host, vars);
    assert ScanFrom(host, vars, "1", 0, Initial) == Ok(st);
    TiersAbsent(host.math, Lists([one], []), Terminals);
  }

  /** The scan of "1": one step at the last character pushes the literal. */
  lemma LiteralStep(host: Host, vars: map<string, Complex>)
    requires host.parseReal("1") == Some(1.0)
    ensures Step(host, vars, "1", 0, Initial) == Ok((1, ScanState([Complex(1.0, 0.0)], [], "1", false)))
  {
    var st0 := ScanState([], [], "1", false);
    LiteralAtLast(host, vars);
    assert !IsTerminal('1') && Initial.(buffer := Initial.buffer + ['1']) == st0;
    assert AtText(host, vars, "1", 0, st0) == AtLast(host, vars, "1", 0, st0);
  }

  lemma LiteralAtLast(host: Host, vars: map<string, Complex>)
    requires host.parseReal("1") == Some(1.0)
    ensures AtLast(host, vars, "1", 0, ScanState([], [], "1", false))
         == Ok((1, ScanState([Complex(1.0, 0.0)], [], "1", false)))
  {
    TrimmedSingle('1');
    LiteralPushed(host, vars);
  }

  /** A single character that is not whitespace trims to itself. */
  lemma TrimmedSingle(c: char)
    requires !IsBlank(c)
    ensures Trim([c]) == [c]
  {
    TrimKeepsLast([], c);
    assert [] + [c] == [c];
  }

  lemma LiteralPushed(host: Host, vars: map<string, Complex>)
    requires host.parseReal("1") == Some(1.0)
    ensures PushOperand(host, vars, ScanState([], [], "1", false), "1")
         == Ok(ScanState([Complex(1.0, 0.0)], [], "1", false))
  {
    var one := Complex(1.0, 0.0);
    var st0 := ScanState([], [], "1", false);
    LiteralOperand(host, vars);
    assert st0.(operands := st0.operands + [Signed(one, false)], negative := false)
        == ScanState([one], [], "1", false);
  }

  lemma LiteralOperand(host: Host, vars: map<string, Complex>)
    requires host.parseReal("1") == Some(1.0)
    ensures Operand(host.parseReal, vars, "1") == Ok(Complex(1.0, 0.0))
  {
    assert "1" != "" && "1" != "pi" && "1" != "e" && "1"[0] != 'i';
  }

  /** An equation that opens with the group "(1)" and goes on: the group is pushed and the
      character after its `)`, whatever it is, becomes an operator; the scan resumes after it. */
  lemma LeadingGroup(host: Host, vars: map<string, Complex>, eq: string)
    requires host.parseReal("1") == Some(1.0)
    requires |eq| >= 4 && eq[0] == '(' && eq[1] == '1' && eq[2] == ')'
    ensures Step(host, vars, eq, 0, Initial) == Ok((4, ScanState([Complex(1.0, 0.0)], [eq[3]], [], false)))
  {
    OpeningBracket(host, vars, eq);
    LeadingGroupOutcome(host, vars, eq);
  }

  lemma LeadingGroupOutcome(host: Host, vars: map<string, Complex>, eq: string)
    requires host.parseReal("1") == Some(1.0)
    requires |eq| >= 4 && eq[0] == '(' && eq[1] == '1' && eq[2] == ')'
    ensures GroupOutcome(eq, ScanState([], [], "(", false), GroupValue(host, vars, eq, 0, CalledName("("), false))
         == Ok((4, ScanState([Complex(1.0, 0.0)], [eq[3]], [], false)))
  {
    NoFunctionName();
    LeadingGroupValue(host, vars, eq);
    AfterLeadingGroup(eq, Complex(1.0, 0.0));
  }

  lemma AfterLeadingGroup(eq: string, v: Complex)
    requires |eq| >= 4
    ensures GroupOutcome(eq, ScanState([], [], "(", false), Ok((2, v))) == Ok((4, ScanState([v], [eq[3]], [], false)))
  {
    assert AfterGroup(eq, 2, ScanState([], [], "(", false), v) == ScanState([v], [eq[3]], [], false);
  }

  /** A `(` that starts a longer equation opens a group. */
  lemma OpeningBracket(host: Host, vars: map<string, Complex>, eq: string)
    requires |eq| > 1 && eq[0] == '('
    ensures Step(host, vars, eq, 0, Initial)
         == GroupOutcome(eq, ScanState([], [], "(", false), GroupValue(host, vars, eq, 0, CalledName("("), false))
  {
    var st0 := ScanState([], [], "(", false);
    assert !IsTerminal(eq[0]) && Initial.(buffer := Initial.buffer + [eq[0]]) == st0;
    assert AtText(host, vars, eq, 0, st0) == Group(host, vars, eq, 0, st0);
  }

  /** A bare bracket calls no function. */
  lemma NoFunctionName()
    ensures CalledName("(") == ""
  {
    CalledNameTrimmed("(");
    assert |Trim("(")| <= 1;
  }

  lemma LeadingGroupValue(host: Host, vars: map<string, Complex>, eq: string)
    requires host.parseReal("1") == Some(1.0)
    requires |eq| >= 4 && eq[0] == '(' && eq[1] == '1' && eq[2] == ')'
    ensures GroupValue(host, vars, eq, 0, "", false) == Ok((2, Complex(1.0, 0.0)))
  {
    LeadingGroupText(eq);
    SingleLiteral(host, vars);
    GroupEvaluates(host, vars, eq, 0, "", false);
  }

  lemma LeadingGroupText(eq: string)
    requires |eq| >= 4 && eq[0] == '(' && eq[1] == '1' && eq[2] == ')'
    ensures FindClose(eq, 1, 0) == Ok(2) && eq[1..2] == "1"
  {
    assert FindClose(eq, 2, 0) == Ok(2);
  }

  /** The character after a `)` is taken as an operator without a check and skipped, so
      a blank there turns the operator that follows into one with no operand before it. */
  lemma BlankAfterGroup(host: Host, vars: map<string, Complex>)
    requires host.parseReal("1") == Some(1.0)
    ensures Eval(host, vars, "(1) /2") == Err(InvalidEquation)
  {
    var eq := "(1) /2";
    LeadingGroup(host, vars, eq);
    var st := ScanState([Complex(1.0, 0.0)], [' '], [], false);
    ScanFromStep(host, vars, eq, 0, Initial);
    assert Trim([]) == [];
    assert AtTerminal(host, vars, st, '/') == Err(InvalidEquation);
    assert Step(host, vars, eq, 4, st) == Err(InvalidEquation);
    ScanFromStep(host, vars, eq, 4, st);
  }

  /** A `(` right after a group is recorded as an operator that no tier ever consumes, and
      the value is that of the group. */
  lemma BracketAfterGroup(host: Host, vars: map<string, Complex>)
    requires host.parseReal("1") == Some(1.0)
    ensures Eval(host, vars, "(1)(") == Ok(Complex(1.0, 0.0))
  {
    var one := Complex(1.0, 0.0);
    BracketAfterGroupScan(host, vars);
    assert !IsTerminal('(');
    ReducedTakesFirst(host.math, [one], ['(']);
  }

  lemma BracketAfterGroupScan(host: Host, vars: map<string, Complex>)
    requires host.parseReal("1") == Some(1.0)
    ensures ScanFrom(host, vars, "(1)(", 0, Initial) == Ok(ScanState([Complex(1.0, 0.0)], ['('], [], false))
  {
    var eq := "(1)(";
    LeadingGroup(host, vars, eq);
    ScanFromStep(host, vars, eq, 0, Initial);
  }
}
