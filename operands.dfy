/**
 * The two case analyses the scanner and the reduction call: `getOperand`, which turns a
 * trimmed token into a value, and `compute`, which applies one binary operator. The
 * platform routines they rest on (`Double.parseDouble`, the `Math` functions and the
 * number formatter) come in as the fields of a `Host` value.
 */
module Operands {
  import opened Outcomes
  import opened ComplexNumbers
  import opened TerminalSymbols

  /** What the evaluator takes from its platform. `parseReal` is `Double.parseDouble`,
      `None` standing for its `NumberFormatException`; `format` is `toString(precision)`. */
  datatype Host = Host(
    parseReal: string -> Option<real>,
    math: Transcendental,
    format: (Complex, int) -> string)

  /** Whitespace in the sense of `String.trim`: every character up to the space. */
  predicate IsBlank(c: char)
  {
    c <= ' '
  }

  /** The text without its leading whitespace. */
  function TrimStart(s: string): (r: string)
    ensures |r| <= |s| && r == s[|s| - |r|..]
    ensures forall k :: 0 <= k < |s| - |r| ==> IsBlank(s[k])
    ensures r == [] || !IsBlank(r[0])
  {
    if s != [] && IsBlank(s[0]) then TrimStart(s[1..]) else s
  }

  /** The text without its trailing whitespace. */
  function TrimEnd(s: string): (r: string)
    ensures |r| <= |s| && r == s[..|r|]
    ensures forall k :: |r| <= k < |s| ==> IsBlank(s[k])
    ensures r == [] || !IsBlank(r[|r| - 1])
  {
    if s != [] && IsBlank(s[|s| - 1]) then TrimEnd(s[..|s| - 1]) else s
  }

  /** `String.trim`: the text with its leading and trailing whitespace removed. */
  function Trim(s: string): (r: string)
    ensures |r| <= |s|
    ensures r == [] || (!IsBlank(r[0]) && !IsBlank(r[|r| - 1]))
  {
    TrimEnd(TrimStart(s))
  }

  /** Trimming removes whitespace only: the result is a slice of the text with nothing but
      whitespace before and after it. */
  lemma TrimRemovesBlanks(s: string)
    ensures var a, r := |s| - |TrimStart(s)|, Trim(s);
      a + |r| <= |s| && r == s[a..a + |r|]
      && (forall k :: 0 <= k < a ==> IsBlank(s[k]))
      && (forall k :: a + |r| <= k < |s| ==> IsBlank(s[k]))
  {
    var t := TrimStart(s);
    var r := TrimEnd(t);
    assert Trim(s) == r;
    PrefixOfSuffix(s, t, r);
  }

  /** A prefix `r` of a suffix `t` of `s` is a slice of `s`, and whatever follows `r` in
      `t` follows it in `s`. */
  lemma PrefixOfSuffix(s: string, t: string, r: string)
    requires |t| <= |s| && t == s[|s| - |t|..]
    requires |r| <= |t| && r == t[..|r|]
    requires forall k :: |r| <= k < |t| ==> IsBlank(t[k])
    ensures var a := |s| - |t|; r == s[a..a + |r|]
    ensures forall k :: |s| - |t| + |r| <= k < |s| ==> IsBlank(s[k])
  {
    var a := |s| - |t|;
    assert forall k :: 0 <= k < |r| ==> r[k] == s[a + k];
    assert forall k :: a + |r| <= k < |s| ==> s[k] == t[k - a];
  }

  /** Trimming removes only whitespace: the text trims to nothing exactly when it is all
      whitespace. */
  lemma {:induction false} TrimEmpty(s: string)
    ensures Trim(s) == [] <==> forall k :: 0 <= k < |s| ==> IsBlank(s[k])
    decreases |s|
  {
    if s != [] && IsBlank(s[0]) {
      TrimEmpty(s[1..]);
      assert forall k :: 1 <= k < |s| ==> s[k] == s[1..][k - 1];
    } else if s != [] {
      assert TrimStart(s) == s;
      var t := TrimEnd(s);
      if t == [] {
        TrimEndBlank(s);
      }
    }
  }

  lemma {:induction false} TrimEndBlank(s: string)
    requires TrimEnd(s) == []
    ensures forall k :: 0 <= k < |s| ==> IsBlank(s[k])
    decreases |s|
  {
    if s != [] {
      TrimEndBlank(s[..|s| - 1]);
      assert forall k :: 0 <= k < |s| - 1 ==> s[k] == s[..|s| - 1][k];
    }
  }

  /** A non-blank character appended to a buffer survives trimming as its last character. */
  lemma {:induction false} TrimKeepsLast(s: string, c: char)
    requires !IsBlank(c)
    ensures Trim(s + [c]) != [] && Trim(s + [c])[|Trim(s + [c])| - 1] == c
  {
    TrimStartKeepsLast(s, c);
    var t := TrimStart(s + [c]);
    assert TrimEnd(t) == t;
  }

  lemma {:induction false} TrimStartKeepsLast(s: string, c: char)
    requires !IsBlank(c)
    ensures TrimStart(s + [c]) != [] && TrimStart(s + [c])[|TrimStart(s + [c])| - 1] == c
    decreases |s|
  {
    if s != [] {
      assert (s + [c])[0] == s[0] && (s + [c])[1..] == s[1..] + [c];
      TrimStartKeepsLast(s[1..], c);
    }
  }

  /** A value with its sign flipped when the pending unary minus is set. */
  function Signed(z: Complex, negative: bool): (r: Complex)
    ensures negative ==> Add(z, r) == Zero
    ensures !negative ==> r == z
  {
    if negative then Scale(z, -1.0) else z
  }

  /** `getOperand`: empty text, the two named constants, imaginary literals, real
      literals, and only then the variable table. */
  function Operand(parseReal: string -> Option<real>, vars: map<string, Complex>, token: string): (r: Result<Complex>)
    ensures r.Err? ==> r.error == SymbolNotFound(token)
                       || (|token| > 1 && token[|token| - 1] == 'i' && r.error == NumberFormat(token[..|token| - 1]))
    ensures r.Err? && r.error.SymbolNotFound? ==> token !in vars
  {
    if token == "" then Ok(Zero)
    else if token == "pi" then Ok(Complex(Pi, 0.0))
    else if token == "e" then Ok(Complex(E, 0.0))
    else if token[|token| - 1] == 'i' then
      if |token| == 1 then Ok(Complex(0.0, 1.0))
      else
        var t := token[..|token| - 1];
        if t == "pi" then Ok(Complex(0.0, Pi))
        else if t == "e" then Ok(Complex(0.0, E))
        else match parseReal(t)
          case Some(x) => Ok(Complex(0.0, x))
          case None => Err(NumberFormat(t))
    else match parseReal(token)
      case Some(x) => Ok(Complex(x, 0.0))
      case None => if token in vars then Ok(vars[token]) else Err(SymbolNotFound(token))
  }

  /** What each kind of literal reads as: empty text is zero, `pi` and `e` the constants,
      `i`, `pii` and `ei` their imaginary counterparts, any other text ending in `i` the
      parsed imaginary part (or a number-format error), and a parsed number a real value. */
  lemma OperandLiterals(parseReal: string -> Option<real>, vars: map<string, Complex>, token: string)
    ensures token == "" ==> Operand(parseReal, vars, token) == Ok(Zero)
    ensures token == "pi" ==> Operand(parseReal, vars, token) == Ok(Complex(Pi, 0.0))
    ensures token == "e" ==> Operand(parseReal, vars, token) == Ok(Complex(E, 0.0))
    ensures token == "i" ==> Operand(parseReal, vars, token) == Ok(Complex(0.0, 1.0))
    ensures token == "pii" ==> Operand(parseReal, vars, token) == Ok(Complex(0.0, Pi))
    ensures token == "ei" ==> Operand(parseReal, vars, token) == Ok(Complex(0.0, E))
    ensures |token| > 1 && token[|token| - 1] == 'i' && token != "pi" && token != "pii" && token != "ei" ==>
      Operand(parseReal, vars, token)
      == if parseReal(token[..|token| - 1]).Some? then Ok(Complex(0.0, parseReal(token[..|token| - 1]).value))
         else Err(NumberFormat(token[..|token| - 1]))
    ensures token != "pi" && token != "e" && token != [] && token[|token| - 1] != 'i' && parseReal(token).Some? ==>
      Operand(parseReal, vars, token) == Ok(Complex(parseReal(token).value, 0.0))
  {
  }

  /** A token that the table decides: not empty, not a named constant, not an imaginary
      literal and not a real literal. */
  predicate IsName(parseReal: string -> Option<real>, token: string)
  {
    token != "" && token != "pi" && token != "e" && token[|token| - 1] != 'i' && parseReal(token).None?
  }

  /** Every other token is read the same way whatever the table holds; in particular an
      imaginary literal is never looked up and the constants shadow any variable. */
  lemma OperandIgnoresTable(parseReal: string -> Option<real>, vars: map<string, Complex>, other: map<string, Complex>, token: string)
    requires !IsName(parseReal, token)
    ensures Operand(parseReal, vars, token) == Operand(parseReal, other, token)
  {
  }

  /** A name is the table's binding, or "Symbol not found". */
  lemma OperandLooksUpName(parseReal: string -> Option<real>, vars: map<string, Complex>, token: string)
    requires IsName(parseReal, token)
    ensures token in vars ==> Operand(parseReal, vars, token) == Ok(vars[token])
    ensures token !in vars ==> Operand(parseReal, vars, token) == Err(SymbolNotFound(token))
  {
  }

  /** `compute`: a zero divisor is refused before any arithmetic; the five terminals map to
      the five operations; any other character is an invalid operator. */
  function Compute(math: Transcendental, a: Complex, b: Complex, op: char): (r: Result<Complex>)
    ensures r.Err? <==> (op == '/' && b == Zero) || !IsTerminal(op)
    ensures r.Err? ==> r.error == (if IsTerminal(op) then DivisionByZero else InvalidOperator(op))
  {
    if op == '/' && b == Zero then Err(DivisionByZero)
    else match op
      case '+' => Ok(Add(a, b))
      case '-' => Ok(Subtract(a, b))
      case '*' => Ok(Multiply(a, b))
      case '/' => Ok(Divide(a, b))
      case '^' => Ok(Pow(math, a, b))
      case _ => Err(InvalidOperator(op))
  }

  /** Which operation each terminal applies: `+` adds, `-` subtracts, `*` multiplies, `/`
      divides by a nonzero divisor and `^` raises to a power. */
  lemma ComputeApplies(math: Transcendental, a: Complex, b: Complex)
    ensures Compute(math, a, b, '+') == Ok(Add(a, b))
    ensures Compute(math, a, b, '-') == Ok(Subtract(a, b))
    ensures Compute(math, a, b, '*') == Ok(Multiply(a, b))
    ensures b != Zero ==> Compute(math, a, b, '/') == Ok(Divide(a, b))
    ensures Compute(math, a, b, '^') == Ok(Pow(math, a, b))
  {
  }

  /** A quotient that `compute` accepts multiplies back to the dividend. */
  lemma ComputeDivisionInverts(math: Transcendental, a: Complex, b: Complex)
    requires Compute(math, a, b, '/').Ok?
    ensures Compute(math, Compute(math, a, b, '/').value, b, '*') == Ok(a)
  {
    DivideThenMultiply(a, b);
  }

  /** Subtraction undoes addition through `compute`. */
  lemma ComputeSubtractionInverts(math: Transcendental, a: Complex, b: Complex)
    ensures Compute(math, Compute(math, a, b, '+').value, b, '-') == Ok(a)
  {
    AddThenSubtract(a, b);
  }
}
