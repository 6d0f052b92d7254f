# Expression-Evaluator in Dafny

A model of the Java expression evaluator `ExpressionEvaluator`.
- It evaluates an infix equation over complex numbers, such as `x^4+x^3+x^2+x+1` or `sin(2*x)-2*sin(x)*cos(x)`.
- It evaluates against a table of named variables.
- It returns a `Complex` value, or a string rendered at a given precision.

The evaluator (`complexEvaluator`) works in two phases:

1. **The scan.** One left-to-right loop over the characters builds two lists, operands and operators. It also keeps a pending-text buffer and a unary-minus flag.
   - A terminal symbol (`^ / * - +`) ends the pending text: non-blank text is read as an operand (`getOperand`) and the symbol is pushed as an operator.
   - A `-` with no text before it sets the minus flag instead.
   - A `(` starts a group. The text up to the matching `)` is evaluated recursively, negated when the flag is set, and passed to the function named before the bracket (none, `sin`, `cos`, `tan` or `log`).
   - The character right after that `)` is recorded as an operator without any check, and then skipped.
   - At the last character, pending text becomes the final operand.
2. **The precedence reduction.** For each terminal symbol in the order `^ / * - +`, the leftmost occurrence is repeatedly combined with its two neighbouring operands (`compute`) until none is left. The answer is the first remaining operand.

The model, file by file:

- `complex.dfy` (module `ComplexNumbers`): the immutable `Complex` record over exact reals, with its rectangular algebra and the laws it satisfies. The transcendental operations are uninterpreted fields of a `Transcendental` value.
- `terminal_symbols.dfy` (module `TerminalSymbols`): the terminal symbols list and its precedence order.
- `operands.dfy` (module `Operands`):
  - `String.trim`;
  - `getOperand`, as `Operand`;
  - `compute`, as `Compute`;
  - the platform routines as a `Host` value.
- `reduction.dfy` (module `Reduction`):
  - the precedence reduction, specified by `Pass`, `Tiers` and `Reduced`;
  - the loop `ReduceOperators`, proved to compute `Reduced`;
  - the lemmas on what the passes remove, on precedence and on when the reduction succeeds.
- `scanner.dfy` (module `Scanner`):
  - the scan as functions: `Step` is one turn of the `for` loop, `ScanFrom` is the rest of the loop, and `Eval` is the whole evaluation, including the recursion into groups;
  - the bracket matcher `FindClose` and its characterisation;
  - lemmas on the shape of the lists the scan leaves behind.
- `expression_evaluator.dfy` (module `Evaluator`): the class `ExpressionEvaluator`, whose variable table is a field updated in place.
  - `ComplexEvaluator` is the scanning loop, proved to return exactly `Scanner.Eval`. One loop turn is split over the helper methods `ScanStep`, `ScanTerminal`, `ScanText`, `ScanLast` and `OpenGroup`.
  - `EvaluateGroup` has the inner bracket-matching loop, proved to agree with `Scanner.GroupValue`.
  - `EvaluateEquation` formats the result.
- `behaviour.dfy` (module `Behaviour`): concrete consequences of the code as written.
- `outcomes.dfy` (module `Outcomes`): `Option`, `Result`, and one `Error` case per exception the evaluator can raise.

### Two behaviours of the code as written

The unchecked character after `)` has visible consequences:
- `"(1)("` evaluates to 1: the `(` becomes an operator that no tier consumes.
- `"(1) /2"` is an invalid equation: the blank becomes the operator and is skipped, so `/` arrives with no operand before it.
- The test input `2 + (  log(5) -   log(3)  )    /  log(4)` in `src/test/MainTest.java:132` has blanks after its brackets. So, as written, `evaluateEquation` ends that input with "Invalid equation", while the test expects a number.
- `"(2+3"` runs past the end of the text in the bracket scan. Java raises a `StringIndexOutOfBoundsException` there, not the "Invalid parenthesis sequence" message the test at `src/test/MainTest.java:140-142` checks for. The model reports it as `UnbalancedParenthesis`.

## Model

| member | source | states |
|---|---|---|
| `ComplexNumbers.Add` | src/main/complex/Complex.java:17-19 | the sum minus the addend gives back each component of the other operand |
| `ComplexNumbers.Subtract` | src/main/complex/Complex.java:26-28 | the difference plus the subtrahend gives back each component of the minuend |
| `ComplexNumbers.AddCommutes` | src/main/complex/Complex.java:17-19 | addition is commutative |
| `ComplexNumbers.AddThenSubtract` | src/main/complex/Complex.java:17-28 | subtracting what was added gives back the original value |
| `ComplexNumbers.MultiplyIdentities` | src/main/complex/Complex.java:35-38 | one is the identity of the product and zero absorbs it; on the real axis the product is the real product |
| `ComplexNumbers.MultiplyCommutes` | src/main/complex/Complex.java:35-38 | the complex product is commutative |
| `ComplexNumbers.Divide` | src/main/complex/Complex.java:45-49 | for a nonzero divisor: zero divided by it is zero, and dividing by one is the identity |
| `ComplexNumbers.DivideThenMultiply` | src/main/complex/Complex.java:45-49 | for a nonzero divisor, the quotient times the divisor is the dividend |
| `ComplexNumbers.MultiplyThenDivide` | src/main/complex/Complex.java:35-49 | multiplying by a nonzero value and dividing by it again is the identity |
| `ComplexNumbers.NormSquaredNonzero` | src/main/complex/Complex.java:46 | the denominator of `divide` is nonzero for every nonzero divisor |
| `ComplexNumbers.Conjugate` | src/main/complex/Complex.java:69-71 | a value times its conjugate is its squared modulus, on the real axis |
| `ComplexNumbers.ConjugateInvolution` | src/main/complex/Complex.java:69-71 | conjugating twice is the identity |
| `ComplexNumbers.Pow` | src/main/complex/Complex.java:85-91 | exponent zero gives one; a real exponent goes through the real-power routine; any other exponent gives `exp(log(z) * w)` |
| `ComplexNumbers.PowZeroExponent` | src/main/complex/Complex.java:86-87 | every base, zero included, to the power zero is one |
| `ComplexNumbers.Reciprocal` | src/main/complex/Complex.java:96-99 | for a nonzero value, `reciprocal` equals one divided by it |
| `ComplexNumbers.ReciprocalInverts` | src/main/complex/Complex.java:96-99 | a nonzero value times its reciprocal is one |
| `ComplexNumbers.ScaleIsMultiply` | src/main/complex/Complex.java:135-137 | `multiply(double)` is the complex product with a value on the real axis |
| `ComplexNumbers.ScaleByOne` | src/main/complex/Complex.java:135-137 | scaling by 1.0, as applied to a group without the minus flag, changes nothing |
| `ComplexNumbers.ScaleByMinusOne` | src/main/complex/Complex.java:135-137 | scaling by -1.0 negates both parts, so the value plus its scaled copy is zero |
| `TerminalSymbols.Rank` | src/main/evaluator/Evaluator.java:15-18 | every terminal has exactly one position in the list, which is its reduction tier |
| `TerminalSymbols.TerminalsExact` | src/main/evaluator/Evaluator.java:15-18 | the terminals are exactly `^ / * - +`, five distinct characters |
| `TerminalSymbols.PrecedenceOrder` | src/main/evaluator/Evaluator.java:15-18 | the list order is `^` before `/` before `*` before `-` before `+` |
| `Operands.TrimStart` | src/main/evaluator/ExpressionEvaluator.java:132 | the result is a suffix of the text, does not start with whitespace, and every character dropped before it is whitespace |
| `Operands.TrimEnd` | src/main/evaluator/ExpressionEvaluator.java:132 | the result is a prefix of the text, does not end with whitespace, and every character dropped after it is whitespace |
| `Operands.Trim` | src/main/evaluator/ExpressionEvaluator.java:132 | the trimmed text is no longer than the input, and is empty or starts and ends with a non-blank character |
| `Operands.TrimRemovesBlanks` | src/main/evaluator/ExpressionEvaluator.java:132 | the trimmed text is a contiguous slice of the input, and only whitespace lies before and after it |
| `Operands.TrimEmpty` | src/main/evaluator/ExpressionEvaluator.java:132-134 | text trims to nothing exactly when every character is whitespace |
| `Operands.TrimKeepsLast` | src/main/evaluator/ExpressionEvaluator.java:159-160 | a non-blank last character survives trimming as the last character |
| `Operands.Signed` | src/main/evaluator/ExpressionEvaluator.java:135-137 | with the minus flag set, the pushed operand is the additive inverse of the value read; otherwise it is the value itself |
| `Operands.Operand` | src/main/evaluator/ExpressionEvaluator.java:95-113 | the only failures are "Symbol not found", and only for a token absent from the table, or a number-format error for the text before a trailing `i` |
| `Operands.OperandLiterals` | src/main/evaluator/ExpressionEvaluator.java:96-107 | empty text is zero; `pi`, `e`, `i`, `pii` and `ei` are their constants; any other text ending in `i` is the imaginary number read from the text before the `i`, or a number-format error; a real literal is that real number |
| `Operands.OperandIgnoresTable` | src/main/evaluator/ExpressionEvaluator.java:96-107 | empty text, `pi`, `e`, imaginary literals and real literals read the same whatever the table holds, so constants shadow variables |
| `Operands.OperandLooksUpName` | src/main/evaluator/ExpressionEvaluator.java:106-112 | any other token is its binding in the table, or "Symbol not found" when it has none |
| `Operands.Compute` | src/main/evaluator/ExpressionEvaluator.java:75-88 | fails exactly on `/` by zero (division by zero) or on a non-terminal (invalid operator) |
| `Operands.ComputeApplies` | src/main/evaluator/ExpressionEvaluator.java:80-85 | `+` adds, `-` subtracts, `*` multiplies, `/` divides by a nonzero divisor, and `^` raises to a power |
| `Operands.ComputeDivisionInverts` | src/main/evaluator/ExpressionEvaluator.java:78-84 | an accepted quotient, multiplied back through `compute`, gives the dividend |
| `Operands.ComputeSubtractionInverts` | src/main/evaluator/ExpressionEvaluator.java:81-82 | `compute` with `-` undoes `compute` with `+` |
| `Reduction.IndexOf` | src/main/evaluator/ExpressionEvaluator.java:202 | `indexOf` finds the leftmost occurrence of the symbol |
| `Reduction.Without` | src/main/evaluator/ExpressionEvaluator.java:201-209 | removing a symbol leaves none of it, and adds nothing |
| `Reduction.WithoutAll` | src/main/evaluator/ExpressionEvaluator.java:200-210 | removing a list of symbols leaves none of them, and nothing at all when every operator is among them |
| `Reduction.Collapse` | src/main/evaluator/ExpressionEvaluator.java:203-208 | one step replaces the left operand by the result and drops the right operand and the operator, keeping everything else in order |
| `Reduction.Pass` | src/main/evaluator/ExpressionEvaluator.java:201-209 | a pass for a terminal symbol never fails with an invalid operator |
| `Reduction.Tiers` | src/main/evaluator/ExpressionEvaluator.java:200-210 | passes for terminal symbols never fail with an invalid operator |
| `Reduction.PassRemovesSymbol` | src/main/evaluator/ExpressionEvaluator.java:201-209 | a successful pass removes exactly the symbol's occurrences, keeps the other operators in order, and keeps the operand/operator length difference |
| `Reduction.PassWellFormed` | src/main/evaluator/ExpressionEvaluator.java:201-209 | with one more operand than operators, a pass can only fail with division by zero |
| `Reduction.TiersRemoveSymbols` | src/main/evaluator/ExpressionEvaluator.java:200-210 | after the tiers for some symbols, those symbols are gone and the other operators remain in order |
| `Reduction.TiersWellFormed` | src/main/evaluator/ExpressionEvaluator.java:200-210 | with one more operand than operators, the tiers can only fail with division by zero |
| `Reduction.TiersCompose` | src/main/evaluator/ExpressionEvaluator.java:200-210 | the tiers run one after the other |
| `Reduction.PrecedenceOfTiers` | src/main/evaluator/Evaluator.java:15-18 | tier k starts only after every terminal of smaller rank has been removed |
| `Reduction.ReducedWellFormed` | src/main/evaluator/ExpressionEvaluator.java:200-212 | lists with one more operand than operators reduce to a value, unless a division by zero occurs |
| `Reduction.TiersAbsent` | src/main/evaluator/ExpressionEvaluator.java:201 | passes for symbols that do not occur change nothing |
| `Reduction.ReducedShort` | src/main/evaluator/ExpressionEvaluator.java:200-212 | lists of equal length with only terminal operators never reduce to a value |
| `Reduction.ReducedTakesFirst` | src/main/evaluator/ExpressionEvaluator.java:200-212 | when no operator is a terminal, no tier changes the lists, and the result is `getFirst`: the first operand, or no such element for an empty list |
| `Reduction.ReduceOperators` | src/main/evaluator/ExpressionEvaluator.java:200-212 | the reduction loop returns exactly the outcome of the specified tiers and `getFirst` |
| `Scanner.FindClose` | src/main/evaluator/ExpressionEvaluator.java:157-168 | a found position holds a `)`; running past the end of the text is the unbalanced-parenthesis error |
| `Scanner.FindCloseFirst` | src/main/evaluator/ExpressionEvaluator.java:157-168 | the bracket scan returns the first `)` at depth zero, and fails exactly when there is none |
| `Scanner.Apply` | src/main/evaluator/ExpressionEvaluator.java:171-191 | succeeds exactly for no name, `sin`, `cos`, `log`, or `tan` with a nonzero cosine; any other name is "Function not supported" |
| `Scanner.ApplyValues` | src/main/evaluator/ExpressionEvaluator.java:173-189 | no name passes the value through; `sin`, `cos` and `log` apply the sine, the cosine and the natural logarithm |
| `Scanner.TangentTimesCosine` | src/main/evaluator/ExpressionEvaluator.java:183-185 | the `tan` of a group times its cosine is its sine |
| `Scanner.PushOperand` | src/main/evaluator/ExpressionEvaluator.java:134-139 | pushing succeeds exactly when the token reads as an operand; it appends that operand, negated when the minus flag is set, clears the flag, and changes nothing else |
| `Scanner.Step` | src/main/evaluator/ExpressionEvaluator.java:128-198 | each turn advances the position; while both lists have equal length, the lists keep the scan shape; a turn never fails with an invalid operator |
| `Scanner.AtTerminal` | src/main/evaluator/ExpressionEvaluator.java:131-146 | with pending text: one operand and the symbol are pushed, and the buffer and flag are cleared; with none: only `-` succeeds, setting the flag, and anything else is "Invalid equation" |
| `Scanner.AtText` | src/main/evaluator/ExpressionEvaluator.java:146-156 | a non-terminal character advances the scan and keeps the list shape |
| `Scanner.AtLast` | src/main/evaluator/ExpressionEvaluator.java:147-154 | at the last character, blank text changes nothing; otherwise one final operand is pushed and the operators are untouched |
| `Scanner.Group` | src/main/evaluator/ExpressionEvaluator.java:156-197 | a group pushes one operand after the existing ones and records the character after its `)`, whatever it is, as an operator; the buffer and flag are cleared |
| `Scanner.GroupValue` | src/main/evaluator/ExpressionEvaluator.java:157-191 | the closing position lies after the `(`, inside the text, and holds a `)` |
| `Scanner.GroupEvaluates` | src/main/evaluator/ExpressionEvaluator.java:157-191 | an unmatched `(` is an unbalanced-parenthesis error; otherwise the value is the function applied to the recursive evaluation of the text between the brackets, negated under the minus flag, and an error of that evaluation or of the function is the group's error |
| `Scanner.GroupOutcome` | src/main/evaluator/ExpressionEvaluator.java:192-196 | a group's error is the scan's error; on success, the scan resumes two past the `)` |
| `Scanner.AfterGroup` | src/main/evaluator/ExpressionEvaluator.java:192-196 | after a group: its value is appended, the next character is recorded as an operator if there is one, and the buffer and flag are reset |
| `Scanner.CalledNameTrimmed` | src/main/evaluator/ExpressionEvaluator.java:159-160 | the function name and the bracket together make up the trimmed buffer |
| `Scanner.ScanFrom` | src/main/evaluator/ExpressionEvaluator.java:128-198 | the scan never fails with an invalid operator |
| `Scanner.Eval` | src/main/evaluator/ExpressionEvaluator.java:121-213 | the "Invalid operator" branch of `compute` is unreachable from `complexEvaluator` |
| `Scanner.ScanFromStep` | src/main/evaluator/ExpressionEvaluator.java:128-198 | a scan is its first step followed by the rest, and a failing step ends it |
| `Scanner.UnclosedGroup` | src/main/evaluator/ExpressionEvaluator.java:163-168 | a `(` that is never closed is an error, never a value |
| `Scanner.GroupIsBalanced` | src/main/evaluator/ExpressionEvaluator.java:157-171 | the recursive call gets exactly the balanced text inside the brackets, which is shorter than the equation, and no prefix of it closes more brackets than it opens |
| `Scanner.ScanShape` | src/main/evaluator/ExpressionEvaluator.java:128-198 | every successful scan leaves as many operands as operators, or one more |
| `Scanner.EvalAfterScan` | src/main/evaluator/ExpressionEvaluator.java:121-212 | after a successful scan with one more operand, evaluation yields a value unless a division by zero occurs; with equal lengths and only terminal operators, it always fails |
| `Evaluator.ExpressionEvaluator.constructor` | src/main/evaluator/ExpressionEvaluator.java:19-21 | a new evaluator has an empty table |
| `Evaluator.ExpressionEvaluator.WithVariables` | src/main/evaluator/ExpressionEvaluator.java:25-27 | the evaluator starts from the given table |
| `Evaluator.ExpressionEvaluator.SetVariables` | src/main/evaluator/ExpressionEvaluator.java:48-50 | the table is replaced as a whole |
| `Evaluator.ExpressionEvaluator.SetVariable` | src/main/evaluator/ExpressionEvaluator.java:33-35 | the name is bound to the value and every other binding is unchanged |
| `Evaluator.ExpressionEvaluator.SetRealVariable` | src/main/evaluator/ExpressionEvaluator.java:41-43 | the name is bound to the real value with a zero imaginary part, and every other binding is unchanged |
| `Evaluator.ExpressionEvaluator.GetVariable` | src/main/evaluator/ExpressionEvaluator.java:56-58 | a value exactly when the name is bound, and then the bound value |
| `Evaluator.ExpressionEvaluator.RemoveVariable` | src/main/evaluator/ExpressionEvaluator.java:63-65 | the name is unbound afterwards and every other binding is unchanged |
| `Evaluator.ExpressionEvaluator.ComplexEvaluator` | src/main/evaluator/ExpressionEvaluator.java:121-213 | the scanning loop followed by the reduction returns exactly `Eval` of the equation with the current table |
| `Evaluator.ExpressionEvaluator.ScanStep` | src/main/evaluator/ExpressionEvaluator.java:129-198 | one loop turn computes exactly `Step` |
| `Evaluator.ExpressionEvaluator.ScanTerminal` | src/main/evaluator/ExpressionEvaluator.java:131-146 | the terminal-symbol branch computes exactly `AtTerminal` |
| `Evaluator.ExpressionEvaluator.ScanText` | src/main/evaluator/ExpressionEvaluator.java:146-197 | the other-character branch computes exactly `AtText` |
| `Evaluator.ExpressionEvaluator.ScanLast` | src/main/evaluator/ExpressionEvaluator.java:147-154 | the last-character branch computes exactly `AtLast` |
| `Evaluator.ExpressionEvaluator.OpenGroup` | src/main/evaluator/ExpressionEvaluator.java:156-197 | the `(` branch computes exactly `Group` |
| `Evaluator.ExpressionEvaluator.EvaluateGroup` | src/main/evaluator/ExpressionEvaluator.java:157-191 | the bracket-counting loop and the function switch compute exactly `GroupValue` |
| `Evaluator.ExpressionEvaluator.EvaluateEquation` | src/main/evaluator/ExpressionEvaluator.java:222-224 | the formatted value of `Eval`, or its error |
| `Evaluator.Lookup` | src/main/evaluator/ExpressionEvaluator.java:56-58 | `Map.get`: a value exactly for a bound name, and then that name's value |
| `Behaviour.EmptyEquation` | src/main/evaluator/ExpressionEvaluator.java:212 | an empty equation fails with no such element |
| `Behaviour.SingleLiteral` | src/main/evaluator/ExpressionEvaluator.java:147-154 | a lone literal evaluates to itself |
| `Behaviour.LeadingGroup` | src/main/evaluator/ExpressionEvaluator.java:192-194 | after a leading `(1)`, the next character, whatever it is, is the first operator, and the scan resumes after it |
| `Behaviour.BlankAfterGroup` | src/main/evaluator/ExpressionEvaluator.java:140-142 | `(1) /2` is an invalid equation |
| `Behaviour.BracketAfterGroup` | src/main/evaluator/ExpressionEvaluator.java:192-194 | `(1)(` evaluates to 1 |

## Left out

- Verbose tracing: the `verbose` flag only prints to standard output, so it is left out.
- Platform routines: `Double.parseDouble`, `String.format` / `toString(precision)` and the `Math` functions are parameters of the model. They appear as the `Host` and `Transcendental` values, uninterpreted beyond their types.
  - As a result, `pow(double)`, `exp`, `sin`, `cos`, `log`, `mod` and `arg` in `Complex.java` are not modelled beyond how they are called.
  - `Math.PI` and `Math.E` are decimal constants.
- Floating point: all arithmetic is on exact reals. Rounding, overflow, NaN and infinities are not modelled.
- `ComplexNumbers.Divide` and `ComplexNumbers.Reciprocal` require a nonzero divisor. Java divides by zero and yields NaN or infinity there. `compute` never reaches that case for `/`.
- `Operands.Compute`: the zero-divisor test is on real equality. Java's record `equals` compares with `Double.compare`, so a divisor of `-0.0` passes the Java test and divides by zero. The model treats it as division by zero.
- `Scanner.Apply`: `tan` with a cosine exactly zero gives NaN or infinity in Java, without any exception. The model reports it as the error `NonFiniteQuotient`.
- Exceptions: their exact Java types are not modelled, only the `Error` case each one corresponds to.
  - An unclosed bracket is `StringIndexOutOfBoundsException` in Java and `UnbalancedParenthesis` in the model.
  - A missing right-hand operand during the reduction is `IndexOutOfBoundsException` in Java and `IndexOutOfBounds` in the model.
- Shared tables: the table passed to the constructor or to `setVariables` is shared with the caller in Java. Its aliasing is not modelled, and neither is the `variables != null` check.
- `ComplexInterface.java` and the JUnit tests are not part of this model.
