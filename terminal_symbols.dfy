/**
 * The terminal symbols of the evaluator. The same list serves twice: a character is a
 * token boundary exactly when it is in the list, and the reduction visits the operators
 * tier by tier in the list's order, which is decreasing precedence.
 */
module TerminalSymbols {

  /** Power, division, multiplication, subtraction, addition. */
  const Terminals: seq<char> := ['^', '/', '*', '-', '+']

  /** A token boundary: a character of the list. */
  predicate IsTerminal(c: char)
  {
    c in Terminals
  }

  /** The position of a terminal in the list: its reduction tier, 0 binding tightest. */
  function Rank(c: char): (k: nat)
    requires IsTerminal(c)
    ensures k < |Terminals| && Terminals[k] == c
    ensures forall j :: 0 <= j < |Terminals| && Terminals[j] == c ==> j == k
  {
    if c == '^' then 0
    else if c == '/' then 1
    else if c == '*' then 2
    else if c == '-' then 3
    else 4
  }

  /** Exactly the five operator characters, each once. */
  lemma TerminalsExact(c: char)
    ensures IsTerminal(c) <==> c == '^' || c == '/' || c == '*' || c == '-' || c == '+'
    ensures |Terminals| == 5
    ensures forall i, j :: 0 <= i < j < |Terminals| ==> Terminals[i] != Terminals[j]
  {
  }

  /** Power is reduced first and addition last; division precedes multiplication and
      subtraction precedes addition. */
  lemma PrecedenceOrder()
    ensures Rank('^') == 0 && Rank('+') == |Terminals| - 1
    ensures Rank('^') < Rank('/') < Rank('*') < Rank('-') < Rank('+')
  {
  }
}
