/** Concrete TM-1 rules: what a state holds after expansion, and how a state picks a rule. */
module TmRules {
  import opened Options

  datatype Cell = Wild | Sym(s: nat)

  datatype WriteOut = Keep | Put(s: nat)

  datatype Move = Left | Right | Stay

  /** Where a call resumes. */
  datatype Continuation = ToState(name: string) | ByReturn | ByStop | ByHalt

  /** Where control goes; the two traps are the ones a holey graft binding produces.  A call
      keeps its binding as an opaque tag. */
  datatype Transition =
    | Goto(name: string)
    | Call(target: string, tag: nat, resume: Continuation)
    | Return
    | Stop
    | Halt
    | TrapRead
    | TrapWrite

  datatype Rule = Rule(
    pattern: seq<Cell>, debugger: bool, write: seq<WriteOut>, moves: seq<Move>,
    transition: Transition, line: nat)

  predicate CellMatches(c: Cell, s: nat)
  {
    c == Wild || c == Sym(s)
  }

  ghost predicate Matches(pattern: seq<Cell>, tuple: seq<nat>)
  {
    |pattern| == |tuple| && forall k | 0 <= k < |pattern| :: CellMatches(pattern[k], tuple[k])
  }

  /** What running a state on a tuple does: nothing matches, or a row's action is done. */
  datatype Outcome =
    | NoMatch
    | Fired(debugger: bool, write: seq<WriteOut>, moves: seq<Move>, transition: Transition)

  function OutcomeOf(r: Rule): Outcome
  {
    Fired(r.debugger, r.write, r.moves, r.transition)
  }

  /** The first rule at or after i that matches. */
  ghost function FirstMatch(rules: seq<Rule>, i: nat, tuple: seq<nat>): (r: Option<nat>)
    requires i <= |rules|
    ensures r.Some? ==> i <= r.value < |rules| && Matches(rules[r.value].pattern, tuple)
    ensures forall k | i <= k < (if r.Some? then r.value else |rules|) :: !Matches(rules[k].pattern, tuple)
    decreases |rules| - i
  {
    if i == |rules| then None
    else if Matches(rules[i].pattern, tuple) then Some(i)
    else FirstMatch(rules, i + 1, tuple)
  }

  /** Source-order first match. */
  ghost function FirstOutcome(rules: seq<Rule>, tuple: seq<nat>): Outcome
  {
    match FirstMatch(rules, 0, tuple)
    case None => NoMatch
    case Some(k) => OutcomeOf(rules[k])
  }

  predicate IsAllWild(pattern: seq<Cell>)
  {
    forall k | 0 <= k < |pattern| :: pattern[k] == Wild
  }

  /** Does the state read its tapes?  A single all-wildcard rule runs without looking. */
  predicate StateReads(rules: seq<Rule>)
  {
    !(|rules| == 1 && IsAllWild(rules[0].pattern))
  }
}
