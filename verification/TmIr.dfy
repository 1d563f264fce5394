/** The TM-1 intermediate representation: per-world state graphs of concrete match rows, the
    validator, and what a world does. */
module TmIr {
  import opened Options
  import opened Simulation
  import opened TmMachine
  import R = TmRules
  import B = TmBands

  datatype MapPair = MapPair(src: nat, dst: nat, oneWay: bool)

  datatype TapeBinding = TapeBinding(callerTape: nat, pairs: seq<MapPair>)

  datatype Then = ThenGoto(state: nat) | ThenReturn | ThenStop | ThenHalt

  datatype Transition =
    | Goto(state: nat)
    | CallThen(target: string, binding: seq<TapeBinding>, resume: Then)
    | Return
    | Stop
    | Halt
    | TailCall(target: string)
    | TrapRead
    | TrapWrite

  /** `direct` lets the dispatch table name the destination state itself. */
  datatype IrRule = IrRule(
    pattern: seq<R.Cell>, write: Option<seq<R.WriteOut>>, moves: Option<seq<R.Move>>, debugger: bool,
    transition: Transition, synthesized: bool, direct: bool, line: nat)

  datatype Dispatch = Table | Branch

  datatype IrState = IrState(id: nat, name: string, line: nat, rules: seq<IrRule>, dispatch: Dispatch)

  datatype IrWorld = IrWorld(
    name: string, arity: nat, cards: seq<nat>, entry: nat, states: seq<IrState>, local: bool, line: nat)

  // ----- validation -----

  predicate CellsFit(w: IrWorld, pattern: seq<R.Cell>)
    requires |w.cards| == w.arity
  {
    |pattern| == w.arity && forall k | 0 <= k < |pattern| && pattern[k].Sym? :: pattern[k].s < w.cards[k]
  }

  predicate WriteFits(w: IrWorld, write: seq<R.WriteOut>)
    requires |w.cards| == w.arity
  {
    |write| == w.arity && forall k | 0 <= k < |write| && write[k].Put? :: write[k].s < w.cards[k]
  }

  predicate IsBare(r: IrRule)
  {
    r.write.None? && r.moves.None? && !r.debugger && r.transition.Goto?
  }

  predicate BindingFits(w: IrWorld, binding: seq<TapeBinding>)
    requires |w.cards| == w.arity
  {
    forall k | 0 <= k < |binding| ::
      binding[k].callerTape < w.arity
      && forall j | 0 <= j < |binding[k].pairs| :: binding[k].pairs[j].src < w.cards[binding[k].callerTape]
  }

  predicate TransitionFits(w: IrWorld, t: Transition)
    requires |w.cards| == w.arity
  {
    match t
    case Goto(s) => s < |w.states|
    case CallThen(_, binding, resume) =>
      (resume.ThenGoto? ==> resume.state < |w.states|) && BindingFits(w, binding)
    case _ => true
  }

  predicate RuleFits(w: IrWorld, r: IrRule)
    requires |w.cards| == w.arity
  {
    && CellsFit(w, r.pattern)
    && (r.write.Some? ==> WriteFits(w, r.write.value))
    && (r.moves.Some? ==> |r.moves.value| == w.arity)
    && (r.transition.TrapRead? || r.transition.TrapWrite? ==> r.synthesized)
    && (r.direct ==> IsBare(r))
    && TransitionFits(w, r.transition)
  }

  ghost predicate ValidWorld(w: IrWorld)
    requires |w.cards| == w.arity
  {
    && w.entry < |w.states|
    && (forall i | 0 <= i < |w.states| :: w.states[i].id == i)
    && (forall i, k | 0 <= i < |w.states| && 0 <= k < |w.states[i].rules| :: RuleFits(w, w.states[i].rules[k]))
  }

  method ValidateWorld(w: IrWorld) returns (ok: bool)
    requires |w.cards| == w.arity
    ensures ok <==> ValidWorld(w)
  {
    hide RuleFits;
    if w.states == [] {
      return false;
    }
    var ids: set<nat> := {};
    for i := 0 to |w.states|
      invariant forall j | 0 <= j < i :: w.states[j].id == j
      invariant forall d | d in ids :: d < i
    {
      if w.states[i].id != i || w.states[i].id in ids {
        return false;
      }
      ids := ids + {i};
    }
    if w.entry >= |w.states| {
      return false;
    }
    for i := 0 to |w.states|
      invariant forall j, k | 0 <= j < i && 0 <= k < |w.states[j].rules| :: RuleFits(w, w.states[j].rules[k])
    {
      var rules := w.states[i].rules;
      for k := 0 to |rules|
        invariant forall m | 0 <= m < k :: RuleFits(w, rules[m])
      {
        if !RuleFits(w, rules[k]) {
          return false;
        }
      }
    }
    ok := true;
  }

  // ----- what a world does -----

  /** A rule as a match row. */
  function RowOf(r: IrRule): R.Rule
  {
    R.Rule(r.pattern, r.debugger, [], [], R.Return, r.line)
  }

  function Rows(rules: seq<IrRule>): (rows: seq<R.Rule>)
    ensures |rows| == |rules|
    ensures forall k | 0 <= k < |rules| :: rows[k] == RowOf(rules[k])
  {
    seq(|rules|, (k: nat) requires k < |rules| => RowOf(rules[k]))
  }

  /** What a called routine does to the data before it comes back, if it does; the registers it
      leaves behind are its own. */
  datatype CallResult = Comes(data: Data, mr: nat, tuple: seq<nat>) | Ends(ending: Ending)

  type Callee = (string, seq<TapeBinding>, Data) -> CallResult

  datatype State = State(at: nat, data: Data)

  predicate IsStraight(rules: seq<IrRule>)
  {
    |rules| == 1 && R.IsAllWild(rules[0].pattern)
  }

  /** The data after a rule's own action. */
  function Action(r: IrRule, strip: bool, d: Data): Data
  {
    var paused := if r.debugger then Pause(d, strip) else d;
    if r.write.None? && r.moves.None? then paused
    else WriteMove(paused, if r.write.Some? then r.write.value else [], if r.moves.Some? then r.moves.value else [])
  }

  function Resume(t: Then, d: Data): Step<State, Ending>
  {
    match t
    case ThenGoto(s) => Next(State(s, d))
    case ThenReturn => Done(Returned(d))
    case ThenStop => Done(Stopped(d))
    case ThenHalt => Done(Halted(d))
  }

  function Transfer(t: Transition, callee: Callee, d: Data): Step<State, Ending>
  {
    match t
    case Goto(s) => Next(State(s, d))
    case CallThen(target, binding, resume) =>
      (match callee(target, binding, d)
       case Comes(d', _, _) => Resume(resume, d')
       case Ends(e) => Done(e))
    case Return => Done(Returned(d))
    case Stop => Done(Stopped(d))
    case Halt => Done(Halted(d))
    case TailCall(target) => Done(LeftFor(target, d))
    case TrapRead => Done(Trapped(UnmappedRead, d))
    case TrapWrite => Done(Trapped(UnmappedWrite, d))
  }

  function Fire(r: IrRule, strip: bool, callee: Callee, d: Data): Step<State, Ending>
  {
    Transfer(r.transition, callee, Action(r, strip, d))
  }

  /** One step of a world: the matching exact row, else the first partial one, else the first
      catch-all; without one, a trap. */
  ghost function WorldStep(w: IrWorld, strip: bool, callee: Callee, s: State): Step<State, Ending>
  {
    if s.at >= |w.states| then Done(Wrong)
    else
      var rules := w.states[s.at].rules;
      match B.BandPick(Rows(rules), Read(s.data))
      case None => Done(Trapped(NoTransition, s.data))
      case Some(k) => Fire(rules[k], strip, callee, s.data)
  }

  ghost function WorldStepper(w: IrWorld, strip: bool, callee: Callee): State -> Step<State, Ending>
  {
    (s: State) => WorldStep(w, strip, callee, s)
  }
}
