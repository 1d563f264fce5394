/** From an expanded world to the intermediate representation: state names become dense ids, idle write and
    move vectors are left out, calls get their bindings. */
module TmLowering {
  import opened Options
  import opened Simulation
  import opened TmMachine
  import opened TmRules
  import opened TmBands
  import opened TmBandSplice
  import opened TmGrafts
  import opened TmHygiene
  import opened TmSharing
  import Runs = TmRuns
  import opened TmInside
  import I = TmIr
  import G = TmCodegen

  datatype Error =
    | StateParamContinuation(name: string)
    | UndefinedState(name: string)
    | BindingRefused(target: string)

  datatype Lowered<T> = Fine(value: T) | Refused(error: Error)

  /** The routine a call leads to and its tapes' binding; none where the binding is refused. */
  type Calls = (string, nat) -> Option<(string, seq<I.TapeBinding>)>

  // ----- the lowering -----

  /** A name's id: the last state that has it. */
  function IdOf(states: seq<State>, n: nat, name: string): (r: Option<nat>)
    requires n <= |states|
    ensures r.Some? ==> r.value < n && states[r.value].name == name
    ensures r.None? ==> forall k | 0 <= k < n :: states[k].name != name
  {
    if n == 0 then None else if states[n - 1].name == name then Some(n - 1) else IdOf(states, n - 1, name)
  }

  function StateId(gx: Expansion, params: seq<string>, name: string): Lowered<nat>
  {
    match IdOf(gx.states, |gx.states|, name)
    case Some(i) => Fine(i)
    case None => if name in params then Refused(StateParamContinuation(name)) else Refused(UndefinedState(name))
  }

  function Then(gx: Expansion, params: seq<string>, c: Continuation): Lowered<I.Then>
  {
    match c
    case ToState(name) =>
      (match StateId(gx, params, name)
       case Refused(e) => Refused(e)
       case Fine(i) => Fine(I.ThenGoto(i)))
    case ByReturn => Fine(I.ThenReturn)
    case ByStop => Fine(I.ThenStop)
    case ByHalt => Fine(I.ThenHalt)
  }

  function LowerTransition(gx: Expansion, params: seq<string>, calls: Calls, t: Transition): Lowered<I.Transition>
  {
    match t
    case Goto(name) =>
      (match StateId(gx, params, name)
       case Refused(e) => Refused(e)
       case Fine(i) => Fine(I.Goto(i)))
    case Call(target, tag, resume) =>
      (match calls(target, tag)
       case None => Refused(BindingRefused(target))
       case Some(bound) =>
         (match Then(gx, params, resume)
          case Refused(e) => Refused(e)
          case Fine(after) => Fine(I.CallThen(bound.0, bound.1, after))))
    case Return => Fine(I.Return)
    case Stop => Fine(I.Stop)
    case Halt => Fine(I.Halt)
    case TrapRead => Fine(I.TrapRead)
    case TrapWrite => Fine(I.TrapWrite)
  }

  predicate Idle(write: seq<WriteOut>)
  {
    forall k | 0 <= k < |write| :: write[k] == Keep
  }

  predicate Still(moves: seq<Move>)
  {
    forall k | 0 <= k < |moves| :: moves[k] == Stay
  }

  /** Idle vectors are left out; a trap row is marked as the compiler's own. */
  function LoweredRule(r: Rule, t: I.Transition): I.IrRule
  {
    I.IrRule(r.pattern, if Idle(r.write) then None else Some(r.write), if Still(r.moves) then None else Some(r.moves),
             r.debugger, t, t.TrapRead? || t.TrapWrite?, false, r.line)
  }

  function LowerRule(gx: Expansion, params: seq<string>, calls: Calls, r: Rule): Lowered<I.IrRule>
  {
    match LowerTransition(gx, params, calls, r.transition)
    case Refused(e) => Refused(e)
    case Fine(t) => Fine(LoweredRule(r, t))
  }

  function LowerRules(gx: Expansion, params: seq<string>, calls: Calls, rules: seq<Rule>, n: nat): Lowered<seq<I.IrRule>>
    requires n <= |rules|
  {
    if n == 0 then Fine([])
    else
      match LowerRules(gx, params, calls, rules, n - 1)
      case Refused(e) => Refused(e)
      case Fine(before) =>
        (match LowerRule(gx, params, calls, rules[n - 1])
         case Refused(e) => Refused(e)
         case Fine(r) => Fine(before + [r]))
  }

  function LowerStates(gx: Expansion, params: seq<string>, calls: Calls, n: nat): Lowered<seq<I.IrState>>
    requires n <= |gx.states|
  {
    if n == 0 then Fine([])
    else
      match LowerStates(gx, params, calls, n - 1)
      case Refused(e) => Refused(e)
      case Fine(before) =>
        (match LowerRules(gx, params, calls, gx.states[n - 1].rules, |gx.states[n - 1].rules|)
         case Refused(e) => Refused(e)
         case Fine(rules) =>
           Fine(before + [I.IrState(n - 1, gx.states[n - 1].name, gx.states[n - 1].line, rules, I.Table)]))
  }

  /** What a world keeps of its declaration. */
  datatype Header = Header(name: string, cards: seq<nat>, local: bool, line: nat)

  function LowerWorld(h: Header, gx: Expansion, params: seq<string>, calls: Calls): Lowered<I.IrWorld>
    requires gx.entry in NamesOf(gx.states)
  {
    EntryHasId(gx);
    match LowerStates(gx, params, calls, |gx.states|)
    case Refused(e) => Refused(e)
    case Fine(states) =>
      Fine(I.IrWorld(h.name, |h.cards|, h.cards, IdOf(gx.states, |gx.states|, gx.entry).value, states, h.local, h.line))
  }

  lemma EntryHasId(gx: Expansion)
    requires gx.entry in NamesOf(gx.states)
    ensures IdOf(gx.states, |gx.states|, gx.entry).Some?
  {
    hide IdOf;
    var k := StateOf(gx.states, gx.entry);
  }

  lemma {:induction false} RulesFail(gx: Expansion, params: seq<string>, calls: Calls, rules: seq<Rule>, k: nat, n: nat)
    requires k <= n <= |rules| && LowerRules(gx, params, calls, rules, k).Refused?
    ensures LowerRules(gx, params, calls, rules, n) == LowerRules(gx, params, calls, rules, k)
  {
    hide LowerRule;
    if k < n {
      RulesFail(gx, params, calls, rules, k, n - 1);
    }
  }

  lemma {:induction false} StatesFail(gx: Expansion, params: seq<string>, calls: Calls, k: nat, n: nat)
    requires k <= n <= |gx.states| && LowerStates(gx, params, calls, k).Refused?
    ensures LowerStates(gx, params, calls, n) == LowerStates(gx, params, calls, k)
  {
    hide LowerRules;
    if k < n {
      StatesFail(gx, params, calls, k, n - 1);
    }
  }

  /** What a refusal says: a target that names no state, a state parameter to resume at or go to, or a call
      that cannot be bound. */
  ghost predicate RefusedFor(gx: Expansion, params: seq<string>, calls: Calls, t: Transition, e: Error)
  {
    match e
    case UndefinedState(name) => Names(t) == Some(name) && name !in NamesOf(gx.states) && name !in params
    case StateParamContinuation(name) => Names(t) == Some(name) && name !in NamesOf(gx.states) && name in params
    case BindingRefused(target) => t.Call? && t.target == target && calls(target, t.tag).None?
  }

  lemma TransitionRefused(gx: Expansion, params: seq<string>, calls: Calls, t: Transition)
    ensures var r := LowerTransition(gx, params, calls, t); r.Refused? ==> RefusedFor(gx, params, calls, t, r.error)
  {
    hide IdOf;
    forall name ensures IdOf(gx.states, |gx.states|, name).None? ==> name !in NamesOf(gx.states) {
    }
  }

  lemma {:induction false} RulesRefused(gx: Expansion, params: seq<string>, calls: Calls, rules: seq<Rule>,
                                        n: nat) returns (k: nat)
    requires n <= |rules| && LowerRules(gx, params, calls, rules, n).Refused?
    ensures k < n && RefusedFor(gx, params, calls, rules[k].transition, LowerRules(gx, params, calls, rules, n).error)
    ensures LowerRules(gx, params, calls, rules, k).Fine?
  {
    hide LowerTransition, RefusedFor;
    k := n - 1;
    if LowerRules(gx, params, calls, rules, n - 1).Refused? {
      k := RulesRefused(gx, params, calls, rules, n - 1);
    } else {
      TransitionRefused(gx, params, calls, rules[k].transition);
    }
  }

  /** Lowering is refused for the first rule, in order, that cannot be lowered. */
  lemma {:induction false} StatesRefused(gx: Expansion, params: seq<string>, calls: Calls, n: nat) returns (i: nat, k: nat)
    requires n <= |gx.states| && LowerStates(gx, params, calls, n).Refused?
    ensures i < n && k < |gx.states[i].rules|
    ensures RefusedFor(gx, params, calls, gx.states[i].rules[k].transition, LowerStates(gx, params, calls, n).error)
    ensures LowerStates(gx, params, calls, i).Fine? && LowerRules(gx, params, calls, gx.states[i].rules, k).Fine?
  {
    hide LowerRules, RefusedFor;
    i := n - 1;
    if LowerStates(gx, params, calls, n - 1).Refused? {
      i, k := StatesRefused(gx, params, calls, n - 1);
    } else {
      k := RulesRefused(gx, params, calls, gx.states[i].rules, |gx.states[i].rules|);
    }
  }

  method Lower(h: Header, gx: Expansion, params: seq<string>, calls: Calls) returns (r: Lowered<I.IrWorld>)
    requires gx.entry in NamesOf(gx.states)
    ensures r == LowerWorld(h, gx, params, calls)
  {
    hide LowerRule, IdOf;
    EntryHasId(gx);
    var ids: map<string, nat> := map[];
    NoId(gx.states);
    for i := 0 to |gx.states|
      invariant forall name :: name in ids <==> IdOf(gx.states, i, name).Some?
      invariant forall name | name in ids :: IdOf(gx.states, i, name) == Some(ids[name])
    {
      NextId(gx.states, i, i + 1);
      ids := ids[gx.states[i].name := i];
    }
    var states: seq<I.IrState> := [];
    for i := 0 to |gx.states|
      invariant LowerStates(gx, params, calls, i) == Fine(states)
    {
      var st := gx.states[i];
      var rules: seq<I.IrRule> := [];
      for k := 0 to |st.rules|
        invariant LowerRules(gx, params, calls, st.rules, k) == Fine(rules)
      {
        var t := LowerOne(gx, params, calls, ids, st.rules[k]);
        if t.Refused? {
          RulesFail(gx, params, calls, st.rules, k + 1, |st.rules|);
          StatesFail(gx, params, calls, i + 1, |gx.states|);
          return Refused(t.error);
        }
        rules := rules + [t.value];
      }
      states := states + [I.IrState(i, st.name, st.line, rules, I.Table)];
    }
    r := Fine(I.IrWorld(h.name, |h.cards|, h.cards, ids[gx.entry], states, h.local, h.line));
  }

  lemma NextId(states: seq<State>, i: nat, m: nat)
    requires i < |states| && m == i + 1
    ensures forall name :: IdOf(states, m, name) == if states[i].name == name then Some(i) else IdOf(states, i, name)
  {
    forall name ensures IdOf(states, m, name) == if states[i].name == name then Some(i) else IdOf(states, i, name) {
    }
  }

  lemma NoId(states: seq<State>)
    ensures forall name :: IdOf(states, 0, name) == None
  {
  }

  method LowerOne(gx: Expansion, params: seq<string>, calls: Calls, ids: map<string, nat>,
                  r: Rule) returns (out: Lowered<I.IrRule>)
    requires forall name :: name in ids <==> IdOf(gx.states, |gx.states|, name).Some?
    requires forall name | name in ids :: IdOf(gx.states, |gx.states|, name) == Some(ids[name])
    ensures out == LowerRule(gx, params, calls, r)
  {
    hide IdOf;
    var t: I.Transition;
    match r.transition {
      case Goto(name) =>
        if name !in ids {
          return Refused(if name in params then StateParamContinuation(name) else UndefinedState(name));
        }
        t := I.Goto(ids[name]);
      case Call(target, tag, resume) =>
        var bound := calls(target, tag);
        if bound.None? {
          return Refused(BindingRefused(target));
        }
        var after := I.ThenHalt;
        match resume {
          case ToState(name) =>
            if name !in ids {
              return Refused(if name in params then StateParamContinuation(name) else UndefinedState(name));
            }
            after := I.ThenGoto(ids[name]);
          case ByReturn => after := I.ThenReturn;
          case ByStop => after := I.ThenStop;
          case ByHalt => after := I.ThenHalt;
        }
        t := I.CallThen(bound.value.0, bound.value.1, after);
      case Return => t := I.Return;
      case Stop => t := I.Stop;
      case Halt => t := I.Halt;
      case TrapRead => t := I.TrapRead;
      case TrapWrite => t := I.TrapWrite;
    }
    out := Fine(LoweredRule(r, t));
  }

  // ----- what lowering keeps -----

  lemma {:induction false} RulesAt(gx: Expansion, params: seq<string>, calls: Calls, rules: seq<Rule>, n: nat)
    requires n <= |rules| && LowerRules(gx, params, calls, rules, n).Fine?
    ensures |LowerRules(gx, params, calls, rules, n).value| == n
    ensures forall k | 0 <= k < n :: LowerRule(gx, params, calls, rules[k])
              == Fine(LowerRules(gx, params, calls, rules, n).value[k])
  {
    hide LowerRule;
    if n > 0 {
      RulesAt(gx, params, calls, rules, n - 1);
    }
  }

  lemma {:induction false} StatesAt(gx: Expansion, params: seq<string>, calls: Calls, n: nat)
    requires n <= |gx.states| && LowerStates(gx, params, calls, n).Fine?
    ensures |LowerStates(gx, params, calls, n).value| == n
    ensures forall i | 0 <= i < n ::
              LoweredAs(gx, params, calls, i, LowerStates(gx, params, calls, n).value[i])
  {
    hide LowerRules;
    if n > 0 {
      StatesAt(gx, params, calls, n - 1);
    }
  }

  ghost predicate LoweredAs(gx: Expansion, params: seq<string>, calls: Calls, i: nat, st: I.IrState)
  {
    && i < |gx.states| && st.id == i && st.name == gx.states[i].name && st.dispatch == I.Table
    && LowerRules(gx, params, calls, gx.states[i].rules, |gx.states[i].rules|) == Fine(st.rules)
  }

  // ----- a lowered world can be generated -----

  /** The calls bind tapes of the world within their alphabets. */
  ghost predicate CallsFit(calls: Calls, cards: seq<nat>)
  {
    forall target, tag | calls(target, tag).Some? :: BindingWithin(calls(target, tag).value.1, cards)
  }

  ghost predicate BindingWithin(binding: seq<I.TapeBinding>, cards: seq<nat>)
  {
    forall k | 0 <= k < |binding| ::
      binding[k].callerTape < |cards|
      && forall j | 0 <= j < |binding[k].pairs| :: binding[k].pairs[j].src < cards[binding[k].callerTape]
  }

  lemma TransitionFits(gx: Expansion, params: seq<string>, calls: Calls, t: Transition, w: I.IrWorld)
    requires LowerTransition(gx, params, calls, t).Fine? && |w.states| == |gx.states|
    requires w.arity == |w.cards| && CallsFit(calls, w.cards)
    ensures I.TransitionFits(w, LowerTransition(gx, params, calls, t).value)
  {
    hide IdOf;
    if t.Call? {
      assert BindingWithin(calls(t.target, t.tag).value.1, w.cards);
    }
  }

  lemma RuleFits(gx: Expansion, params: seq<string>, calls: Calls, r: Rule, w: I.IrWorld)
    requires LowerRule(gx, params, calls, r).Fine? && |w.states| == |gx.states|
    requires w.arity == |w.cards| && CallsFit(calls, w.cards) && RowInside(r, w.cards)
    ensures I.RuleFits(w, LowerRule(gx, params, calls, r).value)
  {
    hide CallsFit, IdOf, I.TransitionFits;
    TransitionFits(gx, params, calls, r.transition, w);
  }

  /** A lowered rule matches as the expanded one did. */
  lemma SameRows(rules: seq<Rule>, ir: seq<I.IrRule>)
    requires |ir| == |rules| && forall k | 0 <= k < |rules| :: ir[k].pattern == rules[k].pattern
    ensures NoExactConflict(rules) ==> NoExactConflict(I.Rows(ir))
    ensures forall tuple :: BandPick(I.Rows(ir), tuple) == BandPick(rules, tuple)
  {
    hide IsLoose, FirstKept;
    var rows := I.Rows(ir);
    assert forall k | 0 <= k < |rules| :: rows[k].pattern == rules[k].pattern;
    forall tuple ensures BandPick(rows, tuple) == BandPick(rules, tuple) {
      SameKept(rules, rows, IsExact, |rules|, tuple);
      SameKept(rules, rows, IsPartial, |rules|, tuple);
      SameKept(rules, rows, IsCatchAll, |rules|, tuple);
    }
  }

  lemma {:induction false} SameKept(a: seq<Rule>, b: seq<Rule>, keep: seq<Cell> -> bool, n: nat, tuple: seq<nat>)
    requires n <= |a| == |b| && forall k | 0 <= k < |a| :: a[k].pattern == b[k].pattern
    ensures FirstKept(a, keep, n, tuple) == FirstKept(b, keep, n, tuple)
  {
    hide Matches;
    if n > 0 {
      SameKept(a, b, keep, n - 1, tuple);
    }
  }

  /** A world that expanded lowers to one that validates and that code can be generated for. */
  lemma LoweredGenerable(h: Header, gx: Expansion, params: seq<string>, calls: Calls)
    requires gx.entry in NamesOf(gx.states) && LowerWorld(h, gx, params, calls).Fine?
    requires |h.cards| > 0 && (forall k | 0 <= k < |h.cards| :: 0 < h.cards[k])
    requires Apart(gx.states) && AllInside(gx.states, h.cards) && CallsFit(calls, h.cards)
    requires forall st | st in gx.states :: NoExactConflict(st.rules)
    ensures G.Generable(LowerWorld(h, gx, params, calls).value)
  {
    hide LowerRules, LowerRule, NoExactConflict, RowInside, CallsFit, IdOf, I.RuleFits, I.Rows;
    var w := LowerWorld(h, gx, params, calls).value;
    EntryHasId(gx);
    StatesAt(gx, params, calls, |gx.states|);
    forall i | 0 <= i < |w.states|
      ensures NoExactConflict(I.Rows(w.states[i].rules))
      ensures forall k | 0 <= k < |w.states[i].rules| :: I.RuleFits(w, w.states[i].rules[k])
    {
      assert LoweredAs(gx, params, calls, i, w.states[i]);
      var rules := gx.states[i].rules;
      assert gx.states[i] in gx.states;
      RulesAt(gx, params, calls, rules, |rules|);
      forall k | 0 <= k < |rules|
        ensures w.states[i].rules[k].pattern == rules[k].pattern && I.RuleFits(w, w.states[i].rules[k])
      {
        assert RowInside(rules[k], h.cards);
        RuleFits(gx, params, calls, rules[k], w);
        SamePattern(gx, params, calls, rules[k]);
      }
      SameRows(rules, w.states[i].rules);
    }
  }

  lemma SamePattern(gx: Expansion, params: seq<string>, calls: Calls, r: Rule)
    requires LowerRule(gx, params, calls, r).Fine?
    ensures LowerRule(gx, params, calls, r).value.pattern == r.pattern
  {
  }

  // ----- lowering keeps the behaviour -----

  /** What a called routine does, as an expanded world sees it. */
  function CalleeOf(calls: Calls, callee: I.Callee): Runs.Callee
  {
    (target: string, tag: nat, d: Data) =>
      match calls(target, tag)
      case None => Runs.Ends(Wrong)
      case Some(bound) =>
        match callee(bound.0, bound.1, d)
        case Comes(d', _, _) => Runs.Comes(d')
        case Ends(e) => Runs.Ends(e)
  }

  /** Leaving out idle vectors changes nothing. */
  lemma SameAction(r: Rule, t: I.Transition, strip: bool, d: Data)
    requires |r.write| == |r.moves| == |d.tapes|
    ensures I.Action(LoweredRule(r, t), strip, d) == WriteMove(if r.debugger then Pause(d, strip) else d, r.write, r.moves)
  {
    var paused := if r.debugger then Pause(d, strip) else d;
    var a, b := I.Action(LoweredRule(r, t), strip, d), WriteMove(paused, r.write, r.moves);
    forall k | 0 <= k < |d.tapes| ensures a.tapes[k] == b.tapes[k] {
    }
    assert a.tapes == b.tapes;
  }

  /** The state of the graph a spot is in. */
  ghost predicate StandsAt(gx: Expansion, s: Runs.Spot, t: I.State)
  {
    t.at < |gx.states| && gx.states[t.at].name == s.name && t.data == s.data
  }

  ghost predicate StepsMatch(gx: Expansion, a: Step<Runs.Spot, Ending>, b: Step<I.State, Ending>)
  {
    match (a, b)
    case (Done(e), Done(e')) => e == e'
    case (Next(s), Next(t)) => StandsAt(gx, s, t)
    case _ => false
  }

  lemma NameArrives(gx: Expansion, params: seq<string>, name: string, d: Data)
    requires StateId(gx, params, name).Fine? && NamesOf(gx.states) !! Elements(params)
    ensures StepsMatch(gx, Runs.Arrive(params, Runs.At(name, d)), Next(I.State(StateId(gx, params, name).value, d)))
  {
    hide IdOf;
    NameOf(gx.states, IdOf(gx.states, |gx.states|, name).value);
    assert name in params ==> name in Elements(params);
  }

  lemma TransitionMatches(gx: Expansion, params: seq<string>, calls: Calls, t: Transition, callee: I.Callee, d: Data)
    requires LowerTransition(gx, params, calls, t).Fine? && NamesOf(gx.states) !! Elements(params)
    ensures StepsMatch(gx, Runs.Arrive(params, Runs.Land(t, d, CalleeOf(calls, callee))),
                       I.Transfer(LowerTransition(gx, params, calls, t).value, callee, d))
  {
    hide StateId, NamesOf;
    if t.Goto? {
      NameArrives(gx, params, t.name, d);
    } else if t.Call? {
      var bound := calls(t.target, t.tag).value;
      match callee(bound.0, bound.1, d) {
        case Comes(d', _, _) =>
          if t.resume.ToState? {
            NameArrives(gx, params, t.resume.name, d');
          }
        case Ends(_) =>
      }
    }
  }

  lemma RuleMatches(gx: Expansion, params: seq<string>, calls: Calls, r: Rule, strip: bool, callee: I.Callee, d: Data)
    requires LowerRule(gx, params, calls, r).Fine? && NamesOf(gx.states) !! Elements(params)
    requires |r.write| == |r.moves| == |d.tapes|
    ensures StepsMatch(gx, Runs.Arrive(params, Runs.Perform(OutcomeOf(r), d, strip, CalleeOf(calls, callee))),
                       I.Fire(LowerRule(gx, params, calls, r).value, strip, callee, d))
  {
    hide LowerTransition, I.Transfer, Runs.Land, Runs.Arrive, StepsMatch, I.Action, WriteMove, LoweredRule, NamesOf;
    var t := LowerTransition(gx, params, calls, r.transition).value;
    SameAction(r, t, strip, d);
    TransitionIs(r, t);
    TransitionMatches(gx, params, calls, r.transition, callee,
                      WriteMove(if r.debugger then Pause(d, strip) else d, r.write, r.moves));
  }

  lemma TransitionIs(r: Rule, t: I.Transition)
    ensures LoweredRule(r, t).transition == t
  {
  }

  /** A world's states, lowered. */
  ghost predicate IsLowered(h: Header, gx: Expansion, params: seq<string>, calls: Calls, w: I.IrWorld)
  {
    && gx.entry in NamesOf(gx.states) && LowerWorld(h, gx, params, calls) == Fine(w)
    && Apart(gx.states) && AllInside(gx.states, h.cards) && NamesOf(gx.states) !! Elements(params)
  }

  lemma StepMatches(h: Header, gx: Expansion, params: seq<string>, calls: Calls, w: I.IrWorld, strip: bool, callee: I.Callee,
                    s: Runs.Spot, t: I.State)
    requires IsLowered(h, gx, params, calls, w) && StandsAt(gx, s, t) && |s.data.tapes| == |h.cards|
    ensures StepsMatch(gx, Runs.StatesStep(gx.states, params, strip, CalleeOf(calls, callee), s),
                       I.WorldStep(w, strip, callee, t))
  {
    hide LowerRules, LowerRule, IdOf, Runs.Arrive, Runs.Perform, StepsMatch, BandPick, I.Fire, NamesOf, I.Rows, CalleeOf;
    var st := gx.states[t.at];
    assert st in gx.states;
    Finds(gx.states, st);
    EntryHasId(gx);
    StatesAt(gx, params, calls, |gx.states|);
    assert LoweredAs(gx, params, calls, t.at, w.states[t.at]);
    RulesAt(gx, params, calls, st.rules, |st.rules|);
    var ir := w.states[t.at].rules;
    forall k | 0 <= k < |st.rules| ensures ir[k].pattern == st.rules[k].pattern {
      SamePattern(gx, params, calls, st.rules[k]);
    }
    SameRows(st.rules, ir);
    var pick := BandPick(st.rules, Read(s.data));
    PickBelow(st.rules, Read(s.data));
    if pick.Some? {
      assert RowInside(st.rules[pick.value], h.cards);
      RuleMatches(gx, params, calls, st.rules[pick.value], strip, callee, s.data);
    } else {
      NoneMatches(gx, params, strip, callee, calls, s.data);
    }
  }

  lemma PickBelow(rules: seq<Rule>, tuple: seq<nat>)
    ensures BandPick(rules, tuple).Some? ==> BandPick(rules, tuple).value < |rules|
  {
    hide FirstKept;
  }

  lemma NoneMatches(gx: Expansion, params: seq<string>, strip: bool, callee: I.Callee, calls: Calls, d: Data)
    ensures StepsMatch(gx, Runs.Arrive(params, Runs.Perform(NoMatch, d, strip, CalleeOf(calls, callee))),
                       Done(Trapped(NoTransition, d)))
  {
  }

  // ----- the theorem -----

  ghost function Relation(gx: Expansion, cards: seq<nat>): (Runs.Spot, I.State) -> bool
  {
    (s: Runs.Spot, t: I.State) => StandsAt(gx, s, t) && Within(s.data, cards)
  }

  function NoRank(): Runs.Spot -> (nat, nat)
  {
    (_: Runs.Spot) => (0, 0)
  }

  lemma LoweringSimulates(h: Header, gx: Expansion, params: seq<string>, calls: Calls, w: I.IrWorld, strip: bool,
                          callee: I.Callee)
    requires IsLowered(h, gx, params, calls, w) && Runs.CalleeKeeps(CalleeOf(calls, callee), h.cards)
    ensures Simulates(Runs.StatesStepper(gx.states, params, strip, CalleeOf(calls, callee)), I.WorldStepper(w, strip, callee),
                      Relation(gx, h.cards), NoRank())
  {
    hide LowerWorld, Apart, AllInside, Elements, NamesOf, Runs.CalleeKeeps, StandsAt, Runs.StatesStep, I.WorldStep, CalleeOf,
      Run, Within;
    var src, dst := Runs.StatesStepper(gx.states, params, strip, CalleeOf(calls, callee)), I.WorldStepper(w, strip, callee);
    forall s, t | Relation(gx, h.cards)(s, t)
      ensures exists k: nat :: Answers(src, dst, Relation(gx, h.cards), NoRank(), s, t, k)
    {
      TapesOf(s.data, h.cards);
      StepMatches(h, gx, params, calls, w, strip, callee, s, t);
      StaysWithin(gx, params, strip, CalleeOf(calls, callee), s, h.cards);
      RunOnce(dst, t);
      assert Answers(src, dst, Relation(gx, h.cards), NoRank(), s, t, 1);
    }
  }

  lemma TapesOf(d: Data, cards: seq<nat>)
    requires Within(d, cards)
    ensures |d.tapes| == |cards|
  {
  }

  /** Lowering keeps every behaviour of an expanded world. */
  lemma LoweringPreservesBehaviour(h: Header, gx: Expansion, params: seq<string>, calls: Calls, w: I.IrWorld, strip: bool,
                                   callee: I.Callee, d: Data)
    requires IsLowered(h, gx, params, calls, w) && Runs.CalleeKeeps(CalleeOf(calls, callee), h.cards) && Within(d, h.cards)
    ensures var states := Runs.StatesStepper(gx.states, params, strip, CalleeOf(calls, callee));
            var world := I.WorldStepper(w, strip, callee);
            var s, t := Runs.Spot(gx.entry, d), I.State(w.entry, d);
            && (forall e :: Finishes(states, s, e) <==> Finishes(world, t, e))
            && (Diverges(states, s) <==> Diverges(world, t))
  {
    hide LowerStates, Runs.CalleeKeeps, Within, Finishes, Diverges, Simulates, CalleeOf, IdOf, Apart, AllInside;
    LoweringSimulates(h, gx, params, calls, w, strip, callee);
    EntryHasId(gx);
    SameBehaviour(Runs.StatesStepper(gx.states, params, strip, CalleeOf(calls, callee)), I.WorldStepper(w, strip, callee),
                  Relation(gx, h.cards), NoRank(), Runs.Spot(gx.entry, d), I.State(w.entry, d));
  }
}
