/** The flattened `.pmc` program and its meaning, statement by statement. */
module PmSyntax {
  import opened Options
  import opened Simulation
  import opened PmMachine

  datatype Builtin = Left | Right | Mark | Unmark

  datatype Successor = FallThrough | ToLabel(target: nat) | Return

  datatype CheckArm = ArmLabel(target: nat) | ArmReturn

  datatype Item =
    | Tape(which: Builtin, succ: Successor, line: nat)
    | Debugger(line: nat)
    | Call(name: string, succ: Successor, line: nat)
    | Check(marked: CheckArm, blank: CheckArm, line: nat)
    | Halt(line: nat)
    | Goto(target: nat, line: nat)

  datatype Statement = Statement(labels: seq<nat>, items: seq<Item>, line: nat)

  datatype Function = Function(name: string, line: nat, body: seq<Statement>, local: bool)

  function SuccessorOf(item: Item): Successor
  {
    if item.Tape? || item.Call? then item.succ else FallThrough
  }

  /** Builtins, calls and debugger statements do something; the rest only transfer control. */
  predicate HasEffect(item: Item)
  {
    item.Tape? || item.Call? || item.Debugger?
  }

  /** The comma-group rules the parser enforces: everything but the last item is bare. */
  predicate WellFormedStatement(st: Statement)
  {
    && st.items != []
    && forall j | 0 <= j < |st.items| - 1 ::
         HasEffect(st.items[j]) && SuccessorOf(st.items[j]) == FallThrough
  }

  ghost predicate WellFormed(f: Function)
  {
    forall i | 0 <= i < |f.body| :: WellFormedStatement(f.body[i])
  }

  /** No label is declared twice in a body (the parser's duplicate-label check). */
  ghost predicate DistinctLabels(body: seq<Statement>)
  {
    forall i, a, k, b | 0 <= i < |body| && 0 <= a < |body[i].labels| && 0 <= k < |body|
                        && 0 <= b < |body[k].labels| && (i, a) != (k, b) ::
      body[i].labels[a] != body[k].labels[b]
  }

  /** The last of the first n statements that declares a label. */
  function LabelAmong(body: seq<Statement>, n: nat, l: nat): (r: Option<nat>)
    requires n <= |body|
    ensures r.Some? ==> r.value < n && l in body[r.value].labels
  {
    if n == 0 then None
    else if l in body[n - 1].labels then Some(n - 1)
    else LabelAmong(body, n - 1, l)
  }

  /** The statement that declares a label: the last one, if a body declares it twice. */
  function LabelStatement(body: seq<Statement>, l: nat): (r: Option<nat>)
    ensures r.Some? ==> r.value < |body| && l in body[r.value].labels
  {
    LabelAmong(body, |body|, l)
  }

  lemma {:induction false} LabelAmongNone(body: seq<Statement>, n: nat, l: nat)
    requires n <= |body|
    ensures LabelAmong(body, n, l).None? <==> forall i | 0 <= i < n :: l !in body[i].labels
  {
    if n > 0 {
      LabelAmongNone(body, n - 1, l);
    }
  }

  // ----- meaning -----

  datatype Place = Place(fn: nat, stmt: nat, item: nat)

  /** `done` says that the item at `at` has had its effect and control must now leave it.
      A frame on `stack` is a call item waiting for its callee. */
  datatype State = State(at: Place, done: bool, stack: seq<Place>, data: Data)

  /** The first function of that name, from the k-th on. */
  function NamedFrom(names: seq<string>, k: nat, name: string): (r: Option<nat>)
    requires k <= |names|
    ensures r.Some? ==> k <= r.value < |names| && names[r.value] == name
    decreases |names| - k
  {
    if k == |names| then None
    else if names[k] == name then Some(k)
    else NamedFrom(names, k + 1, name)
  }

  function FunctionNamed(names: seq<string>, name: string): (r: Option<nat>)
    ensures r.Some? ==> r.value < |names| && names[r.value] == name
  {
    NamedFrom(names, 0, name)
  }

  function Names(p: seq<Function>): seq<string>
  {
    seq(|p|, (k: nat) requires k < |p| => p[k].name)
  }

  function Effect(which: Builtin, d: Data): Data
  {
    match which
    case Left => MoveLeft(d)
    case Right => MoveRight(d)
    case Mark => Write(d, 1)
    case Unmark => Write(d, 0)
  }

  /** Returning from `main` stops the machine; returning with no caller ends the run. */
  function Leave(f: Function, s: State): Step<State, Outcome>
  {
    if f.name == "main" then Done(Stopped(s.data))
    else if s.stack == [] then Done(Returned(s.data))
    else Next(State(s.stack[0], true, s.stack[1..], s.data))
  }

  function JumpTo(f: Function, s: State, l: nat): Step<State, Outcome>
  {
    match LabelStatement(f.body, l)
    case None => Done(Wrong)
    case Some(i) => Next(s.(at := Place(s.at.fn, i, 0), done := false))
  }

  function TakeSuccessor(f: Function, s: State): Step<State, Outcome>
    requires s.at.stmt < |f.body| && s.at.item < |f.body[s.at.stmt].items|
  {
    var items := f.body[s.at.stmt].items;
    match SuccessorOf(items[s.at.item])
    case ToLabel(l) => JumpTo(f, s, l)
    case Return => Leave(f, s)
    case FallThrough =>
      var next := if s.at.item + 1 < |items| then s.at.(item := s.at.item + 1)
                  else Place(s.at.fn, s.at.stmt + 1, 0);
      Next(s.(at := next, done := false))
  }

  function Arm(f: Function, s: State, arm: CheckArm): Step<State, Outcome>
  {
    match arm
    case ArmLabel(l) => JumpTo(f, s, l)
    case ArmReturn => Leave(f, s)
  }

  function Perform(p: seq<Function>, strip: bool, f: Function, s: State, item: Item): Step<State, Outcome>
  {
    match item
    case Tape(which, _, _) => Next(s.(done := true, data := Effect(which, s.data)))
    case Debugger(_) => Next(s.(done := true, data := Pause(s.data, strip)))
    case Call(name, _, _) =>
      (match FunctionNamed(Names(p), name)
       case None => Done(LeftModule(name, s.data))
       case Some(k) => Next(State(Place(k, 0, 0), false, [s.at] + s.stack, s.data)))
    case Check(marked, blank, _) => Arm(f, s, if s.data.mf then marked else blank)
    case Halt(_) => Done(Halted(s.data))
    case Goto(l, _) => JumpTo(f, s, l)
  }

  /** One step of a program: an item's effect, or the transfer of control after it.  Running
      past the last statement is an implicit return. */
  function SourceStep(p: seq<Function>, strip: bool, s: State): Step<State, Outcome>
  {
    if s.at.fn >= |p| then Done(Wrong)
    else
      var f := p[s.at.fn];
      if s.at.stmt >= |f.body| then Leave(f, s)
      else
        var items := f.body[s.at.stmt].items;
        if s.at.item >= |items| then Done(Wrong)
        else if s.done then TakeSuccessor(f, s)
        else Perform(p, strip, f, s, items[s.at.item])
  }

  function Start(fn: nat, d: Data): State
  {
    State(Place(fn, 0, 0), false, [], d)
  }

  function SourceStepper(p: seq<Function>, strip: bool): State -> Step<State, Outcome>
  {
    (s: State) => SourceStep(p, strip, s)
  }
}
