/** The generated `.pma` listing and how the PM-1 processor runs it. */
module PmListing {
  import opened Options
  import opened Simulation
  import opened PmMachine
  import S = PmSyntax

  /** A label is spelled `L5` after a source label or `B3` after a block id. */
  datatype Name = SourceLabel(l: nat) | BlockLabel(id: nat)

  datatype Line =
    | Func(name: string, local: bool)
    | Label(mark: Name)
    | Lft
    | Rgt
    | Wr(index: nat)
    | Wrl(index: nat)
    | Wrr(index: nat)
    | Brk
    | Call(callee: string)
    | Jmp(target: Name)
    | Jm(target: Name)
    | Jnm(target: Name)
    | JmpFunction(callee: string)
    | Stp
    | Ret
    | Hlt

  /** One function's part of a listing: what follows its `.func` line. */
  datatype Section = Section(name: string, lines: seq<Line>)

  /** The sections of a listing; a `.func` line opens the next one. */
  function Sections(lines: seq<Line>, n: nat): seq<Section>
    requires n <= |lines|
  {
    if n == 0 then [] else Extend(Sections(lines, n - 1), lines[n - 1])
  }

  function Extend(sections: seq<Section>, line: Line): seq<Section>
  {
    if line.Func? then sections + [Section(line.name, [])]
    else if sections == [] then []
    else
      var last := sections[|sections| - 1];
      sections[|sections| - 1 := last.(lines := last.lines + [line])]
  }

  // ----- meaning -----

  datatype Place = Place(fn: nat, pc: nat)

  datatype State = State(at: Place, stack: seq<Place>, data: Data)

  function Names(p: seq<Section>): seq<string>
  {
    seq(|p|, (k: nat) requires k < |p| => p[k].name)
  }

  /** The address of a label: its first line from the k-th on. */
  function FindLabel(lines: seq<Line>, k: nat, name: Name): (r: Option<nat>)
    requires k <= |lines|
    ensures r.Some? ==> k <= r.value < |lines|
    decreases |lines| - k
  {
    if k == |lines| then None
    else if lines[k] == Label(name) then Some(k)
    else FindLabel(lines, k + 1, name)
  }

  function JumpTo(lines: seq<Line>, s: State, name: Name): Step<State, Outcome>
  {
    match FindLabel(lines, 0, name)
    case None => Done(Wrong)
    case Some(k) => Next(s.(at := s.at.(pc := k)))
  }

  function Enter(p: seq<Section>, s: State, callee: string, stack: seq<Place>): Step<State, Outcome>
  {
    match S.FunctionNamed(Names(p), callee)
    case None => Done(LeftModule(callee, s.data))
    case Some(k) => Next(State(Place(k, 0), stack, s.data))
  }

  function Execute(p: seq<Section>, lines: seq<Line>, s: State, line: Line): Step<State, Outcome>
  {
    var after := s.at.(pc := s.at.pc + 1);
    match line
    case Func(_, _) => Done(Wrong)
    case Label(_) => Next(s.(at := after))
    case Lft => Next(s.(at := after, data := MoveLeft(s.data)))
    case Rgt => Next(s.(at := after, data := MoveRight(s.data)))
    case Wr(i) => Next(s.(at := after, data := Write(s.data, i)))
    case Wrl(i) => Next(s.(at := after, data := MoveLeft(Write(s.data, i))))
    case Wrr(i) => Next(s.(at := after, data := MoveRight(Write(s.data, i))))
    case Brk => Next(s.(at := after, data := Pause(s.data, false)))
    case Call(callee) => Enter(p, s, callee, [after] + s.stack)
    case Jmp(name) => JumpTo(lines, s, name)
    case Jm(name) => if s.data.mf then JumpTo(lines, s, name) else Next(s.(at := after))
    case Jnm(name) => if s.data.mf then Next(s.(at := after)) else JumpTo(lines, s, name)
    case JmpFunction(callee) => Enter(p, s, callee, s.stack)
    case Stp => Done(Stopped(s.data))
    case Ret =>
      if s.stack == [] then Done(Returned(s.data))
      else Next(State(s.stack[0], s.stack[1..], s.data))
    case Hlt => Done(Halted(s.data))
  }

  function ListingStep(p: seq<Section>, s: State): Step<State, Outcome>
  {
    if s.at.fn >= |p| || s.at.pc >= |p[s.at.fn].lines| then Done(Wrong)
    else Execute(p, p[s.at.fn].lines, s, p[s.at.fn].lines[s.at.pc])
  }

  function Start(fn: nat, d: Data): State
  {
    State(Place(fn, 0), [], d)
  }
}
