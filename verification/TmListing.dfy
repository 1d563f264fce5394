/** The generated `.tma` listing - match and dispatch tables, then code - and how the TM-1
    processor runs one routine of it. */
module TmListing {
  import opened Options
  import opened Simulation
  import opened TmMachine
  import R = TmRules
  import I = TmIr

  datatype Line =
    | SectionTables
    | SectionCode
    | Row(opens: Option<nat>, cells: seq<R.Cell>)
    | Targets(table: nat, names: seq<string>)
    | Routine(name: string, arity: nat, alpha: seq<nat>)
    | Func(name: string, local: bool)
    | Label(name: string)
    | Rd
    | Mtc(table: nat)
    | Djmp(table: nat)
    | Brk
    | Wrmv(write: seq<R.WriteOut>, moves: seq<R.Move>)
    | Call(target: string, binding: seq<I.TapeBinding>)
    | Jmp(dest: string)
    | JmpRoutine(target: string)
    | Jm(dest: string)
    | Ret
    | Stp
    | Hlt
    | Trap(number: nat)

  /** A match table with its dispatch targets; a match-only table has none. */
  datatype Table = Table(n: nat, rows: seq<seq<R.Cell>>, targets: seq<string>)

  /** The tables of a listing: a labelled row opens one. */
  function TablesIn(lines: seq<Line>, k: nat): seq<Table>
    requires k <= |lines|
  {
    if k == 0 then [] else AddLine(TablesIn(lines, k - 1), lines[k - 1])
  }

  function AddLine(tables: seq<Table>, line: Line): seq<Table>
  {
    if line.Row? && line.opens.Some? then tables + [Table(line.opens.value, [line.cells], [])]
    else if tables == [] then tables
    else
      var last := tables[|tables| - 1];
      if line.Row? then tables[|tables| - 1 := last.(rows := last.rows + [line.cells])]
      else if line.Targets? && line.table == last.n then tables[|tables| - 1 := last.(targets := line.names)]
      else tables
  }

  /** The code of a listing's routines; a `.func` line opens one, a `.routine` line is no code. */
  datatype Section = Section(name: string, code: seq<Line>)

  function SectionsIn(lines: seq<Line>, k: nat): seq<Section>
    requires k <= |lines|
  {
    if k == 0 then [] else AddCode(SectionsIn(lines, k - 1), lines[k - 1])
  }

  function AddCode(sections: seq<Section>, line: Line): seq<Section>
  {
    if line.Func? then sections + [Section(line.name, [])]
    else if line.Routine? || sections == [] then sections
    else
      var last := sections[|sections| - 1];
      sections[|sections| - 1 := last.(code := last.code + [line])]
  }

  // ----- meaning -----

  /** Program counter, tuple register, match register, data. */
  datatype State = State(pc: nat, tuple: seq<nat>, mr: nat, data: Data)

  function FindLabel(code: seq<Line>, k: nat, name: string): (r: Option<nat>)
    requires k <= |code|
    ensures r.Some? ==> k <= r.value < |code|
    decreases |code| - k
  {
    if k == |code| then None
    else if code[k] == Label(name) then Some(k)
    else FindLabel(code, k + 1, name)
  }

  function FindTable(tables: seq<Table>, k: nat, n: nat): (r: Option<Table>)
    requires k <= |tables|
    decreases |tables| - k
  {
    if k == |tables| then None
    else if tables[k].n == n then Some(tables[k])
    else FindTable(tables, k + 1, n)
  }

  /** The 1-based index of the first row that matches, 0 without one. */
  ghost function MatchRows(rows: seq<seq<R.Cell>>, k: nat, tuple: seq<nat>): nat
    requires k <= |rows|
    decreases |rows| - k
  {
    if k == |rows| then 0
    else if R.Matches(rows[k], tuple) then k + 1
    else MatchRows(rows, k + 1, tuple)
  }

  function JumpTo(code: seq<Line>, u: State, name: string): Step<State, Ending>
  {
    match FindLabel(code, 0, name)
    case None => Done(Wrong)
    case Some(k) => Next(u.(pc := k))
  }

  function Dispatch(t: Table, code: seq<Line>, u: State): Step<State, Ending>
  {
    if u.mr == 0 then Done(Trapped(NoTransition, u.data))
    else if u.mr > |t.targets| then Done(Trapped(DispatchOutOfRange, u.data))
    else JumpTo(code, u, t.targets[u.mr - 1])
  }

  ghost function Execute(tables: seq<Table>, code: seq<Line>, callee: I.Callee, u: State, line: Line): Step<State, Ending>
  {
    var on := u.(pc := u.pc + 1);
    match line
    case Label(_) => Next(on)
    case Rd => Next(on.(tuple := Read(u.data)))
    case Mtc(n) =>
      (match FindTable(tables, 0, n)
       case None => Done(Wrong)
       case Some(t) => Next(on.(mr := MatchRows(t.rows, 0, u.tuple))))
    case Djmp(n) =>
      (match FindTable(tables, 0, n)
       case None => Done(Wrong)
       case Some(t) => Dispatch(t, code, u))
    case Brk => Next(on.(data := Pause(u.data, false)))
    case Wrmv(write, moves) => Next(on.(data := WriteMove(u.data, write, moves)))
    case Call(target, binding) =>
      (match callee(target, binding, u.data)
       case Comes(d, mr, tuple) => Next(on.(data := d, mr := mr, tuple := tuple))
       case Ends(e) => Done(e))
    case Jmp(name) => JumpTo(code, u, name)
    case JmpRoutine(target) => Done(LeftFor(target, u.data))
    case Jm(name) => if u.mr != 0 then JumpTo(code, u, name) else Next(on)
    case Ret => Done(Returned(u.data))
    case Stp => Done(Stopped(u.data))
    case Hlt => Done(Halted(u.data))
    case Trap(k) => Done(Trapped(if k == 0 then UnmappedRead else UnmappedWrite, u.data))
    case _ => Done(Wrong)
  }

  ghost function ListingStep(tables: seq<Table>, code: seq<Line>, callee: I.Callee, u: State): Step<State, Ending>
  {
    if u.pc >= |code| then Done(Wrong) else Execute(tables, code, callee, u, code[u.pc])
  }

  ghost function ListingStepper(tables: seq<Table>, code: seq<Line>, callee: I.Callee): State -> Step<State, Ending>
  {
    (u: State) => ListingStep(tables, code, callee, u)
  }
}
