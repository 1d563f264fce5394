/** The PM-1 tape machine: what its tape instructions do to the data they run on, and the ways
    a run can end.  Every level of the compiler shares these. */
module PmMachine {

  /** Tape contents, head, match flag and the number of debugger pauses so far.  A cell that
      was never written reads as symbol 0. */
  datatype Data = Data(cells: map<int, nat>, head: int, mf: bool, pauses: nat)

  datatype Outcome =
    | Stopped(data: Data)
    | Halted(data: Data)
    | Returned(data: Data)
    | LeftModule(callee: string, data: Data)
    | Wrong

  function Read(d: Data): nat
  {
    if d.head in d.cells then d.cells[d.head] else 0
  }

  /** Tape instructions latch MF from the cell under the head, after any move. */
  function Latch(d: Data): Data
  {
    d.(mf := Read(d) == 1)
  }

  function MoveLeft(d: Data): Data { Latch(d.(head := d.head - 1)) }

  function MoveRight(d: Data): Data { Latch(d.(head := d.head + 1)) }

  function Write(d: Data, symbol: nat): Data { Latch(d.(cells := d.cells[d.head := symbol])) }

  /** A debugger statement pauses only in a build that keeps it. */
  function Pause(d: Data, strip: bool): Data
  {
    if strip then d else d.(pauses := d.pauses + 1)
  }
}
