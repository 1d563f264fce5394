/** The TM-1 tape machine: its bands, what one fused write-and-move does to them, and the ways a
    run can end. */
module TmMachine {
  import opened TmRules

  /** One band; a cell that was never written holds the blank, symbol 0. */
  datatype Tape = Tape(cells: map<int, nat>, head: int)

  datatype Data = Data(tapes: seq<Tape>, pauses: nat)

  datatype TrapKind = NoTransition | UnmappedRead | UnmappedWrite | DispatchOutOfRange

  datatype Ending =
    | Stopped(data: Data)
    | Halted(data: Data)
    | Returned(data: Data)
    | LeftFor(routine: string, data: Data)
    | Trapped(kind: TrapKind, data: Data)
    | Wrong

  function Under(t: Tape): nat
  {
    if t.head in t.cells then t.cells[t.head] else 0
  }

  /** The symbols under the heads. */
  function Read(d: Data): (r: seq<nat>)
    ensures |r| == |d.tapes|
  {
    seq(|d.tapes|, (k: nat) requires k < |d.tapes| => Under(d.tapes[k]))
  }

  function Act(t: Tape, write: WriteOut, move: Move): Tape
  {
    var written := if write.Put? then t.(cells := t.cells[t.head := write.s]) else t;
    match move
    case Left => written.(head := t.head - 1)
    case Right => written.(head := t.head + 1)
    case Stay => written
  }

  /** Writes, then moves, on every tape; a missing vector entry leaves its tape alone. */
  function WriteMove(d: Data, write: seq<WriteOut>, moves: seq<Move>): Data
  {
    d.(tapes := seq(|d.tapes|, (k: nat) requires k < |d.tapes| =>
      Act(d.tapes[k], if k < |write| then write[k] else Keep, if k < |moves| then moves[k] else Stay)))
  }

  /** A debugger statement pauses only in a build that keeps it. */
  function Pause(d: Data, strip: bool): Data
  {
    if strip then d else d.(pauses := d.pauses + 1)
  }

  // ----- alphabets -----

  ghost predicate TapeWithin(t: Tape, card: nat)
  {
    0 < card && forall p | p in t.cells :: t.cells[p] < card
  }

  /** Every band holds symbols of its own alphabet only. */
  ghost predicate Within(d: Data, cards: seq<nat>)
  {
    |d.tapes| == |cards| && forall k | 0 <= k < |cards| :: TapeWithin(d.tapes[k], cards[k])
  }

  lemma ReadWithin(d: Data, cards: seq<nat>)
    requires Within(d, cards)
    ensures forall k | 0 <= k < |cards| :: Read(d)[k] < cards[k]
  {
    forall k | 0 <= k < |cards| ensures Read(d)[k] < cards[k] {
      assert TapeWithin(d.tapes[k], cards[k]);
    }
  }

  lemma WriteMoveWithin(d: Data, write: seq<WriteOut>, moves: seq<Move>, cards: seq<nat>)
    requires Within(d, cards)
    requires forall k | 0 <= k < |write| && k < |cards| && write[k].Put? :: write[k].s < cards[k]
    ensures Within(WriteMove(d, write, moves), cards)
  {
    forall k | 0 <= k < |cards| ensures TapeWithin(WriteMove(d, write, moves).tapes[k], cards[k]) {
      assert TapeWithin(d.tapes[k], cards[k]);
    }
  }
}
