/** Call records.  Every rule of a world that calls has a record in a separate list, paired by position
    alone: the list is built from the rules, filtered when rules that can never fire are dropped, and
    walked with a cursor when the rules expand.  None of it may let the pairs slip. */
module TmCalls {
  import opened Options
  import opened TmRules
  import opened TmRanges
  import G = TmGrafts

  /** A transition as written; an omitted one stays in its own state. */
  datatype Written =
    | ToState(name: string)
    | CallTo(segments: seq<string>, args: nat, resume: Continuation)
    | BackToCaller
    | ToStop
    | ToHalt
    | Omitted

  datatype SourceState = SourceState(name: string, line: nat, rules: seq<WrittenRule>)

  datatype WrittenRule = WrittenRule(
    pattern: seq<PatternCell>, write: Option<seq<WriteCell>>, moves: Option<seq<Move>>, debugger: bool,
    transition: Written, line: nat)

  datatype Callee = BindCall(name: string) | RoutineCall(name: string, external: bool, args: nat)

  /** What a call was resolved to. */
  datatype Record = Record(callee: Callee, resume: Continuation)

  /** What the names in a world stand for: its binds, the full name of a definition and whether it is a
      routine, and how a record is put into a row. */
  datatype Names = Names(
    binds: set<string>, scope: string -> Option<(string, bool)>, put: Record -> Transition)

  function Joined(segments: seq<string>, n: nat): string
    requires n <= |segments|
  {
    if n == 0 then ""
    else if n == 1 then segments[0]
    else Joined(segments, n - 1) + "::" + segments[n - 1]
  }

  function CalleeOf(names: Names, segments: seq<string>, args: nat): Callee
  {
    var joined := Joined(segments, |segments|);
    if |segments| == 1 && joined in names.binds then BindCall(joined)
    else
      match names.scope(joined)
      case Some(found) => RoutineCall(found.0, !found.1, args)
      case None => RoutineCall(joined, true, args)
  }

  function RecordOf(names: Names, t: Written): Record
    requires t.CallTo?
  {
    Record(CalleeOf(names, t.segments, t.args), t.resume)
  }

  /** A call names a bind of its world before anything else; else what the scope has under its path, a
      definition that is no routine being external; else an external routine of that path.  It resumes where
      the rule says. */
  lemma RecordMeans(names: Names, t: Written)
    requires t.CallTo? && t.segments != []
    ensures var r, path := RecordOf(names, t), Joined(t.segments, |t.segments|);
            && r.resume == t.resume
            && (|t.segments| == 1 && t.segments[0] in names.binds ==> r.callee == BindCall(t.segments[0]))
            && (|t.segments| > 1 || t.segments[0] !in names.binds ==>
                  match names.scope(path)
                  case Some(found) => r.callee == RoutineCall(found.0, !found.1, t.args)
                  case None => r.callee == RoutineCall(path, true, t.args))
    ensures |t.segments| == 1 ==> Joined(t.segments, 1) == t.segments[0]
    ensures forall n: nat | 1 < n <= |t.segments| :: Joined(t.segments, n) == Joined(t.segments, n - 1) + "::" + t.segments[n - 1]
  {
  }

  // ----- the records that belong to rules -----

  function RuleRecords(names: Names, rules: seq<WrittenRule>, n: nat): seq<Record>
    requires n <= |rules|
  {
    if n == 0 then []
    else if rules[n - 1].transition.CallTo? then
      RuleRecords(names, rules, n - 1) + [RecordOf(names, rules[n - 1].transition)]
    else RuleRecords(names, rules, n - 1)
  }

  function StateRecords(names: Names, states: seq<SourceState>, n: nat): seq<Record>
    requires n <= |states|
  {
    if n == 0 then []
    else StateRecords(names, states, n - 1) + RuleRecords(names, states[n - 1].rules, |states[n - 1].rules|)
  }

  // ----- rules that can never fire -----

  predicate IsWildRule(r: WrittenRule)
  {
    r.pattern != [] && forall k | 0 <= k < |r.pattern| :: r.pattern[k].kind.Any?
  }

  predicate WildBefore(rules: seq<WrittenRule>, n: nat)
    requires n <= |rules|
  {
    exists k :: 0 <= k < n && IsWildRule(rules[k])
  }

  predicate Dead(rules: seq<WrittenRule>, k: nat)
    requires k < |rules|
  {
    IsWildRule(rules[k]) && WildBefore(rules, k)
  }

  function Survivors(rules: seq<WrittenRule>, n: nat): seq<WrittenRule>
    requires n <= |rules|
  {
    if n == 0 then []
    else if Dead(rules, n - 1) then Survivors(rules, n - 1)
    else Survivors(rules, n - 1) + [rules[n - 1]]
  }

  function DeadLines(rules: seq<WrittenRule>, n: nat): seq<nat>
    requires n <= |rules|
  {
    if n == 0 then []
    else if Dead(rules, n - 1) then DeadLines(rules, n - 1) + [rules[n - 1].line]
    else DeadLines(rules, n - 1)
  }

  function Pruned(st: SourceState): SourceState
  {
    st.(rules := Survivors(st.rules, |st.rules|))
  }

  function PrunedStates(states: seq<SourceState>): seq<SourceState>
  {
    seq(|states|, (k: nat) requires k < |states| => Pruned(states[k]))
  }

  function AllDeadLines(states: seq<SourceState>, n: nat): seq<nat>
    requires n <= |states|
  {
    if n == 0 then [] else AllDeadLines(states, n - 1) + DeadLines(states[n - 1].rules, |states[n - 1].rules|)
  }

  // ----- expansion, each call rule with its own record -----

  function Lower(names: Names, state: string, t: Written): Transition
  {
    match t
    case ToState(name) => Goto(name)
    case Omitted => Goto(state)
    case BackToCaller => Return
    case ToStop => Stop
    case ToHalt => Halt
    case CallTo(_, _, _) => names.put(RecordOf(names, t))
  }

  function RuleWith(r: WrittenRule, t: Transition): SourceRule
  {
    SourceRule(r.pattern, r.write, r.moves, r.debugger, t, r.line)
  }

  function Rows(names: Names, state: string, r: WrittenRule, tapes: seq<Glyphs>): Res<seq<Rule>>
  {
    Expanded(RuleWith(r, Lower(names, state, r.transition)), tapes)
  }

  function AllRows(names: Names, state: string, rules: seq<WrittenRule>, tapes: seq<Glyphs>, n: nat): Res<seq<Rule>>
    requires n <= |rules|
  {
    if n == 0 then Ok([])
    else
      match AllRows(names, state, rules, tapes, n - 1)
      case Err(e) => Err(e)
      case Ok(rows) =>
        (match Rows(names, state, rules[n - 1], tapes)
         case Err(e) => Err(e)
         case Ok(more) => Ok(rows + more))
  }

  function OwnStates(names: Names, states: seq<SourceState>, tapes: seq<Glyphs>, n: nat): Res<seq<G.State>>
    requires n <= |states|
  {
    if n == 0 then Ok([])
    else
      match OwnStates(names, states, tapes, n - 1)
      case Err(e) => Err(e)
      case Ok(out) =>
        (match AllRows(names, states[n - 1].name, states[n - 1].rules, tapes, |states[n - 1].rules|)
         case Err(e) => Err(e)
         case Ok(rows) => Ok(out + [G.State(states[n - 1].name, states[n - 1].line, rows)]))
  }

  // ----- the world -----

  class World {
    const names: Names
    var states: seq<SourceState>
    var calls: seq<Record>

    /** The record list holds exactly the records of the rules that call, in order. */
    predicate Aligned()
      reads this
    {
      calls == StateRecords(names, states, |states|)
    }

    constructor (names: Names, states: seq<SourceState>)
      ensures this.names == names && this.states == states && Aligned()
    {
      this.names := names;
      this.states := states;
      new;
      ResolveCalls();
    }

    method ResolveCalls()
      modifies this`calls
      ensures Aligned()
    {
      calls := [];
      for s := 0 to |states|
        invariant calls == StateRecords(names, states, s)
      {
        ghost var before := calls;
        for k := 0 to |states[s].rules|
          invariant calls == before + RuleRecords(names, states[s].rules, k)
        {
          var t := states[s].rules[k].transition;
          if t.CallTo? {
            calls := calls + [RecordOf(names, t)];
          }
        }
      }
    }

    /** Drops a state's all-wildcard rules behind another one, and their records with them. */
    method PruneState(s: nat, listed: seq<Record>, at: nat)
      returns (surviving: seq<WrittenRule>, kept: seq<Record>, cursor: nat, lines: seq<nat>)
      requires s < |states| && at == |StateRecords(names, states, s)|
      requires listed == StateRecords(names, states, |states|)
      ensures surviving == Survivors(states[s].rules, |states[s].rules|)
      ensures kept == RuleRecords(names, surviving, |surviving|)
      ensures cursor == |StateRecords(names, states, s + 1)|
      ensures lines == DeadLines(states[s].rules, |states[s].rules|)
    {
      hide RecordOf, StateRecords, IsWildRule;
      var rules := states[s].rules;
      var seen := false;
      surviving, kept, cursor, lines := [], [], at, [];
      for k := 0 to |rules|
        invariant seen == WildBefore(rules, k)
        invariant surviving == Survivors(rules, k)
        invariant kept == RuleRecords(names, surviving, |surviving|)
        invariant cursor == at + |RuleRecords(names, rules, k)|
        invariant lines == DeadLines(rules, k)
      {
        var r := rules[k];
        var isCall := r.transition.CallTo?;
        if isCall {
          RecordAt(names, states, s, k);
        }
        if IsWildRule(r) && seen {
          lines := lines + [r.line];
          if isCall {
            cursor := cursor + 1;
          }
        } else {
          seen := seen || IsWildRule(r);
          if isCall {
            kept := kept + [listed[cursor]];
            cursor := cursor + 1;
          }
          RecordsOneMore(names, surviving, r);
          surviving := surviving + [r];
        }
      }
      NextState(names, states, s);
    }

    /** Drops every all-wildcard rule behind another one of its state; the records stay aligned. */
    method DropUnreachable() returns (lines: seq<nat>)
      requires Aligned()
      modifies this
      ensures states == PrunedStates(old(states)) && Aligned()
      ensures lines == AllDeadLines(old(states), |old(states)|)
    {
      hide Survivors, DeadLines, RuleRecords;
      var listed := calls;
      var kept: seq<Record> := [];
      var out: seq<SourceState> := [];
      var cursor := 0;
      lines := [];
      for s := 0 to |states|
        invariant states == old(states) && |out| == s && forall k | 0 <= k < s :: out[k] == Pruned(states[k])
        invariant kept == StateRecords(names, out, |out|)
        invariant cursor == |StateRecords(names, states, s)|
        invariant lines == AllDeadLines(states, s)
      {
        var surviving, more, next, dead := PruneState(s, listed, cursor);
        StateRecordsOneMore(names, out, Pruned(states[s]));
        out := out + [states[s].(rules := surviving)];
        kept, cursor, lines := kept + more, next, lines + dead;
      }
      assert out == PrunedStates(states);
      states, calls := out, kept;
    }

    /** Expands one state's rules, taking a record off the list at every rule that calls. */
    method ExpandState(s: nat, tapes: seq<Glyphs>, at: nat) returns (r: Res<seq<Rule>>, cursor: nat)
      requires Aligned() && s < |states| && at == |StateRecords(names, states, s)|
      ensures r == AllRows(names, states[s].name, states[s].rules, tapes, |states[s].rules|)
      ensures r.Ok? ==> cursor == |StateRecords(names, states, s + 1)|
    {
      hide Expanded, StateRecords;
      var st := states[s];
      var rows: seq<Rule> := [];
      cursor := at;
      for k := 0 to |st.rules|
        invariant AllRows(names, st.name, st.rules, tapes, k) == Ok(rows)
        invariant cursor == at + |RuleRecords(names, st.rules, k)|
      {
        var t: Transition;
        match st.rules[k].transition {
          case ToState(name) => t := Goto(name);
          case Omitted => t := Goto(st.name);
          case BackToCaller => t := Return;
          case ToStop => t := Stop;
          case ToHalt => t := Halt;
          case CallTo(_, _, _) =>
            RecordAt(names, states, s, k);
            t := names.put(calls[cursor]);
            cursor := cursor + 1;
        }
        var more, _, _ := ExpandRule(RuleWith(st.rules[k], t), tapes);
        if more.Err? {
          AllRowsFail(names, st.name, st.rules, tapes, k + 1, |st.rules|);
          return Err(more.error), cursor;
        }
        rows := rows + more.value;
      }
      NextState(names, states, s);
      r := Ok(rows);
    }

    /** Expands the states: each rule that calls gets its own record, and the list never runs out. */
    method ExpandOwn(tapes: seq<Glyphs>) returns (r: Res<seq<G.State>>)
      requires Aligned()
      ensures r == OwnStates(names, states, tapes, |states|)
    {
      hide Expanded, AllRows, StateRecords;
      var cursor := 0;
      NoRecords(names, states);
      var out: seq<G.State> := [];
      for s := 0 to |states|
        invariant OwnStates(names, states, tapes, s) == Ok(out)
        invariant cursor == |StateRecords(names, states, s)|
      {
        var rows;
        rows, cursor := ExpandState(s, tapes, cursor);
        if rows.Err? {
          StatesFail(names, states, tapes, s + 1, |states|);
          return Err(rows.error);
        }
        out := out + [G.State(states[s].name, states[s].line, rows.value)];
      }
      r := Ok(out);
    }
  }

  lemma NoRecords(names: Names, states: seq<SourceState>)
    ensures StateRecords(names, states, 0) == []
  {
  }

  lemma {:induction false} RuleRecordAt(names: Names, rules: seq<WrittenRule>, k: nat, n: nat)
    requires k < n <= |rules| && rules[k].transition.CallTo?
    ensures |RuleRecords(names, rules, k)| < |RuleRecords(names, rules, n)|
    ensures RuleRecords(names, rules, n)[|RuleRecords(names, rules, k)|] == RecordOf(names, rules[k].transition)
  {
    if k < n - 1 {
      RuleRecordAt(names, rules, k, n - 1);
    }
  }

  lemma {:induction false} StatePrefix(names: Names, states: seq<SourceState>, s: nat, n: nat)
    requires s <= n <= |states|
    ensures StateRecords(names, states, s) <= StateRecords(names, states, n)
  {
    if s < n {
      StatePrefix(names, states, s, n - 1);
    }
  }

  lemma NextState(names: Names, states: seq<SourceState>, s: nat)
    requires s < |states|
    ensures |StateRecords(names, states, s + 1)|
         == |StateRecords(names, states, s)| + |RuleRecords(names, states[s].rules, |states[s].rules|)|
  {
  }

  /** The record at a rule's place in the list is that rule's. */
  lemma RecordAt(names: Names, states: seq<SourceState>, s: nat, k: nat)
    requires s < |states| && k < |states[s].rules| && states[s].rules[k].transition.CallTo?
    ensures var at := |StateRecords(names, states, s)| + |RuleRecords(names, states[s].rules, k)|;
            && at < |StateRecords(names, states, |states|)|
            && StateRecords(names, states, |states|)[at] == RecordOf(names, states[s].rules[k].transition)
  {
    hide RecordOf;
    RuleRecordAt(names, states[s].rules, k, |states[s].rules|);
    StatePrefix(names, states, s + 1, |states|);
  }

  lemma {:induction false} RecordsPrefix(names: Names, a: seq<WrittenRule>, b: seq<WrittenRule>, n: nat)
    requires n <= |a| && n <= |b| && a[..n] == b[..n]
    ensures RuleRecords(names, a, n) == RuleRecords(names, b, n)
  {
    if n > 0 {
      assert a[n - 1] == a[..n][n - 1] == b[..n][n - 1] == b[n - 1];
      assert a[..n - 1] == a[..n][..n - 1] == b[..n][..n - 1] == b[..n - 1];
      RecordsPrefix(names, a, b, n - 1);
    }
  }

  lemma RecordsOneMore(names: Names, rules: seq<WrittenRule>, r: WrittenRule)
    ensures RuleRecords(names, rules + [r], |rules| + 1)
         == RuleRecords(names, rules, |rules|) + (if r.transition.CallTo? then [RecordOf(names, r.transition)] else [])
  {
    RecordsPrefix(names, rules + [r], rules, |rules|);
  }

  lemma {:induction false} StatesPrefix(names: Names, a: seq<SourceState>, b: seq<SourceState>, n: nat)
    requires n <= |a| && n <= |b| && a[..n] == b[..n]
    ensures StateRecords(names, a, n) == StateRecords(names, b, n)
  {
    if n > 0 {
      assert a[n - 1] == a[..n][n - 1] == b[..n][n - 1] == b[n - 1];
      assert a[..n - 1] == a[..n][..n - 1] == b[..n][..n - 1] == b[..n - 1];
      StatesPrefix(names, a, b, n - 1);
    }
  }

  lemma StateRecordsOneMore(names: Names, states: seq<SourceState>, st: SourceState)
    ensures StateRecords(names, states + [st], |states| + 1)
         == StateRecords(names, states, |states|) + RuleRecords(names, st.rules, |st.rules|)
  {
    StatesPrefix(names, states + [st], states, |states|);
  }

  lemma {:induction false} AllRowsFail(names: Names, state: string, rules: seq<WrittenRule>, tapes: seq<Glyphs>, k: nat, n: nat)
    requires k <= n <= |rules| && AllRows(names, state, rules, tapes, k).Err?
    ensures AllRows(names, state, rules, tapes, n) == AllRows(names, state, rules, tapes, k)
  {
    hide Rows;
    if k < n {
      AllRowsFail(names, state, rules, tapes, k, n - 1);
    }
  }

  lemma {:induction false} StatesFail(names: Names, states: seq<SourceState>, tapes: seq<Glyphs>, k: nat, n: nat)
    requires k <= n <= |states| && OwnStates(names, states, tapes, k).Err?
    ensures OwnStates(names, states, tapes, n) == OwnStates(names, states, tapes, k)
  {
    hide AllRows;
    if k < n {
      StatesFail(names, states, tapes, k, n - 1);
    }
  }
}
