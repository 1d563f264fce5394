/** A graft's binding arguments: the check that accepts an argument list, and the composite and
    continuations built from an accepted one.  An accepted list is all that splicing asks for. */
module TmBindings {
  import opened Options
  import opened TmRules
  import opened TmSplice
  import M = TmMaps
  import opened TmGraftKey
  import opened TmGrafts
  import H = TmHygiene
  import I = TmInside
  import D = TmDeep
  import S = TmSharing

  datatype ParamKind = TapeParam | StateParam

  type Param = (string, ParamKind)

  datatype Ending = ToCaller | ToStop | ToHalt

  /** A named target, maybe with a symbol map, or a way to end. */
  datatype Value = Named(target: string, pairs: Option<seq<M.Pair>>) | Terminator(ending: Ending)

  datatype Arg = Arg(name: string, value: Value)

  datatype ArgError =
    | DuplicateArg(name: string)
    | UnknownArg(name: string)
    | WrongArgKind(name: string)
    | UnresolvedTapeTarget(target: string)
    | UndefinedState(target: string)
    | DuplicateTapeTarget(first: string, second: string, target: string)
    | MissingArg(name: string)

  // ----- the check -----

  ghost predicate DistinctNames(params: seq<Param>)
  {
    forall i, k | 0 <= i < k < |params| :: params[i].0 != params[k].0
  }

  function KindOf(params: seq<Param>, i: nat, name: string): (r: Option<ParamKind>)
    requires i <= |params|
    ensures r.Some? ==> (name, r.value) in params
    ensures r.None? ==> forall k | i <= k < |params| :: params[k].0 != name
    decreases |params| - i
  {
    if i == |params| then None else if params[i].0 == name then Some(params[i].1) else KindOf(params, i + 1, name)
  }

  /** What is wrong with an argument's value for a parameter of this kind. */
  function KindError(a: Arg, kind: ParamKind, states: set<string>, tapes: set<string>): Option<ArgError>
  {
    match (kind, a.value)
    case (TapeParam, Named(target, _)) => if target in tapes then None else Some(UnresolvedTapeTarget(target))
    case (TapeParam, Terminator(_)) => Some(WrongArgKind(a.name))
    case (StateParam, Named(target, pairs)) =>
      if pairs.Some? then Some(WrongArgKind(a.name))
      else if target in states then None
      else Some(UndefinedState(target))
    case (StateParam, Terminator(_)) => None
  }

  /** A tape parameter takes a tape of the host; a state parameter one of its states, without a map, or an
      ending. */
  predicate Fits(v: Value, kind: ParamKind, states: set<string>, tapes: set<string>)
  {
    match kind
    case TapeParam => v.Named? && v.target in tapes
    case StateParam => v.Terminator? || (v.pairs.None? && v.target in states)
  }

  predicate WrongFor(a: Arg, kind: ParamKind, states: set<string>, tapes: set<string>, e: ArgError)
  {
    match e
    case WrongArgKind(name) => a.name == name
      && (if kind.TapeParam? then a.value.Terminator? else a.value.Named? && a.value.pairs.Some?)
    case UnresolvedTapeTarget(target) => kind.TapeParam? && a.value.Named? && a.value.target == target && target !in tapes
    case UndefinedState(target) =>
      kind.StateParam? && a.value.Named? && a.value.pairs.None? && a.value.target == target && target !in states
    case _ => false
  }

  lemma KindErrorIs(a: Arg, kind: ParamKind, states: set<string>, tapes: set<string>)
    ensures var e := KindError(a, kind, states, tapes);
            (e.None? <==> Fits(a.value, kind, states, tapes)) && (e.Some? ==> WrongFor(a, kind, states, tapes, e.value))
  {
  }

  /** What is wrong for a parameter does not fit it. */
  lemma WrongUnfit(a: Arg, kind: ParamKind, states: set<string>, tapes: set<string>, e: ArgError)
    requires WrongFor(a, kind, states, tapes, e)
    ensures !Fits(a.value, kind, states, tapes)
  {
  }

  ghost predicate TakesTape(params: seq<Param>, a: Arg, target: string)
  {
    KindOf(params, 0, a.name) == Some(TapeParam) && a.value.Named? && a.value.target == target
  }

  /** Argument k is no repetition, names a parameter, fits its kind, and shares no tape with an earlier
      one. */
  ghost predicate ArgFits(params: seq<Param>, args: seq<Arg>, states: set<string>, tapes: set<string>, k: nat)
    requires k < |args|
  {
    && (forall i | 0 <= i < k :: args[i].name != args[k].name)
    && KindOf(params, 0, args[k].name).Some?
    && Fits(args[k].value, KindOf(params, 0, args[k].name).value, states, tapes)
    && (forall i, target | 0 <= i < k && TakesTape(params, args[k], target) :: !TakesTape(params, args[i], target))
  }

  ghost predicate Supplied(args: seq<Arg>, name: string)
  {
    exists k :: 0 <= k < |args| && args[k].name == name
  }

  /** Every argument fits, and every parameter has one. */
  ghost predicate Bound(params: seq<Param>, args: seq<Arg>, states: set<string>, tapes: set<string>)
  {
    && (forall k | 0 <= k < |args| :: ArgFits(params, args, states, tapes, k))
    && (forall p | p in params :: Supplied(args, p.0))
  }

  /** The error is about the first argument that does not fit, or the first parameter without one. */
  ghost predicate Explains(params: seq<Param>, args: seq<Arg>, states: set<string>, tapes: set<string>, e: ArgError)
  {
    match e
    case MissingArg(name) =>
      && (forall k | 0 <= k < |args| :: ArgFits(params, args, states, tapes, k))
      && exists k :: 0 <= k < |params| && params[k].0 == name && !Supplied(args, name)
           && forall i | 0 <= i < k :: Supplied(args, params[i].0)
    case _ => exists k: nat ::
      && k < |args| && (forall i: nat | i < k :: ArgFits(params, args, states, tapes, i))
      && Blames(params, args, states, tapes, k, e)
  }

  ghost predicate Blames(params: seq<Param>, args: seq<Arg>, states: set<string>, tapes: set<string>, k: nat, e: ArgError)
    requires k < |args|
  {
    var a := args[k];
    match e
    case MissingArg(_) => false
    case DuplicateArg(name) => a.name == name && exists i :: 0 <= i < k && args[i].name == name
    case UnknownArg(name) => a.name == name && forall p | p in params :: p.0 != name
    case DuplicateTapeTarget(first, second, target) =>
      a.name == second && TakesTape(params, a, target)
      && exists i :: 0 <= i < k && args[i].name == first && TakesTape(params, args[i], target)
    case _ => KindOf(params, 0, a.name).Some? && WrongFor(a, KindOf(params, 0, a.name).value, states, tapes, e)
  }

  method CheckBindingArgs(params: seq<Param>, args: seq<Arg>, states: set<string>, tapes: set<string>)
    returns (r: Option<ArgError>)
    ensures r.None? <==> Bound(params, args, states, tapes)
    ensures r.Some? ==> Explains(params, args, states, tapes, r.value)
  {
    hide KindError, KindOf, Fits, WrongFor;
    var seen: set<string> := {};
    var claimed: map<string, string> := map[];
    for k := 0 to |args|
      invariant forall i: nat | i < k :: ArgFits(params, args, states, tapes, i)
      invariant forall n :: n in seen <==> exists i :: 0 <= i < k && args[i].name == n
      invariant forall t :: t in claimed <==> exists i :: 0 <= i < k && TakesTape(params, args[i], t)
      invariant forall t | t in claimed ::
                  exists i :: 0 <= i < k && args[i].name == claimed[t] && TakesTape(params, args[i], t)
    {
      var a := args[k];
      if a.name in seen {
        assert Blames(params, args, states, tapes, k, DuplicateArg(a.name));
        BlamedUnfit(params, args, states, tapes, k, DuplicateArg(a.name));
        return Some(DuplicateArg(a.name));
      }
      seen := seen + {a.name};
      var kind := KindOf(params, 0, a.name);
      if kind.None? {
        NoParam(params, a.name);
        assert Blames(params, args, states, tapes, k, UnknownArg(a.name));
        BlamedUnfit(params, args, states, tapes, k, UnknownArg(a.name));
        return Some(UnknownArg(a.name));
      }
      var wrong := KindError(a, kind.value, states, tapes);
      KindErrorIs(a, kind.value, states, tapes);
      if wrong.Some? {
        WrongKind(a, kind.value, states, tapes, wrong.value);
        assert Blames(params, args, states, tapes, k, wrong.value);
        BlamedUnfit(params, args, states, tapes, k, wrong.value);
        return wrong;
      }
      if kind.value == TapeParam && a.value.Named? {
        var target := a.value.target;
        if target in claimed {
          assert Blames(params, args, states, tapes, k, DuplicateTapeTarget(claimed[target], a.name, target));
          BlamedUnfit(params, args, states, tapes, k, DuplicateTapeTarget(claimed[target], a.name, target));
          return Some(DuplicateTapeTarget(claimed[target], a.name, target));
        }
        assert TakesTape(params, a, target);
        claimed := claimed[target := a.name];
      }
      assert ArgFits(params, args, states, tapes, k);
    }
    for k := 0 to |params|
      invariant forall i | 0 <= i < k :: Supplied(args, params[i].0)
    {
      if params[k].0 !in seen {
        assert params[k] in params;
        return Some(MissingArg(params[k].0));
      }
    }
    r := None;
  }

  lemma BlamedUnfit(params: seq<Param>, args: seq<Arg>, states: set<string>, tapes: set<string>, k: nat, e: ArgError)
    requires k < |args| && Blames(params, args, states, tapes, k, e)
    ensures !ArgFits(params, args, states, tapes, k)
  {
    hide Fits, WrongFor, KindOf;
    var kind := KindOf(params, 0, args[k].name);
    if e.UnknownArg? {
      KindListed(params, args[k].name);
    } else if kind.Some? && WrongFor(args[k], kind.value, states, tapes, e) {
      WrongUnfit(args[k], kind.value, states, tapes, e);
    }
  }

  lemma KindListed(params: seq<Param>, name: string)
    ensures KindOf(params, 0, name).Some? ==> (name, KindOf(params, 0, name).value) in params
  {
  }

  lemma NoParam(params: seq<Param>, name: string)
    requires KindOf(params, 0, name).None?
    ensures forall p | p in params :: p.0 != name
  {
  }

  lemma WrongKind(a: Arg, kind: ParamKind, states: set<string>, tapes: set<string>, e: ArgError)
    requires WrongFor(a, kind, states, tapes, e)
    ensures e.WrongArgKind? || e.UnresolvedTapeTarget? || e.UndefinedState?
  {
  }

  // ----- the composite -----

  /** A tape with its alphabet. */
  datatype Tape = Tape(name: string, glyphs: seq<string>)

  function ArgNamed(args: seq<Arg>, i: nat, name: string): (r: Option<Value>)
    requires i <= |args|
    decreases |args| - i
  {
    if i == |args| then None else if args[i].name == name then Some(args[i].value) else ArgNamed(args, i + 1, name)
  }

  function TapeIndex(host: seq<Tape>, i: nat, name: string): (r: Option<nat>)
    requires i <= |host|
    ensures r.Some? ==> i <= r.value < |host| && host[r.value].name == name
    ensures r.None? ==> forall k | i <= k < |host| :: host[k].name != name
    decreases |host| - i
  {
    if i == |host| then None else if host[i].name == name then Some(i) else TapeIndex(host, i + 1, name)
  }

  function EndingOf(e: Ending): Transition
  {
    match e
    case ToCaller => Return
    case ToStop => Stop
    case ToHalt => Halt
  }

  function ContinuationOf(v: Value): Transition
  {
    match v
    case Named(target, _) => Goto(target)
    case Terminator(e) => EndingOf(e)
  }

  /** Where an argument says to go on: a state by its name, or an ending. */
  predicate LeadsTo(v: Value, t: Transition)
  {
    match v
    case Named(target, _) => t == Goto(target)
    case Terminator(ToCaller) => t.Return?
    case Terminator(ToStop) => t.Stop?
    case Terminator(ToHalt) => t.Halt?
  }

  function NamesIn(tapes: seq<Tape>): set<string>
  {
    set k | 0 <= k < |tapes| :: tapes[k].name
  }

  /** The graph's tapes and state parameters are its parameters, by kind. */
  ghost predicate Signature(params: seq<Param>, tapes: seq<Tape>, stateParams: seq<string>)
  {
    && DistinctNames(params)
    && (forall k | 0 <= k < |tapes| :: (tapes[k].name, TapeParam) in params)
    && (forall k | 0 <= k < |stateParams| :: (stateParams[k], StateParam) in params)
    && (forall i, k | 0 <= i < k < |tapes| :: tapes[i].name != tapes[k].name)
  }

  /** A graph tape is placed on the host tape its argument names, through the map the argument writes. */
  ghost predicate Places(args: seq<Arg>, host: seq<Tape>, tape: Tape, t: TapeMap)
  {
    exists value: Value :: ArgNamed(args, 0, tape.name) == Some(value) && PlacesOn(value, host, tape, t)
  }

  /** Its argument's map is legal between the two alphabets. */
  ghost predicate Placeable(args: seq<Arg>, host: seq<Tape>, tape: Tape)
  {
    exists t :: Places(args, host, tape, t)
  }

  ghost predicate PlacesOn(value: Value, host: seq<Tape>, tape: Tape, t: TapeMap)
  {
    && value.Named? && t.phys < |host| && TapeIndex(host, 0, value.target) == Some(t.phys)
    && M.Accepts(value.pairs, host[t.phys].glyphs, tape.glyphs)
    && t == M.Built(value.pairs, t.phys, host[t.phys].glyphs, tape.glyphs)
  }

  /** A state parameter continues where its argument says. */
  ghost predicate Continues(args: seq<Arg>, cont: seq<Bind>, param: string)
  {
    && ArgNamed(args, 0, param).Some? && FindBind(cont, 0, param).Some?
    && LeadsTo(ArgNamed(args, 0, param).value, FindBind(cont, 0, param).value)
  }

  ghost predicate EndsWithin(cont: seq<Bind>, states: set<string>)
  {
    forall b | b in cont :: H.IsEnding(b.1) || (b.1.Goto? && b.1.name in states)
  }

  /** The composite and the continuations of an accepted argument list; fails exactly when some tape's
      map is not legal. */
  method BuildComposite(params: seq<Param>, args: seq<Arg>, states: set<string>, host: seq<Tape>, tapes: seq<Tape>,
                        stateParams: seq<string>)
    returns (r: M.Result<(Composite, seq<Bind>)>)
    requires Signature(params, tapes, stateParams) && Bound(params, args, states, NamesIn(host))
    requires Small(host) && Small(tapes)
    ensures r.Ok? <==> forall k | 0 <= k < |tapes| :: Placeable(args, host, tapes[k])
    ensures r.Ok? ==> |r.value.0| == |tapes| && forall k | 0 <= k < |tapes| :: Places(args, host, tapes[k], r.value.0[k])
    ensures r.Ok? ==> Placed(r.value.0, |host|)
    ensures r.Ok? ==> forall k | 0 <= k < |stateParams| :: Continues(args, r.value.1, stateParams[k])
    ensures r.Ok? ==> EndsWithin(r.value.1, states) && forall b | b in r.value.1 :: b.0 in stateParams
  {
    hide Bound, M.Built, M.Accepts, Signature, TapeIndex, ArgNamed;
    var comp: Composite := [];
    for k := 0 to |tapes|
      invariant |comp| == k && forall i: nat | i < k :: Places(args, host, tapes[i], comp[i])
    {
      TapeArgument(params, args, states, host, tapes, stateParams, k);
      var value := ArgNamed(args, 0, tapes[k].name).value;
      var phys := TapeIndex(host, 0, value.target).value;
      var t := M.BuildTapeMap(value.pairs, phys, host[phys].glyphs, tapes[k].glyphs);
      if t.Err? {
        NotPlaced(args, host, tapes[k], value, phys);
        return M.Err(t.error);
      }
      BuiltHere(value.pairs, phys, host[phys].glyphs, tapes[k].glyphs);
      assert PlacesOn(value, host, tapes[k], t.value);
      comp := comp + [t.value];
    }
    ApartOnHost(params, args, states, host, tapes, stateParams, comp);
    var cont: seq<Bind> := [];
    for k := 0 to |stateParams|
      invariant forall i | 0 <= i < k :: Continues(args, cont, stateParams[i])
      invariant EndsWithin(cont, states) && forall b | b in cont :: b.0 in stateParams
    {
      StateArgument(params, args, states, host, tapes, stateParams, k);
      var value := ArgNamed(args, 0, stateParams[k]).value;
      var longer := Inserted(cont, stateParams[k], ContinuationOf(value));
      InsertedFinds(args, cont, stateParams, k, ContinuationOf(value));
      InsertedEnds(cont, stateParams[k], ContinuationOf(value), states);
      cont := longer;
    }
    r := M.Ok((comp, cont));
  }

  lemma NotPlaced(args: seq<Arg>, host: seq<Tape>, tape: Tape, value: Value, phys: nat)
    requires ArgNamed(args, 0, tape.name) == Some(value) && value.Named? && phys < |host|
    requires TapeIndex(host, 0, value.target) == Some(phys) && !M.Accepts(value.pairs, host[phys].glyphs, tape.glyphs)
    ensures !Placeable(args, host, tape)
  {
  }

  ghost predicate Small(tapes: seq<Tape>)
  {
    forall k | 0 <= k < |tapes| :: |tapes[k].glyphs| < SYMBOL_LIMIT
  }

  /** A later insertion replaces an earlier one. */
  function Inserted(cont: seq<Bind>, name: string, t: Transition): seq<Bind>
  {
    [(name, t)] + cont
  }

  lemma InsertedFinds(args: seq<Arg>, cont: seq<Bind>, stateParams: seq<string>, k: nat, t: Transition)
    requires k < |stateParams| && forall i | 0 <= i < k :: Continues(args, cont, stateParams[i])
    requires ArgNamed(args, 0, stateParams[k]).Some? && t == ContinuationOf(ArgNamed(args, 0, stateParams[k]).value)
    ensures forall i | 0 <= i <= k :: Continues(args, Inserted(cont, stateParams[k], t), stateParams[i])
  {
    hide ArgNamed;
    forall i | 0 <= i <= k ensures Continues(args, Inserted(cont, stateParams[k], t), stateParams[i]) {
      FindInserted(cont, stateParams[k], t, stateParams[i]);
    }
  }

  lemma FindInserted(cont: seq<Bind>, name: string, t: Transition, wanted: string)
    ensures FindBind(Inserted(cont, name, t), 0, wanted) == if wanted == name then Some(t) else FindBind(cont, 0, wanted)
  {
    FindShift((name, t), cont, 0, wanted);
  }

  lemma {:induction false} FindShift(first: Bind, cont: seq<Bind>, i: nat, wanted: string)
    requires i <= |cont|
    ensures FindBind([first] + cont, i + 1, wanted) == FindBind(cont, i, wanted)
    decreases |cont| - i
  {
    if i < |cont| && cont[i].0 != wanted {
      FindShift(first, cont, i + 1, wanted);
    }
  }

  lemma InsertedEnds(cont: seq<Bind>, name: string, t: Transition, states: set<string>)
    requires EndsWithin(cont, states) && (H.IsEnding(t) || (t.Goto? && t.name in states))
    ensures EndsWithin(Inserted(cont, name, t), states)
  {
  }

  lemma BuiltHere(pairs: Option<seq<M.Pair>>, phys: nat, host: seq<string>, graph: seq<string>)
    requires M.Accepts(pairs, host, graph)
    ensures var t := M.Built(pairs, phys, host, graph); t.phys == phys && t.hostCard == |host| && t.graphCard == |graph|
  {
  }

  // ----- what the check guarantees -----

  lemma {:induction false} ArgNamedIs(args: seq<Arg>, i: nat, k: nat)
    requires i <= k < |args| && forall j | 0 <= j < k :: args[j].name != args[k].name
    ensures ArgNamed(args, i, args[k].name) == Some(args[k].value)
    decreases k - i
  {
    if i < k {
      ArgNamedIs(args, i + 1, k);
    }
  }

  lemma {:induction false} KindIs(params: seq<Param>, i: nat, p: Param)
    requires DistinctNames(params) && i <= |params| && p in params[i..]
    ensures KindOf(params, i, p.0) == Some(p.1)
    decreases |params| - i
  {
    if params[i] != p {
      assert params[i..] == [params[i]] + params[i + 1..];
      assert p in params[i + 1..];
      KindIs(params, i + 1, p);
    }
  }

  /** An accepted list has an argument of the right kind for every parameter. */
  lemma Argument(params: seq<Param>, args: seq<Arg>, states: set<string>, tapes: set<string>, p: Param) returns (k: nat)
    requires DistinctNames(params) && Bound(params, args, states, tapes) && p in params
    ensures k < |args| && args[k].name == p.0 && ArgFits(params, args, states, tapes, k)
    ensures ArgNamed(args, 0, p.0) == Some(args[k].value)
    ensures KindOf(params, 0, p.0) == Some(p.1) && Fits(args[k].value, p.1, states, tapes)
  {
    hide KindOf, Fits, ArgNamed;
    assert Supplied(args, p.0);
    k :| 0 <= k < |args| && args[k].name == p.0;
    assert ArgFits(params, args, states, tapes, k);
    assert params[0..] == params;
    KindIs(params, 0, p);
    ArgNamedIs(args, 0, k);
  }

  lemma TapeArgument(params: seq<Param>, args: seq<Arg>, states: set<string>, host: seq<Tape>, tapes: seq<Tape>,
                     stateParams: seq<string>, k: nat)
    requires Signature(params, tapes, stateParams) && Bound(params, args, states, NamesIn(host)) && k < |tapes|
    ensures var value := ArgNamed(args, 0, tapes[k].name);
            value.Some? && value.value.Named? && TapeIndex(host, 0, value.value.target).Some?
  {
    hide ArgNamed, Bound, KindOf, TapeIndex;
    var i := Argument(params, args, states, NamesIn(host), (tapes[k].name, TapeParam));
    OnHost(host, args[i].value);
  }

  lemma OnHost(host: seq<Tape>, value: Value)
    requires value.Named? && value.target in NamesIn(host)
    ensures TapeIndex(host, 0, value.target).Some?
  {
    hide TapeIndex;
    var k :| 0 <= k < |host| && host[k].name == value.target;
  }

  lemma StateArgument(params: seq<Param>, args: seq<Arg>, states: set<string>, host: seq<Tape>, tapes: seq<Tape>,
                      stateParams: seq<string>, k: nat)
    requires Signature(params, tapes, stateParams) && Bound(params, args, states, NamesIn(host)) && k < |stateParams|
    ensures var value := ArgNamed(args, 0, stateParams[k]);
            && value.Some?
            && var t := ContinuationOf(value.value); H.IsEnding(t) || (t.Goto? && t.name in states)
  {
    hide ArgNamed, Bound, KindOf;
    var i := Argument(params, args, states, NamesIn(host), (stateParams[k], StateParam));
  }

  /** No two graph tapes share a host tape. */
  lemma ApartOnHost(params: seq<Param>, args: seq<Arg>, states: set<string>, host: seq<Tape>, tapes: seq<Tape>,
                    stateParams: seq<string>, comp: Composite)
    requires Signature(params, tapes, stateParams) && Bound(params, args, states, NamesIn(host)) && Small(host)
    requires |comp| == |tapes| && forall k: nat | k < |tapes| :: Places(args, host, tapes[k], comp[k])
    ensures Placed(comp, |host|)
  {
    hide Bound, Signature, M.Built, M.Accepts, TapeIndex, ArgNamed;
    forall k: nat | k < |comp| ensures comp[k].phys < |host| && comp[k].hostCard < SYMBOL_LIMIT {
      var value :| ArgNamed(args, 0, tapes[k].name) == Some(value) && PlacesOn(value, host, tapes[k], comp[k]);
      BuiltHere(value.pairs, comp[k].phys, host[comp[k].phys].glyphs, tapes[k].glyphs);
    }
    forall i: nat, k: nat | i < k < |comp| ensures comp[i].phys != comp[k].phys {
      TargetsApart(params, args, states, host, tapes, stateParams, i, k);
    }
  }

  lemma TargetsApart(params: seq<Param>, args: seq<Arg>, states: set<string>, host: seq<Tape>, tapes: seq<Tape>,
                     stateParams: seq<string>, i: nat, k: nat)
    requires Signature(params, tapes, stateParams) && Bound(params, args, states, NamesIn(host)) && i < k < |tapes|
    ensures var a, b := ArgNamed(args, 0, tapes[i].name), ArgNamed(args, 0, tapes[k].name);
            a.Some? && b.Some? && a.value.Named? && b.value.Named? && a.value.target != b.value.target
  {
    hide ArgNamed, Bound, KindOf;
    var m := Argument(params, args, states, NamesIn(host), (tapes[i].name, TapeParam));
    var n := Argument(params, args, states, NamesIn(host), (tapes[k].name, TapeParam));
    assert TakesTape(params, args[m], args[m].value.target) && TakesTape(params, args[n], args[n].value.target);
  }

  /** An accepted graft is one that expansion is ready for. */
  lemma AcceptedGraftResolved(graphs: Graphs, w: World, g: Graft, params: seq<Param>, args: seq<Arg>, host: seq<Tape>,
                              tapes: seq<Tape>)
    requires g.target in graphs && |host| == w.arity && |tapes| == graphs[g.target].arity
    requires Signature(params, tapes, graphs[g.target].params) && Bound(params, args, Reserved(w), NamesIn(host))
    requires |g.comp| == |tapes| && Placed(g.comp, |host|) && EndsWithin(g.cont, Reserved(w))
    requires forall k | 0 <= k < |graphs[g.target].params| :: Continues(args, g.cont, graphs[g.target].params[k])
    ensures H.GraftResolved(graphs, w, g)
  {
    hide Reserved, Signature, Bound, Placed;
    forall p | p in graphs[g.target].params ensures FindBind(g.cont, 0, p).Some? {
      var k :| 0 <= k < |graphs[g.target].params| && graphs[g.target].params[k] == p;
      assert Continues(args, g.cont, graphs[g.target].params[k]);
    }
  }

  function CardsOf(tapes: seq<Tape>): (cards: seq<nat>)
    ensures |cards| == |tapes| && forall k | 0 <= k < |tapes| :: cards[k] == |tapes[k].glyphs|
  {
    seq(|tapes|, (k: nat) requires k < |tapes| => |tapes[k].glyphs|)
  }

  /** It is bound between the sizes of the host's and the graph's alphabets, for state parameters only. */
  lemma AcceptedGraftFits(graphs: Graphs, sizes: D.CardMap, g: Graft, args: seq<Arg>, host: seq<Tape>, tapes: seq<Tape>)
    requires S.Keyed(g) && g.target in graphs && g.target in sizes && sizes[g.target] == CardsOf(tapes)
    requires |g.comp| == |tapes| && Placed(g.comp, |host|)
             && forall k: nat | k < |tapes| :: Places(args, host, tapes[k], g.comp[k])
    requires forall b | b in g.cont :: b.0 in graphs[g.target].params
    ensures D.GraftFits(graphs, sizes, g) && I.OnTapes(g.comp, CardsOf(host))
  {
    hide M.Built, M.Accepts, TapeIndex, ArgNamed, Placed;
    forall k: nat | k < |g.comp|
      ensures g.comp[k].phys < |host| && g.comp[k].hostCard == |host[g.comp[k].phys].glyphs|
              && g.comp[k].graphCard == |tapes[k].glyphs|
    {
      var value :| ArgNamed(args, 0, tapes[k].name) == Some(value) && PlacesOn(value, host, tapes[k], g.comp[k]);
      BuiltHere(value.pairs, g.comp[k].phys, host[g.comp[k].phys].glyphs, tapes[k].glyphs);
    }
  }
}
