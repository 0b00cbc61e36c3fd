/**
 * The smoothing filter as values: how one intercepted G0/G1 code is classified,
 * how a steady-state move is rewritten into a midpoint move and a restored move,
 * and what a whole run of codes produces. The class in engine.dfy is proved to
 * do exactly this, in place.
 */
module Smoothing {
  import opened Wrappers
  import opened DuetApi

  /** The filter's memory: the last commanded X and Y, and the last file position seen. */
  datatype EngineState = EngineState(x: Option<real>, y: Option<real>, lastFilePosition: Option<int>)

  /** Nothing is known when the filter starts. */
  const Initial := EngineState(None, None, None)

  /** The three ways a code is treated. */
  datatype Kind = Irrelevant | NewStream | Steady

  /** How a code that was handled to the end is disposed of. */
  datatype Disposition =
    | PassThrough                                      // the code runs as it was received
    | Replace(midpoint: seq<Param>, restored: seq<Param>) // two codes run instead, then the original is resolved

  /** One step either completes, or a parameter that cannot be read as a number ends the process. */
  datatype StepResult = Next(state: EngineState, disposition: Disposition) | Crash

  /** C#'s lifted `<` on nullable integers: false when either side is null. */
  predicate LiftedLess(a: Option<int>, b: Option<int>)
  {
    a.Some? && b.Some? && a.value < b.value
  }

  /** A code the filter looks at: not from a macro, and carrying an X or a Y. */
  predicate Relevant(cmd: Command)
  {
    !cmd.isFromMacro && (Lookup(cmd.params, 'X').Some? || Lookup(cmd.params, 'Y').Some?)
  }

  /** The classification of a code against the current state. */
  function Classify(st: EngineState, cmd: Command): (k: Kind)
    ensures k == Irrelevant <==>
      cmd.isFromMacro || forall j :: 0 <= j < |cmd.params| ==> cmd.params[j].letter !in {'X', 'Y'}
    ensures k == NewStream <==>
      k != Irrelevant &&
      (st.lastFilePosition.None? || st.x.None? || st.y.None? ||
       (cmd.filePosition.Some? && cmd.filePosition.value < st.lastFilePosition.value))
    // an equal file position is not a restart
    ensures (k != Irrelevant && st.x.Some? && st.y.Some? && st.lastFilePosition.Some? &&
             cmd.filePosition == st.lastFilePosition) ==> k == Steady
  {
    if !Relevant(cmd) then Irrelevant
    else if st.lastFilePosition.None? || LiftedLess(cmd.filePosition, st.lastFilePosition)
            || st.x.None? || st.y.None? then NewStream
    else Steady
  }

  /** Every parameter with this letter can be converted to a number. */
  predicate NumericAxis(ps: seq<Param>, letter: char)
  {
    forall j :: 0 <= j < |ps| && ps[j].letter == letter ==> AsNumber(ps[j].value).Some?
  }

  /** Every X and every Y parameter can be converted to a number. */
  predicate Convertible(ps: seq<Param>)
  {
    NumericAxis(ps, 'X') && NumericAxis(ps, 'Y')
  }

  function Num(p: Param): real
    requires AsNumber(p.value).Some?
  {
    AsNumber(p.value).value
  }

  /** The state of the interpolation pass: the list rewritten so far, the running x and y, and whether anything moved. */
  datatype Interpolation = Interpolation(params: seq<Param>, x: real, y: real, moved: bool)

  /**
   * The interpolation pass, slot by slot from the left: each X becomes the midpoint of
   * the running x and its own value, which then becomes the running x; Y likewise.
   */
  function Interpolate(ps: seq<Param>, x: real, y: real): Interpolation
    requires Convertible(ps)
    decreases |ps|
  {
    if ps == [] then Interpolation([], x, y, false)
    else InterpolateStep(Interpolate(ps[..|ps| - 1], x, y), ps[|ps| - 1])
  }

  /** One slot of the interpolation pass. */
  function InterpolateStep(acc: Interpolation, p: Param): Interpolation
    requires p.letter in {'X', 'Y'} ==> AsNumber(p.value).Some?
  {
    if p.letter == 'X' then
      Interpolation(acc.params + [Param('X', Float((acc.x + Num(p)) / 2.0))], Num(p), acc.y, true)
    else if p.letter == 'Y' then
      Interpolation(acc.params + [Param('Y', Float((acc.y + Num(p)) / 2.0))], acc.x, Num(p), true)
    else
      Interpolation(acc.params + [p], acc.x, acc.y, acc.moved)
  }

  /** The value of the last parameter with this letter, or `prior` when there is none. */
  function LastValue(ps: seq<Param>, letter: char, prior: real): real
    requires NumericAxis(ps, letter)
    decreases |ps|
  {
    if ps == [] then prior
    else if ps[|ps| - 1].letter == letter then Num(ps[|ps| - 1])
    else LastValue(ps[..|ps| - 1], letter, prior)
  }

  /** What slot i of the midpoint instruction holds before E is halved, stated without the running state. */
  function MidpointAt(ps: seq<Param>, i: nat, x: real, y: real): Param
    requires i < |ps| && Convertible(ps)
  {
    assert Convertible(ps[..i]);
    if ps[i].letter == 'X' then Param('X', Float((LastValue(ps[..i], 'X', x) + Num(ps[i])) / 2.0))
    else if ps[i].letter == 'Y' then Param('Y', Float((LastValue(ps[..i], 'Y', y) + Num(ps[i])) / 2.0))
    else ps[i]
  }

  /** The code carries an X or a Y somewhere. */
  predicate HasAxis(ps: seq<Param>)
  {
    exists j :: 0 <= j < |ps| && ps[j].letter in {'X', 'Y'}
  }

  /**
   * The interpolation pass keeps the length and the letters, puts the midpoint of the
   * previous and the commanded coordinate into every X and Y slot, leaves every other
   * slot alone, ends with the last commanded (not the halved) X and Y, and reports a
   * move exactly when the code carries an X or a Y.
   */
  lemma {:induction false} InterpolateCorrect(ps: seq<Param>, x: real, y: real)
    requires Convertible(ps)
    ensures var r := Interpolate(ps, x, y);
      && |r.params| == |ps|
      && (forall i :: 0 <= i < |ps| ==> r.params[i] == MidpointAt(ps, i, x, y))
      && r.x == LastValue(ps, 'X', x)
      && r.y == LastValue(ps, 'Y', y)
      && (r.moved <==> HasAxis(ps))
    decreases |ps|
  {
    if ps != [] {
      var n := |ps| - 1;
      var q := ps[..n];
      assert Convertible(q);
      InterpolateCorrect(q, x, y);
      var acc := Interpolate(q, x, y);
      var r := Interpolate(ps, x, y);
      forall i | 0 <= i < |ps|
        ensures r.params[i] == MidpointAt(ps, i, x, y)
      {
        if i < n {
          assert q[..i] == ps[..i];
          assert r.params[i] == acc.params[i] == MidpointAt(q, i, x, y);
        } else {
          assert ps[..i] == q;
        }
      }
      if HasAxis(q) {
        var j :| 0 <= j < |q| && q[j].letter in {'X', 'Y'};
        assert ps[j] == q[j];
      }
      if HasAxis(ps) && !HasAxis(q) {
        assert ps[n].letter in {'X', 'Y'};
      }
    }
  }

  /** A pass that moved nothing has left the list as it was. */
  lemma {:induction false} UnmovedIsIdentity(ps: seq<Param>, x: real, y: real)
    requires Convertible(ps)
    ensures !Interpolate(ps, x, y).moved ==> Interpolate(ps, x, y).params == ps
    decreases |ps|
  {
    if ps != [] {
      var n := |ps| - 1;
      assert Convertible(ps[..n]);
      UnmovedIsIdentity(ps[..n], x, y);
      assert ps == ps[..n] + [ps[n]];
    }
  }

  /** The Select over an E list: every amount halved, length and order kept. */
  function HalveAll(fs: seq<real>): (r: seq<real>)
    ensures |r| == |fs|
    ensures forall i :: 0 <= i < |fs| ==> r[i] == fs[i] / 2.0
  {
    if fs == [] then [] else [fs[0] / 2.0] + HalveAll(fs[1..])
  }

  /** An E parameter halved: a single float or every float of a list; any other type is kept. */
  function HalveE(p: Param): Param
  {
    match p.value
    case Float(f) => Param('E', Float(f / 2.0))
    case FloatList(fs) => Param('E', FloatList(HalveAll(fs)))
    case Other(_) => p
  }

  /** The E pass: the first E parameter halved, and nothing else changed. */
  function HalveFirstE(ps: seq<Param>): (r: seq<Param>)
    ensures |r| == |ps|
    ensures forall j :: (0 <= j < |ps| && ps[j].letter == 'E' &&
      forall k :: 0 <= k < j ==> ps[k].letter != 'E') ==> r[j] == HalveE(ps[j])
    ensures forall j :: 0 <= j < |ps| && ps[j].letter != 'E' ==> r[j] == ps[j]
    ensures forall j, k :: 0 <= k < j < |ps| && ps[k].letter == 'E' ==> r[j] == ps[j]
  {
    var k := FirstIndex(ps, 'E');
    if k < |ps| then ps[k := HalveE(ps[k])] else ps
  }

  /** One slot of the restore pass: X and Y set to the current state, everything else kept. */
  function RestoreParam(p: Param, x: real, y: real): Param
  {
    if p.letter == 'X' then Param('X', Float(x))
    else if p.letter == 'Y' then Param('Y', Float(y))
    else p
  }

  /** The restore pass over the whole list. */
  function Restore(ps: seq<Param>, x: real, y: real): seq<Param>
  {
    seq(|ps|, j requires 0 <= j < |ps| => RestoreParam(ps[j], x, y))
  }

  /** The axis value the code brings on a new stream: its first such parameter, if it has one. */
  function Adopt(ps: seq<Param>, letter: char, prior: Option<real>): Option<real>
  {
    var p := Lookup(ps, letter);
    if p.Some? then AsNumber(p.value.value) else prior
  }

  /** The first parameter with this letter exists and cannot be converted to a number. */
  predicate FirstNotNumber(ps: seq<Param>, letter: char)
  {
    var k := FirstIndex(ps, letter);
    k < |ps| && AsNumber(ps[k].value).None?
  }

  /** The decision for one intercepted code. */
  function Step(st: EngineState, cmd: Command): StepResult
  {
    match Classify(st, cmd)
    case Irrelevant => Next(st, PassThrough)
    case NewStream => NewStreamStep(st, cmd)
    case Steady => SteadyStep(st, cmd)
  }

  /** The start of a print, or a rewound file: the axes the code carries become the baseline. */
  function NewStreamStep(st: EngineState, cmd: Command): StepResult
  {
    var px := Lookup(cmd.params, 'X');
    var py := Lookup(cmd.params, 'Y');
    if (px.Some? && AsNumber(px.value.value).None?) || (py.Some? && AsNumber(py.value.value).None?) then Crash
    else Next(EngineState(Adopt(cmd.params, 'X', st.x), Adopt(cmd.params, 'Y', st.y), cmd.filePosition), PassThrough)
  }

  /** A following move: interpolate, halve the first E, restore. */
  function SteadyStep(st: EngineState, cmd: Command): StepResult
    requires st.x.Some? && st.y.Some?
  {
    if !Convertible(cmd.params) then Crash
    else
      var it := Interpolate(cmd.params, st.x.value, st.y.value);
      var next := EngineState(Some(it.x), Some(it.y), cmd.filePosition);
      if it.moved then
        var midpoint := HalveFirstE(it.params);
        Next(next, Replace(midpoint, Restore(midpoint, it.x, it.y)))
      else
        // nothing to interpolate (SteadyRewrite shows this cannot happen)
        Next(next, PassThrough)
  }

  /** What each of the three paths of `Step` does to the state, and when it crashes. */
  lemma StepCases(st: EngineState, cmd: Command)
    // a macro code, or one with neither X nor Y, passes through and changes nothing
    ensures Classify(st, cmd) == Irrelevant ==> Step(st, cmd) == Next(st, PassThrough)
    // a new stream passes through; a carried axis takes the code's first value for it, one the code lacks keeps its value
    ensures var r := Step(st, cmd);
      Classify(st, cmd) == NewStream ==>
      (r.Crash? <==> FirstNotNumber(cmd.params, 'X') || FirstNotNumber(cmd.params, 'Y')) &&
      (r.Next? ==> r.disposition == PassThrough && r.state.lastFilePosition == cmd.filePosition &&
                   ((forall j :: 0 <= j < |cmd.params| ==> cmd.params[j].letter != 'X') ==> r.state.x == st.x) &&
                   ((forall j :: 0 <= j < |cmd.params| ==> cmd.params[j].letter != 'Y') ==> r.state.y == st.y) &&
                   (FirstIndex(cmd.params, 'X') < |cmd.params| ==>
                      r.state.x == AsNumber(cmd.params[FirstIndex(cmd.params, 'X')].value)) &&
                   (FirstIndex(cmd.params, 'Y') < |cmd.params| ==>
                      r.state.y == AsNumber(cmd.params[FirstIndex(cmd.params, 'Y')].value)) &&
                   r.state.x.Some? == (st.x.Some? || Lookup(cmd.params, 'X').Some?) &&
                   r.state.y.Some? == (st.y.Some? || Lookup(cmd.params, 'Y').Some?))
    // in steady state the only failure is an X or Y that is not a number
    ensures var r := Step(st, cmd);
      Classify(st, cmd) == Steady ==>
      (r.Crash? <==> !Convertible(cmd.params)) &&
      (r.Next? ==> r.state.lastFilePosition == cmd.filePosition && r.state.x.Some? && r.state.y.Some?)
  {
  }

  /** The parameter list the intercepted code object holds once a step is done. */
  function ParamsAfter(d: Disposition, ps: seq<Param>): seq<Param>
  {
    match d
    case PassThrough => ps
    case Replace(_, restored) => restored
  }

  /** The connection calls a disposition makes. */
  function Actions(d: Disposition): seq<Action>
  {
    match d
    case PassThrough => [IgnoreCode]
    case Replace(m, r) => [PerformCode(m), PerformCode(r), ResolveSuccess]
  }

  /** Slot i of the midpoint instruction of a code carrying ps, against the previous x and y. */
  function MidpointSlot(ps: seq<Param>, i: nat, x: real, y: real): Param
    requires i < |ps| && Convertible(ps)
  {
    if i == FirstIndex(ps, 'E') then HalveE(ps[i]) else MidpointAt(ps, i, x, y)
  }

  /** Slot i of the restored instruction: the last commanded X and Y, the first E halved, the rest as received. */
  function RestoredSlot(ps: seq<Param>, i: nat, x: real, y: real): Param
    requires i < |ps| && Convertible(ps)
  {
    if ps[i].letter == 'X' then Param('X', Float(LastValue(ps, 'X', x)))
    else if ps[i].letter == 'Y' then Param('Y', Float(LastValue(ps, 'Y', y)))
    else if i == FirstIndex(ps, 'E') then HalveE(ps[i])
    else ps[i]
  }

  /** A relevant code carries an X or a Y. */
  lemma RelevantHasAxis(cmd: Command)
    requires Relevant(cmd)
    ensures HasAxis(cmd.params)
  {
    var ps := cmd.params;
    var k := if Lookup(ps, 'X').Some? then FirstIndex(ps, 'X') else FirstIndex(ps, 'Y');
    assert ps[k].letter in {'X', 'Y'};
  }

  /** Two lists with the same letters slot by slot have their first E in the same place. */
  lemma SameFirstE(a: seq<Param>, b: seq<Param>)
    requires |a| == |b| && forall i :: 0 <= i < |a| ==> a[i].letter == b[i].letter
    ensures FirstIndex(a, 'E') == FirstIndex(b, 'E')
  {
  }

  /** The midpoint instruction, slot by slot, in closed form. */
  lemma MidpointSlots(ps: seq<Param>, x: real, y: real)
    requires Convertible(ps)
    ensures var m := HalveFirstE(Interpolate(ps, x, y).params);
      |m| == |ps| && forall i :: 0 <= i < |ps| ==> m[i] == MidpointSlot(ps, i, x, y)
  {
    InterpolateCorrect(ps, x, y);
    var it := Interpolate(ps, x, y).params;
    forall i | 0 <= i < |ps| ensures it[i].letter == ps[i].letter {
      assert it[i] == MidpointAt(ps, i, x, y);
    }
    SameFirstE(it, ps);
    var e := FirstIndex(ps, 'E');
    if e < |ps| {
      assert it[e] == MidpointAt(ps, e, x, y) == ps[e];
    }
  }

  /** The restored instruction, slot by slot, in closed form. */
  lemma RestoredSlots(ps: seq<Param>, x: real, y: real)
    requires Convertible(ps)
    ensures var it := Interpolate(ps, x, y);
      var r := Restore(HalveFirstE(it.params), it.x, it.y);
      |r| == |ps| && forall i :: 0 <= i < |ps| ==> r[i] == RestoredSlot(ps, i, x, y)
  {
    InterpolateCorrect(ps, x, y);
    MidpointSlots(ps, x, y);
    var it := Interpolate(ps, x, y);
    var m := HalveFirstE(it.params);
    forall i | 0 <= i < |ps|
      ensures RestoreParam(m[i], it.x, it.y) == RestoredSlot(ps, i, x, y)
    {
      assert m[i] == MidpointSlot(ps, i, x, y);
    }
  }

  /** A steady-state move whose X and Y are numbers takes the replacing branch of `SteadyStep`. */
  lemma SteadyReplaces(st: EngineState, cmd: Command)
    requires Classify(st, cmd) == Steady && Convertible(cmd.params)
    ensures var it := Interpolate(cmd.params, st.x.value, st.y.value);
      var m := HalveFirstE(it.params);
      Step(st, cmd) == Next(EngineState(Some(it.x), Some(it.y), cmd.filePosition), Replace(m, Restore(m, it.x, it.y)))
  {
    InterpolateCorrect(cmd.params, st.x.value, st.y.value);
    RelevantHasAxis(cmd);
  }

  /**
   * A steady-state move whose X and Y are numbers is always replaced, never passed through:
   * the first instruction holds midpoints and the first E halved, the second holds the
   * commanded targets and the same halved E, both keep every letter in its place (so an
   * axis the code lacks is absent from both), and the new state is the commanded target.
   */
  lemma SteadyRewrite(st: EngineState, cmd: Command)
    requires Classify(st, cmd) == Steady && Convertible(cmd.params)
    ensures var ps := cmd.params;
      && var r := Step(st, cmd);
      && r.Next? && r.disposition.Replace?
      && r.state == EngineState(Some(LastValue(ps, 'X', st.x.value)), Some(LastValue(ps, 'Y', st.y.value)), cmd.filePosition)
      && |r.disposition.midpoint| == |ps| && |r.disposition.restored| == |ps|
      && (forall i :: 0 <= i < |ps| ==>
            r.disposition.midpoint[i] == MidpointSlot(ps, i, st.x.value, st.y.value) &&
            r.disposition.restored[i] == RestoredSlot(ps, i, st.x.value, st.y.value))
      && (forall i :: 0 <= i < |ps| ==>
            r.disposition.midpoint[i].letter == ps[i].letter && r.disposition.restored[i].letter == ps[i].letter)
  {
    var ps := cmd.params;
    var x, y := st.x.value, st.y.value;
    SteadyReplaces(st, cmd);
    InterpolateCorrect(ps, x, y);
    MidpointSlots(ps, x, y);
    RestoredSlots(ps, x, y);
    forall i | 0 <= i < |ps|
      ensures MidpointSlot(ps, i, x, y).letter == ps[i].letter && RestoredSlot(ps, i, x, y).letter == ps[i].letter
    {
      if i != FirstIndex(ps, 'E') {
        assert MidpointSlot(ps, i, x, y) == MidpointAt(ps, i, x, y);
      }
    }
  }

  /** The outcome of feeding a sequence of codes to the filter. */
  datatype RunResult = RunResult(state: EngineState, trace: seq<Action>, handled: nat, crashed: bool)

  /** The codes handled one after another, until a crash ends the process. */
  function Run(st: EngineState, cmds: seq<Command>): RunResult
    decreases |cmds|
  {
    if cmds == [] then RunResult(st, [], 0, false)
    else match Step(st, cmds[0])
      case Crash => RunResult(st, [], 0, true)
      case Next(next, d) => Extend(Actions(d), 1, Run(next, cmds[1..]))
  }

  /** A run preceded by some already-made calls and already-handled codes. */
  function Extend(prefix: seq<Action>, n: nat, r: RunResult): RunResult
  {
    RunResult(r.state, prefix + r.trace, n + r.handled, r.crashed)
  }

  /**
   * A run split after `n` handled codes, advanced by one more code: a crash ends it there,
   * otherwise the code's calls join the prefix.
   */
  lemma RunAdvance(st0: EngineState, cmds: seq<Command>, prefix: seq<Action>, n: nat, st: EngineState)
    requires n < |cmds|
    requires Run(st0, cmds) == Extend(prefix, n, Run(st, cmds[n..]))
    ensures Step(st, cmds[n]).Crash? ==> Run(st0, cmds) == RunResult(st, prefix, n, true)
    ensures Step(st, cmds[n]).Next? ==>
      Run(st0, cmds) == Extend(prefix + Actions(Step(st, cmds[n]).disposition), n + 1,
                               Run(Step(st, cmds[n]).state, cmds[n + 1..]))
  {
    var rest := cmds[n..];
    assert rest[0] == cmds[n] && rest[1..] == cmds[n + 1..];
    match Step(st, cmds[n])
    case Crash =>
    case Next(next, d) =>
      var r := Run(next, cmds[n + 1..]);
      assert prefix + (Actions(d) + r.trace) == (prefix + Actions(d)) + r.trace;
  }

  /** A trace made of complete dispositions: a single IgnoreCode, or two PerformCodes and a ResolveSuccess. */
  predicate WellFormed(t: seq<Action>)
    decreases |t|
  {
    t == [] ||
    (t[0] == IgnoreCode && WellFormed(t[1..])) ||
    (|t| >= 3 && t[0].PerformCode? && t[1].PerformCode? && t[2] == ResolveSuccess && WellFormed(t[3..]))
  }

  /** How many codes a trace disposes of: its IgnoreCode and ResolveSuccess calls. */
  function Dispositions(t: seq<Action>): nat
    decreases |t|
  {
    if t == [] then 0
    else (if t[0].PerformCode? then 0 else 1) + Dispositions(t[1..])
  }

  /**
   * Every handled code gets exactly one disposition: the trace splits into complete
   * blocks, one per handled code; without a crash every code is handled.
   */
  lemma {:induction false} OneDispositionPerCode(st: EngineState, cmds: seq<Command>)
    ensures var r := Run(st, cmds);
      && WellFormed(r.trace)
      && Dispositions(r.trace) == r.handled
      && r.handled <= |cmds|
      && (!r.crashed ==> r.handled == |cmds|)
    decreases |cmds|
  {
    if cmds != [] {
      match Step(st, cmds[0])
      case Crash =>
      case Next(next, d) =>
        OneDispositionPerCode(next, cmds[1..]);
        var rest := Run(next, cmds[1..]).trace;
        var t := Actions(d) + rest;
        match d
        case PassThrough =>
          assert t[1..] == rest;
        case Replace(m, rr) =>
          var t1 := t[1..];
          var t2 := t1[1..];
          assert t2[0] == ResolveSuccess && t2[1..] == rest;
          assert Dispositions(t) == Dispositions(t1) == Dispositions(t2) == 1 + Dispositions(rest);
    }
  }

  /** Every code has a file position, none before `p`, and the positions never decrease. */
  predicate NondecreasingFrom(p: int, cmds: seq<Command>)
  {
    (forall i :: 0 <= i < |cmds| ==> cmds[i].filePosition.Some? && p <= cmds[i].filePosition.value) &&
    (forall i, j :: 0 <= i < j < |cmds| ==> cmds[i].filePosition.value <= cmds[j].filePosition.value)
  }

  /** How each code of a run was classified, up to a crash. */
  function Kinds(st: EngineState, cmds: seq<Command>): seq<Kind>
    decreases |cmds|
  {
    if cmds == [] then []
    else match Step(st, cmds[0])
      case Crash => []
      case Next(next, _) => [Classify(st, cmds[0])] + Kinds(next, cmds[1..])
  }

  /**
   * Once x, y and the file position are all known, a stream whose positions do not
   * decrease never restarts: every code after that point is irrelevant or steady.
   */
  lemma {:induction false} SteadyOnceEstablished(st: EngineState, cmds: seq<Command>)
    requires st.x.Some? && st.y.Some? && st.lastFilePosition.Some?
    requires NondecreasingFrom(st.lastFilePosition.value, cmds)
    ensures forall i :: 0 <= i < |Kinds(st, cmds)| ==> Kinds(st, cmds)[i] != NewStream
    decreases |cmds|
  {
    if cmds != [] {
      var c := cmds[0];
      assert c.filePosition.Some? && st.lastFilePosition.value <= c.filePosition.value;
      match Step(st, c)
      case Crash =>
      case Next(next, _) =>
        var k := Classify(st, c);
        assert k != NewStream;
        assert next.x.Some? && next.y.Some? && next.lastFilePosition.Some?;
        assert next.lastFilePosition.value <= c.filePosition.value;
        var rest := cmds[1..];
        forall i | 0 <= i < |rest|
          ensures rest[i].filePosition.Some? && next.lastFilePosition.value <= rest[i].filePosition.value
        {
          assert rest[i] == cmds[i + 1];
        }
        assert NondecreasingFrom(next.lastFilePosition.value, rest);
        SteadyOnceEstablished(next, rest);
    }
  }
}
