/**
 * The interception loop as it runs: an engine whose three fields carry the state
 * from one intercepted code to the next, and which rewrites each code's parameter
 * list in place before handing it to the connection. Each method is proved to do
 * what the value-level definitions in module Smoothing say.
 */
module AutoSegmentation {
  import opened Wrappers
  import opened DuetApi
  import opened Smoothing

  class Engine {
    var x: Option<real>
    var y: Option<real>
    var lastFilePosition: Option<int>

    /** Nothing is known before the first code. */
    constructor ()
      ensures State() == Initial
    {
      x, y, lastFilePosition := None, None, None;
    }

    /** The engine's fields as a value. */
    function State(): EngineState
      reads this
    {
      EngineState(x, y, lastFilePosition)
    }

    /**
     * One pass of the loop body for a received code: pass it through, or send a midpoint
     * code and a restored code and resolve the original. Returns false when an X or Y
     * parameter cannot be read as a number, which ends the process; the state and the
     * parameters are then no longer of interest, and no call was made on the connection.
     */
    method Process(conn: Connection, code: Code) returns (ok: bool)
      modifies this, conn, code.parameters
      ensures var r := Step(old(State()), old(code.AsCommand()));
        && (ok <==> r.Next?)
        && (ok ==> State() == r.state
                   && code.parameters[..] == ParamsAfter(r.disposition, old(code.parameters[..]))
                   && conn.log == old(conn.log) + Actions(r.disposition))
        && (!ok ==> conn.log == old(conn.log))
    {
      var ps := code.parameters;
      if !code.isFromMacro && (Lookup(ps[..], 'X').Some? || Lookup(ps[..], 'Y').Some?) {
        if lastFilePosition.None? || LiftedLess(code.filePosition, lastFilePosition) || x.None? || y.None? {
          ok := StartStream(conn, code);
        } else {
          ok := Smooth(conn, code);
        }
      } else {
        // A code from a macro, or one without X and Y
        conn.IgnoreCode();
        ok := true;
      }
    }

    /** The first move(s) of a print, or a rewound file: adopt the axes the code carries and pass it through. */
    method StartStream(conn: Connection, code: Code) returns (ok: bool)
      modifies this, conn
      ensures var r := NewStreamStep(old(State()), code.AsCommand());
        && (ok <==> r.Next?)
        && (ok ==> State() == r.state && conn.log == old(conn.log) + Actions(r.disposition))
        && (!ok ==> conn.log == old(conn.log))
    {
      var ps := code.parameters;
      var px := Lookup(ps[..], 'X');
      if px.Some? {
        var v := AsNumber(px.value.value);
        if v.None? {
          return false;
        }
        x := v;
      }
      var py := Lookup(ps[..], 'Y');
      if py.Some? {
        var v := AsNumber(py.value.value);
        if v.None? {
          return false;
        }
        y := v;
      }
      lastFilePosition := code.filePosition;
      conn.IgnoreCode();
      ok := true;
    }

    /** A following move: rewrite the code in place into the midpoint code and the restored code. */
    method Smooth(conn: Connection, code: Code) returns (ok: bool)
      requires x.Some? && y.Some?
      modifies this, conn, code.parameters
      ensures var r := SteadyStep(old(State()), old(code.AsCommand()));
        && (ok <==> r.Next?)
        && (ok ==> State() == r.state
                   && code.parameters[..] == ParamsAfter(r.disposition, old(code.parameters[..]))
                   && conn.log == old(conn.log) + Actions(r.disposition))
        && (!ok ==> conn.log == old(conn.log))
    {
      ghost var st := State();
      var ps := code.parameters;
      ghost var received := ps[..];
      ghost var cmd := code.AsCommand();
      ghost var log0 := conn.log;
      lastFilePosition := code.filePosition;
      // Interpolate X and Y
      var converted, moved := InterpolateAxes(ps);
      if !converted {
        assert SteadyStep(st, cmd) == Crash;
        return false;
      }
      ghost var it := Interpolate(received, st.x.value, st.y.value);
      ghost var next := EngineState(Some(it.x), Some(it.y), cmd.filePosition);
      assert State() == next;
      if !moved {
        // Nothing to interpolate
        UnmovedIsIdentity(received, st.x.value, st.y.value);
        assert SteadyStep(st, cmd) == Next(next, PassThrough);
        conn.IgnoreCode();
        return true;
      }
      HalveFirstAmount(ps);
      ghost var midpoint := ps[..];
      // Send the interpolated code
      conn.PerformCode(code);
      assert conn.log == log0 + [PerformCode(midpoint)];
      // Restore X and Y to the commanded targets and send the code again
      RestoreAxes(ps, x.value, y.value);
      ghost var restored := ps[..];
      conn.PerformCode(code);
      assert conn.log == log0 + [PerformCode(midpoint), PerformCode(restored)];
      // Resolve the intercepted code
      conn.ResolveCode();
      assert conn.log == log0 + Actions(Replace(midpoint, restored));
      assert SteadyStep(st, cmd) == Next(next, Replace(midpoint, restored));
      ok := true;
    }

    /**
     * The interpolation pass in place: every X slot gets the midpoint of the running x and
     * its value, which becomes the running x; Y likewise. Fails, as the source's conversion
     * throws, at the first X or Y that is not a number.
     */
    method InterpolateAxes(ps: array<Param>) returns (ok: bool, moved: bool)
      requires x.Some? && y.Some?
      modifies this`x, this`y, ps
      ensures ok <==> Convertible(old(ps[..]))
      ensures ok ==>
        var it := Interpolate(old(ps[..]), old(x).value, old(y).value);
        ps[..] == it.params && x == Some(it.x) && y == Some(it.y) && moved == it.moved
    {
      ghost var received := ps[..];
      ghost var x0, y0 := x.value, y.value;
      moved := false;
      var i := 0;
      while i < ps.Length
        invariant 0 <= i <= ps.Length
        invariant x.Some? && y.Some?
        invariant Convertible(received[..i])
        invariant Interpolate(received[..i], x0, y0) == Interpolation(ps[..i], x.value, y.value, moved)
        invariant forall j :: i <= j < ps.Length ==> ps[j] == received[j]
      {
        var param := ps[i];
        ghost var acc := Interpolation(ps[..i], x.value, y.value, moved);
        if param.letter in {'X', 'Y'} && AsNumber(param.value).None? {
          assert !Convertible(received);
          return false, moved;
        }
        assert received[..i + 1][..i] == received[..i] && received[..i + 1][i] == param;
        assert Convertible(received[..i + 1]);
        if param.letter == 'X' {
          var v := AsNumber(param.value);
          ps[i] := Param('X', Float((x.value + v.value) / 2.0));
          x := v;
          moved := true;
        }
        if param.letter == 'Y' {
          var v := AsNumber(param.value);
          ps[i] := Param('Y', Float((y.value + v.value) / 2.0));
          y := v;
          moved := true;
        }
        assert ps[..i + 1] == acc.params + [ps[i]];
        i := i + 1;
      }
      assert received[..ps.Length] == received && ps[..ps.Length] == ps[..];
      ok := true;
    }

    /** One iteration of the loop: the code arrives as a fresh object and is processed. */
    method Receive(conn: Connection, c: Command) returns (ok: bool)
      modifies this, conn
      ensures var r := Step(old(State()), c);
        && (ok <==> r.Next?)
        && (ok ==> State() == r.state && conn.log == old(conn.log) + Actions(r.disposition))
        && (!ok ==> conn.log == old(conn.log))
    {
      var code := new Code(c);
      ok := Process(conn, code);
    }

    /**
     * The receive loop over a finite sequence of codes: each is received as a fresh
     * code object and processed, until the codes run out or a crash ends the process.
     */
    method Serve(conn: Connection, codes: seq<Command>) returns (handled: nat, crashed: bool)
      modifies this, conn
      ensures var r := Run(old(State()), codes);
        && handled == r.handled && crashed == r.crashed
        && conn.log == old(conn.log) + r.trace
        && (!crashed ==> State() == r.state)
    {
      ghost var st0 := State();
      ghost var sent: seq<Action> := [];
      handled, crashed := 0, false;
      while handled < |codes|
        invariant handled <= |codes|
        invariant conn.log == old(conn.log) + sent
        invariant Run(st0, codes) == Extend(sent, handled, Run(State(), codes[handled..]))
      {
        ghost var r := Step(State(), codes[handled]);
        RunAdvance(st0, codes, sent, handled, State());
        var ok := Receive(conn, codes[handled]);
        if !ok {
          crashed := true;
          return;
        }
        sent := sent + Actions(r.disposition);
        handled := handled + 1;
      }
      assert codes[handled..] == [];
    }
  }

  /** The E pass in place: the first E parameter is halved and the search stops there. */
  method HalveFirstAmount(ps: array<Param>)
    modifies ps
    ensures ps[..] == HalveFirstE(old(ps[..]))
  {
    ghost var interpolated := ps[..];
    var i := 0;
    while i < ps.Length
      invariant 0 <= i <= ps.Length
      invariant forall j :: 0 <= j < i ==> ps[j].letter != 'E'
      invariant ps[..] == interpolated
    {
      var param := ps[i];
      if param.letter == 'E' {
        match param.value {
          case Float(f) =>
            ps[i] := Param('E', Float(f / 2.0));
          case FloatList(eVals) =>
            ps[i] := Param('E', FloatList(HalveAll(eVals)));
          case Other(_) =>
        }
        assert FirstIndex(interpolated, 'E') == i;
        assert ps[..] == HalveFirstE(interpolated);
        break;
      }
      i := i + 1;
    }
    if i == ps.Length {
      assert FirstIndex(interpolated, 'E') == |interpolated|;
    }
  }

  /** The restore pass in place: every X slot set to x and every Y slot to y. */
  method RestoreAxes(ps: array<Param>, x: real, y: real)
    modifies ps
    ensures ps[..] == Restore(old(ps[..]), x, y)
  {
    ghost var midpoint := ps[..];
    var i := 0;
    while i < ps.Length
      invariant 0 <= i <= ps.Length
      invariant forall j :: 0 <= j < i ==> ps[j] == RestoreParam(midpoint[j], x, y)
      invariant forall j :: i <= j < ps.Length ==> ps[j] == midpoint[j]
    {
      var param := ps[i];
      if param.letter == 'X' {
        ps[i] := Param('X', Float(x));
      } else if param.letter == 'Y' {
        ps[i] := Param('Y', Float(y));
      }
      i := i + 1;
    }
    assert ps[..] == Restore(midpoint, x, y);
  }
}
