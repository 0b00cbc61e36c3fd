/** Worked cases of the filter on concrete codes, each checked against the definitions in Smoothing. */
module Scenarios {
  import opened Wrappers
  import opened DuetApi
  import opened Smoothing

  /** The three passes on X14 Y28 E2 from x = 10, y = 20. */
  lemma MidpointLawPasses()
    ensures var ps := [Param('X', Float(14.0)), Param('Y', Float(28.0)), Param('E', Float(2.0))];
      var it := [Param('X', Float(12.0)), Param('Y', Float(24.0)), Param('E', Float(2.0))];
      var m := [Param('X', Float(12.0)), Param('Y', Float(24.0)), Param('E', Float(1.0))];
      && Interpolate(ps, 10.0, 20.0) == Interpolation(it, 14.0, 28.0, true)
      && HalveFirstE(it) == m
      && Restore(m, 14.0, 28.0) == [Param('X', Float(14.0)), Param('Y', Float(28.0)), Param('E', Float(1.0))]
  {
    var ps := [Param('X', Float(14.0)), Param('Y', Float(28.0)), Param('E', Float(2.0))];
    var it := [Param('X', Float(12.0)), Param('Y', Float(24.0)), Param('E', Float(2.0))];
    assert ps[..2][..1] == ps[..1] && ps[..1][..0] == [];
    assert Interpolate(ps[..1], 10.0, 20.0) == Interpolation(it[..1], 14.0, 20.0, true);
    assert Interpolate(ps[..2], 10.0, 20.0) == Interpolation(it[..2], 14.0, 28.0, true);
    assert FirstIndex(it, 'E') == 2 by {
      assert it[1..][1..] == [it[2]];
    }
  }

  /** After x = 10, y = 20, the move X14 Y28 E2 becomes X12 Y24 E1, then X14 Y28 E1, and the state is the target. */
  lemma MidpointLaw()
    ensures Step(EngineState(Some(10.0), Some(20.0), Some(100)),
                 Command(false, Some(120), [Param('X', Float(14.0)), Param('Y', Float(28.0)), Param('E', Float(2.0))]))
         == Next(EngineState(Some(14.0), Some(28.0), Some(120)),
                 Replace([Param('X', Float(12.0)), Param('Y', Float(24.0)), Param('E', Float(1.0))],
                         [Param('X', Float(14.0)), Param('Y', Float(28.0)), Param('E', Float(1.0))]))
  {
    var st := EngineState(Some(10.0), Some(20.0), Some(100));
    var cmd := Command(false, Some(120), [Param('X', Float(14.0)), Param('Y', Float(28.0)), Param('E', Float(2.0))]);
    assert Classify(st, cmd) == Steady && Convertible(cmd.params);
    SteadyReplaces(st, cmd);
    MidpointLawPasses();
  }

  /** The three passes on Y30 E2 from x = 10, y = 20. */
  lemma SingleAxisMovePasses()
    ensures var ps := [Param('Y', Float(30.0)), Param('E', Float(2.0))];
      var it := [Param('Y', Float(25.0)), Param('E', Float(2.0))];
      var m := [Param('Y', Float(25.0)), Param('E', Float(1.0))];
      && Interpolate(ps, 10.0, 20.0) == Interpolation(it, 10.0, 30.0, true)
      && HalveFirstE(it) == m
      && Restore(m, 10.0, 30.0) == [Param('Y', Float(30.0)), Param('E', Float(1.0))]
  {
    var ps := [Param('Y', Float(30.0)), Param('E', Float(2.0))];
    var it := [Param('Y', Float(25.0)), Param('E', Float(2.0))];
    assert ps[..1][..0] == [];
    assert Interpolate(ps[..1], 10.0, 20.0) == Interpolation(it[..1], 10.0, 30.0, true);
    assert FirstIndex(it, 'E') == 1 by {
      assert it[1..] == [it[1]];
    }
  }

  /** A move with only Y interpolates only Y; X stays absent from both codes and stays 10 in the state. */
  lemma SingleAxisMove()
    ensures Step(EngineState(Some(10.0), Some(20.0), Some(100)),
                 Command(false, Some(120), [Param('Y', Float(30.0)), Param('E', Float(2.0))]))
         == Next(EngineState(Some(10.0), Some(30.0), Some(120)),
                 Replace([Param('Y', Float(25.0)), Param('E', Float(1.0))],
                         [Param('Y', Float(30.0)), Param('E', Float(1.0))]))
  {
    var st := EngineState(Some(10.0), Some(20.0), Some(100));
    var cmd := Command(false, Some(120), [Param('Y', Float(30.0)), Param('E', Float(2.0))]);
    assert Classify(st, cmd) == Steady && Convertible(cmd.params);
    SteadyReplaces(st, cmd);
    SingleAxisMovePasses();
  }

  /** The three passes on X14 E[2, 4] from x = 10, y = 20. */
  lemma MultiExtruderAmountsPasses()
    ensures var ps := [Param('X', Float(14.0)), Param('E', FloatList([2.0, 4.0]))];
      var it := [Param('X', Float(12.0)), Param('E', FloatList([2.0, 4.0]))];
      var m := [Param('X', Float(12.0)), Param('E', FloatList([1.0, 2.0]))];
      && Interpolate(ps, 10.0, 20.0) == Interpolation(it, 14.0, 20.0, true)
      && HalveFirstE(it) == m
      && Restore(m, 14.0, 20.0) == [Param('X', Float(14.0)), Param('E', FloatList([1.0, 2.0]))]
  {
    var ps := [Param('X', Float(14.0)), Param('E', FloatList([2.0, 4.0]))];
    var it := [Param('X', Float(12.0)), Param('E', FloatList([2.0, 4.0]))];
    assert ps[..1][..0] == [];
    assert Interpolate(ps[..1], 10.0, 20.0) == Interpolation(it[..1], 14.0, 20.0, true);
    assert FirstIndex(it, 'E') == 1 by {
      assert it[1..] == [it[1]];
    }
    assert HalveAll([2.0, 4.0]) == [1.0, 2.0];
  }

  /** A list of E amounts is halved element by element, and the second code keeps the halved list. */
  lemma MultiExtruderAmounts()
    ensures Step(EngineState(Some(10.0), Some(20.0), Some(100)),
                 Command(false, Some(120), [Param('X', Float(14.0)), Param('E', FloatList([2.0, 4.0]))]))
         == Next(EngineState(Some(14.0), Some(20.0), Some(120)),
                 Replace([Param('X', Float(12.0)), Param('E', FloatList([1.0, 2.0]))],
                         [Param('X', Float(14.0)), Param('E', FloatList([1.0, 2.0]))]))
  {
    var st := EngineState(Some(10.0), Some(20.0), Some(100));
    var cmd := Command(false, Some(120), [Param('X', Float(14.0)), Param('E', FloatList([2.0, 4.0]))]);
    assert Classify(st, cmd) == Steady && Convertible(cmd.params);
    SteadyReplaces(st, cmd);
    MultiExtruderAmountsPasses();
  }

  /** A file position behind the last one is a restart: the code passes through and becomes the new baseline. */
  lemma RewoundFile()
    ensures Step(EngineState(Some(10.0), Some(20.0), Some(100)),
                 Command(false, Some(40), [Param('X', Float(3.0))]))
         == Next(EngineState(Some(3.0), Some(20.0), Some(40)), PassThrough)
  {
  }

  /** The three passes on E2 X4 E6 from x = 0, y = 0. */
  lemma OnlyFirstAmountPasses()
    ensures var ps := [Param('E', Float(2.0)), Param('X', Float(4.0)), Param('E', Float(6.0))];
      var it := [Param('E', Float(2.0)), Param('X', Float(2.0)), Param('E', Float(6.0))];
      var m := [Param('E', Float(1.0)), Param('X', Float(2.0)), Param('E', Float(6.0))];
      && Interpolate(ps, 0.0, 0.0) == Interpolation(it, 4.0, 0.0, true)
      && HalveFirstE(it) == m
      && Restore(m, 4.0, 0.0) == [Param('E', Float(1.0)), Param('X', Float(4.0)), Param('E', Float(6.0))]
  {
    var ps := [Param('E', Float(2.0)), Param('X', Float(4.0)), Param('E', Float(6.0))];
    var it := [Param('E', Float(2.0)), Param('X', Float(2.0)), Param('E', Float(6.0))];
    assert ps[..2][..1] == ps[..1] && ps[..1][..0] == [];
    assert Interpolate(ps[..1], 0.0, 0.0) == Interpolation(it[..1], 0.0, 0.0, false);
    assert Interpolate(ps[..2], 0.0, 0.0) == Interpolation(it[..2], 4.0, 0.0, true);
    assert FirstIndex(it, 'E') == 0;
  }

  /** Only the first E is halved; a second E is sent as received. */
  lemma OnlyFirstAmount()
    ensures Step(EngineState(Some(0.0), Some(0.0), Some(1)),
                 Command(false, Some(1), [Param('E', Float(2.0)), Param('X', Float(4.0)), Param('E', Float(6.0))]))
         == Next(EngineState(Some(4.0), Some(0.0), Some(1)),
                 Replace([Param('E', Float(1.0)), Param('X', Float(2.0)), Param('E', Float(6.0))],
                         [Param('E', Float(1.0)), Param('X', Float(4.0)), Param('E', Float(6.0))]))
  {
    var st := EngineState(Some(0.0), Some(0.0), Some(1));
    var cmd := Command(false, Some(1), [Param('E', Float(2.0)), Param('X', Float(4.0)), Param('E', Float(6.0))]);
    assert Classify(st, cmd) == Steady && Convertible(cmd.params);
    SteadyReplaces(st, cmd);
    OnlyFirstAmountPasses();
  }

  /** The three passes on X2 from x = 0, y = 0. */
  lemma MissingFilePositionPasses()
    ensures var ps := [Param('X', Float(2.0))];
      && Interpolate(ps, 0.0, 0.0) == Interpolation([Param('X', Float(1.0))], 2.0, 0.0, true)
      && HalveFirstE([Param('X', Float(1.0))]) == [Param('X', Float(1.0))]
      && Restore([Param('X', Float(1.0))], 2.0, 0.0) == ps
  {
    var ps := [Param('X', Float(2.0))];
    assert ps[..0] == [];
    assert FirstIndex([Param('X', Float(1.0))], 'E') == 1;
  }

  /** A code without a file position is steady once the state is known, and then clears the position. */
  lemma MissingFilePosition()
    ensures Step(EngineState(Some(0.0), Some(0.0), Some(7)),
                 Command(false, None, [Param('X', Float(2.0))]))
         == Next(EngineState(Some(2.0), Some(0.0), None),
                 Replace([Param('X', Float(1.0))], [Param('X', Float(2.0))]))
  {
    var st := EngineState(Some(0.0), Some(0.0), Some(7));
    var cmd := Command(false, None, [Param('X', Float(2.0))]);
    assert Classify(st, cmd) == Steady && Convertible(cmd.params);
    SteadyReplaces(st, cmd);
    MissingFilePositionPasses();
  }
}
