/** Days on which the holding bridge leaves something unexplained though nothing was lost. */
module BridgeExamples {
  import opened AnalysisModel
  import opened Bridges
  import opened Sums

  /** A holding valued in its own currency. */
  function Fund(): Context {
    Context("H", "USD", "USD", false, false, (currency: string, at: int) => None)
  }

  function Position(native: real, price: real): Item {
    Item(Some(native), "USD", Some(price), None)
  }

  /** Units taken away by a reconciliation, counted at their carrying value. */
  function TakenAway(activity: string, quantity: real): Effect {
    Effect(activity, 0, None, true, Some("H"), Some(quantity), None, HoldingQuantity, true, Remeasurement, None,
           Some(Adjustment), false, true, -quantity)
  }

  function Bought(activity: string, quantity: real, unitPrice: real): Effect {
    Effect(activity, 0, Some(Trade("H", false, quantity, unitPrice, quantity * unitPrice, "USD")), false, Some("H"),
           Some(quantity), None, HoldingQuantity,
           false, OtherClassification, None, Some(ExternalFlow), false, true, quantity * unitPrice)
  }

  lemma WalkOfTwo(ctx: Context, start: Walk, x: Effect, y: Effect)
    ensures WalkEffects(ctx, start, [x, y]) == WalkEffect(ctx, WalkEffect(ctx, start, x), y)
    ensures WalkEffects(ctx, start, [x]) == WalkEffect(ctx, start, x)
  {
    hide WalkEffect;
    assert [x, y][..1] == [x] && [x][..0] == [];
    assert WalkEffects(ctx, start, [x]) == WalkEffect(ctx, WalkEffects(ctx, start, []), x);
  }

  /** A reverse split of two to one, recorded as the removal of thirty and then of twenty of a
      hundred units. Neither removal is a restatement by itself, so each is counted at its carrying
      value; together they are one, and the day has no price change. The value of the position did
      not move, and yet fifty are counted out of it. */
  lemma SplitRecordedAsRemovals()
    ensures var ctx, previous, current := Fund(), Position(100.0, 1.0), Position(100.0, 2.0);
            var effects := [TakenAway("A", 30.0), TakenAway("B", 20.0)];
            && PathDay(ctx, previous, current, effects) && ReadsAsSplit(ctx, previous, current, effects)
            && (forall i :: 0 <= i < 2 ==> !IsRestatement(ctx, [effects[i]], 100.0, 50.0, 1.0, 2.0))
            && HoldingBridge(ctx, previous, current, effects) == ZERO_BRIDGE
            && ItemValue(ctx, current) - ItemValue(ctx, previous) - SumOver(effects, Counted()) == 50.0
  {
    hide SumOver, WalkEffects, IsRestatement, FinalSegments, HoldingBridge;
    var ctx, previous, current := Fund(), Position(100.0, 1.0), Position(100.0, 2.0);
    var x, y := TakenAway("A", 30.0), TakenAway("B", 20.0);
    var effects := [x, y];
    var start := Walk([Segment(100.0, 1.0, None)], 100.0, 0.0, {});
    var w := Walk([Segment(100.0, 1.0, None)], 50.0, 50.0, {});
    assert InferredQuantity(previous) == 100.0 && InferredQuantity(current) == 50.0;
    assert OpeningWalk(ctx, previous) == start;
    assert WalkEffect(ctx, start, x) == Walk([Segment(100.0, 1.0, None)], 70.0, 30.0, {});
    assert WalkEffect(ctx, WalkEffect(ctx, start, x), y) == w;
    WalkOfTwo(ctx, start, x, y);
    RemovalsAreASplit(ctx, x, y);
    RestatedToNothing(ctx, w, effects);
    SumOfTwoOrThree(effects, Counted());
    assert Counted()(x) == -30.0 && Counted()(y) == -20.0;
    SplitHasNoMarks(ctx, previous, current, effects, w);
  }

  /** Thirty and twenty make the fifty that a split takes away; neither does alone. */
  lemma RemovalsAreASplit(ctx: Context, x: Effect, y: Effect)
    requires ctx == Fund() && x == TakenAway("A", 30.0) && y == TakenAway("B", 20.0)
    ensures IsRestatement(ctx, [x, y], 100.0, 50.0, 1.0, 2.0)
    ensures !IsRestatement(ctx, [x], 100.0, 50.0, 1.0, 2.0) && !IsRestatement(ctx, [y], 100.0, 50.0, 1.0, 2.0)
  {
    hide SumOver;
    var removed := UnpricedQuantity(ctx);
    assert removed(x) == -30.0 && removed(y) == -20.0;
    assert IsUnpricedAdjustment(ctx, [x, y][0]);
    SumOfTwoOrThree([x, y], removed);
    assert SumOver([x, y], removed) == -50.0;
    SumZero([], removed);
    SumOneMore([], x, removed);
    SumOneMore([], y, removed);
    assert [] + [x] == [x] && [] + [y] == [y];
    assert SumOver([x], removed) == -30.0 && SumOver([y], removed) == -20.0;
  }

  lemma RestatedToNothing(ctx: Context, w: Walk, effects: seq<Effect>)
    requires w == Walk([Segment(100.0, 1.0, None)], 50.0, 50.0, {})
             && IsRestatement(ctx, effects, 100.0, 50.0, 1.0, 2.0)
    ensures FinalSegments(ctx, w, effects, 100.0, 50.0, Some(1.0), 2.0) == Some([Segment(0.0, 2.0, None)])
  {
    hide IsRestatement;
    assert 50.0 / 100.0 == 0.5 && 1.0 / 0.5 == 2.0;
  }

  lemma SplitHasNoMarks(ctx: Context, previous: Item, current: Item, effects: seq<Effect>, w: Walk)
    requires ctx == Fund() && previous == Position(100.0, 1.0) && current == Position(100.0, 2.0) && effects != []
    requires w == WalkEffects(ctx, OpeningWalk(ctx, previous), effects)
             && w == Walk([Segment(100.0, 1.0, None)], 50.0, 50.0, {})
    requires FinalSegments(ctx, w, effects, 100.0, 50.0, Some(1.0), 2.0) == Some([Segment(0.0, 2.0, None)])
    ensures PathDay(ctx, previous, current, effects) && HoldingBridge(ctx, previous, current, effects) == ZERO_BRIDGE
  {
    hide SumOver, WalkEffects, IsRestatement, FinalSegments;
    assert InferredQuantity(previous) == 100.0 && InferredQuantity(current) == 50.0;
    NothingToMark(ctx, 2.0);
  }

  lemma NothingToMark(ctx: Context, pc: real)
    ensures SumOver([Segment(0.0, pc, None)], PriceOf(ctx, pc)) == 0.0
    ensures ctx.baseValuation || SumOver([Segment(0.0, pc, None)], FxOf(ctx, pc, None)) == 0.0
  {
    SumOneMore([], Segment(0.0, pc, None), PriceOf(ctx, pc));
    SumOneMore([], Segment(0.0, pc, None), FxOf(ctx, pc, None));
    assert [] + [Segment(0.0, pc, None)] == [Segment(0.0, pc, None)];
  }

  /** Ten units are held, ten more are bought, and five leave at their carrying value. Quantities
      reconcile and everything is counted at its worth, but the five are still marked from one to
      three. */
  lemma RemovalBesideATrade()
    ensures var ctx, previous, current := Fund(), Position(10.0, 1.0), Position(45.0, 3.0);
            var effects := [Bought("A", 10.0, 2.0), TakenAway("B", 5.0)];
            && PathDay(ctx, previous, current, effects) && !ReadsAsSplit(ctx, previous, current, effects)
            && WalkEffects(ctx, OpeningWalk(ctx, previous), effects).expected == InferredQuantity(current)
            && CountedAtWorth(ctx, OpeningWalk(ctx, previous), effects, CloseUnit(ctx, current),
                              OpenUnit(ctx, previous))
            && var b := HoldingBridge(ctx, previous, current, effects);
               !b.partial && ItemValue(ctx, current) - ItemValue(ctx, previous) - SumOver(effects, Counted()) - b.price
                   - b.fx == -10.0
  {
    hide SumOver, WalkEffects;
    var ctx, previous, current := Fund(), Position(10.0, 1.0), Position(45.0, 3.0);
    var x, y := Bought("A", 10.0, 2.0), TakenAway("B", 5.0);
    var effects := [x, y];
    var start := OpeningWalk(ctx, previous);
    assert start == Walk([Segment(10.0, 1.0, None)], 10.0, 0.0, {}) && InferredQuantity(current) == 15.0;
    WalkOfTwo(ctx, start, x, y);
    var w := Walk([Segment(10.0, 1.0, None), Segment(10.0, 2.0, None)], 15.0, 5.0, {"A"});
    assert WalkEffects(ctx, start, effects) == w;
    assert FinalSegments(ctx, w, effects, 10.0, 15.0, Some(1.0), 3.0) == Some(w.segments);
    assert CountedAtWorth(ctx, start, effects, 3.0, 1.0) by {
      assert effects[..0] == [] && effects[..1] == [x];
      assert WalkEffects(ctx, start, []) == start by { NothingWalked(ctx, start); }
    }
    assert effects[..2] == effects;
    assert PathDay(ctx, previous, current, effects);
    HoldingUnexplained(ctx, previous, current, effects);
    NoShortfall(ctx, start, effects, 2, 3.0, 1.0);
  }

  lemma NothingWalked(ctx: Context, start: Walk)
    ensures WalkEffects(ctx, start, []) == start
  {
  }
}
