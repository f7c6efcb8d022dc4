/** FX attribution of a cash component: every recorded movement is kept at its own rate, so an
    omitted movement shows up as a residual instead of being absorbed. */
module CashBridge {
  import opened AnalysisModel
  import opened Bridges
  import opened Sums

  /** A signed native movement of the component. */
  predicate IsMovement(e: Effect) {
    e.known && e.money.Some? && (e.target.AccountCash? || e.target.AccountValue?)
  }

  function Movement(ctx: Context): Effect -> real {
    (e: Effect) =>
      if !IsMovement(e) then 0.0
      else if ctx.liability && e.target.AccountValue? then -Signed(e.removed, e.money.value.amount)
      else Signed(e.removed, e.money.value.amount)
  }

  function MovementRate(ctx: Context, e: Effect): Option<real> {
    if ctx.currency == ctx.base then None else ctx.rateAt(ctx.currency, e.at)
  }

  function MovementFx(ctx: Context, closeRate: Option<real>): Effect -> real {
    (e: Effect) => Movement(ctx)(e) * Factor(ctx, closeRate) - Movement(ctx)(e) * Factor(ctx, MovementRate(ctx, e))
  }

  function SignedNative(ctx: Context, item: Item): real {
    if item.native.None? then 0.0 else if ctx.liability then -item.native.value else item.native.value
  }

  function SignedValue(ctx: Context, item: Item): real {
    SignedNative(ctx, item) * Factor(ctx, RateForItem(item, ctx.base).0)
  }

  /** A movement that cannot be converted ends the walk. */
  predicate Unpriced(ctx: Context, closeRate: Option<real>, e: Effect) {
    IsMovement(e) && !(Converts(ctx, MovementRate(ctx, e)) && Converts(ctx, closeRate))
  }

  function OpeningFx(ctx: Context, previous: Item, closeRate: Option<real>): real {
    SignedNative(ctx, previous) * Factor(ctx, closeRate) - SignedValue(ctx, previous)
  }

  predicate CanBridgeCash(ctx: Context, previous: Item, current: Item) {
    && previous.native.Some? && current.native.Some?
    && RateForItem(current, ctx.base).1 && Converts(ctx, RateForItem(current, ctx.base).0)
    && (previous.native.value == 0.0
        || (RateForItem(previous, ctx.base).1 && Converts(ctx, RateForItem(previous, ctx.base).0)))
  }

  function CashBridge(ctx: Context, previous: Item, current: Item, effects: seq<Effect>): Bridge {
    var closeRate := RateForItem(current, ctx.base).0;
    if !ctx.baseValuation || (previous.currency == ctx.base && current.currency == ctx.base) then ZERO_BRIDGE
    else if !CanBridgeCash(ctx, previous, current) then PARTIAL_BRIDGE
    else if exists i :: 0 <= i < |effects| && Unpriced(ctx, closeRate, effects[i]) then PARTIAL_BRIDGE
    else Bridge(0.0, OpeningFx(ctx, previous, closeRate) + SumOver(effects, MovementFx(ctx, closeRate)),
                exists i :: 0 <= i < |effects| && effects[i].money.Some? && !effects[i].known)
  }

  method ComputeCashBridge(ctx: Context, previous: Item, current: Item, effects: seq<Effect>) returns (b: Bridge)
    ensures b == CashBridge(ctx, previous, current, effects)
  {
    hide SumOver, MovementFx, OpeningFx, Converts;
    if !ctx.baseValuation {
      return ZERO_BRIDGE;
    }
    if previous.currency == ctx.base && current.currency == ctx.base {
      return ZERO_BRIDGE;
    }
    if previous.native.None? || current.native.None? {
      return PARTIAL_BRIDGE;
    }
    var opening := if ctx.liability then -previous.native.value else previous.native.value;
    var openOk, closeOk := true, true;
    var openRate, closeRate := None, None;
    if previous.currency != ctx.base && opening != 0.0 {
      var o := RateForItem(previous, ctx.base);
      openRate, openOk := o.0, o.1;
    }
    if current.currency != ctx.base {
      var c := RateForItem(current, ctx.base);
      closeRate, closeOk := c.0, c.1;
    }
    if !closeOk || !openOk {
      return PARTIAL_BRIDGE;
    }
    ConvertIsFactor(ctx, opening, closeRate);
    ConvertIsFactor(ctx, opening, openRate);
    var openingAtClose := Convert(opening, ctx.currency, ctx.base, closeRate);
    if openingAtClose.None? {
      return PARTIAL_BRIDGE;
    }
    var openingAtOpen := Some(0.0);
    if opening != 0.0 {
      openingAtOpen := Convert(opening, ctx.currency, ctx.base, openRate);
      if openingAtOpen.None? {
        return PARTIAL_BRIDGE;
      }
    }
    OpeningDifference(ctx, previous, closeRate, openingAtClose.value, openingAtOpen.value);
    b := WalkMovements(ctx, closeRate, effects, openingAtClose.value - openingAtOpen.value);
  }

  lemma OpeningDifference(ctx: Context, previous: Item, closeRate: Option<real>, atClose: real, atOpen: real)
    requires previous.native.Some?
    requires atClose == SignedNative(ctx, previous) * Factor(ctx, closeRate)
    requires SignedNative(ctx, previous) != 0.0
             ==> atOpen == SignedNative(ctx, previous) * Factor(ctx, RateForItem(previous, ctx.base).0)
    requires SignedNative(ctx, previous) == 0.0 ==> atOpen == 0.0
    ensures OpeningFx(ctx, previous, closeRate) == atClose - atOpen
  {
    if SignedNative(ctx, previous) == 0.0 {
      SameFactor(Factor(ctx, RateForItem(previous, ctx.base).0), SignedNative(ctx, previous), 0.0);
    }
  }

  /** Adds the FX effect of every movement between its own rate and the closing one. */
  method WalkMovements(ctx: Context, closeRate: Option<real>, effects: seq<Effect>, opening: real) returns (b: Bridge)
    requires ctx.baseValuation
    ensures b == if exists i :: 0 <= i < |effects| && Unpriced(ctx, closeRate, effects[i]) then PARTIAL_BRIDGE
                 else Bridge(0.0, opening + SumOver(effects, MovementFx(ctx, closeRate)),
                             exists i :: 0 <= i < |effects| && effects[i].money.Some? && !effects[i].known)
  {
    hide SumOver, MovementFx, Unpriced;
    var fx, partial := opening, false;
    SumZero(effects[..0], MovementFx(ctx, closeRate));
    for i := 0 to |effects|
      invariant fx == opening + SumOver(effects[..i], MovementFx(ctx, closeRate))
      invariant partial <==> exists j :: 0 <= j < i && effects[j].money.Some? && !effects[j].known
      invariant forall j :: 0 <= j < i ==> !Unpriced(ctx, closeRate, effects[j])
    {
      SumLast(effects, i, MovementFx(ctx, closeRate));
      var e := effects[i];
      if !e.known || e.money.None? {
        if e.money.Some? {
          partial := true;
        }
        StandsStill(ctx, closeRate, e);
      } else if e.target.AccountCash? || e.target.AccountValue? {
        var moved := MoveOne(ctx, closeRate, e);
        if moved.None? {
          return PARTIAL_BRIDGE;
        }
        fx := fx + moved.value;
      } else {
        StandsStill(ctx, closeRate, e);
      }
    }
    assert effects[..|effects|] == effects;
    b := Bridge(0.0, fx, partial);
  }

  lemma StandsStill(ctx: Context, closeRate: Option<real>, e: Effect)
    requires !IsMovement(e)
    ensures MovementFx(ctx, closeRate)(e) == 0.0 && !Unpriced(ctx, closeRate, e)
  {
    SameFactor(Factor(ctx, closeRate), Movement(ctx)(e), 0.0);
    SameFactor(Factor(ctx, MovementRate(ctx, e)), Movement(ctx)(e), 0.0);
  }

  method MoveOne(ctx: Context, closeRate: Option<real>, e: Effect) returns (fx: Option<real>)
    requires ctx.baseValuation && IsMovement(e)
    ensures fx.None? <==> Unpriced(ctx, closeRate, e)
    ensures fx.Some? ==> fx.value == MovementFx(ctx, closeRate)(e)
  {
    hide Factor;
    var native := if e.removed then -e.money.value.amount else e.money.value.amount;
    if ctx.liability && e.target.AccountValue? {
      native := -native;
    }
    var eventRate := if ctx.currency == ctx.base then None else ctx.rateAt(ctx.currency, e.at);
    if ctx.currency != ctx.base && eventRate.None? {
      return None;
    }
    assert native == Movement(ctx)(e);
    ConvertIsFactor(ctx, native, closeRate);
    ConvertIsFactor(ctx, native, eventRate);
    var atClose := Convert(native, ctx.currency, ctx.base, closeRate);
    var atEvent := Convert(native, ctx.currency, ctx.base, eventRate);
    if atClose.None? || atEvent.None? {
      return None;
    }
    fx := Some(atClose.value - atEvent.value);
  }

  // ----- What the cash bridge leaves unexplained

  /** How far a movement is counted short of its value at its own rate. */
  function MovementShortfall(ctx: Context): Effect -> real {
    (e: Effect) => Movement(ctx)(e) * Factor(ctx, MovementRate(ctx, e)) - Counted()(e)
  }

  /** A cash day whose two items are in the component's currency and whose movements all have
      a rate; a day in the base currency or in native valuation needs none. */
  ghost predicate CashDay(ctx: Context, previous: Item, current: Item, effects: seq<Effect>) {
    && previous.currency == ctx.currency == current.currency
    && (!ctx.baseValuation || ctx.currency == ctx.base
        || (CanBridgeCash(ctx, previous, current)
            && forall i :: 0 <= i < |effects| ==> !Unpriced(ctx, RateForItem(current, ctx.base).0, effects[i])))
  }

  lemma {:induction false} MovementsTelescope(ctx: Context, closeRate: Option<real>, effects: seq<Effect>)
    ensures SumOver(effects, MovementFx(ctx, closeRate)) + SumOver(effects, Counted())
         == SumOver(effects, Movement(ctx)) * Factor(ctx, closeRate) - SumOver(effects, MovementShortfall(ctx))
  {
    if effects != [] {
      MovementsTelescope(ctx, closeRate, effects[1..]);
      var m, rest, c := Movement(ctx)(effects[0]), SumOver(effects[1..], Movement(ctx)), Factor(ctx, closeRate);
      assert (m + rest) * c == m * c + rest * c;
    } else {
      SameFactor(Factor(ctx, closeRate), SumOver(effects, Movement(ctx)), 0.0);
    }
  }

  /** On any cash day the unexplained amount is exactly the native gap, what the movements do
      not account for, at the closing rate, plus what they were counted short of their value. */
  lemma {:induction false} CashUnexplained(ctx: Context, previous: Item, current: Item, effects: seq<Effect>)
    requires CashDay(ctx, previous, current, effects)
    ensures var b := CashBridge(ctx, previous, current, effects);
            SignedValue(ctx, current) - SignedValue(ctx, previous) - SumOver(effects, Counted()) - b.price - b.fx
            == (SignedNative(ctx, current) - SignedNative(ctx, previous) - SumOver(effects, Movement(ctx)))
                 * Factor(ctx, RateForItem(current, ctx.base).0)
               + SumOver(effects, MovementShortfall(ctx))
  {
    hide SumOver, Movement, MovementFx, MovementShortfall, Counted, Unpriced, SignedNative;
    var closeRate := RateForItem(current, ctx.base).0;
    var f := Factor(ctx, closeRate);
    var open, close, moved := SignedNative(ctx, previous), SignedNative(ctx, current), SumOver(effects, Movement(ctx));
    MovementsTelescope(ctx, closeRate, effects);
    assert (close - open - moved) * f == close * f - open * f - moved * f;
    if !ctx.baseValuation || ctx.currency == ctx.base {
      NoFxAtUnitRate(ctx, closeRate, effects);
      SameFactor(open, f, 1.0);
      SameFactor(open, Factor(ctx, RateForItem(previous, ctx.base).0), 1.0);
    }
  }

  lemma {:induction false} NoFxAtUnitRate(ctx: Context, closeRate: Option<real>, effects: seq<Effect>)
    requires !ctx.baseValuation || ctx.currency == ctx.base
    ensures SumOver(effects, MovementFx(ctx, closeRate)) == 0.0
  {
    forall i | 0 <= i < |effects| ensures MovementFx(ctx, closeRate)(effects[i]) == 0.0 {
      var m := Movement(ctx)(effects[i]);
      SameFactor(m, Factor(ctx, closeRate), Factor(ctx, MovementRate(ctx, effects[i])));
    }
    SumZero(effects, MovementFx(ctx, closeRate));
  }
}
