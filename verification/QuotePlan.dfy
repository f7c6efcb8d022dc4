/** Planning which instruments' quotes an account-scoped analysis loads, and why loading only
    those changes no lookup. */
module QuotePlan {
  import opened AnalysisModel
  import opened QuoteSelection

  datatype Holding = Holding(id: string, account: string, instrument: string)

  datatype Item = Item(account: string, holding: Option<string>, instrument: Option<string>, currency: string,
                       stamped: Option<int>)

  datatype EffectRef = EffectRef(account: Option<string>, holding: Option<string>, instrument: Option<string>)

  /** What an activity refers to: its details' instruments and its current and recorded effects. */
  datatype ActivityRef = ActivityRef(knownKind: bool, details: seq<string>, effects: seq<EffectRef>)

  datatype Input = Input(instruments: seq<string>, accounts: seq<string>, holdings: seq<Holding>, items: seq<Item>,
                         activities: seq<ActivityRef>)

  /** A scope on an account, or any other. */
  datatype Scope = AccountScope(account: string) | OtherScope

  // ----- What the plan must cover

  /** The last holding listed under an identity. */
  function HoldingOf(holdings: seq<Holding>, id: string): Option<Holding> {
    if holdings == [] then None
    else if holdings[|holdings| - 1].id == id then Some(holdings[|holdings| - 1])
    else HoldingOf(holdings[..|holdings| - 1], id)
  }

  predicate HoldingNeeds(h: Holding, selected: string, id: string) {
    h.account == selected && h.instrument == id
  }

  predicate ItemNeeds(i: Item, selected: string, id: string) {
    i.account == selected && i.instrument == Some(id)
  }

  predicate EffectNeeds(input: Input, e: EffectRef, id: string) {
    e.instrument == Some(id)
    || (e.holding.Some? && HoldingOf(input.holdings, e.holding.value).Some?
        && HoldingOf(input.holdings, e.holding.value).value.instrument == id)
  }

  predicate ActivityNeeds(input: Input, a: ActivityRef, id: string) {
    id in a.details || exists k :: 0 <= k < |a.effects| && EffectNeeds(input, a.effects[k], id)
  }

  /** The instruments an account-scoped analysis looks quotes up for. */
  ghost predicate Needs(input: Input, selected: string, id: string) {
    || (exists k :: 0 <= k < |input.holdings| && HoldingNeeds(input.holdings[k], selected, id))
    || (exists k :: 0 <= k < |input.items| && ItemNeeds(input.items[k], selected, id))
    || (exists k :: 0 <= k < |input.activities| && ActivityNeeds(input, input.activities[k], id))
  }

  predicate ItemIsClear(input: Input, selected: string, i: Item) {
    i.account in input.accounts && !(i.account == selected && i.holding.Some? && i.instrument.None?)
  }

  predicate EffectIsClear(input: Input, e: EffectRef) {
    && (e.account.Some? ==> e.account.value in input.accounts)
    && (e.holding.Some?
        ==> HoldingOf(input.holdings, e.holding.value).Some?
            && HoldingOf(input.holdings, e.holding.value).value.account in input.accounts)
  }

  predicate ActivityIsClear(input: Input, a: ActivityRef) {
    a.knownKind && forall k :: 0 <= k < |a.effects| ==> EffectIsClear(input, a.effects[k])
  }

  /** Every reference is known, so that the plan may leave instruments out. */
  ghost predicate IsClear(input: Input, scope: Scope) {
    && scope.AccountScope? && scope.account != "" && scope.account in input.accounts
    && (forall k :: 0 <= k < |input.items| ==> ItemIsClear(input, scope.account, input.items[k]))
    && (forall k :: 0 <= k < |input.activities| ==> ActivityIsClear(input, input.activities[k]))
    && (forall id :: Needs(input, scope.account, id) ==> id in input.instruments)
  }

  function Kept(ids: seq<string>, wanted: set<string>): seq<string> {
    if ids == [] then []
    else Kept(ids[..|ids| - 1], wanted) + if ids[|ids| - 1] in wanted then [ids[|ids| - 1]] else []
  }

  ghost predicate AreNeeded(input: Input, selected: string, needed: set<string>) {
    forall id :: id in needed <==> Needs(input, selected, id)
  }

  /** The whole portfolio, or exactly what is needed of it in its order. */
  ghost predicate IsPlan(input: Input, scope: Scope, plan: seq<string>) {
    if !IsClear(input, scope) then plan == input.instruments
    else exists needed: set<string> ::
           AreNeeded(input, scope.account, needed) && plan == Kept(input.instruments, needed)
  }

  // ----- The program

  method HoldingNeeded(input: Input, selected: string) returns (needed: set<string>)
    ensures forall id ::
              id in needed <==> exists k :: 0 <= k < |input.holdings| && HoldingNeeds(input.holdings[k], selected, id)
  {
    needed := {};
    for i := 0 to |input.holdings|
      invariant forall id :: id in needed <==> exists k :: 0 <= k < i && HoldingNeeds(input.holdings[k], selected, id)
    {
      if input.holdings[i].account == selected {
        needed := needed + {input.holdings[i].instrument};
      }
    }
  }

  method ItemsNeeded(input: Input, selected: string) returns (clear: bool, needed: set<string>)
    ensures clear <==> forall k :: 0 <= k < |input.items| ==> ItemIsClear(input, selected, input.items[k])
    ensures clear ==> forall id ::
                        id in needed <==> exists k :: 0 <= k < |input.items| && ItemNeeds(input.items[k], selected, id)
  {
    clear, needed := true, {};
    for i := 0 to |input.items|
      invariant forall k :: 0 <= k < i ==> ItemIsClear(input, selected, input.items[k])
      invariant forall id :: id in needed <==> exists k :: 0 <= k < i && ItemNeeds(input.items[k], selected, id)
    {
      var item := input.items[i];
      if item.account !in input.accounts || (item.account == selected && item.holding.Some? && item.instrument.None?) {
        assert !ItemIsClear(input, selected, input.items[i]);
        return false, {};
      }
      if item.account == selected && item.instrument.Some? {
        needed := needed + {item.instrument.value};
      }
    }
  }

  method EffectsNeeded(input: Input, effects: seq<EffectRef>) returns (clear: bool, needed: set<string>)
    ensures clear <==> forall k :: 0 <= k < |effects| ==> EffectIsClear(input, effects[k])
    ensures clear ==> forall id ::
                        id in needed <==> exists k :: 0 <= k < |effects| && EffectNeeds(input, effects[k], id)
  {
    hide HoldingOf;
    clear, needed := true, {};
    for i := 0 to |effects|
      invariant forall k :: 0 <= k < i ==> EffectIsClear(input, effects[k])
      invariant forall id :: id in needed <==> exists k :: 0 <= k < i && EffectNeeds(input, effects[k], id)
    {
      var e := effects[i];
      var holding := if e.holding.Some? then HoldingOf(input.holdings, e.holding.value) else None;
      if (e.account.Some? && e.account.value !in input.accounts)
          || (e.holding.Some? && (holding.None? || holding.value.account !in input.accounts)) {
        assert !EffectIsClear(input, effects[i]);
        return false, {};
      }
      var own := if e.instrument.Some? then {e.instrument.value} else {};
      var held := if holding.Some? then {holding.value.instrument} else {};
      assert forall id :: id in own + held <==> EffectNeeds(input, e, id);
      needed := needed + own + held;
    }
  }

  method ActivitiesNeeded(input: Input) returns (clear: bool, needed: set<string>)
    ensures clear <==> forall k :: 0 <= k < |input.activities| ==> ActivityIsClear(input, input.activities[k])
    ensures clear ==> forall id ::
                        id in needed
                        <==> exists k :: 0 <= k < |input.activities| && ActivityNeeds(input, input.activities[k], id)
  {
    hide EffectIsClear, EffectNeeds;
    clear, needed := true, {};
    for i := 0 to |input.activities|
      invariant forall k :: 0 <= k < i ==> ActivityIsClear(input, input.activities[k])
      invariant forall id :: id in needed <==> exists k :: 0 <= k < i && ActivityNeeds(input, input.activities[k], id)
    {
      var a := input.activities[i];
      var ok, more := EffectsNeeded(input, a.effects);
      if !a.knownKind || !ok {
        assert !ActivityIsClear(input, input.activities[i]);
        return false, {};
      }
      var details := set id | id in a.details;
      assert forall id :: id in details + more <==> ActivityNeeds(input, a, id);
      needed := needed + details + more;
    }
  }

  method PlanAnalysisQuoteDependencies(input: Input, scope: Scope) returns (plan: seq<string>)
    ensures IsPlan(input, scope, plan)
  {
    hide ItemIsClear, ActivityIsClear, HoldingNeeds, ItemNeeds, ActivityNeeds;
    if scope.OtherScope? || scope.account == "" || scope.account !in input.accounts {
      return input.instruments;
    }
    var held := HoldingNeeded(input, scope.account);
    var itemsClear, listed := ItemsNeeded(input, scope.account);
    if !itemsClear {
      return input.instruments;
    }
    var activitiesClear, used := ActivitiesNeeded(input);
    if !activitiesClear {
      return input.instruments;
    }
    var needed := held + listed + used;
    assert AreNeeded(input, scope.account, needed);
    if exists id :: id in needed && id !in input.instruments {
      return input.instruments;
    }
    plan := [];
    for i := 0 to |input.instruments|
      invariant plan == Kept(input.instruments[..i], needed)
    {
      assert input.instruments[..i + 1][..i] == input.instruments[..i];
      if input.instruments[i] in needed {
        plan := plan + [input.instruments[i]];
      }
    }
    assert input.instruments[..|input.instruments|] == input.instruments;
  }

  // ----- Lookups

  datatype InstrumentQuote = InstrumentQuote(instrument: string, currency: string, order: Order)

  predicate Answers(item: Item, cutoff: int, q: InstrumentQuote) {
    item.instrument == Some(q.instrument)
    && match item.stamped
       case Some(id) => q.order.id == id && q.currency == item.currency
       case None => q.order.quotedAt <= cutoff
  }

  function Candidates(item: Item, cutoff: int, quotes: seq<InstrumentQuote>): seq<Quote<InstrumentQuote>> {
    if quotes == [] then []
    else
      var q := quotes[|quotes| - 1];
      Candidates(item, cutoff, quotes[..|quotes| - 1]) + if Answers(item, cutoff, q) then [Quote(q, q.order)] else []
  }

  /** The quote stamped on an item, or the selected one. */
  function QuoteForItem(item: Item, cutoff: int, quotes: seq<InstrumentQuote>): Option<Quote<InstrumentQuote>> {
    var candidates := Candidates(item, cutoff, quotes);
    if item.instrument.None? || candidates == [] then None
    else if item.stamped.Some? then Some(candidates[0])
    else Best(AddAll(candidates))
  }

  /** The quotes that are loaded for a plan. */
  function Loaded(quotes: seq<InstrumentQuote>, plan: seq<string>): seq<InstrumentQuote> {
    if quotes == [] then []
    else Loaded(quotes[..|quotes| - 1], plan)
         + if quotes[|quotes| - 1].instrument in plan then [quotes[|quotes| - 1]] else []
  }

  lemma {:induction false} KeptHolds(ids: seq<string>, wanted: set<string>)
    ensures forall id :: id in Kept(ids, wanted) <==> id in ids && id in wanted
  {
    if ids != [] {
      KeptHolds(ids[..|ids| - 1], wanted);
      assert forall id :: id in ids <==> id in ids[..|ids| - 1] || id == ids[|ids| - 1];
    }
  }

  lemma {:induction false} CandidatesOfLoaded(item: Item, cutoff: int, quotes: seq<InstrumentQuote>, plan: seq<string>)
    requires item.instrument.Some? ==> item.instrument.value in plan
    ensures Candidates(item, cutoff, Loaded(quotes, plan)) == Candidates(item, cutoff, quotes)
  {
    if quotes != [] {
      var n := |quotes| - 1;
      CandidatesOfLoaded(item, cutoff, quotes[..n], plan);
      var before := Loaded(quotes[..n], plan);
      if quotes[n].instrument in plan {
        assert (before + [quotes[n]])[..|before|] == before;
      } else {
        assert before + [] == before;
        assert !Answers(item, cutoff, quotes[n]);
      }
    }
  }

  /** Every lookup on an item of an instrument the analysis needs has the same answer with the
      planned quotes as with those of the whole portfolio, whichever quotes there are. */
  lemma PlanChangesNoLookup(input: Input, scope: Scope, plan: seq<string>, item: Item, cutoff: int,
                            quotes: seq<InstrumentQuote>)
    requires IsPlan(input, scope, plan)
    requires item.instrument.Some? && scope.AccountScope? ==> Needs(input, scope.account, item.instrument.value)
    ensures QuoteForItem(item, cutoff, Loaded(quotes, plan))
            == QuoteForItem(item, cutoff, Loaded(quotes, input.instruments))
  {
    hide Needs, Best, AddAll, Candidates;
    if IsClear(input, scope) && item.instrument.Some? {
      var needed :| AreNeeded(input, scope.account, needed) && plan == Kept(input.instruments, needed);
      KeptHolds(input.instruments, needed);
      CandidatesOfLoaded(item, cutoff, quotes, plan);
      CandidatesOfLoaded(item, cutoff, quotes, input.instruments);
    }
  }

  /** In particular for every snapshot item of the selected account. */
  lemma ItemsOfTheAccountAreCovered(input: Input, scope: Scope, plan: seq<string>, item: Item, cutoff: int,
                                    quotes: seq<InstrumentQuote>)
    requires IsPlan(input, scope, plan) && scope.AccountScope? && item in input.items && item.account == scope.account
    ensures QuoteForItem(item, cutoff, Loaded(quotes, plan))
            == QuoteForItem(item, cutoff, Loaded(quotes, input.instruments))
  {
    hide QuoteForItem, Loaded;
    var k :| 0 <= k < |input.items| && input.items[k] == item;
    if item.instrument.Some? { assert ItemNeeds(input.items[k], scope.account, item.instrument.value); }
    PlanChangesNoLookup(input, scope, plan, item, cutoff, quotes);
  }

  /** The instrument of the component an effect belongs to: that of its holding. */
  function InstrumentOfEffect(input: Input, e: EffectRef): Option<string> {
    if e.holding.None? || HoldingOf(input.holdings, e.holding.value).None? then None
    else Some(HoldingOf(input.holdings, e.holding.value).value.instrument)
  }

  /** And for every component that an effect of an activity in scope reaches, whichever item of it
      is looked up. */
  lemma EffectsOfActivitiesAreCovered(input: Input, scope: Scope, plan: seq<string>, a: ActivityRef, e: EffectRef,
                                      item: Item, cutoff: int, quotes: seq<InstrumentQuote>)
    requires IsPlan(input, scope, plan) && a in input.activities && e in a.effects
    requires item.instrument.Some?
             && (item.instrument == InstrumentOfEffect(input, e) || item.instrument == e.instrument)
    ensures QuoteForItem(item, cutoff, Loaded(quotes, plan))
            == QuoteForItem(item, cutoff, Loaded(quotes, input.instruments))
  {
    hide QuoteForItem, Loaded, IsPlan;
    if scope.AccountScope? {
      var k :| 0 <= k < |input.activities| && input.activities[k] == a;
      var j :| 0 <= j < |a.effects| && a.effects[j] == e;
      assert EffectNeeds(input, a.effects[j], item.instrument.value);
      assert ActivityNeeds(input, input.activities[k], item.instrument.value);
    }
    PlanChangesNoLookup(input, scope, plan, item, cutoff, quotes);
  }

  /** A trade or dividend names its instrument, which is covered as well. */
  lemma DetailsOfActivitiesAreCovered(input: Input, scope: Scope, plan: seq<string>, a: ActivityRef, item: Item,
                                      cutoff: int, quotes: seq<InstrumentQuote>)
    requires IsPlan(input, scope, plan) && a in input.activities && item.instrument.Some?
             && item.instrument.value in a.details
    ensures QuoteForItem(item, cutoff, Loaded(quotes, plan))
            == QuoteForItem(item, cutoff, Loaded(quotes, input.instruments))
  {
    hide QuoteForItem, Loaded, IsPlan;
    if scope.AccountScope? {
      var k :| 0 <= k < |input.activities| && input.activities[k] == a;
      assert ActivityNeeds(input, input.activities[k], item.instrument.value);
    }
    PlanChangesNoLookup(input, scope, plan, item, cutoff, quotes);
  }

  /** A narrowed plan holds exactly what the analysis needs. */
  lemma PlanIsExact(input: Input, scope: Scope, plan: seq<string>)
    requires IsPlan(input, scope, plan) && IsClear(input, scope)
    ensures forall id :: id in plan <==> Needs(input, scope.account, id)
  {
    hide Needs;
    var needed :| AreNeeded(input, scope.account, needed) && plan == Kept(input.instruments, needed);
    KeptHolds(input.instruments, needed);
  }
}
