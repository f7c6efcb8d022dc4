/** Civil days of a household timezone and the daily walk of the analysis. Day labels are numbers;
    a date that the clock skipped has no cutoff. Instants are milliseconds. */
module CivilDays {
  import opened AnalysisModel
  import opened ReturnFold

  /** The last instant of every civil day that existed. */
  type Calendar = int -> Option<int>

  const LOOKBACK := 2

  /** Cutoffs of existing days advance with their labels. */
  ghost predicate Advances(cal: Calendar) {
    forall a, b :: a < b && cal(a).Some? && cal(b).Some? ==> cal(a).value < cal(b).value
  }

  /** The nearest existing date at or before a date, looking back over `skips` skipped ones. */
  function AtOrBefore(cal: Calendar, date: int, skips: nat): Option<int>
    decreases skips
  {
    if cal(date).Some? then Some(date)
    else if skips == 0 then None
    else AtOrBefore(cal, date - 1, skips - 1)
  }

  function PreviousExisting(cal: Calendar, day: int): Option<int> {
    AtOrBefore(cal, day - 1, LOOKBACK)
  }

  /** No date in the range follows more than two skipped ones. */
  ghost predicate SkipsAreShort(cal: Calendar, first: int, last: int) {
    forall day :: first <= day <= last ==> PreviousExisting(cal, day).Some?
  }

  datatype Bounds = Bounds(start: int, end: int) | NoSuchDay | BoundsError

  method CivilDateCutoffAtOrBefore(cal: Calendar, day: int) returns (cutoff: Option<int>)
    ensures cutoff == match AtOrBefore(cal, day, LOOKBACK) case None => None case Some(date) => cal(date)
  {
    var date := day;
    for skipped := 0 to LOOKBACK + 1
      invariant date == day - skipped
      invariant skipped <= LOOKBACK ==> AtOrBefore(cal, day, LOOKBACK) == AtOrBefore(cal, date, LOOKBACK - skipped)
      invariant skipped > LOOKBACK ==> AtOrBefore(cal, day, LOOKBACK).None?
    {
      if cal(date).Some? {
        return cal(date);
      }
      date := date - 1;
    }
    cutoff := None;
  }

  method PreviousExistingCivilDateLabel(cal: Calendar, day: int) returns (previous: Option<int>)
    ensures previous == PreviousExisting(cal, day)
  {
    var date := day - 1;
    for skipped := 0 to LOOKBACK + 1
      invariant date == day - 1 - skipped
      invariant skipped <= LOOKBACK ==> PreviousExisting(cal, day) == AtOrBefore(cal, date, LOOKBACK - skipped)
      invariant skipped > LOOKBACK ==> PreviousExisting(cal, day).None?
    {
      if cal(date).Some? {
        return Some(date);
      }
      date := date - 1;
    }
    previous := None;
  }

  /** A day starts right after the previous existing day ended. */
  function DayBounds(cal: Calendar, day: int): Bounds {
    if cal(day).None? then NoSuchDay
    else match PreviousExisting(cal, day)
      case None => BoundsError
      case Some(date) => if cal(date).None? || cal(day).value <= cal(date).value then BoundsError
          else Bounds(cal(date).value + 1, cal(day).value + 1)
  }

  method CivilDayBounds(cal: Calendar, day: int) returns (b: Bounds)
    ensures b == DayBounds(cal, day)
  {
    if cal(day).None? {
      return NoSuchDay;
    }
    var previous := CivilDateCutoffAtOrBefore(cal, day - 1);
    AtOrBeforeExists(cal, day - 1, LOOKBACK);
    if previous.None? {
      return BoundsError;
    }
    var start, end := previous.value + 1, cal(day).value + 1;
    b := if end <= start then BoundsError else Bounds(start, end);
  }

  lemma {:induction false} AtOrBeforeExists(cal: Calendar, date: int, skips: nat)
    ensures var found := AtOrBefore(cal, date, skips);
            found.Some? ==> date - skips <= found.value <= date && cal(found.value).Some?
                            && forall d :: found.value < d <= date ==> cal(d).None?
    ensures AtOrBefore(cal, date, skips).None? ==> forall d :: date - skips <= d <= date ==> cal(d).None?
    decreases skips
  {
    if cal(date).None? && skips > 0 { AtOrBeforeExists(cal, date - 1, skips - 1); }
  }

  // ----- Existing days tile time

  predicate Within(b: Bounds, t: int) {
    b.Bounds? && b.start <= t < b.end
  }

  /** An existing day has bounds exactly when one of the three labels before it existed. */
  lemma BoundsFailOnLongSkips(cal: Calendar, day: int)
    requires Advances(cal) && cal(day).Some?
    ensures DayBounds(cal, day).BoundsError? <==> cal(day - 1).None? && cal(day - 2).None? && cal(day - 3).None?
  {
    AtOrBeforeExists(cal, day - 1, LOOKBACK);
  }

  /** Consecutive existing days meet, with no gap and no overlap. */
  lemma DaysMeet(cal: Calendar, day: int)
    requires Advances(cal) && cal(day).Some? && PreviousExisting(cal, day).Some?
    ensures var previous := DayBounds(cal, PreviousExisting(cal, day).value);
            && DayBounds(cal, day).Bounds? && DayBounds(cal, day).start < DayBounds(cal, day).end
            && (previous.Bounds? ==> previous.end == DayBounds(cal, day).start)
            && forall d :: PreviousExisting(cal, day).value < d < day ==> DayBounds(cal, d).NoSuchDay?
  {
    AtOrBeforeExists(cal, day - 1, LOOKBACK);
  }

  lemma DaysAreDisjoint(cal: Calendar, early: int, late: int)
    requires Advances(cal) && early < late && DayBounds(cal, early).Bounds? && DayBounds(cal, late).Bounds?
    ensures DayBounds(cal, early).end <= DayBounds(cal, late).start
  {
    AtOrBeforeExists(cal, late - 1, LOOKBACK);
    var previous := PreviousExisting(cal, late).value;
    assert previous < early ==> cal(early).None?;
  }

  lemma {:induction false} FindDay(cal: Calendar, low: int, high: int, t: int) returns (day: int)
    requires Advances(cal) && low <= high && SkipsAreShort(cal, low + 1, high) && cal(low).Some? && cal(high).Some?
    requires cal(low).value < t <= cal(high).value
    ensures low < day <= high && Within(DayBounds(cal, day), t)
    decreases high - low
  {
    DaysMeet(cal, high);
    AtOrBeforeExists(cal, high - 1, LOOKBACK);
    var previous := PreviousExisting(cal, high).value;
    if cal(previous).value < t {
      day := high;
    } else {
      assert low <= previous;
      day := FindDay(cal, low, previous, t);
    }
  }

  /** Every instant lies in exactly one civil day. */
  lemma EveryInstantHasOneDay(cal: Calendar, low: int, high: int, t: int) returns (day: int)
    requires Advances(cal) && low <= high && SkipsAreShort(cal, low + 1, high) && cal(low).Some? && cal(high).Some?
    requires cal(low).value < t <= cal(high).value
    ensures Within(DayBounds(cal, day), t)
    ensures forall d :: Within(DayBounds(cal, d), t) ==> d == day
  {
    day := FindDay(cal, low, high, t);
    forall d | Within(DayBounds(cal, d), t) ensures d == day {
      if d < day { DaysAreDisjoint(cal, d, day); }
      if day < d { DaysAreDisjoint(cal, day, d); }
    }
  }

  // ----- The weight of a flow within its day

  function WeightIn(b: Bounds, t: int): real {
    if b.Bounds? then DietzFlowWeight(t, (b.start, b.end)) else DietzFlowWeight(t, (0, 0))
  }

  lemma Quotient(p: real, m: real)
    requires m > 0.0
    ensures (p / m) * m == p
  {
  }

  lemma QuotientsGrow(p: real, q: real, m: real)
    requires p <= q && m > 0.0
    ensures p / m <= q / m
  {
    Quotient(p, m);
    Quotient(q, m);
    var a, b := p / m, q / m;
    assert (b - a) * m >= 0.0;
  }

  lemma FractionOf(x: int, y: int, n: int)
    requires 0 <= x <= y <= n && 0 < n
    ensures 0.0 <= x as real / n as real <= y as real / n as real <= 1.0
    ensures n as real / n as real == 1.0
  {
    var m := n as real;
    assert m / m == 1.0;
    QuotientsGrow(0.0, x as real, m);
    QuotientsGrow(x as real, y as real, m);
    QuotientsGrow(y as real, m, m);
  }

  /** A flow counts for the rest of its day: a fraction that falls from one at the start of the
      day to nothing at its end, and never rises in between. */
  lemma WeightFallsOverTheDay(cal: Calendar, day: int, t: int, later: int)
    requires DayBounds(cal, day).Bounds? && t <= later
    ensures var b := DayBounds(cal, day);
            && 0.0 <= WeightIn(b, later) <= WeightIn(b, t) <= 1.0
            && WeightIn(b, b.start) == 1.0 && WeightIn(b, b.end) == 0.0
  {
    var b := DayBounds(cal, day);
    var n := b.end - b.start;
    var rest, less := b.end - t, b.end - later;
    FractionOf(if less < 0 then 0 else if less > n then n else less,
               if rest < 0 then 0 else if rest > n then n else rest, n);
  }

  // ----- The daily walk

  /** Items by component, as one day's snapshot recorded them. */
  type Items = map<string, real>

  /** What a day was computed from; nothing was observed on a skipped date. */
  datatype DayInput = DayInput(civil: bool, observed: bool, previous: Items, ending: Items)

  function ItemsOn(byDate: map<int, Items>, date: int): Items {
    if date in byDate then byDate[date] else map[]
  }

  function EndItems(cal: Calendar, byDate: map<int, Items>, day: int): Items {
    if cal(day).Some? then ItemsOn(byDate, day) else map[]
  }

  /** The items of the nearest preceding day that existed. */
  function Baseline(cal: Calendar, byDate: map<int, Items>, day: int): Items {
    match PreviousExisting(cal, day) case None => map[] case Some(date) => ItemsOn(byDate, date)
  }

  lemma BaselineRolls(cal: Calendar, byDate: map<int, Items>, day: int)
    requires SkipsAreShort(cal, day, day + 1)
    ensures Baseline(cal, byDate, day + 1)
            == if cal(day).Some? then ItemsOn(byDate, day) else Baseline(cal, byDate, day)
  {
    AtOrBeforeExists(cal, day, LOOKBACK);
    AtOrBeforeExists(cal, day - 1, LOOKBACK);
  }

  predicate Resolves(cal: Calendar, day: int) {
    PreviousExisting(cal, day).Some? && !DayBounds(cal, day).BoundsError?
  }

  function InputOf(cal: Calendar, byDate: map<int, Items>, day: int): DayInput {
    DayInput(cal(day).Some?, cal(day).Some? && day in byDate, Baseline(cal, byDate, day), EndItems(cal, byDate, day))
  }

  function PeriodInputs(cal: Calendar, byDate: map<int, Items>, start: int, total: nat): seq<DayInput> {
    if total == 0 then [] else PeriodInputs(cal, byDate, start, total - 1) + [InputOf(cal, byDate, start + total - 1)]
  }

  /** The rolling baseline is that of a date, if the date has one. */
  ghost predicate Rolls(cal: Calendar, byDate: map<int, Items>, date: int, items: Items) {
    PreviousExisting(cal, date).Some? ==> items == Baseline(cal, byDate, date)
  }

  /** One turn of the walk. A skipped date leaves the rolling baseline alone; a day that existed
      without an observation clears it. */
  method WalkDate(cal: Calendar, byDate: map<int, Items>, date: int, previousItems: Items)
    returns (input: Option<DayInput>, next: Items)
    requires Rolls(cal, byDate, date, previousItems)
    ensures input.Some? <==> Resolves(cal, date)
    ensures input.Some? ==> input.value == InputOf(cal, byDate, date) && Rolls(cal, byDate, date + 1, next)
  {
    hide AtOrBefore;
    var bounds := CivilDayBounds(cal, date);
    var previous := PreviousExistingCivilDateLabel(cal, date);
    if bounds.BoundsError? || previous.None? {
      return None, previousItems;
    }
    var civilDateExists := bounds.Bounds?;
    var hasDay := date in byDate && civilDateExists;
    var endItems: Items := if hasDay then byDate[date] else map[];
    input := Some(DayInput(civilDateExists, hasDay, previousItems, endItems));
    next := if civilDateExists then endItems else previousItems;
    if PreviousExisting(cal, date + 1).Some? {
      BaselineRolls(cal, byDate, date);
    }
  }

  /** The baseline of the first date. */
  method OpeningItems(cal: Calendar, byDate: map<int, Items>, start: int) returns (items: Option<Items>)
    ensures items.None? ==> !Resolves(cal, start)
    ensures items.Some? ==> Rolls(cal, byDate, start, items.value)
  {
    hide AtOrBefore;
    var first := PreviousExistingCivilDateLabel(cal, start);
    if first.None? {
      return None;
    }
    items := Some(if first.value in byDate then byDate[first.value] else map[]);
  }

  /** Walks the labels of a period; a date that cannot be resolved ends the walk. */
  method WalkPeriod(cal: Calendar, byDate: map<int, Items>, start: int, total: nat) returns (r: Option<seq<DayInput>>)
    requires total >= 1
    ensures r.Some? <==> forall day :: start <= day < start + total ==> Resolves(cal, day)
    ensures r.Some? ==> r.value == PeriodInputs(cal, byDate, start, total)
  {
    hide Resolves, InputOf, Rolls;
    var opening := OpeningItems(cal, byDate, start);
    if opening.None? {
      return None;
    }
    var days: seq<DayInput>, previousItems := [], opening.value;
    for i := 0 to total
      invariant Rolls(cal, byDate, start + i, previousItems)
      invariant forall day :: start <= day < start + i ==> Resolves(cal, day)
      invariant days == PeriodInputs(cal, byDate, start, i)
    {
      var input, next := WalkDate(cal, byDate, start + i, previousItems);
      if input.None? {
        assert !Resolves(cal, start + i);
        return None;
      }
      days, previousItems := days + [input.value], next;
    }
    r := Some(days);
  }

  // ----- Values telescope

  /** What a component day is computed from: its values at the two ends of the day. */
  function ChangeOf(day: DayInput, component: string): Option<real> {
    if day.civil && day.observed && component in day.previous && component in day.ending
    then Some(day.ending[component] - day.previous[component]) else None
  }

  /** The component was observed on every day that existed, and at both of its ends. */
  predicate FullyObserved(days: seq<DayInput>, component: string) {
    forall i :: 0 <= i < |days| && days[i].civil ==> ChangeOf(days[i], component).Some?
  }

  /** The changes of a component that the days of a period attribute. */
  function ChangesOf(days: seq<DayInput>, component: string): real {
    if days == [] then 0.0
    else
      var change := ChangeOf(days[|days| - 1], component);
      ChangesOf(days[..|days| - 1], component) + if change.Some? then change.value else 0.0
  }

  /** What the next day of the walk starts from. */
  function RolledOn(day: DayInput): Items {
    if day.civil then day.ending else day.previous
  }

  function ValueIn(items: Items, component: string): real {
    if component in items then items[component] else 0.0
  }

  lemma InputsRoll(cal: Calendar, byDate: map<int, Items>, day: int)
    requires Resolves(cal, day) && Resolves(cal, day + 1)
    ensures InputOf(cal, byDate, day + 1).previous == RolledOn(InputOf(cal, byDate, day))
  {
    BaselineRolls(cal, byDate, day);
  }

  lemma {:induction false} InputsOfPeriod(cal: Calendar, byDate: map<int, Items>, start: int, total: nat)
    ensures |PeriodInputs(cal, byDate, start, total)| == total
    ensures forall i :: 0 <= i < total ==> PeriodInputs(cal, byDate, start, total)[i] == InputOf(cal, byDate, start + i)
  {
    hide InputOf;
    if total > 0 { InputsOfPeriod(cal, byDate, start, total - 1); }
  }

  /** Over a period that is fully observed, whatever labels were skipped, the changes computed from
      the inputs of the walk add up to the value the walk ends with less the one it started from. */
  lemma {:induction false} ChangesTelescope(cal: Calendar, byDate: map<int, Items>, component: string, start: int,
                                            total: nat)
    requires total > 0 && forall day :: start <= day < start + total ==> Resolves(cal, day)
    requires FullyObserved(PeriodInputs(cal, byDate, start, total), component)
    ensures |PeriodInputs(cal, byDate, start, total)| == total
    ensures var days := PeriodInputs(cal, byDate, start, total);
            ChangesOf(days, component)
            == ValueIn(RolledOn(days[total - 1]), component) - ValueIn(days[0].previous, component)
  {
    hide InputOf, Resolves;
    InputsOfPeriod(cal, byDate, start, total);
    var days := PeriodInputs(cal, byDate, start, total);
    assert days[..total - 1] == PeriodInputs(cal, byDate, start, total - 1);
    if total > 1 {
      assert FullyObserved(days[..total - 1], component);
      ChangesTelescope(cal, byDate, component, start, total - 1);
      InputsRoll(cal, byDate, start + total - 2);
    } else {
      assert ChangesOf(days[..0], component) == 0.0;
    }
  }
}
