/** The single recorded change: a current one is built on the current state, a historical one is
    inserted by date and the later activities are replayed. */
module HistoricalEntry {
  import opened ActivityReplay
  import opened AnalysisModel
  import opened Timeline
  import opened TimelineSafety

  /** The first activity after a date; creation times do not matter here. */
  function DatePosition(timeline: seq<Activity>, at: int): (i: nat)
    ensures i <= |timeline|
    ensures forall j :: 0 <= j < i ==> timeline[j].effectiveAt <= at
    ensures i < |timeline| ==> timeline[i].effectiveAt > at
  {
    if timeline == [] || timeline[0].effectiveAt > at then 0 else 1 + DatePosition(timeline[1..], at)
  }

  predicate IsHistorical(l: Ledger, c: Command) {
    c.at.Some? && c.at.value < l.now
  }

  /** The new activity, with the replayed timeline when the entry is historical. */
  function PrepareEntry(l: Ledger, current: Book, timeline: seq<Activity>, c: Command)
    : Result<(Option<seq<Activity>>, Activity)>
  {
    if !IsHistorical(l, c) then
      match Built(l, current, c) case None => Err(Refused(0)) case Some(a) => Ok((None, a))
    else
      var i := DatePosition(timeline, c.at.value);
      match ApplyAll(l.origin, timeline[..i])
      case None => Err(EarlierInvalid)
      case Some(b) =>
        match Built(l, b, c)
        case None => Err(Refused(0))
        case Some(a) =>
          var after := Replayed(l.origin, Inserted(timeline, i, a));
          if i > |after| || ApplyAll(b, after[i..]).None? then Err(LaterInvalid) else Ok((Some(after), a))
  }

  lemma {:induction false} ApplyInTwo(b: Book, timeline: seq<Activity>, n: nat)
    requires n <= |timeline|
    ensures ApplyAll(b, timeline)
         == match ApplyAll(b, timeline[..n]) case None => None case Some(mid) => ApplyAll(mid, timeline[n..])
    decreases n
  {
    if n == 0 {
      assert timeline[..0] == [] && timeline[0..] == timeline;
    } else {
      assert timeline[..n][1..] == timeline[1..][..n - 1] && timeline[n..] == timeline[1..][n - 1..];
      var next := ApplyEffects(b, timeline[0].effects);
      if next.Some? { ApplyInTwo(next.value, timeline[1..], n - 1); }
    }
  }

  method PrepareRecordedChange(l: Ledger, current: Book, activities: seq<Activity>, c: Command)
    returns (r: Result<(Option<seq<Activity>>, Activity)>)
    ensures r == PrepareEntry(l, current, activities, c)
  {
    hide ApplyEffects, Built, Replay;
    if c.at.None? || c.at.value >= l.now {
      var built := Built(l, current, c);
      return if built.None? then Err(Refused(0)) else Ok((None, built.value));
    }
    var at := c.at.value;
    var state, index := l.origin, 0;
    assert activities[..0] == [];
    while index < |activities| && activities[index].effectiveAt <= at
      invariant index <= DatePosition(activities, at)
      invariant ApplyAll(l.origin, activities[..index]) == Some(state)
    {
      var next := ApplyEffects(state, activities[index].effects);
      ApplyInTwo(l.origin, activities[..index + 1], index);
      assert activities[..index + 1][..index] == activities[..index]
             && activities[..index + 1][index..] == [activities[index]];
      ApplySingle(state, activities[index]);
      if next.None? {
        FailsEarly(l.origin, activities, index + 1, DatePosition(activities, at));
        return Err(EarlierInvalid);
      }
      state, index := next.value, index + 1;
    }
    var preview := Built(l, state, c);
    if preview.None? {
      return Err(Refused(0));
    }
    var timeline := ReplayMoneyEffects(l.origin, activities[..index] + [preview.value] + activities[index..]);
    ReplayedPrefix(l.origin, Inserted(activities, index, preview.value), 0);
    var rest := ApplyTimeline(state, timeline[index..]);
    if rest.None? {
      return Err(LaterInvalid);
    }
    r := Ok((Some(timeline), preview.value));
  }

  lemma ApplySingle(b: Book, a: Activity)
    ensures ApplyAll(b, [a]) == ApplyEffects(b, a.effects)
  {
    assert [a][1..] == [];
  }

  lemma FailsEarly(b: Book, timeline: seq<Activity>, n: nat, m: nat)
    requires n <= m <= |timeline| && ApplyAll(b, timeline[..n]).None?
    ensures ApplyAll(b, timeline[..m]).None?
  {
    assert timeline[..m][..n] == timeline[..n];
    ApplyInTwo(b, timeline[..m], n);
  }

  // ----- Agreement with a batch of one

  /** An activity at exactly the requested instant that was created later. */
  ghost predicate HasLaterTie(l: Ledger, timeline: seq<Activity>, at: int) {
    exists i :: 0 <= i < |timeline| && timeline[i].effectiveAt == at && timeline[i].createdAt > Truncate(l.now)
  }

  lemma SamePosition(l: Ledger, timeline: seq<Activity>, at: int)
    ensures !HasLaterTie(l, timeline, at) ==> Position(timeline, at, Truncate(l.now)) == DatePosition(timeline, at)
    ensures HasLaterTie(l, timeline, at) && InOrder(timeline)
            ==> Position(timeline, at, Truncate(l.now)) < DatePosition(timeline, at)
  {
    var p, d := Position(timeline, at, Truncate(l.now)), DatePosition(timeline, at);
    assert p < |timeline| && !HasLaterTie(l, timeline, at) ==> timeline[p].effectiveAt > at;
    assert d < |timeline| ==> Follows(timeline[d], at, Truncate(l.now));
    if HasLaterTie(l, timeline, at) && InOrder(timeline) {
      var i :| 0 <= i < |timeline| && timeline[i].effectiveAt == at && timeline[i].createdAt > Truncate(l.now);
      assert Follows(timeline[i], at, Truncate(l.now));
      assert d < i ==> NotAfter(timeline[d], timeline[i]);
    }
  }

  /** Without a tied activity that was created later, a historical entry and a batch of one
      succeed together, with the same activity and the same timeline, or fail alike. */
  lemma EntryAgreesWithBatch(l: Ledger, current: Book, timeline: seq<Activity>, c: Command)
    requires IsHistorical(l, c) && timeline == Replayed(l.origin, timeline) && !HasLaterTie(l, timeline, c.at.value)
    ensures match PrepareBatch(l, timeline, [c])
            case Err(p) => PrepareEntry(l, current, timeline, c) == Err(p)
            case Ok(done) => |done.1| == 1 && PrepareEntry(l, current, timeline, c) == Ok((Some(done.0), done.1[0]))
  {
    hide ApplyAll, Built, Replayed;
    SamePosition(l, timeline, c.at.value);
    BatchOfOne(l, timeline, c);
    var i := DatePosition(timeline, c.at.value);
    var one := InsertOne(l, timeline, c, 0);
    if one.Ok? {
      var (after, a) := one.value;
      ReplayedPrefix(l.origin, Inserted(timeline, i, a), i);
      ReplayedPrefix(l.origin, timeline, i);
      assert Inserted(timeline, i, a)[..i] == timeline[..i];
      ApplyInTwo(l.origin, after, i);
    }
  }

  lemma BatchOfOne(l: Ledger, timeline: seq<Activity>, c: Command)
    ensures PrepareBatch(l, timeline, [c])
         == match InsertOne(l, timeline, c, 0)
            case Err(p) => Err(p)
            case Ok(one) => if ApplyAll(l.origin, one.0).None? then Err(LaterInvalid) else Ok((one.0, [one.1]))
  {
    hide InsertOne, ApplyAll;
    var one := InsertOne(l, timeline, c, 0);
    if one.Ok? {
      assert InsertRest(l, one.value.0, [c], 1, Some(InstantOf(l, c))) == Ok((one.value.0, []));
      assert [one.value.1] + [] == [one.value.1];
    }
  }

  /** With such a tie the two disagree: they put the activity on different sides of it. */
  lemma EntryDiffersFromBatch(l: Ledger, current: Book, timeline: seq<Activity>, c: Command)
    requires IsHistorical(l, c) && InOrder(timeline) && HasLaterTie(l, timeline, c.at.value)
    requires PrepareEntry(l, current, timeline, c).Ok? && PrepareBatch(l, timeline, [c]).Ok?
    requires forall x :: x in timeline ==> x.id != PrepareEntry(l, current, timeline, c).value.1.id
    ensures PrepareEntry(l, current, timeline, c).value.0 != Some(PrepareBatch(l, timeline, [c]).value.0)
  {
    hide ApplyAll, Built, Replayed, InOrder, HasLaterTie, InsertOne;
    SamePosition(l, timeline, c.at.value);
    BatchOfOne(l, timeline, c);
    InsertOneFacts(l, timeline, c, 0);
    var p, d := Position(timeline, c.at.value, Truncate(l.now)), DatePosition(timeline, c.at.value);
    var a := PrepareEntry(l, current, timeline, c).value.1;
    PlacesDiffer(l.origin, timeline, p, d, a, InsertOne(l, timeline, c, 0).value.1);
  }

  /** Insertions of a new activity at different places give different timelines. */
  lemma PlacesDiffer(origin: Book, timeline: seq<Activity>, p: nat, d: nat, a: Activity, b: Activity)
    requires p < d <= |timeline| && forall x :: x in timeline ==> x.id != a.id
    ensures Replayed(origin, Inserted(timeline, d, a)) != Replayed(origin, Inserted(timeline, p, b))
  {
    hide Replay;
    var byDate, batch := Replayed(origin, Inserted(timeline, d, a)), Replayed(origin, Inserted(timeline, p, b));
    ReplayKeepsFacts(Origin(origin), Inserted(timeline, d, a));
    ReplayKeepsFacts(Origin(origin), Inserted(timeline, p, b));
    assert Inserted(timeline, d, a)[d] == a && Inserted(timeline, p, b)[d] == timeline[d - 1];
    assert Cores(byDate)[d].id == a.id && Cores(batch)[d].id == timeline[d - 1].id;
  }

  /** The clock went back by a millisecond: a change recorded without a date is placed after an
      activity of the same stored instant that was created later. */
  lemma ClockGoingBackBreaksOrder()
    ensures var x := Activity(1, MILLISECOND, 2 * MILLISECOND, false, None, [], [], Some([]));
            var l := Ledger(Book(map[], {}), 0, MILLISECOND + 1);
            var c := Command(None, (b: Book) => Some(Draft(2, false, None, [], [])));
            && InOrder([x]) && [x] == Replayed(l.origin, [x])
            && PrepareBatch(l, [x], [c]).Ok? && !InOrder(PrepareBatch(l, [x], [c]).value.0)
  {
    var x := Activity(1, MILLISECOND, 2 * MILLISECOND, false, None, [], [], Some([]));
    var l := Ledger(Book(map[], {}), 0, MILLISECOND + 1);
    var c := Command(None, (b: Book) => Some(Draft(2, false, None, [], [])));
    var a := Activity(2, MILLISECOND, MILLISECOND, false, None, [], [], None);
    var after := [x, a.(recorded := Some([]))];
    QuietReplay(Origin(l.origin), x);
    QuietReplay(ReplayOne(Origin(l.origin), x).0, a);
    ReplayTwo(Origin(l.origin), x, a);
    assert Position([x], l.now, MILLISECOND) == 1 by { assert [x][1..] == []; }
    assert ApplyAll(l.origin, [x][..1]) == Some(l.origin) by { ApplySingle(l.origin, x); assert [x][..1] == [x]; }
    assert Inserted([x], 1, a) == [x, a];
    assert InsertOne(l, [x], c, 0) == Ok((after, a));
    assert ApplyAll(l.origin, after) == Some(l.origin) by {
      ApplyInTwo(l.origin, after, 1);
      ApplySingle(l.origin, after[0]);
      ApplySingle(l.origin, after[1]);
      assert after[..1] == [after[0]] && after[1..] == [after[1]];
    }
    BatchOfOne(l, [x], c);
    assert !NotAfter(after[0], after[1]);
  }

  lemma QuietLedger(b: Book, x: Activity, y: Activity)
    requires x.effects == [] && y.effects == []
    ensures ApplyAll(b, [x]) == Some(b) && ApplyAll(b, [x, y]) == Some(b)
  {
    ApplySingle(b, x);
    ApplySingle(b, y);
    ApplyInTwo(b, [x, y], 1);
    assert [x, y][..1] == [x] && [x, y][1..] == [y];
  }

  /** A change without effects at the instant of an activity that was created a millisecond later:
      the single entry puts it behind that activity, a batch of one in front of it. */
  lemma TiedEntryGoesElsewhere()
    ensures var x := Activity(1, 0, 3 * MILLISECOND, false, None, [], [], Some([]));
            var a := Activity(2, 0, 2 * MILLISECOND, false, None, [], [], None);
            var l := Ledger(Book(map[], {}), 0, 2 * MILLISECOND);
            var c := Command(Some(0), (b: Book) => Some(Draft(2, false, None, [], [])));
            && IsHistorical(l, c) && InOrder([x]) && [x] == Replayed(l.origin, [x]) && HasLaterTie(l, [x], 0)
            && PrepareEntry(l, l.origin, [x], c) == Ok((Some([x, a.(recorded := Some([]))]), a))
            && PrepareBatch(l, [x], [c]) == Ok(([a.(recorded := Some([])), x], [a]))
  {
    var x := Activity(1, 0, 3 * MILLISECOND, false, None, [], [], Some([]));
    var a := Activity(2, 0, 2 * MILLISECOND, false, None, [], [], None);
    var l := Ledger(Book(map[], {}), 0, 2 * MILLISECOND);
    var c := Command(Some(0), (b: Book) => Some(Draft(2, false, None, [], [])));
    var b := a.(recorded := Some([]));
    var k := Origin(l.origin);
    QuietReplay(k, x);
    QuietReplay(ReplayOne(k, x).0, a);
    ReplayTwo(k, x, a);
    QuietReplay(k, a);
    QuietReplay(ReplayOne(k, a).0, x);
    ReplayTwo(k, a, x);
    assert [x][0].createdAt > Truncate(l.now);
    assert DatePosition([x], 0) == 1 by { assert [x][1..] == []; }
    assert Position([x], 0, 2 * MILLISECOND) == 0;
    assert Inserted([x], 1, a) == [x, a] && Inserted([x], 0, a) == [a, x];
    assert [x][..1] == [x] && [x][..0] == [] && [x, b][1..] == [b];
    QuietLedger(l.origin, x, b);
    QuietLedger(l.origin, b, x);
    assert InsertOne(l, [x], c, 0) == Ok(([b, x], a));
    BatchOfOne(l, [x], c);
  }

  lemma ReplayTwo(k: Cursor, x: Activity, a: Activity)
    ensures Replay(k, [x]).1 == [ReplayOne(k, x).1]
    ensures Replay(k, [x, a]).1 == [ReplayOne(k, x).1, ReplayOne(ReplayOne(k, x).0, a).1]
  {
    hide ReplayOne;
    var next := ReplayOne(k, x).0;
    assert [x][1..] == [] && [x, a][1..] == [a] && [a][1..] == [];
    assert Replay(next, [a]).1 == [ReplayOne(next, a).1] + Replay(ReplayOne(next, a).0, []).1;
    assert Replay(k, [x, a]).1 == [ReplayOne(k, x).1] + Replay(next, [a]).1;
  }

  lemma QuietReplay(k: Cursor, a: Activity)
    requires Recorded(a) == [] && a.effects == [] && a.reverses.None?
    ensures ReplayOne(k, a).1 == a.(recorded := Some([]))
  {
  }
}
