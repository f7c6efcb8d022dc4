/** What a batch of insertions keeps: the existing activities and their order, the order of the
    commands, and a feasible balance at every point of the timeline. */
module TimelineSafety {
  import opened ActivityReplay
  import opened AnalysisModel
  import opened Timeline

  // ----- Insertion and replay, up to restated effects

  lemma CoresOfInserted(timeline: seq<Activity>, i: nat, a: Activity)
    requires i <= |timeline|
    ensures Cores(Inserted(timeline, i, a)) == Inserted(Cores(timeline), i, Core(a))
  {
  }

  lemma OrderOfCores(x: seq<Activity>, y: seq<Activity>)
    requires Cores(x) == Cores(y)
    ensures InOrder(x) <==> InOrder(y)
    ensures StoredTimes(x) <==> StoredTimes(y)
  {
    assert |x| == |Cores(x)| == |Cores(y)| == |y|;
    forall i | 0 <= i < |x| ensures x[i].effectiveAt == y[i].effectiveAt && x[i].createdAt == y[i].createdAt {
      assert Cores(x)[i] == Core(x[i]) && Cores(y)[i] == Core(y[i]);
    }
  }

  lemma LaterOfCores(l: Ledger, x: seq<Activity>, y: seq<Activity>, c: Command)
    requires Cores(x) == Cores(y) && LaterThan(l, x, c)
    ensures LaterThan(l, y, c)
  {
    assert |x| == |Cores(x)| == |Cores(y)| == |y|;
    var i :| 0 <= i < |x| && CreatedLater(l, c, x[i]);
    assert Cores(x)[i] == Core(x[i]) && Cores(y)[i] == Core(y[i]);
    assert CreatedLater(l, c, y[i]);
  }

  /** The outcome of one insertion: where it went and what it left. */
  lemma InsertOneFacts(l: Ledger, timeline: seq<Activity>, c: Command, index: nat)
    requires InsertOne(l, timeline, c, index).Ok?
    ensures var i := Position(timeline, InstantOf(l, c), Truncate(l.now));
            var (next, a) := InsertOne(l, timeline, c, index).value;
            && Cores(next) == Inserted(Cores(timeline), i, Core(a)) && |next| == |timeline| + 1
            && Cores(next) == Cores(Inserted(timeline, i, a))
            && next == Replayed(l.origin, Inserted(timeline, i, a)) == Replayed(l.origin, next)
            && a.effectiveAt == Truncate(InstantOf(l, c)) && a.createdAt == Truncate(l.now)
            && ApplyAll(l.origin, timeline[..i]).Some?
            && Built(l, ApplyAll(l.origin, timeline[..i]).value, c) == Some(a)
  {
    hide Replay, ApplyAll;
    var i := Position(timeline, InstantOf(l, c), Truncate(l.now));
    var a := InsertOne(l, timeline, c, index).value.1;
    CoresOfInserted(timeline, i, a);
    ReplayKeepsFacts(Origin(l.origin), Inserted(timeline, i, a));
    ReplayIsIdempotent(l.origin, Inserted(timeline, i, a));
    assert |InsertOne(l, timeline, c, index).value.0| == |Cores(InsertOne(l, timeline, c, index).value.0)|;
  }

  // ----- Order

  lemma LaterOfInserted(l: Ledger, timeline: seq<Activity>, i: nat, a: Activity, c: Command)
    requires i <= |timeline| && a.createdAt == Truncate(l.now)
    ensures LaterThan(l, Inserted(timeline, i, a), c) <==> LaterThan(l, timeline, c)
  {
    var after := Inserted(timeline, i, a);
    if LaterThan(l, timeline, c) {
      var j :| 0 <= j < |timeline| && CreatedLater(l, c, timeline[j]);
      assert after[if j < i then j else j + 1] == timeline[j];
    }
    if LaterThan(l, after, c) {
      var j :| 0 <= j < |after| && CreatedLater(l, c, after[j]);
      assert j != i && after[j] == timeline[if j < i then j else j - 1];
    }
  }

  lemma InsertOneLater(l: Ledger, timeline: seq<Activity>, c: Command, index: nat, d: Command)
    requires InsertOne(l, timeline, c, index).Ok?
    ensures LaterThan(l, InsertOne(l, timeline, c, index).value.0, d) <==> LaterThan(l, timeline, d)
  {
    hide InsertOne, LaterThan, Inserted, Replayed, ApplyAll, Built;
    InsertOneFacts(l, timeline, c, index);
    var i := Position(timeline, InstantOf(l, c), Truncate(l.now));
    var (next, a) := InsertOne(l, timeline, c, index).value;
    var placed := Inserted(timeline, i, a);
    LaterOfInserted(l, timeline, i, a, d);
    if LaterThan(l, next, d) { LaterOfCores(l, next, placed, d); }
    if LaterThan(l, placed, d) { LaterOfCores(l, placed, next, d); }
  }

  lemma StoredAfterInsert(timeline: seq<Activity>, i: nat, a: Activity)
    requires StoredTimes(timeline) && i <= |timeline| && Truncate(a.effectiveAt) == a.effectiveAt
    ensures StoredTimes(Inserted(timeline, i, a))
  {
  }

  lemma InsertOneOrder(l: Ledger, timeline: seq<Activity>, c: Command, index: nat)
    requires StoredTimes(timeline) && InsertOne(l, timeline, c, index).Ok?
    ensures var next := InsertOne(l, timeline, c, index).value.0;
            StoredTimes(next) && (InOrder(next) <==> InOrder(timeline) && Placeable(l, timeline, c))
  {
    hide InOrder, StoredTimes, InsertOne, LaterThan, Placeable, Inserted, Replayed, ApplyAll, Built;
    InsertOneFacts(l, timeline, c, index);
    var i := Position(timeline, InstantOf(l, c), Truncate(l.now));
    var (next, a) := InsertOne(l, timeline, c, index).value;
    StoredAfterInsert(timeline, i, a);
    OrderOfCores(next, Inserted(timeline, i, a));
    if InOrder(timeline) { InsertionOrder(l, timeline, c, a); } else { DisorderStays(timeline, i, a); }
  }

  /** A timeline in order stays in order exactly when every command can be placed. */
  lemma {:induction false} InsertRestOrder(l: Ledger, timeline: seq<Activity>, commands: seq<Command>, index: nat,
                                           previous: Option<int>)
    requires StoredTimes(timeline) && index <= |commands| && InsertRest(l, timeline, commands, index, previous).Ok?
    ensures InOrder(InsertRest(l, timeline, commands, index, previous).value.0)
            <==> InOrder(timeline) && forall k :: index <= k < |commands| ==> Placeable(l, timeline, commands[k])
    decreases |commands| - index
  {
    hide InOrder, InsertOne, LaterThan, StoredTimes;
    if index < |commands| {
      InsertOneOrder(l, timeline, commands[index], index);
      var next := InsertOne(l, timeline, commands[index], index).value.0;
      InsertRestOrder(l, next, commands, index + 1, Some(InstantOf(l, commands[index])));
      forall k | index < k < |commands|
        ensures Placeable(l, next, commands[k]) <==> Placeable(l, timeline, commands[k]) {
        InsertOneLater(l, timeline, commands[index], index, commands[k]);
      }
    }
  }

  lemma BatchOrder(l: Ledger, timeline: seq<Activity>, commands: seq<Command>)
    requires StoredTimes(timeline) && InOrder(timeline) && PrepareBatch(l, timeline, commands).Ok?
    ensures InOrder(PrepareBatch(l, timeline, commands).value.0)
            <==> forall c :: c in commands ==> Placeable(l, timeline, c)
  {
    hide InOrder, InsertRest, Placeable;
    InsertRestOrder(l, timeline, commands, 0, None);
    assert forall c :: c in commands <==> exists k :: 0 <= k < |commands| && commands[k] == c;
  }

  // ----- Existing activities

  /** `x` can be read off `y` from left to right. */
  ghost predicate Subsequence(x: seq<Activity>, y: seq<Activity>) {
    x == [] || (y != [] && ((x[0] == y[0] && Subsequence(x[1..], y[1..])) || Subsequence(x, y[1..])))
  }

  lemma {:induction false} SubsequenceOfItself(x: seq<Activity>)
    ensures Subsequence(x, x)
  {
    if x != [] { SubsequenceOfItself(x[1..]); }
  }

  lemma {:induction false} SubsequenceAfterInsert(x: seq<Activity>, y: seq<Activity>, i: nat, a: Activity)
    requires Subsequence(x, y) && i <= |y|
    ensures Subsequence(x, Inserted(y, i, a))
    decreases |y|
  {
    var after := Inserted(y, i, a);
    if i == 0 {
      assert after[1..] == y;
    } else {
      assert after[0] == y[0] && after[1..] == Inserted(y[1..], i - 1, a);
      if x != [] && x[0] == y[0] && Subsequence(x[1..], y[1..]) {
        SubsequenceAfterInsert(x[1..], y[1..], i - 1, a);
      } else if x != [] {
        SubsequenceAfterInsert(x, y[1..], i - 1, a);
      }
    }
  }

  lemma CountInserted(x: seq<Activity>, i: nat, a: Activity)
    requires i <= |x|
    ensures multiset(Inserted(x, i, a)) == multiset(x) + multiset{a}
  {
    assert x == x[..i] + x[i..];
  }

  lemma {:induction false} InsertRestKeeps(l: Ledger, timeline: seq<Activity>, commands: seq<Command>, index: nat,
                                           previous: Option<int>, x: seq<Activity>)
    requires index <= |commands| && InsertRest(l, timeline, commands, index, previous).Ok?
             && Subsequence(x, Cores(timeline))
    ensures var (final, added) := InsertRest(l, timeline, commands, index, previous).value;
            && Subsequence(x, Cores(final))
            && multiset(Cores(final)) == multiset(Cores(timeline)) + multiset(Cores(added))
            && |added| == |commands| - index
    decreases |commands| - index
  {
    hide InsertOne, Subsequence, Replayed, ApplyAll, Inserted;
    if index < |commands| {
      InsertOneFacts(l, timeline, commands[index], index);
      var (next, a) := InsertOne(l, timeline, commands[index], index).value;
      var i := Position(timeline, InstantOf(l, commands[index]), Truncate(l.now));
      SubsequenceAfterInsert(x, Cores(timeline), i, Core(a));
      InsertRestKeeps(l, next, commands, index + 1, Some(InstantOf(l, commands[index])), x);
      var rest := InsertRest(l, next, commands, index + 1, Some(InstantOf(l, commands[index]))).value.1;
      assert Cores([a] + rest) == [Core(a)] + Cores(rest);
      CountInserted(Cores(timeline), i, Core(a));
    } else {
      assert Cores([]) == [];
    }
  }

  /** Existing activities stay, in their order, with their recorded facts; the new timeline holds
      them and the new activities, and nothing else. */
  lemma BatchKeepsExisting(l: Ledger, timeline: seq<Activity>, commands: seq<Command>)
    requires PrepareBatch(l, timeline, commands).Ok?
    ensures var (final, added) := PrepareBatch(l, timeline, commands).value;
            && Subsequence(Cores(timeline), Cores(final))
            && multiset(Cores(final)) == multiset(Cores(timeline)) + multiset(Cores(added))
            && |added| == |commands|
  {
    hide InsertRest, Subsequence;
    SubsequenceOfItself(Cores(timeline));
    InsertRestKeeps(l, timeline, commands, 0, None, Cores(timeline));
  }

  // ----- New activities

  /** Where the commands from `index` on are inserted. */
  function Places(l: Ledger, timeline: seq<Activity>, commands: seq<Command>, index: nat): seq<nat>
    requires index <= |commands|
    decreases |commands| - index
  {
    if index == |commands| || InsertOne(l, timeline, commands[index], index).Err? then []
    else [Position(timeline, InstantOf(l, commands[index]), Truncate(l.now))]
         + Places(l, InsertOne(l, timeline, commands[index], index).value.0, commands, index + 1)
  }

  lemma ReplayedPrefix(origin: Book, timeline: seq<Activity>, n: nat)
    requires n <= |timeline|
    ensures |Replayed(origin, timeline)| == |timeline|
    ensures Replayed(origin, timeline)[..n] == Replayed(origin, timeline[..n])
  {
    hide Replay;
    var c := Origin(origin);
    assert timeline == timeline[..n] + timeline[n..];
    ReplayPrefix(c, timeline[..n], timeline[n..]);
    ReplayKeepsFacts(c, timeline[..n]);
    ReplayKeepsFacts(c, timeline);
    assert |Replay(c, timeline[..n]).1| == |Cores(Replay(c, timeline[..n]).1)| == n;
    assert |Replay(c, timeline).1| == |Cores(Replay(c, timeline).1)|;
  }

  /** Inserting leaves everything before the insertion as it was replayed. */
  lemma InsertOnePrefix(l: Ledger, timeline: seq<Activity>, c: Command, index: nat)
    requires timeline == Replayed(l.origin, timeline) && InsertOne(l, timeline, c, index).Ok?
    ensures var i := Position(timeline, InstantOf(l, c), Truncate(l.now));
            var (next, a) := InsertOne(l, timeline, c, index).value;
            i < |next| && next[..i] == timeline[..i] && Core(next[i]) == Core(a)
  {
    hide Replayed, InsertOne;
    InsertOneFacts(l, timeline, c, index);
    var i := Position(timeline, InstantOf(l, c), Truncate(l.now));
    var (next, a) := InsertOne(l, timeline, c, index).value;
    ReplayedPrefix(l.origin, Inserted(timeline, i, a), i);
    ReplayedPrefix(l.origin, timeline, i);
    assert Inserted(timeline, i, a)[..i] == timeline[..i];
    assert Cores(next)[i] == Core(a);
  }

  /** Nothing up to an insertion follows a later instant. */
  lemma LaterPosition(timeline: seq<Activity>, n: nat, at: int, later: int, createdAt: int)
    requires at <= later && n <= |timeline| && forall j :: 0 <= j < n ==> !Follows(timeline[j], at, createdAt)
    ensures Position(timeline, later, createdAt) >= n
  {
  }

  /** Every new activity was built on the state at its final place, and the places are in the
      order of the commands; nothing before place `n` changes. */
  ghost predicate IsPlaced(l: Ledger, commands: seq<Command>, index: nat, final: seq<Activity>, added: seq<Activity>,
                           places: seq<nat>, n: nat) {
    && |places| == |added| && index + |added| == |commands|
    && (forall k :: 0 <= k < |places| ==> n <= places[k] < |final|)
    && (forall k, m :: 0 <= k < m < |places| ==> places[k] < places[m])
    && (forall k ::
          0 <= k < |places|
          ==> Core(final[places[k]]) == Core(added[k]) && BuiltAt(l, final, places[k], commands[index + k], added[k]))
  }

  ghost predicate BuiltAt(l: Ledger, final: seq<Activity>, place: nat, c: Command, a: Activity) {
    place < |final| && ApplyAll(l.origin, final[..place]).Some?
    && Built(l, ApplyAll(l.origin, final[..place]).value, c) == Some(a)
  }

  ghost predicate NothingFollows(l: Ledger, timeline: seq<Activity>, n: nat, previous: Option<int>) {
    n <= |timeline|
    && match previous
       case None => n == 0
       case Some(at) => forall j :: 0 <= j < n ==> !Follows(timeline[j], at, Truncate(l.now))
  }

  lemma PlacedCons(l: Ledger, commands: seq<Command>, index: nat, final: seq<Activity>, a: Activity,
                   rest: seq<Activity>, i: nat, places: seq<nat>, n: nat)
    requires index < |commands| && n <= i < |final| && IsPlaced(l, commands, index + 1, final, rest, places, i + 1)
    requires Core(final[i]) == Core(a) && BuiltAt(l, final, i, commands[index], a)
    ensures IsPlaced(l, commands, index, final, [a] + rest, [i] + places, n)
  {
    hide BuiltAt, Core;
    var all, added := [i] + places, [a] + rest;
    forall k | 0 <= k < |all|
      ensures n <= all[k] < |final| && Core(final[all[k]]) == Core(added[k])
              && BuiltAt(l, final, all[k], commands[index + k], added[k])
    {
      assert k > 0 ==>
               all[k] == places[k - 1] && added[k] == rest[k - 1]
               && commands[index + k] == commands[index + 1 + (k - 1)];
    }
  }

  lemma {:induction false} InsertRestPlaces(l: Ledger, timeline: seq<Activity>, commands: seq<Command>, index: nat,
                                            previous: Option<int>, n: nat)
    requires timeline == Replayed(l.origin, timeline) && index <= |commands|
    requires InsertRest(l, timeline, commands, index, previous).Ok? && NothingFollows(l, timeline, n, previous)
    ensures var (final, added) := InsertRest(l, timeline, commands, index, previous).value;
            && |final| >= n && final[..n] == timeline[..n]
            && IsPlaced(l, commands, index, final, added, Places(l, timeline, commands, index), n)
    decreases |commands| - index
  {
    hide Replayed, InsertOne, ApplyAll, Built, BuiltAt, IsPlaced, NothingFollows;
    if index == |commands| {
      assert IsPlaced(l, commands, index, timeline, [], [], n) by { NothingPlaced(l, commands, timeline, n); }
      assert n <= |timeline| by { PlacesFit(l, timeline, n, previous); }
    } else {
      var c := commands[index];
      var at := InstantOf(l, c);
      var i := Position(timeline, at, Truncate(l.now));
      InsertOneFacts(l, timeline, c, index);
      InsertOnePrefix(l, timeline, c, index);
      var (next, a) := InsertOne(l, timeline, c, index).value;
      assert n <= i by { PlacesGrow(l, timeline, n, previous, at); }
      PlaceDoesNotFollow(l, timeline, c, index);
      InsertRestPlaces(l, next, commands, index + 1, Some(at), i + 1);
      var (final, rest) := InsertRest(l, next, commands, index + 1, Some(at)).value;
      assert final[i] == final[..i + 1][i] == next[i];
      assert final[..i] == final[..i + 1][..i] == next[..i] == timeline[..i];
      assert final[..n] == final[..i][..n];
      BuiltThere(l, timeline, final, c, index, i, a);
      PlacedCons(l, commands, index, final, a, rest, i, Places(l, next, commands, index + 1), n);
    }
  }

  lemma NothingPlaced(l: Ledger, commands: seq<Command>, timeline: seq<Activity>, n: nat)
    ensures IsPlaced(l, commands, |commands|, timeline, [], [], n)
  {
  }

  lemma PlacesFit(l: Ledger, timeline: seq<Activity>, n: nat, previous: Option<int>)
    requires NothingFollows(l, timeline, n, previous)
    ensures n <= |timeline|
  {
  }

  lemma PlacesGrow(l: Ledger, timeline: seq<Activity>, n: nat, previous: Option<int>, at: int)
    requires NothingFollows(l, timeline, n, previous) && (previous.Some? ==> previous.value <= at)
    ensures n <= Position(timeline, at, Truncate(l.now))
  {
    if previous.Some? { LaterPosition(timeline, n, previous.value, at, Truncate(l.now)); }
  }

  lemma BuiltThere(l: Ledger, timeline: seq<Activity>, final: seq<Activity>, c: Command, index: nat, i: nat,
                   a: Activity)
    requires InsertOne(l, timeline, c, index).Ok? && i == Position(timeline, InstantOf(l, c), Truncate(l.now))
    requires a == InsertOne(l, timeline, c, index).value.1 && i < |final| && final[..i] == timeline[..i]
    ensures BuiltAt(l, final, i, c, a)
  {
    hide Replayed, ApplyAll, Built;
    InsertOneFacts(l, timeline, c, index);
  }

  lemma PlaceDoesNotFollow(l: Ledger, timeline: seq<Activity>, c: Command, index: nat)
    requires InsertOne(l, timeline, c, index).Ok?
    ensures NothingFollows(l, InsertOne(l, timeline, c, index).value.0,
                           Position(timeline, InstantOf(l, c), Truncate(l.now)) + 1, Some(InstantOf(l, c)))
  {
    hide Replayed, ApplyAll, Built, InsertOne;
    InsertOneFacts(l, timeline, c, index);
    var i := Position(timeline, InstantOf(l, c), Truncate(l.now));
    var (next, a) := InsertOne(l, timeline, c, index).value;
    forall j | 0 <= j <= i ensures !Follows(next[j], InstantOf(l, c), Truncate(l.now)) {
      assert Cores(next)[j] == Core(next[j]);
      assert Inserted(Cores(timeline), i, Core(a))[j] == if j < i then Core(timeline[j]) else Core(a);
    }
  }

  /** The new activities follow one another in the order of the commands, each as its command
      builds it on the balances that the final timeline has at that point. */
  lemma BatchBuildsInPlace(l: Ledger, timeline: seq<Activity>, commands: seq<Command>)
    requires timeline == Replayed(l.origin, timeline) && PrepareBatch(l, timeline, commands).Ok?
    ensures var (final, added) := PrepareBatch(l, timeline, commands).value;
            IsPlaced(l, commands, 0, final, added, Places(l, timeline, commands, 0), 0)
  {
    hide InsertRest, IsPlaced, Replayed;
    InsertRestPlaces(l, timeline, commands, 0, None, 0);
  }

  // ----- Feasibility

  lemma {:induction false} PrefixesApply(b: Book, timeline: seq<Activity>, n: nat)
    requires n <= |timeline| && ApplyAll(b, timeline).Some?
    ensures ApplyAll(b, timeline[..n]).Some?
    decreases |timeline|
  {
    if n > 0 {
      assert timeline[..n][1..] == timeline[1..][..n - 1];
      PrefixesApply(ApplyEffects(b, timeline[0].effects).value, timeline[1..], n - 1);
    }
  }

  lemma {:induction false} InsertRestIsReplayed(l: Ledger, timeline: seq<Activity>, commands: seq<Command>, index: nat,
                                                previous: Option<int>)
    requires timeline == Replayed(l.origin, timeline) && index <= |commands|
             && InsertRest(l, timeline, commands, index, previous).Ok?
    ensures var final := InsertRest(l, timeline, commands, index, previous).value.0; final == Replayed(l.origin, final)
    decreases |commands| - index
  {
    hide Replayed, InsertOne;
    if index < |commands| {
      InsertOneFacts(l, timeline, commands[index], index);
      InsertRestIsReplayed(l, InsertOne(l, timeline, commands[index], index).value.0, commands, index + 1,
                           Some(InstantOf(l, commands[index])));
    }
  }

  /** No point of the new timeline overdraws a balance, and it is what a reload replays. */
  lemma BatchIsFeasible(l: Ledger, timeline: seq<Activity>, commands: seq<Command>, n: nat)
    requires timeline == Replayed(l.origin, timeline) && PrepareBatch(l, timeline, commands).Ok?
    requires n <= |PrepareBatch(l, timeline, commands).value.0|
    ensures var final := PrepareBatch(l, timeline, commands).value.0;
            final == Replayed(l.origin, final) && ApplyAll(l.origin, final[..n]).Some?
  {
    hide Replayed, InsertRest, ApplyAll;
    InsertRestIsReplayed(l, timeline, commands, 0, None);
    PrefixesApply(l.origin, PrepareBatch(l, timeline, commands).value.0, n);
  }
}
