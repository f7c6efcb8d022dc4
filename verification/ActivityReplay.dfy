/** Ledger activities: applying their effects, and replaying absolute balance observations after
    earlier facts changed. */
module ActivityReplay {
  import opened AnalysisModel

  /** What an effect changes: money of an account, or the quantity of a holding. */
  datatype Endpoint =
    | AccountValue(owner: string, currency: string)
    | AccountCash(owner: string, currency: string)
    | HoldingUnits(owner: string)

  datatype Effect = Effect(role: nat, endpoint: Endpoint, added: bool, amount: real)

  datatype Observation = Observation(endpoint: Endpoint, amount: real)

  /** `recorded` keeps the raw effects once a replay has restated `effects`. */
  datatype Activity = Activity(id: nat, effectiveAt: int, createdAt: int, valueUpdate: bool, reverses: Option<nat>,
                               resulting: seq<Observation>, effects: seq<Effect>, recorded: Option<seq<Effect>>)

  predicate IsMoney(e: Endpoint) {
    !e.HoldingUnits?
  }

  // ----- Applying effects

  /** Balances and the accounts and holdings that exist. */
  datatype Book = Book(amounts: map<Endpoint, real>, owners: set<string>)

  function Balance(amounts: map<Endpoint, real>, e: Endpoint): real {
    if e in amounts then amounts[e] else 0.0
  }

  function Delta(e: Effect): real {
    if e.added then e.amount else -e.amount
  }

  /** Nothing may be taken from a balance that it does not hold. */
  function ApplyEffect(b: Book, e: Effect): Option<Book> {
    var after := Balance(b.amounts, e.endpoint) + Delta(e);
    if e.endpoint.owner !in b.owners || (!e.added && after < 0.0) then None
    else Some(b.(amounts := b.amounts[e.endpoint := after]))
  }

  function ApplyEffects(b: Book, effects: seq<Effect>): Option<Book>
    decreases |effects|
  {
    if effects == [] then Some(b)
    else match ApplyEffect(b, effects[0]) case None => None case Some(next) => ApplyEffects(next, effects[1..])
  }

  function ApplyAll(b: Book, timeline: seq<Activity>): Option<Book>
    decreases |timeline|
  {
    if timeline == [] then Some(b)
    else match ApplyEffects(b, timeline[0].effects) case None => None case Some(next) => ApplyAll(next, timeline[1..])
  }

  // ----- Replay

  /** Running balances and the replayed effects of every activity so far. */
  datatype Cursor = Cursor(amounts: map<Endpoint, real>, prior: map<nat, seq<Effect>>)

  predicate SameEndpoint(e: Effect, o: Effect) {
    e.endpoint == o.endpoint && e.role == o.role
  }

  /** A reversal takes the replayed magnitude of what it reverses. */
  function MirrorOne(e: Effect, original: seq<Effect>): Effect {
    if original == [] then e
    else if SameEndpoint(e, original[0]) then e.(amount := original[0].amount, added := !original[0].added)
    else MirrorOne(e, original[1..])
  }

  function Mirror(effects: seq<Effect>, original: seq<Effect>): seq<Effect> {
    if original == [] then [] else seq(|effects|, i requires 0 <= i < |effects| => MirrorOne(effects[i], original))
  }

  function Observed(resulting: seq<Observation>, e: Endpoint): Option<real> {
    if resulting == [] then None
    else if resulting[0].endpoint == e then Some(resulting[0].amount)
    else Observed(resulting[1..], e)
  }

  function AbsOf(x: real): real { if x < 0.0 then -x else x }

  /** An observed balance fixes the effect; its direction follows from the running balance. */
  function Restate(amounts: map<Endpoint, real>, a: Activity, e: Effect): Effect {
    if !IsMoney(e.endpoint) || !a.valueUpdate || Observed(a.resulting, e.endpoint).None? then e
    else
      var delta := Observed(a.resulting, e.endpoint).value - Balance(amounts, e.endpoint);
      e.(amount := AbsOf(delta), added := delta >= 0.0)
  }

  predicate IsDropped(e: Effect) {
    IsMoney(e.endpoint) && e.amount == 0.0
  }

  function Moved(amounts: map<Endpoint, real>, e: Effect): map<Endpoint, real> {
    if !IsMoney(e.endpoint) || IsDropped(e) then amounts
    else amounts[e.endpoint := Balance(amounts, e.endpoint) + Delta(e)]
  }

  function ReplayEffects(amounts: map<Endpoint, real>, a: Activity, effects: seq<Effect>)
    : (seq<Effect>, map<Endpoint, real>)
    decreases |effects|
  {
    if effects == [] then ([], amounts)
    else
      var e := Restate(amounts, a, effects[0]);
      var rest := ReplayEffects(Moved(amounts, e), a, effects[1..]);
      (if IsDropped(e) then rest.0 else [e] + rest.0, rest.1)
  }

  function Recorded(a: Activity): seq<Effect> {
    if a.recorded.Some? then a.recorded.value else a.effects
  }

  function Mirrored(prior: map<nat, seq<Effect>>, a: Activity): seq<Effect> {
    if a.reverses.Some? && a.reverses.value in prior then Mirror(Recorded(a), prior[a.reverses.value]) else Recorded(a)
  }

  function ReplayOne(c: Cursor, a: Activity): (Cursor, Activity) {
    var r := ReplayEffects(c.amounts, a, Mirrored(c.prior, a));
    (Cursor(r.1, c.prior[a.id := r.0]), a.(effects := r.0, recorded := Some(Recorded(a))))
  }

  function Replay(c: Cursor, timeline: seq<Activity>): (Cursor, seq<Activity>)
    decreases |timeline|
  {
    if timeline == [] then (c, [])
    else
      var first := ReplayOne(c, timeline[0]);
      var rest := Replay(first.0, timeline[1..]);
      (rest.0, [first.1] + rest.1)
  }

  function Origin(b: Book): Cursor {
    Cursor(b.amounts, map[])
  }

  /** The timeline as the repository loads it. */
  function Replayed(origin: Book, timeline: seq<Activity>): seq<Activity> {
    Replay(Origin(origin), timeline).1
  }

  // ----- The replay loop

  method RestateOne(amounts: map<Endpoint, real>, a: Activity, e: Effect) returns (r: Effect)
    requires IsMoney(e.endpoint)
    ensures r == Restate(amounts, a, e)
  {
    r := e;
    if a.valueUpdate {
      for i := 0 to |a.resulting|
        invariant Observed(a.resulting, e.endpoint) == Observed(a.resulting[i..], e.endpoint)
      {
        var v := a.resulting[i];
        if v.endpoint == e.endpoint {
          var delta := v.amount - Balance(amounts, e.endpoint);
          return e.(amount := AbsOf(delta), added := !(delta < 0.0));
        }
      }
    }
  }

  method MirrorEffects(effects: seq<Effect>, original: seq<Effect>) returns (mirrored: seq<Effect>)
    ensures mirrored == Mirror(effects, original)
  {
    if |original| == 0 {
      return [];
    }
    mirrored := [];
    for i := 0 to |effects|
      invariant |mirrored| == i && forall j :: 0 <= j < i ==> mirrored[j] == MirrorOne(effects[j], original)
    {
      var e := effects[i];
      var k := 0;
      while k < |original| && !SameEndpoint(effects[i], original[k])
        invariant 0 <= k <= |original|
        invariant MirrorOne(effects[i], original) == MirrorOne(effects[i], original[k..])
      {
        k := k + 1;
      }
      if k < |original| {
        e := e.(amount := original[k].amount, added := !original[k].added);
      }
      mirrored := mirrored + [e];
    }
  }

  lemma ReplayNext(c: Cursor, timeline: seq<Activity>, i: nat)
    requires i < |timeline|
    ensures Replay(c, timeline[i..]).1
            == [ReplayOne(c, timeline[i]).1] + Replay(ReplayOne(c, timeline[i]).0, timeline[i + 1..]).1
  {
    assert timeline[i..][0] == timeline[i] && timeline[i..][1..] == timeline[i + 1..];
  }

  method ReplayMoneyEffects(origin: Book, timeline: seq<Activity>) returns (result: seq<Activity>)
    ensures result == Replayed(origin, timeline)
  {
    hide Replay, ReplayEffects, Mirror;
    var cursor := Origin(origin);
    result := [];
    assert timeline[0..] == timeline;
    for i := 0 to |timeline|
      invariant Replayed(origin, timeline) == result + Replay(cursor, timeline[i..]).1
    {
      var a := timeline[i];
      ReplayNext(cursor, timeline, i);
      var recorded := if a.recorded.None? then a.effects else a.recorded.value;
      var source := recorded;
      if a.reverses.Some? && a.reverses.value in cursor.prior {
        source := MirrorEffects(recorded, cursor.prior[a.reverses.value]);
      }
      var effects, amounts := ReplayActivity(cursor.amounts, a, source);
      cursor := Cursor(amounts, cursor.prior[a.id := effects]);
      result := result + [a.(effects := effects, recorded := Some(recorded))];
    }
    assert Replay(cursor, timeline[|timeline|..]).1 == [] by { ReplayNothing(cursor, timeline[|timeline|..]); }
  }

  lemma ReplayNothing(c: Cursor, timeline: seq<Activity>)
    requires timeline == []
    ensures Replay(c, timeline) == (c, [])
  {
  }

  lemma ReplayEffectsNext(amounts: map<Endpoint, real>, a: Activity, source: seq<Effect>, i: nat)
    requires i <= |source|
    ensures i == |source| ==> ReplayEffects(amounts, a, source[i..]) == ([], amounts)
    ensures i < |source| ==>
      var e := Restate(amounts, a, source[i]);
      var rest := ReplayEffects(Moved(amounts, e), a, source[i + 1..]);
      && ReplayEffects(amounts, a, source[i..]).0 == (if IsDropped(e) then [] else [e]) + rest.0
      && ReplayEffects(amounts, a, source[i..]).1 == rest.1
  {
    if i < |source| {
      assert source[i..][0] == source[i] && source[i..][1..] == source[i + 1..];
    }
  }

  method ReplayActivity(start: map<Endpoint, real>, a: Activity, source: seq<Effect>)
    returns (effects: seq<Effect>, amounts: map<Endpoint, real>)
    ensures effects == ReplayEffects(start, a, source).0 && amounts == ReplayEffects(start, a, source).1
  {
    hide ReplayEffects, Observed;
    effects, amounts := [], start;
    assert source[0..] == source;
    for i := 0 to |source|
      invariant ReplayEffects(start, a, source).0 == effects + ReplayEffects(amounts, a, source[i..]).0
      invariant ReplayEffects(start, a, source).1 == ReplayEffects(amounts, a, source[i..]).1
    {
      var e := source[i];
      ReplayEffectsNext(amounts, a, source, i);
      if IsMoney(e.endpoint) {
        e := RestateOne(amounts, a, e);
        if e.amount == 0.0 {
          continue;
        }
        amounts := amounts[e.endpoint := Balance(amounts, e.endpoint) + Delta(e)];
      }
      effects := effects + [e];
    }
    ReplayEffectsNext(amounts, a, source, |source|);
  }

  // ----- What replay keeps

  /** An activity up to what a replay may restate. */
  function Core(a: Activity): Activity {
    a.(effects := Recorded(a), recorded := None)
  }

  function Cores(timeline: seq<Activity>): seq<Activity> {
    seq(|timeline|, i requires 0 <= i < |timeline| => Core(timeline[i]))
  }

  /** Identity, time, order, observations and recorded effects stay as they are. */
  lemma {:induction false} ReplayKeepsFacts(c: Cursor, timeline: seq<Activity>)
    ensures Cores(Replay(c, timeline).1) == Cores(timeline)
    decreases |timeline|
  {
    if timeline != [] {
      ReplayKeepsFacts(ReplayOne(c, timeline[0]).0, timeline[1..]);
      assert Cores(timeline) == [Core(timeline[0])] + Cores(timeline[1..]);
      var rest := Replay(ReplayOne(c, timeline[0]).0, timeline[1..]).1;
      assert Cores([ReplayOne(c, timeline[0]).1] + rest) == [Core(ReplayOne(c, timeline[0]).1)] + Cores(rest);
    }
  }

  /** What comes later does not change what was replayed before. */
  lemma {:induction false} ReplayPrefix(c: Cursor, before: seq<Activity>, after: seq<Activity>)
    ensures Replay(c, before + after).0 == Replay(Replay(c, before).0, after).0
    ensures Replay(c, before + after).1 == Replay(c, before).1 + Replay(Replay(c, before).0, after).1
    decreases |before|
  {
    if before == [] {
      assert before + after == after;
    } else {
      assert (before + after)[1..] == before[1..] + after;
      ReplayPrefix(ReplayOne(c, before[0]).0, before[1..], after);
    }
  }

  /** Replay depends on the recorded facts only. */
  lemma {:induction false} ReplayOfCores(c: Cursor, timeline: seq<Activity>, other: seq<Activity>)
    requires Cores(timeline) == Cores(other)
    ensures Replay(c, timeline) == Replay(c, other)
    decreases |timeline|
  {
    assert |timeline| == |Cores(timeline)| == |Cores(other)| == |other|;
    if timeline != [] {
      var a, b := timeline[0], other[0];
      assert Cores(timeline)[0] == Core(a) && Cores(other)[0] == Core(b);
      SameReplay(c.amounts, a, b, Mirrored(c.prior, a));
      assert ReplayOne(c, a) == ReplayOne(c, b);
      assert Cores(timeline)[1..] == Cores(timeline[1..]) && Cores(other)[1..] == Cores(other[1..]);
      ReplayOfCores(ReplayOne(c, a).0, timeline[1..], other[1..]);
    }
  }

  lemma {:induction false} SameReplay(amounts: map<Endpoint, real>, a: Activity, b: Activity, effects: seq<Effect>)
    requires a.valueUpdate == b.valueUpdate && a.resulting == b.resulting
    ensures ReplayEffects(amounts, a, effects) == ReplayEffects(amounts, b, effects)
    decreases |effects|
  {
    if effects != [] {
      SameReplay(Moved(amounts, Restate(amounts, a, effects[0])), a, b, effects[1..]);
    }
  }

  lemma ReplayIsIdempotent(origin: Book, timeline: seq<Activity>)
    ensures Replayed(origin, Replayed(origin, timeline)) == Replayed(origin, timeline)
  {
    ReplayKeepsFacts(Origin(origin), timeline);
    ReplayOfCores(Origin(origin), Replayed(origin, timeline), timeline);
  }

  // ----- Balance observations survive

  /** The running balances of the replay are those of the book, for money. */
  ghost predicate Agrees(amounts: map<Endpoint, real>, b: Book) {
    forall e :: IsMoney(e) ==> Balance(amounts, e) == Balance(b.amounts, e)
  }

  lemma {:induction false} ReplayEffectsAgree(amounts: map<Endpoint, real>, b: Book, a: Activity, effects: seq<Effect>)
    requires Agrees(amounts, b) && ApplyEffects(b, ReplayEffects(amounts, a, effects).0).Some?
    ensures Agrees(ReplayEffects(amounts, a, effects).1, ApplyEffects(b, ReplayEffects(amounts, a, effects).0).value)
    decreases |effects|
  {
    if effects != [] {
      var e := Restate(amounts, a, effects[0]);
      if IsDropped(e) {
        ReplayEffectsAgree(Moved(amounts, e), b, a, effects[1..]);
      } else {
        var r := ReplayEffects(amounts, a, effects).0;
        assert r[0] == e && r[1..] == ReplayEffects(Moved(amounts, e), a, effects[1..]).0;
        ReplayEffectsAgree(Moved(amounts, e), ApplyEffect(b, e).value, a, effects[1..]);
      }
    }
  }

  lemma {:induction false} ReplayAgrees(c: Cursor, b: Book, timeline: seq<Activity>)
    requires Agrees(c.amounts, b) && ApplyAll(b, Replay(c, timeline).1).Some?
    ensures Agrees(Replay(c, timeline).0.amounts, ApplyAll(b, Replay(c, timeline).1).value)
    decreases |timeline|
  {
    if timeline != [] {
      var first := ReplayOne(c, timeline[0]);
      var all := Replay(c, timeline).1;
      assert all[0] == first.1 && all[1..] == Replay(first.0, timeline[1..]).1;
      ReplayEffectsAgree(c.amounts, b, timeline[0], Mirrored(c.prior, timeline[0]));
      ReplayAgrees(first.0, ApplyEffects(b, first.1.effects).value, timeline[1..]);
    }
  }

  /** Once an observed balance is reached, the rest of the activity leaves it there. */
  lemma {:induction false} ObservedStays(amounts: map<Endpoint, real>, a: Activity, effects: seq<Effect>, e: Endpoint)
    requires a.valueUpdate && IsMoney(e) && Observed(a.resulting, e) == Some(Balance(amounts, e))
    ensures Observed(a.resulting, e) == Some(Balance(ReplayEffects(amounts, a, effects).1, e))
    decreases |effects|
  {
    if effects != [] {
      ObservedStays(Moved(amounts, Restate(amounts, a, effects[0])), a, effects[1..], e);
    }
  }

  lemma {:induction false} ObservedIsReached(amounts: map<Endpoint, real>, a: Activity, effects: seq<Effect>, i: nat)
    requires a.valueUpdate && i < |effects| && IsMoney(effects[i].endpoint)
             && Observed(a.resulting, effects[i].endpoint).Some?
    ensures Observed(a.resulting, effects[i].endpoint)
            == Some(Balance(ReplayEffects(amounts, a, effects).1, effects[i].endpoint))
    decreases |effects|
  {
    var next := Moved(amounts, Restate(amounts, a, effects[0]));
    if i == 0 {
      ObservedStays(next, a, effects[1..], effects[0].endpoint);
    } else {
      ObservedIsReached(next, a, effects[1..], i - 1);
    }
  }

  /** After any change to earlier facts, a balance observation still comes out as recorded: the
      book after the activity holds the observed amount. */
  lemma ObservationsSurvive(origin: Book, timeline: seq<Activity>, i: nat, j: nat)
    requires i < |timeline| && timeline[i].valueUpdate && timeline[i].reverses.None?
    requires j < |Recorded(timeline[i])| && IsMoney(Recorded(timeline[i])[j].endpoint)
    requires Observed(timeline[i].resulting, Recorded(timeline[i])[j].endpoint).Some?
    requires |Replayed(origin, timeline)| == |timeline| && ApplyAll(origin, Replayed(origin, timeline)[..i + 1]).Some?
    ensures var e := Recorded(timeline[i])[j].endpoint;
            Some(Balance(ApplyAll(origin, Replayed(origin, timeline)[..i + 1]).value.amounts, e))
            == Observed(timeline[i].resulting, e)
  {
    var c := Origin(origin);
    var upTo := timeline[..i + 1];
    assert timeline == upTo + timeline[i + 1..];
    ReplayPrefix(c, upTo, timeline[i + 1..]);
    ReplayKeepsFacts(c, upTo);
    assert |Replay(c, upTo).1| == |Cores(Replay(c, upTo).1)| == i + 1;
    assert Replayed(origin, timeline)[..i + 1] == Replay(c, upTo).1;
    ReplayAgrees(c, origin, upTo);
    assert upTo == timeline[..i] + [timeline[i]];
    ReplayPrefix(c, timeline[..i], [timeline[i]]);
    var before := Replay(c, timeline[..i]).0;
    assert Replay(before, [timeline[i]]).0 == ReplayOne(before, timeline[i]).0;
    ObservedIsReached(before.amounts, timeline[i], Recorded(timeline[i]), j);
  }
}
