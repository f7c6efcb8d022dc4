/** Inserting changes into the activity timeline: a batch of ordered changes, and the single
    historical entry. */
module Timeline {
  import opened ActivityReplay
  import opened AnalysisModel

  const MILLISECOND := 1_000_000
  const MAX_BATCH := 100

  /** Stored instants have millisecond precision. */
  function Truncate(t: int): int {
    t - t % MILLISECOND
  }

  /** What a command makes of the state at its date. */
  datatype Draft = Draft(id: nat, valueUpdate: bool, reverses: Option<nat>, resulting: seq<Observation>,
                         effects: seq<Effect>)

  /** A command, with its requested instant when it has one. */
  datatype Command = Command(at: Option<int>, preview: Book -> Option<Draft>)

  /** The origin balances, the start of history and the clock of the request. */
  datatype Ledger = Ledger(origin: Book, startedAt: int, now: int)

  datatype Problem = BadCount | OutOfOrder(index: nat) | EarlierInvalid | Refused(index: nat) | LaterInvalid

  datatype Result<T> = Ok(value: T) | Err(problem: Problem)

  function InstantOf(l: Ledger, c: Command): int {
    if c.at.Some? then c.at.value else l.now
  }

  /** The activity a command becomes; it lies between the starting point and the clock. */
  function NewActivity(l: Ledger, c: Command, d: Draft): Option<Activity> {
    var at := Truncate(InstantOf(l, c));
    if at > Truncate(l.now) || at < Truncate(l.startedAt) then None
    else Some(Activity(d.id, at, Truncate(l.now), d.valueUpdate, d.reverses, d.resulting, d.effects, None))
  }

  function Built(l: Ledger, b: Book, c: Command): Option<Activity> {
    match c.preview(b) case None => None case Some(d) => NewActivity(l, c, d)
  }

  /** Comes after an insertion at the instant. */
  predicate Follows(a: Activity, at: int, createdAt: int) {
    a.effectiveAt > at || (a.effectiveAt == at && a.createdAt > createdAt)
  }

  /** How many activities lead the timeline without following the insertion. */
  function Position(timeline: seq<Activity>, at: int, createdAt: int): (i: nat)
    ensures i <= |timeline|
    ensures forall j :: 0 <= j < i ==> !Follows(timeline[j], at, createdAt)
    ensures i < |timeline| ==> Follows(timeline[i], at, createdAt)
  {
    if timeline == [] || Follows(timeline[0], at, createdAt) then 0 else 1 + Position(timeline[1..], at, createdAt)
  }

  function Inserted(timeline: seq<Activity>, i: nat, a: Activity): seq<Activity>
    requires i <= |timeline|
  {
    timeline[..i] + [a] + timeline[i..]
  }

  /** One insertion of a batch: the change is built on the state at its place, and every later
      activity is replayed. */
  function InsertOne(l: Ledger, timeline: seq<Activity>, c: Command, index: nat): Result<(seq<Activity>, Activity)> {
    var i := Position(timeline, InstantOf(l, c), Truncate(l.now));
    match ApplyAll(l.origin, timeline[..i])
    case None => Err(EarlierInvalid)
    case Some(b) =>
      match Built(l, b, c)
      case None => Err(Refused(index))
      case Some(a) => Ok((Replayed(l.origin, Inserted(timeline, i, a)), a))
  }

  /** The changes from `index` on, the previous one being effective at `previous`. */
  function InsertRest(l: Ledger, timeline: seq<Activity>, commands: seq<Command>, index: nat,
                      previous: Option<int>): Result<(seq<Activity>, seq<Activity>)>
    requires index <= |commands|
    decreases |commands| - index
  {
    if index == |commands| then Ok((timeline, []))
    else if previous.Some? && InstantOf(l, commands[index]) < previous.value then Err(OutOfOrder(index))
    else match InsertOne(l, timeline, commands[index], index)
      case Err(p) => Err(p)
      case Ok(one) =>
        match InsertRest(l, one.0, commands, index + 1, Some(InstantOf(l, commands[index])))
        case Err(p) => Err(p)
        case Ok(rest) => Ok((rest.0, [one.1] + rest.1))
  }

  /** The final timeline and the new activities as they were built. */
  function PrepareBatch(l: Ledger, timeline: seq<Activity>, commands: seq<Command>)
    : Result<(seq<Activity>, seq<Activity>)>
  {
    if |commands| == 0 || |commands| > MAX_BATCH then Err(BadCount)
    else match InsertRest(l, timeline, commands, 0, None)
      case Err(p) => Err(p)
      case Ok(done) => if ApplyAll(l.origin, done.0).None? then Err(LaterInvalid) else Ok(done)
  }

  // ----- The program

  method ApplyTimeline(b: Book, timeline: seq<Activity>) returns (after: Option<Book>)
    ensures after == ApplyAll(b, timeline)
  {
    var state := b;
    for i := 0 to |timeline|
      invariant ApplyAll(b, timeline) == ApplyAll(state, timeline[i..])
    {
      assert timeline[i..][0] == timeline[i] && timeline[i..][1..] == timeline[i + 1..];
      var next := ApplyEffects(state, timeline[i].effects);
      if next.None? {
        return None;
      }
      state := next.value;
    }
    after := Some(state);
  }

  /** The whole batch, when `done` changes were built and `rest` is the outcome of the others. */
  ghost predicate Continues(whole: Result<(seq<Activity>, seq<Activity>)>, done: seq<Activity>,
                            rest: Result<(seq<Activity>, seq<Activity>)>) {
    match rest
    case Err(p) => whole == Err(p)
    case Ok(r) => whole.Ok? && whole.value.0 == r.0 && whole.value.1 == done + r.1
  }

  lemma ContinuesNext(whole: Result<(seq<Activity>, seq<Activity>)>, done: seq<Activity>, l: Ledger,
                      timeline: seq<Activity>,
                      commands: seq<Command>, index: nat, previous: Option<int>)
    requires index < |commands| && !(previous.Some? && InstantOf(l, commands[index]) < previous.value)
    requires Continues(whole, done, InsertRest(l, timeline, commands, index, previous))
    ensures match InsertOne(l, timeline, commands[index], index)
            case Err(p) => whole == Err(p)
            case Ok(one) => Continues(whole, done + [one.1],
                                      InsertRest(l, one.0, commands, index + 1, Some(InstantOf(l, commands[index]))))
  {
    hide InsertOne;
  }

  method InsertChange(l: Ledger, timeline: seq<Activity>, c: Command, index: nat)
    returns (r: Result<(seq<Activity>, Activity)>)
    ensures r == InsertOne(l, timeline, c, index)
  {
    hide Replayed, ApplyAll, Built;
    var insertAt := FindPosition(timeline, InstantOf(l, c), Truncate(l.now));
    var state := ApplyTimeline(l.origin, timeline[..insertAt]);
    if state.None? {
      return Err(EarlierInvalid);
    }
    var built := Built(l, state.value, c);
    if built.None? {
      return Err(Refused(index));
    }
    var replayed := ReplayMoneyEffects(l.origin, timeline[..insertAt] + [built.value] + timeline[insertAt..]);
    r := Ok((replayed, built.value));
  }

  method PrepareChangeBatch(l: Ledger, existing: seq<Activity>, commands: seq<Command>)
    returns (r: Result<(seq<Activity>, seq<Activity>)>)
    ensures r == PrepareBatch(l, existing, commands)
  {
    hide InsertOne, ApplyAll;
    if |commands| == 0 || |commands| > MAX_BATCH {
      return Err(BadCount);
    }
    var timeline, previous := existing, None;
    var previews: seq<Activity> := [];
    ghost var whole := InsertRest(l, existing, commands, 0, None);
    for index := 0 to |commands|
      invariant Continues(whole, previews, InsertRest(l, timeline, commands, index, previous))
    {
      var c := commands[index];
      var at := InstantOf(l, c);
      if previous.Some? && at < previous.value {
        return Err(OutOfOrder(index));
      }
      ContinuesNext(whole, previews, l, timeline, commands, index, previous);
      previous := Some(at);
      var one := InsertChange(l, timeline, c, index);
      if one.Err? {
        return Err(one.problem);
      }
      timeline, previews := one.value.0, previews + [one.value.1];
    }
    var final := ApplyTimeline(l.origin, timeline);
    if final.None? {
      return Err(LaterInvalid);
    }
    assert previews + [] == previews;
    r := Ok((timeline, previews));
  }

  method FindPosition(timeline: seq<Activity>, at: int, createdAt: int) returns (insertAt: nat)
    ensures insertAt == Position(timeline, at, createdAt)
  {
    insertAt := |timeline|;
    for i := 0 to |timeline|
      invariant forall j :: 0 <= j < i ==> !Follows(timeline[j], at, createdAt)
      invariant insertAt == |timeline|
    {
      if Follows(timeline[i], at, createdAt) {
        insertAt := i;
        break;
      }
    }
  }

  // ----- Order

  predicate NotAfter(a: Activity, b: Activity) {
    a.effectiveAt < b.effectiveAt || (a.effectiveAt == b.effectiveAt && a.createdAt <= b.createdAt)
  }

  ghost predicate InOrder(timeline: seq<Activity>) {
    forall i, j :: 0 <= i < j < |timeline| ==> NotAfter(timeline[i], timeline[j])
  }

  ghost predicate StoredTimes(timeline: seq<Activity>) {
    forall i :: 0 <= i < |timeline| ==> Truncate(timeline[i].effectiveAt) == timeline[i].effectiveAt
  }

  /** An existing activity at the same stored instant that was created later, which can happen
      when the clock went back. */
  predicate CreatedLater(l: Ledger, c: Command, a: Activity) {
    a.effectiveAt == Truncate(InstantOf(l, c)) && a.createdAt > Truncate(l.now)
  }

  ghost predicate LaterThan(l: Ledger, timeline: seq<Activity>, c: Command) {
    exists i :: 0 <= i < |timeline| && CreatedLater(l, c, timeline[i])
  }

  /** The command asks for a whole millisecond, or nothing at its instant was created later. */
  ghost predicate Placeable(l: Ledger, timeline: seq<Activity>, c: Command) {
    Truncate(InstantOf(l, c)) == InstantOf(l, c) || !LaterThan(l, timeline, c)
  }

  lemma TruncateFacts(t: int, stored: int)
    requires Truncate(stored) == stored
    ensures Truncate(Truncate(t)) == Truncate(t) <= t
    ensures stored > t <==> stored > Truncate(t)
    ensures stored == t <==> stored == Truncate(t) && Truncate(t) == t
  {
  }

  /** Inserting keeps the order exactly when the command can be placed. */
  lemma InsertionOrder(l: Ledger, timeline: seq<Activity>, c: Command, a: Activity)
    requires InOrder(timeline) && StoredTimes(timeline)
    requires a.effectiveAt == Truncate(InstantOf(l, c)) && a.createdAt == Truncate(l.now)
    ensures var at := InstantOf(l, c);
            InOrder(Inserted(timeline, Position(timeline, at, Truncate(l.now)), a)) <==> Placeable(l, timeline, c)
  {
    var at, created := InstantOf(l, c), Truncate(l.now);
    var i := Position(timeline, at, created);
    var after := Inserted(timeline, i, a);
    forall x | x in timeline
      ensures Truncate(at) == at ==> (Follows(x, at, created) <==> !NotAfter(x, a))
      ensures Truncate(at) != at ==> (Follows(x, at, created) <==> x.effectiveAt > a.effectiveAt)
    {
      TruncateFacts(at, x.effectiveAt);
    }
    if Placeable(l, timeline, c) {
      forall j | 0 <= j < i
        ensures NotAfter(timeline[j], a) { assert timeline[j] in timeline && !Follows(timeline[j], at, created); }
      forall j | i <= j < |timeline| ensures NotAfter(a, timeline[j]) {
        assert timeline[i] in timeline && Follows(timeline[i], at, created);
        assert j > i ==> NotAfter(timeline[i], timeline[j]);
      }
      InsertedOrdered(timeline, i, a);
    } else {
      var j :| 0 <= j < |timeline| && CreatedLater(l, c, timeline[j]);
      var x := timeline[j];
      assert i < |timeline| ==> timeline[i] in timeline && Follows(timeline[i], at, created);
      assert i < j ==> NotAfter(timeline[i], timeline[j]);
      assert after[j] == x && after[i] == a && !NotAfter(x, a);
    }
  }

  lemma InsertedOrdered(timeline: seq<Activity>, i: nat, a: Activity)
    requires InOrder(timeline) && i <= |timeline|
    requires forall j :: 0 <= j < i ==> NotAfter(timeline[j], a)
    requires forall j :: i <= j < |timeline| ==> NotAfter(a, timeline[j])
    ensures InOrder(Inserted(timeline, i, a))
  {
    var after := Inserted(timeline, i, a);
    forall j, k | 0 <= j < k < |after| ensures NotAfter(after[j], after[k]) {
      assert j < i ==> after[j] == timeline[j];
      assert j > i ==> after[j] == timeline[j - 1];
      assert k < i ==> after[k] == timeline[k];
      assert k > i ==> after[k] == timeline[k - 1];
    }
  }

  /** Out of order stays out of order. */
  lemma DisorderStays(timeline: seq<Activity>, i: nat, a: Activity)
    requires !InOrder(timeline) && i <= |timeline|
    ensures !InOrder(Inserted(timeline, i, a))
  {
    var after := Inserted(timeline, i, a);
    var j, k :| 0 <= j < k < |timeline| && !NotAfter(timeline[j], timeline[k]);
    var j', k' := if j < i then j else j + 1, if k < i then k else k + 1;
    assert after[j'] == timeline[j] && after[k'] == timeline[k];
  }
}
