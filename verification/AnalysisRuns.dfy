/** Concurrent computations, writes and invalidations around the analysis memo. A computation
    looks the memo up, takes the generation, reads its inputs one by one and publishes, with
    anything in between. */
module AnalysisRuns {
  import opened AnalysisModel
  import opened AnalysisMemo

  datatype Query = Query(native: bool, investmentOnly: bool, rest: string)

  datatype Outcome<R> = Computed(result: R) | NativeRejected | Failed

  /** The memo key of a query, how many reads a load takes and what the analysis makes of what
      they returned. */
  datatype Kernel<!D, R> = Kernel(key: Query -> string, parts: nat, analyze: (seq<D>, Query) -> Outcome<R>)

  /** A fallback call answers a rejected native query in base valuation. */
  datatype Call = Call(query: Query, fallback: bool)

  datatype Task = Missed(call: Call) | Loading(call: Call, generation: nat, loaded: seq<nat>)

  /** `history` lists every persisted version of the inputs and `settled` is the version current at
      the last invalidation; `uses` lists the keys hit or published since then. */
  datatype State<D, R> = State(history: seq<D>, settled: nat, memo: seq<Entry<R>>, generation: nat,
                               tasks: map<nat, Task>, uses: seq<string>)

  datatype Action<D> =
    | Write(data: D) | Invalidate
    | Begin(id: nat, call: Call) | TakeGeneration(id: nat) | Read(id: nat) | Finish(id: nat)

  datatype Answer<R> = Answer(result: R, forced: bool)

  predicate WantsFallback(call: Call) {
    call.fallback && call.query.native
  }

  function BaseOf(q: Query): Query {
    q.(native := false)
  }

  /** What a call answers without a memo. */
  function Uncached<D, R>(k: Kernel<D, R>, inputs: seq<D>, call: Call): Option<Answer<R>> {
    match k.analyze(inputs, call.query)
    case Computed(r) => Some(Answer(r, false))
    case NativeRejected =>
      if !WantsFallback(call) then None
      else (match k.analyze(inputs, BaseOf(call.query))
            case Computed(r) => Some(Answer(r, true))
            case NativeRejected => None
            case Failed => None)
    case Failed => None
  }

  /** A forced answer is published under the native and the base key. */
  function Entries<D, R>(k: Kernel<D, R>, call: Call, generation: nat, answer: Option<Answer<R>>): seq<Entry<R>> {
    if answer.None? then []
    else if !answer.value.forced then [Entry(k.key(call.query), generation, answer.value.result, false)]
    else [Entry(k.key(call.query), generation, answer.value.result, true),
          Entry(k.key(BaseOf(call.query)), generation, answer.value.result, false)]
  }

  function Keys<R>(entries: seq<Entry<R>>): seq<string> {
    seq(|entries|, i requires 0 <= i < |entries| => entries[i].key)
  }

  function Reversed(keys: seq<string>): seq<string> {
    if keys == [] then [] else Reversed(keys[1..]) + [keys[0]]
  }

  predicate Within(loaded: seq<nat>, low: nat, high: nat) {
    forall i :: 0 <= i < |loaded| ==> low <= loaded[i] < high
  }

  function Inputs<D>(history: seq<D>, loaded: seq<nat>): seq<D>
    requires Within(loaded, 0, |history|)
  {
    seq(|loaded|, i requires 0 <= i < |loaded| => history[loaded[i]])
  }

  function Lookup<D, R>(k: Kernel<D, R>, s: State<D, R>, call: Call): Option<Entry<R>> {
    Found(s.memo, k.key(call.query), s.generation, WantsFallback(call))
  }

  predicate CanFinish<D, R>(k: Kernel<D, R>, s: State<D, R>, id: nat) {
    id in s.tasks && s.tasks[id].Loading? && |s.tasks[id].loaded| == k.parts
    && Within(s.tasks[id].loaded, 0, |s.history|)
  }

  function StepBegin<D, R>(k: Kernel<D, R>, s: State<D, R>, id: nat, call: Call): (State<D, R>, Option<Answer<R>>) {
    var hit := Lookup(k, s, call);
    if hit.Some? then
      (s.(memo := Insert(s.memo, hit.value), uses := s.uses + [hit.value.key]),
       Some(Answer(hit.value.result, hit.value.forced)))
    else (s.(tasks := s.tasks[id := Missed(call)]), None)
  }

  function StepFinish<D, R>(k: Kernel<D, R>, s: State<D, R>, id: nat): (State<D, R>, Option<Answer<R>>)
    requires CanFinish(k, s, id)
  {
    var t := s.tasks[id];
    var answer := Uncached(k, Inputs(s.history, t.loaded), t.call);
    var entries := Entries(k, t.call, t.generation, answer);
    var done := s.(tasks := s.tasks - {id});
    (if t.generation == s.generation
     then done.(memo := Publish(s.memo, entries), uses := s.uses + Reversed(Keys(entries)))
     else done, answer)
  }

  /** One step; an action that is not possible changes nothing. */
  function Step<D, R>(k: Kernel<D, R>, s: State<D, R>, a: Action<D>): (State<D, R>, Option<Answer<R>>) {
    match a
    case Write(data) => (s.(history := s.history + [data]), None)
    case Invalidate =>
      (s.(memo := [], generation := s.generation + 1, uses := [],
          settled := if |s.history| > 0 then |s.history| - 1 else 0), None)
    case Begin(id, call) => if id in s.tasks then (s, None) else StepBegin(k, s, id, call)
    case TakeGeneration(id) =>
      if id in s.tasks && s.tasks[id].Missed?
      then (s.(tasks := s.tasks[id := Loading(s.tasks[id].call, s.generation, [])]), None)
      else (s, None)
    case Read(id) =>
      if id in s.tasks && s.tasks[id].Loading? && |s.tasks[id].loaded| < k.parts && |s.history| > 0
      then (s.(tasks := s.tasks[id := s.tasks[id].(loaded := s.tasks[id].loaded + [|s.history| - 1])]), None)
      else (s, None)
    case Finish(id) => if CanFinish(k, s, id) then StepFinish(k, s, id) else (s, None)
  }

  function Run<D, R>(k: Kernel<D, R>, s: State<D, R>, actions: seq<Action<D>>): State<D, R>
    decreases |actions|
  {
    if actions == [] then s else Run(k, Step(k, s, actions[0]).0, actions[1..])
  }

  function Start<D, R>(data: D): State<D, R> {
    State([data], 0, [], 0, map[], [])
  }

  // ----- The invariant

  /** An entry holds what the analysis makes of inputs none of which predates `settled`. */
  ghost predicate Explains<D, R>(k: Kernel<D, R>, history: seq<D>, settled: nat, e: Entry<R>, q: Query,
                                 loaded: seq<nat>) {
    && k.key(q) == e.key && |loaded| == k.parts && Within(loaded, settled, |history|)
    && if e.forced
       then q.native && Uncached(k, Inputs(history, loaded), Call(q, true)) == Some(Answer(e.result, true))
       else k.analyze(Inputs(history, loaded), q) == Computed(e.result)
  }

  ghost predicate Backed<D, R>(k: Kernel<D, R>, history: seq<D>, settled: nat, e: Entry<R>) {
    exists q, loaded :: Explains(k, history, settled, e, q, loaded)
  }

  ghost predicate TaskIsFenced<D, R>(s: State<D, R>, t: Task) {
    t.Loading? ==> t.generation <= s.generation
                   && Within(t.loaded, if t.generation == s.generation then s.settled else 0, |s.history|)
  }

  /** The distinct keys of a list of uses, the last used first. */
  function Recent(uses: seq<string>): seq<string> {
    if uses == [] then [] else [uses[|uses| - 1]] + Dropped(Recent(uses[..|uses| - 1]), uses[|uses| - 1])
  }

  function Dropped(keys: seq<string>, key: string): seq<string> {
    if keys == [] then []
    else if keys[0] == key then keys[1..]
    else [keys[0]] + Dropped(keys[1..], key)
  }

  ghost predicate Inv<D, R(!new)>(k: Kernel<D, R>, s: State<D, R>) {
    && s.settled < |s.history|
    && IsMemo(s.memo, s.generation) && |s.memo| <= CAPACITY
    && (forall e :: e in s.memo ==> Backed(k, s.history, s.settled, e))
    && (forall id :: id in s.tasks ==> TaskIsFenced(s, s.tasks[id]))
    && Keys(s.memo) == Truncate(Recent(s.uses))
  }

  // ----- Recency

  lemma {:induction false} KeysWithout<R(!new)>(memo: seq<Entry<R>>, key: string)
    ensures Keys(Without(memo, key)) == Dropped(Keys(memo), key)
  {
    if memo != [] {
      KeysWithout(memo[1..], key);
      assert Keys(memo)[1..] == Keys(memo[1..]);
    }
  }

  lemma KeysInsert<R(!new)>(memo: seq<Entry<R>>, e: Entry<R>)
    ensures Keys(Insert(memo, e)) == [e.key] + Dropped(Keys(memo), e.key)
  {
    KeysWithout(memo, e.key);
  }

  /** Truncating before or after a use makes no difference to the most recent keys. */
  lemma TruncateUse(keys: seq<string>, key: string)
    ensures Truncate([key] + Dropped(keys, key)) == Truncate([key] + Dropped(Truncate(keys), key))
  {
    if |keys| > CAPACITY {
      assert keys[..CAPACITY] == [keys[0], keys[1]];
      assert Dropped([keys[0], keys[1]], key)
             == if keys[0] == key then [keys[1]] else [keys[0]] + Dropped([keys[1]], key) by {
        assert [keys[0], keys[1]][1..] == [keys[1]];
      }
    }
  }

  lemma {:induction false} InsertAllRecent<R(!new)>(memo: seq<Entry<R>>, entries: seq<Entry<R>>, uses: seq<string>)
    requires Truncate(Keys(memo)) == Truncate(Recent(uses))
    ensures Truncate(Keys(InsertAll(memo, entries))) == Truncate(Recent(uses + Reversed(Keys(entries))))
  {
    if entries == [] {
      assert uses + Reversed(Keys(entries)) == uses;
    } else {
      var key := entries[0].key;
      InsertAllRecent(memo, entries[1..], uses);
      var before, after := uses + Reversed(Keys(entries[1..])), uses + Reversed(Keys(entries));
      assert Keys(entries)[1..] == Keys(entries[1..]);
      assert after == before + [key];
      assert after[..|after| - 1] == before;
      KeysInsert(InsertAll(memo, entries[1..]), entries[0]);
      TruncateUse(Keys(InsertAll(memo, entries[1..])), key);
      TruncateUse(Recent(before), key);
    }
  }

  lemma PublishRecent<R(!new)>(memo: seq<Entry<R>>, entries: seq<Entry<R>>, uses: seq<string>)
    requires |memo| <= CAPACITY && Keys(memo) == Truncate(Recent(uses))
    ensures Keys(Publish(memo, entries)) == Truncate(Recent(uses + Reversed(Keys(entries))))
  {
    InsertAllRecent(memo, entries, uses);
  }

  // ----- Every step keeps the invariant

  lemma {:induction false} FoundIsThere<R(!new)>(memo: seq<Entry<R>>, key: string, generation: nat, includeForced: bool)
    ensures var hit := Found(memo, key, generation, includeForced);
            hit.Some? ==> hit.value in memo && Matches(hit.value, key, generation, includeForced)
  {
    if memo != [] { FoundIsThere(memo[1..], key, generation, includeForced); }
  }

  lemma {:induction false} InsertAllKeeps<R(!new)>(memo: seq<Entry<R>>, generation: nat, entries: seq<Entry<R>>)
    requires IsMemo(memo, generation) && forall e :: e in entries ==> e.generation == generation
    ensures IsMemo(InsertAll(memo, entries), generation)
    ensures forall e :: e in InsertAll(memo, entries) ==> e in memo || e in entries
  {
    if entries != [] {
      InsertAllKeeps(memo, generation, entries[1..]);
      InsertKeeps(InsertAll(memo, entries[1..]), generation, entries[0]);
    }
  }

  lemma PublishKeeps<R(!new)>(memo: seq<Entry<R>>, generation: nat, entries: seq<Entry<R>>)
    requires IsMemo(memo, generation) && forall e :: e in entries ==> e.generation == generation
    ensures IsMemo(Publish(memo, entries), generation) && |Publish(memo, entries)| <= CAPACITY
    ensures forall e :: e in Publish(memo, entries) ==> e in memo || e in entries
  {
    InsertAllKeeps(memo, generation, entries);
    var all := InsertAll(memo, entries);
    if |all| > CAPACITY { PrefixKeeps(all, generation, CAPACITY); }
  }

  lemma BackedLonger<D(!new), R(!new)>(k: Kernel<D, R>, history: seq<D>, settled: nat, e: Entry<R>, data: D)
    requires Backed(k, history, settled, e)
    ensures Backed(k, history + [data], settled, e)
  {
    var q, loaded :| Explains(k, history, settled, e, q, loaded);
    assert Inputs(history + [data], loaded) == Inputs(history, loaded);
    assert Explains(k, history + [data], settled, e, q, loaded);
  }

  lemma PublishedAreBacked<D(!new), R(!new)>(k: Kernel<D, R>, history: seq<D>, settled: nat, call: Call,
                                             generation: nat, loaded: seq<nat>, e: Entry<R>)
    requires |loaded| == k.parts && Within(loaded, settled, |history|)
    requires e in Entries(k, call, generation, Uncached(k, Inputs(history, loaded), call))
    ensures Backed(k, history, settled, e) && e.generation == generation
  {
    var answer := Uncached(k, Inputs(history, loaded), call);
    if e.forced || !answer.value.forced {
      assert Explains(k, history, settled, e, call.query, loaded);
    } else {
      assert Explains(k, history, settled, e, BaseOf(call.query), loaded);
    }
  }

  lemma BeginKeeps<D(!new), R(!new)>(k: Kernel<D, R>, s: State<D, R>, id: nat, call: Call)
    requires Inv(k, s) && id !in s.tasks
    ensures Inv(k, StepBegin(k, s, id, call).0)
  {
    hide Recent, Backed, DistinctKeys;
    FoundIsThere(s.memo, k.key(call.query), s.generation, WantsFallback(call));
    var hit := Lookup(k, s, call);
    if hit.Some? {
      InsertKeeps(s.memo, s.generation, hit.value);
      PublishRecent(s.memo, [hit.value], s.uses);
      assert Keys([hit.value]) == [hit.value.key];
      assert Reversed([hit.value.key]) == [hit.value.key] by { assert [hit.value.key][1..] == []; }
      assert InsertAll(s.memo, [hit.value]) == Insert(s.memo, hit.value) by { assert [hit.value][1..] == []; }
    }
  }

  lemma FinishKeeps<D(!new), R(!new)>(k: Kernel<D, R>, s: State<D, R>, id: nat)
    requires Inv(k, s) && CanFinish(k, s, id)
    ensures Inv(k, StepFinish(k, s, id).0)
  {
    hide Recent, Backed, DistinctKeys, Publish, Uncached, Entries;
    var t := s.tasks[id];
    if t.generation == s.generation {
      var entries := Entries(k, t.call, t.generation, Uncached(k, Inputs(s.history, t.loaded), t.call));
      forall e | e in entries ensures Backed(k, s.history, s.settled, e) && e.generation == s.generation {
        PublishedAreBacked(k, s.history, s.settled, t.call, t.generation, t.loaded, e);
      }
      PublishKeeps(s.memo, s.generation, entries);
      PublishRecent(s.memo, entries, s.uses);
    }
  }

  lemma StepKeeps<D(!new), R(!new)>(k: Kernel<D, R>, s: State<D, R>, a: Action<D>)
    requires Inv(k, s)
    ensures Inv(k, Step(k, s, a).0)
  {
    hide Recent, Backed, DistinctKeys, StepFinish, StepBegin;
    match a {
      case Write(data) =>
        forall e | e in s.memo
          ensures Backed(k, s.history + [data], s.settled, e) { BackedLonger(k, s.history, s.settled, e, data); }
      case Invalidate =>
        assert Recent([]) == [] by { RecentNone(); }
        assert IsMemo<R>([], s.generation + 1) by { EmptyMemo<R>(s.generation + 1); }
      case Begin(id, call) => if id !in s.tasks { BeginKeeps(k, s, id, call); }
      case TakeGeneration(id) =>
      case Read(id) =>
      case Finish(id) => if CanFinish(k, s, id) { FinishKeeps(k, s, id); }
    }
  }

  lemma RecentNone()
    ensures Recent([]) == []
  {
  }

  lemma EmptyMemo<R(!new)>(generation: nat)
    ensures IsMemo<R>([], generation)
  {
  }

  /** Every run keeps the invariant. */
  lemma {:induction false} RunKeeps<D(!new), R(!new)>(k: Kernel<D, R>, s: State<D, R>, actions: seq<Action<D>>)
    requires Inv(k, s)
    ensures Inv(k, Run(k, s, actions))
    decreases |actions|
  {
    hide Inv, Step;
    if actions != [] {
      StepKeeps(k, s, actions[0]);
      RunKeeps(k, Step(k, s, actions[0]).0, actions[1..]);
    }
  }

  lemma ReachableInv<D(!new), R(!new)>(k: Kernel<D, R>, data: D, actions: seq<Action<D>>)
    ensures Inv(k, Run(k, Start(data), actions))
  {
    RunKeeps(k, Start(data), actions);
  }

  // ----- What a hit answers

  /** In every run, a hit answers what the analysis makes of inputs none of which was read before
      the last completed invalidation, and only a fallback call on a native query is ever
      answered in base valuation. */
  lemma HitIsNoOlderThanInvalidation<D(!new), R(!new)>(k: Kernel<D, R>, data: D, actions: seq<Action<D>>, call: Call)
    ensures var s := Run(k, Start(data), actions);
            var hit := Lookup(k, s, call);
            hit.Some? ==>
              && hit.value.key == k.key(call.query)
              && (hit.value.forced ==> WantsFallback(call))
              && exists q, loaded :: Explains(k, s.history, s.settled, hit.value, q, loaded)
  {
    ReachableInv(k, data, actions);
    var s := Run(k, Start(data), actions);
    FoundIsThere(s.memo, k.key(call.query), s.generation, WantsFallback(call));
    assert Lookup(k, s, call).Some? ==> Backed(k, s.history, s.settled, Lookup(k, s, call).value);
  }

  ghost predicate SameAnalysis<D(!new), R>(k: Kernel<D, R>, q: Query, p: Query) {
    && q.native == p.native
    && forall inputs ::
         && k.analyze(inputs, q) == k.analyze(inputs, p)
         && k.analyze(inputs, BaseOf(q)) == k.analyze(inputs, BaseOf(p))
  }

  type Admission = Query -> bool

  /** Keys separate the admitted queries that are analyzed differently. */
  ghost predicate KeysSeparate<D(!new), R>(k: Kernel<D, R>, admitted: Admission) {
    forall q, p :: admitted(q) && admitted(p) && k.key(q) == k.key(p) ==> SameAnalysis(k, q, p)
  }

  /** A native query is admitted with the base query it falls back to. */
  ghost predicate AdmitsFallback(admitted: Admission) {
    forall q :: admitted(q) ==> admitted(BaseOf(q))
  }

  /** Every call of the run asks an admitted query. */
  predicate AsksAdmitted<D>(actions: seq<Action<D>>, admitted: Admission) {
    forall i :: 0 <= i < |actions| && actions[i].Begin? ==> admitted(actions[i].call.query)
  }

  /** The kernel that analyzes admitted queries alone. */
  function Restricted<D, R>(k: Kernel<D, R>, admitted: Admission): Kernel<D, R> {
    k.(analyze := (inputs: seq<D>, q: Query) => if admitted(q) then k.analyze(inputs, q) else Failed)
  }

  predicate TasksAdmitted<D, R>(s: State<D, R>, admitted: Admission) {
    forall id :: id in s.tasks ==> admitted(s.tasks[id].call.query)
  }

  lemma RestrictedAnswers<D, R>(k: Kernel<D, R>, admitted: Admission, inputs: seq<D>, call: Call)
    requires admitted(call.query) && admitted(BaseOf(call.query))
    ensures Uncached(Restricted(k, admitted), inputs, call) == Uncached(k, inputs, call)
  {
  }

  lemma RestrictedStep<D, R>(k: Kernel<D, R>, admitted: Admission, s: State<D, R>, a: Action<D>)
    requires AdmitsFallback(admitted) && TasksAdmitted(s, admitted) && AsksAdmitted([a], admitted)
    ensures Step(Restricted(k, admitted), s, a) == Step(k, s, a) && TasksAdmitted(Step(k, s, a).0, admitted)
  {
    hide Uncached;
    assert [a][0] == a;
    if a.Finish? && CanFinish(k, s, a.id) {
      var t := s.tasks[a.id];
      RestrictedAnswers(k, admitted, Inputs(s.history, t.loaded), t.call);
    }
  }

  /** A run that asks admitted queries alone does not tell the two kernels apart. */
  lemma {:induction false} RestrictedRun<D, R>(k: Kernel<D, R>, admitted: Admission, s: State<D, R>,
                                               actions: seq<Action<D>>)
    requires AdmitsFallback(admitted) && TasksAdmitted(s, admitted) && AsksAdmitted(actions, admitted)
    ensures Run(Restricted(k, admitted), s, actions) == Run(k, s, actions)
    decreases |actions|
  {
    hide Step, TasksAdmitted, Restricted;
    if actions != [] {
      RestrictedStep(k, admitted, s, actions[0]);
      assert forall i :: 0 <= i < |actions[1..]| ==> actions[1..][i] == actions[i + 1];
      RestrictedRun(k, admitted, Step(k, s, actions[0]).0, actions[1..]);
    }
  }

  /** The inputs of a load that nothing interrupts. */
  function Current<D, R>(k: Kernel<D, R>, s: State<D, R>): seq<D>
    requires |s.history| > 0
  {
    seq(k.parts, i => s.history[|s.history| - 1])
  }

  /** Once the last write has been invalidated, a hit is exactly the answer of an uncached load
      of the current inputs, however loads, writes and publications were interleaved before, if
      keys separate the queries that the run asks. */
  lemma SettledHitIsCurrent<D(!new), R(!new)>(k: Kernel<D, R>, admitted: Admission, data: D, actions: seq<Action<D>>,
                                              call: Call)
    requires AdmitsFallback(admitted) && KeysSeparate(k, admitted) && AsksAdmitted(actions, admitted)
             && admitted(call.query)
    ensures var s := Run(k, Start(data), actions);
            var hit := Lookup(k, s, call);
            |s.history| > 0 && (hit.Some? && s.settled == |s.history| - 1
              ==> Uncached(k, Current(k, s), call) == Some(Answer(hit.value.result, hit.value.forced)))
  {
    hide Run;
    var r := Restricted(k, admitted);
    var s := Run(k, Start(data), actions);
    RestrictedRun(k, admitted, Start(data), actions);
    ReachableInv(r, data, actions);
    var hit := Lookup(k, s, call);
    if hit.Some? && s.settled == |s.history| - 1 {
      HitIsNoOlderThanInvalidation(r, data, actions, call);
      var q, loaded :| Explains(r, s.history, s.settled, hit.value, q, loaded);
      assert Inputs(s.history, loaded) == Current(k, s);
      assert admitted(q);
      RestrictedAnswers(k, admitted, Current(k, s), Call(q, true));
      assert SameAnalysis(k, q, call.query);
    }
  }

  const TRIMMED := Query(false, false, "stock")
  const BLANK := Query(false, false, " stock")

  /** A key that trims the asset-class filter, for an analysis that does not. */
  function Trimming(): Kernel<int, int> {
    Kernel((q: Query) => if q == BLANK then "stock" else q.rest, 0,
           (inputs: seq<int>, q: Query) => Computed(if q == TRIMMED then 1 else 0))
  }

  /** A filter with a blank in front is answered from the memo of the trimmed one, though it
      selects nothing. */
  lemma BlankFilterAnswersAnother()
    ensures var k := Trimming();
            var s := Run(k, Start(0), [Begin(0, Call(TRIMMED, false)), TakeGeneration(0), Finish(0)]);
            && s.history == [0] && s.settled == 0
            && Lookup(k, s, Call(BLANK, false)) == Some(Entry("stock", 0, 1, false))
            && Uncached(k, Current(k, s), Call(BLANK, false)) == Some(Answer(0, false))
  {
    var k := Trimming();
    var call := Call(TRIMMED, false);
    var actions: seq<Action<int>> := [Begin(0, call), TakeGeneration(0), Finish(0)];
    var missed := Step(k, Start(0), actions[0]).0;
    assert missed == State([0], 0, [], 0, map[0 := Missed(call)], []);
    var loading := Step(k, missed, actions[1]).0;
    assert loading == State([0], 0, [], 0, map[0 := Loading(call, 0, [])], []);
    var e := Entry("stock", 0, 1, false);
    var answer := Some(Answer(1, false));
    assert Uncached(k, Inputs([0], []), call) == answer && Entries(k, call, 0, answer) == [e];
    PublishOne(e);
    var done := Step(k, loading, actions[2]).0;
    assert done.history == [0] && done.memo == [e] && done.settled == 0 && done.generation == 0;
    RunOfThree(k, Start(0), actions);
  }

  lemma PublishOne<R>(e: Entry<R>)
    ensures Publish([], [e]) == [e]
  {
    assert [e][1..] == [];
    assert InsertAll<R>([], []) == [] && Without<R>([], e.key) == [];
    assert InsertAll([], [e]) == [e] + [];
  }

  lemma RunOfThree<D, R>(k: Kernel<D, R>, s: State<D, R>, actions: seq<Action<D>>)
    requires |actions| == 3
    ensures Run(k, s, actions) == Step(k, Step(k, Step(k, s, actions[0]).0, actions[1]).0, actions[2]).0
  {
    hide Step;
    var one := Step(k, s, actions[0]).0;
    var two := Step(k, one, actions[1]).0;
    assert actions[1..][0] == actions[1] && actions[1..][1..] == [actions[2]] && [actions[2]][1..] == [];
    assert Run(k, two, [actions[2]]) == Run(k, Step(k, two, actions[2]).0, []);
    assert Run(k, one, actions[1..]) == Run(k, two, [actions[2]]);
  }

  /** The memo holds the most recently used keys, in order of last use. */
  lemma MemoIsLeastRecentlyUsed<D(!new), R(!new)>(k: Kernel<D, R>, data: D, actions: seq<Action<D>>)
    ensures var s := Run(k, Start(data), actions);
            DistinctKeys(s.memo) && |s.memo| <= CAPACITY && Keys(s.memo) == Truncate(Recent(s.uses))
  {
    ReachableInv(k, data, actions);
  }
}
