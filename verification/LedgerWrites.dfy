/** Recording ledger facts: receipts are replayed before any staleness check, and facts and their
    receipt are committed together. */
module LedgerWrites {
  import opened AnalysisModel
  import opened WriteGate

  datatype Mutation = Mutation(id: string, hash: string)

  /** A mutation identity as parsed from a request. */
  datatype MutationKey = NoKey | InvalidKey | Key(mutation: Mutation)

  datatype Kind = Single | Batch

  /** The activities one write committed together. */
  datatype Group = Group(mutation: Option<Mutation>, kind: Kind, activities: seq<nat>)

  datatype Receipt = Receipt(hash: string, answer: seq<nat>)

  /** The persisted facts: fact groups, the receipts of single and of batch writes, the cash
      baselines by observation, and everything else. */
  datatype Store = Store(groups: seq<Group>, singles: map<string, Receipt>, batches: map<string, Receipt>,
                         baselines: map<string, nat>, other: nat)

  datatype Expected = Blank | Presented(token: Token) | Unknown

  /** A request to record; `built` is what the command makes of the current state, or None when
      the command or its commit is refused. */
  datatype Request = Request(kind: Kind, key: MutationKey, guarded: bool, expected: Expected, built: Option<seq<nat>>)

  datatype Problem = Validation | Conflict | StalePreview | Rejected

  datatype Response = Recorded(answer: seq<nat>) | Refused(problem: Problem)

  /** A single write answers with its last activity, a batch with all of them. */
  function AnswerOf(kind: Kind, activities: seq<nat>): seq<nat> {
    if kind.Single? && |activities| > 0 then [activities[|activities| - 1]] else activities
  }

  function ReplayReceipt(r: Receipt, m: Mutation): Response {
    if r.hash != m.hash then Refused(Conflict) else Recorded(r.answer)
  }

  /** What a mutation that was already used is answered, in either kind of write. */
  function Replay(st: Store, kind: Kind, m: Mutation): Option<Response> {
    match kind
    case Single =>
      if m.id in st.batches then Some(Refused(Conflict))
      else if m.id in st.singles then Some(ReplayReceipt(st.singles[m.id], m))
      else None
    case Batch =>
      if m.id in st.batches then Some(ReplayReceipt(st.batches[m.id], m))
      else if m.id in st.singles then Some(Refused(Conflict))
      else None
  }

  function Guard(current: Token, key: MutationKey, expected: Expected): Option<Problem> {
    if !key.Key? then Some(Validation)
    else if expected.Blank? then Some(Validation)
    else if expected != Presented(current) then Some(StalePreview)
    else None
  }

  function Commit(st: Store, kind: Kind, key: MutationKey, activities: seq<nat>): Store {
    var m := if key.Key? then Some(key.mutation) else None;
    var grown := st.(groups := st.groups + [Group(m, kind, activities)]);
    if m.None? then grown
    else
      var receipt := Receipt(m.value.hash, AnswerOf(kind, activities));
      match kind
      case Single => grown.(singles := st.singles[m.value.id := receipt])
      case Batch => grown.(batches := st.batches[m.value.id := receipt])
  }

  function Record(st: Store, current: Token, q: Request): (Store, Response) {
    if q.key.InvalidKey? || (q.kind.Batch? && q.key.NoKey?) then (st, Refused(Validation))
    else if q.key.Key? && Replay(st, q.kind, q.key.mutation).Some? then (st, Replay(st, q.kind, q.key.mutation).value)
    else if (q.guarded || q.kind.Batch?) && Guard(current, q.key, q.expected).Some? then
      (st, Refused(Guard(current, q.key, q.expected).value))
    else if q.built.None? then (st, Refused(Rejected))
    else (Commit(st, q.kind, q.key, q.built.value), Recorded(AnswerOf(q.kind, q.built.value)))
  }

  /** A cash baseline carries its own observation identity instead of a mutation. */
  function Confirm(st: Store, current: Token, expected: Expected, id: string, value: nat, inTime: bool): (Store,
      Option<nat>) {
    if id in st.baselines then (st, Some(st.baselines[id]))
    else if expected != Presented(current) || !inTime then (st, None)
    else (st.(baselines := st.baselines[id := value]), Some(value))
  }

  /** The service's writes, which run while a permit is held. */
  class Ledger {
    var store: Store
    const writes: WriteCoordinator

    constructor (st: Store, coordinator: WriteCoordinator)
      ensures store == st && writes == coordinator
    {
      store, writes := st, coordinator;
    }

    method ReplayActivityMutation(m: Mutation) returns (r: Option<Response>)
      ensures r == Replay(store, Single, m)
    {
      if m.id in store.batches {
        return Some(Refused(Conflict));
      }
      if m.id !in store.singles {
        return None;
      }
      var stored := store.singles[m.id];
      if stored.hash != m.hash {
        return Some(Refused(Conflict));
      }
      r := Some(Recorded(stored.answer));
    }

    method RecordChangeWithMutation(q: Request) returns (r: Response)
      requires q.kind.Single?
      modifies this`store
      ensures (store, r) == Record(old(store), TokenOf(writes.View()), q)
    {
      if q.key.InvalidKey? {
        return Refused(Validation);
      }
      if q.key.Key? {
        var replay := ReplayActivityMutation(q.key.mutation);
        if replay.Some? {
          return replay.value;
        }
      }
      if q.guarded {
        if q.key.NoKey? || q.expected.Blank? {
          return Refused(Validation);
        }
        var current := writes.PreviewToken();
        if q.expected != Presented(current) {
          return Refused(StalePreview);
        }
      }
      if q.built.None? {
        return Refused(Rejected);
      }
      var activities := q.built.value;
      var answer := AnswerOf(Single, activities);
      if q.key.Key? {
        var m := q.key.mutation;
        store := store.(groups := store.groups + [Group(Some(m), Single, activities)],
                        singles := store.singles[m.id := Receipt(m.hash, answer)]);
      } else {
        store := store.(groups := store.groups + [Group(None, Single, activities)]);
      }
      r := Recorded(answer);
    }

    method RecordChangesGuarded(q: Request) returns (r: Response)
      requires q.kind.Batch?
      modifies this`store
      ensures (store, r) == Record(old(store), TokenOf(writes.View()), q)
    {
      if !q.key.Key? {
        return Refused(Validation);
      }
      var m := q.key.mutation;
      if m.id in store.batches {
        if store.batches[m.id].hash != m.hash {
          return Refused(Conflict);
        }
        return Recorded(store.batches[m.id].answer);
      }
      if m.id in store.singles {
        return Refused(Conflict);
      }
      if q.expected.Blank? {
        return Refused(Validation);
      }
      var current := writes.PreviewToken();
      if q.expected != Presented(current) {
        return Refused(StalePreview);
      }
      if q.built.None? {
        return Refused(Rejected);
      }
      store := store.(groups := store.groups + [Group(Some(m), Batch, q.built.value)],
                      batches := store.batches[m.id := Receipt(m.hash, q.built.value)]);
      r := Recorded(q.built.value);
    }

    method ConfirmCashBaseline(expected: Expected, expired: bool, id: string, value: nat, inTime: bool)
      returns (r: Option<nat>)
      modifies this`store
      ensures (store, r)
              == Confirm(old(store), TokenOf(writes.View()), if expired then Unknown else expected, id, value, inTime)
    {
      var token := if expired then Unknown else expected;
      if id in store.baselines {
        return Some(store.baselines[id]);
      }
      var current := writes.PreviewToken();
      if token != Presented(current) {
        return None;
      }
      if !inTime {
        return None;
      }
      store := store.(baselines := store.baselines[id := value]);
      r := Some(value);
    }
  }
}
