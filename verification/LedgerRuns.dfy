/** Every interleaving of previews, commits, retries, other writes, exclusive work and restarts. */
module LedgerRuns {
  import opened AnalysisModel
  import opened WriteGate
  import opened LedgerWrites

  /** Maintenance counts as a write only when it asked to write. */
  datatype PermitKind = PreviewPermit | MaintenancePermit | WritePermit | ExclusivePermit

  /** `base` is the store when the permit was granted; `dirty` says a write was asked for since. */
  datatype Permit = Free | Held(kind: PermitKind, base: Store, dirty: bool)

  /** A preview: its token, what it read, and whether its own permit had not yet written. */
  datatype Seen = Seen(token: Token, store: Store, clean: bool)

  datatype State = State(store: Store, gate: Gate, permit: Permit, seen: seq<Seen>, archive: seq<Store>)

  datatype Action =
    | Admit(kind: PermitKind) | AskExclusive | StartExclusive | Release
    | Preview | Submit(request: Request) | SubmitBaseline(expected: Expected, id: string, value: nat, inTime: bool)
    | OtherWrite(value: nat) | Backup | Restore(i: nat) | Shutdown | Restart

  predicate MayWrite(s: State) {
    s.permit.Held? && !s.permit.kind.PreviewPermit?
  }

  function Written(s: State, st: Store): State
    requires s.permit.Held?
  {
    s.(store := st, permit := s.permit.(dirty := true))
  }

  function Fresh(nonce: nat): Gate {
    Gate(false, false, 0, 0, nonce)
  }

  /** The permits whose end changes the revision. */
  predicate Counts(p: Permit) {
    p.Held? && (p.kind.WritePermit? || p.kind.ExclusivePermit? || (p.kind.MaintenancePermit? && p.dirty))
  }

  function GateAfter(s: State): Gate
    requires s.permit.Held?
  {
    if s.permit.kind.ExclusivePermit? then s.gate.(exclusive := false, revision := s.gate.revision + 1)
    else if s.gate.writers == 0 then s.gate
    else Released(s.gate, Counts(s.permit))
  }

  /** One step; an action that is not possible changes nothing. */
  function Step(s: State, a: Action): State {
    match a
    case Admit(kind) =>
      if kind.ExclusivePermit? || !WriteAdmission(s.gate).Admitted? || s.permit.Held? then s
      else s.(gate := AfterAdmission(s.gate), permit := Held(kind, s.store, false))
    case AskExclusive => s.(gate := AfterExclusive(s.gate))
    case StartExclusive =>
      if s.gate.exclusive && s.gate.writers == 0 && s.permit.Free?
      then s.(permit := Held(ExclusivePermit, s.store, false)) else s
    case Release => if s.permit.Held? then s.(gate := GateAfter(s), permit := Free) else s
    case Preview =>
      if s.permit.Held? then s.(seen := s.seen + [Seen(TokenOf(s.gate), s.store, !s.permit.dirty)]) else s
    case Submit(q) => if MayWrite(s) then Written(s, Record(s.store, TokenOf(s.gate), q).0) else s
    case SubmitBaseline(expected, id, value, inTime) =>
      if MayWrite(s) then Written(s, Confirm(s.store, TokenOf(s.gate), expected, id, value, inTime).0) else s
    case OtherWrite(value) => if MayWrite(s) then Written(s, s.store.(other := value)) else s
    case Backup => if s.permit.Held? && s.permit.kind.ExclusivePermit? then s.(archive := s.archive + [s.store]) else s
    case Restore(i) =>
      if s.permit.Held? && s.permit.kind.ExclusivePermit? && i < |s.archive| then Written(s, s.archive[i]) else s
    case Shutdown => s.(gate := s.gate.(shuttingDown := true))
    case Restart => s.(gate := Fresh(s.gate.nonce + 1), permit := Free)
  }

  function Run(s: State, actions: seq<Action>): State
    decreases |actions|
  {
    if actions == [] then s else Run(Step(s, actions[0]), actions[1..])
  }

  const EMPTY_STORE := Store([], map[], map[], map[], 0)

  const START := State(EMPTY_STORE, Fresh(0), Free, [], [])

  // ----- A ledger is consistent with its receipts

  function ReceiptsOf(st: Store, kind: Kind): map<string, Receipt> {
    match kind case Single => st.singles case Batch => st.batches
  }

  /** A keyed group has the receipt that answers for it. */
  ghost predicate HasReceipt(st: Store, g: Group) {
    g.mutation.Some? ==>
      && g.mutation.value.id in ReceiptsOf(st, g.kind)
      && ReceiptsOf(st, g.kind)[g.mutation.value.id] == Receipt(g.mutation.value.hash, AnswerOf(g.kind, g.activities))
  }

  ghost predicate HasGroup(st: Store, kind: Kind, id: string) {
    exists g :: g in st.groups && g.kind == kind && g.mutation.Some? && g.mutation.value.id == id
  }

  ghost predicate OneGroupEach(groups: seq<Group>) {
    forall i, j :: 0 <= i < j < |groups| && groups[i].mutation.Some? && groups[j].mutation.Some?
      ==> groups[i].mutation.value.id != groups[j].mutation.value.id
  }

  /** Facts and receipts agree, and no mutation has both kinds of receipt. */
  ghost predicate IsLedger(st: Store) {
    && st.singles.Keys !! st.batches.Keys
    && OneGroupEach(st.groups)
    && (forall g :: g in st.groups ==> HasReceipt(st, g))
    && (forall kind, id :: id in ReceiptsOf(st, kind) ==> HasGroup(st, kind, id))
  }

  lemma UnusedHasNoGroup(st: Store, id: string)
    requires IsLedger(st) && id !in st.singles && id !in st.batches
    ensures forall g :: g in st.groups && g.mutation.Some? ==> g.mutation.value.id != id
  {
    forall g | g in st.groups && g.mutation.Some? ensures g.mutation.value.id != id {
      assert HasReceipt(st, g);
    }
  }

  lemma CommitKeepsLedger(st: Store, kind: Kind, key: MutationKey, activities: seq<nat>)
    requires IsLedger(st) && (key.Key? ==> key.mutation.id !in st.singles && key.mutation.id !in st.batches)
    ensures IsLedger(Commit(st, kind, key, activities))
  {
    hide OneGroupEach;
    var after := Commit(st, kind, key, activities);
    var added := after.groups[|st.groups|];
    if key.Key? { UnusedHasNoGroup(st, key.mutation.id); }
    assert OneGroupEach(after.groups) by { AppendKeepsOne(st.groups, added); }
    forall g | g in after.groups ensures HasReceipt(after, g) {
      assert g in st.groups || g == added;
      assert g in st.groups ==> HasReceipt(st, g);
    }
    forall k, id | id in ReceiptsOf(after, k) ensures HasGroup(after, k, id) {
      if id in ReceiptsOf(st, k) {
        assert HasGroup(st, k, id);
        var g :| g in st.groups && g.kind == k && g.mutation.Some? && g.mutation.value.id == id;
        assert g in after.groups;
      } else {
        assert added in after.groups && added.kind == k && added.mutation.Some? && added.mutation.value.id == id;
      }
    }
  }

  lemma AppendKeepsOne(groups: seq<Group>, g: Group)
    requires OneGroupEach(groups)
    requires g.mutation.Some? ==>
               forall h :: h in groups && h.mutation.Some? ==> h.mutation.value.id != g.mutation.value.id
    ensures OneGroupEach(groups + [g])
  {
  }

  lemma RecordKeepsLedger(st: Store, current: Token, q: Request)
    requires IsLedger(st)
    ensures IsLedger(Record(st, current, q).0)
  {
    hide IsLedger, Commit;
    if Record(st, current, q).0 != st {
      CommitKeepsLedger(st, q.kind, q.key, q.built.value);
    }
  }

  lemma OtherKeepsLedger(st: Store, after: Store)
    requires IsLedger(st) && after == st.(other := after.other, baselines := after.baselines)
    ensures IsLedger(after)
  {
    forall g | g in after.groups ensures HasReceipt(after, g) { assert HasReceipt(st, g); }
    forall k, id | id in ReceiptsOf(after, k) ensures HasGroup(after, k, id) {
      assert id in ReceiptsOf(st, k) && HasGroup(st, k, id);
    }
  }

  // ----- The invariant of the protocol

  ghost predicate GateAgrees(s: State) {
    match s.permit
    case Free => s.gate.writers == 0
    case Held(kind, base, dirty) =>
      && (kind.ExclusivePermit? ==> s.gate.writers == 0 && s.gate.exclusive)
      && (!kind.ExclusivePermit? ==> s.gate.writers == 1)
      && (kind.PreviewPermit? ==> !dirty)
      && (!dirty ==> s.store == base)
  }

  /** The store as it was when the present permit was granted. */
  function Base(s: State): Store {
    if s.permit.Held? then s.permit.base else s.store
  }

  ghost predicate TokenIsPast(x: Seen, s: State) {
    && x.token.nonce <= s.gate.nonce
    && (x.token.nonce == s.gate.nonce ==> x.token.revision <= s.gate.revision)
    && (x.token == TokenOf(s.gate) && x.clean ==> x.store == Base(s))
  }

  ghost predicate Inv(s: State) {
    && IsLedger(s.store)
    && (forall st :: st in s.archive ==> IsLedger(st))
    && GateAgrees(s)
    && (forall x :: x in s.seen ==> TokenIsPast(x, s))
  }

  lemma StartInv()
    ensures Inv(START)
  {
  }

  lemma StepKeeps(s: State, a: Action)
    requires Inv(s)
    ensures Inv(Step(s, a))
  {
    hide IsLedger, Record, Confirm;
    var next := Step(s, a);
    match a {
      case Submit(q) => RecordKeepsLedger(s.store, TokenOf(s.gate), q);
      case SubmitBaseline(expected, id, value, inTime) => BaselineKeepsLedger(s.store, TokenOf(s.gate), expected, id,
          value, inTime);
      case OtherWrite(value) => OtherKeepsLedger(s.store, s.store.(other := value));
      case _ =>
    }
    forall x | x in next.seen ensures TokenIsPast(x, next) {
      assert x in s.seen || (a.Preview? && x == next.seen[|s.seen|]);
      assert x in s.seen ==> TokenIsPast(x, s);
    }
  }

  lemma BaselineKeepsLedger(st: Store, current: Token, expected: Expected, id: string, value: nat, inTime: bool)
    requires IsLedger(st)
    ensures IsLedger(Confirm(st, current, expected, id, value, inTime).0)
  {
    hide IsLedger;
    OtherKeepsLedger(st, Confirm(st, current, expected, id, value, inTime).0);
  }

  lemma {:induction false} RunKeeps(s: State, actions: seq<Action>)
    requires Inv(s)
    ensures Inv(Run(s, actions))
    decreases |actions|
  {
    hide Inv, Step;
    if actions != [] {
      StepKeeps(s, actions[0]);
      RunKeeps(Step(s, actions[0]), actions[1..]);
    }
  }

  // ----- Safety over every run

  /** A mutation yields at most one fact group, of one kind, in any run. */
  lemma OneGroupPerMutation(actions: seq<Action>, i: nat, j: nat)
    requires var groups := Run(START, actions).store.groups;
             i < |groups| && j < |groups| && groups[i].mutation.Some? && groups[j].mutation.Some?
             && groups[i].mutation.value.id == groups[j].mutation.value.id
    ensures i == j
  {
    StartInv();
    RunKeeps(START, actions);
  }

  ghost predicate NoRestore(actions: seq<Action>) {
    forall a :: a in actions ==> !a.Restore?
  }

  lemma GroupsOnlyGrow(s: State, a: Action)
    requires !a.Restore?
    ensures s.store.groups <= Step(s, a).store.groups
  {
  }

  lemma {:induction false} GroupsPersist(s: State, actions: seq<Action>)
    requires NoRestore(actions)
    ensures s.store.groups <= Run(s, actions).store.groups
    decreases |actions|
  {
    hide Step;
    if actions != [] {
      assert actions[0] in actions;
      GroupsOnlyGrow(s, actions[0]);
      GroupsPersist(Step(s, actions[0]), actions[1..]);
    }
  }

  /** What a request gets when its mutation has committed a group: that group when the kind and
      the hash are the same, and a conflict otherwise; nothing is written either way. */
  lemma UsedMutationIsAnswered(st: Store, current: Token, g: Group, q: Request)
    requires IsLedger(st) && g in st.groups && g.mutation.Some?
    requires q.key.Key? && q.key.mutation.id == g.mutation.value.id
    ensures Record(st, current, q)
         == (st, if q.kind == g.kind && q.key.mutation.hash == g.mutation.value.hash
                 then Recorded(AnswerOf(g.kind, g.activities)) else Refused(Conflict))
  {
    assert HasReceipt(st, g);
  }

  /** A retry is answered with the facts it committed, whatever happened since, a restart and an
      expired token included, as long as no backup was restored. */
  lemma RetryReturnsItsGroup(before: seq<Action>, since: seq<Action>, g: Group, q: Request)
    requires NoRestore(since) && g in Run(START, before).store.groups && g.mutation.Some?
    requires q.key == Key(g.mutation.value) && q.kind == g.kind
    ensures var s := Run(Run(START, before), since);
            Record(s.store, TokenOf(s.gate), q) == (s.store, Recorded(AnswerOf(g.kind, g.activities)))
  {
    hide Run, IsLedger, Record;
    StartInv();
    RunKeeps(START, before);
    RunKeeps(Run(START, before), since);
    GroupsPersist(Run(START, before), since);
    var s := Run(Run(START, before), since);
    assert g in s.store.groups;
    UsedMutationIsAnswered(s.store, TokenOf(s.gate), g, q);
  }

  /** A retry of a baseline returns the observation it appended. */
  lemma BaselineIsAppendedOnce(st: Store, first: Token, expected: Expected, id: string, value: nat, inTime: bool,
                               later: Token, again: Expected, value': nat, inTime': bool)
    ensures var (after, r) := Confirm(st, first, expected, id, value, inTime);
            r.Some? ==> Confirm(after, later, again, id, value', inTime') == (after, r)
  {
  }

  // ----- Tokens

  /** A guarded request that writes for the first time. */
  predicate CommitsGuarded(s: State, q: Request) {
    MayWrite(s) && (q.guarded || q.kind.Batch?) && Record(s.store, TokenOf(s.gate), q).0 != s.store
  }

  /** A guarded first commit sees the state its preview saw, up to what its own permit has
      already written. */
  lemma GuardedCommitSeesItsPreview(actions: seq<Action>, q: Request, x: Seen)
    requires var s := Run(START, actions);
             CommitsGuarded(s, q) && x in s.seen && x.clean && q.expected == Presented(x.token)
    ensures var s := Run(START, actions);
            x.store == s.permit.base && (!s.permit.dirty ==> x.store == s.store)
  {
    hide IsLedger, Commit, Run;
    StartInv();
    RunKeeps(START, actions);
    var s := Run(START, actions);
    assert TokenIsPast(x, s);
  }

  /** The exception is real: a permit that writes something else first still commits against the
      token of an earlier preview, which did not see that write. */
  lemma LaterWritesOfTheSamePermitGoUnseen()
    ensures var q := Request(Batch, Key(Mutation("m", "h")), true, Presented(Token(0, 0)), Some([7]));
            var s := Run(START, [Admit(PreviewPermit), Preview, Release, Admit(WritePermit), OtherWrite(1)]);
            CommitsGuarded(s, q) && s.seen == [Seen(Token(0, 0), EMPTY_STORE, true)] && s.store != EMPTY_STORE
  {
    var s1 := Step(START, Admit(PreviewPermit));
    var s2 := Step(s1, Preview);
    var s3 := Step(s2, Release);
    var s4 := Step(s3, Admit(WritePermit));
    var s5 := Step(s4, OtherWrite(1));
    RunTwo(START, Admit(PreviewPermit), Preview, [Release, Admit(WritePermit), OtherWrite(1)]);
    RunTwo(s2, Release, Admit(WritePermit), [OtherWrite(1)]);
    assert Run(s4, [OtherWrite(1)]) == Run(s5, []);
    assert [Admit(PreviewPermit), Preview] + [Release, Admit(WritePermit), OtherWrite(1)]
        == [Admit(PreviewPermit), Preview, Release, Admit(WritePermit), OtherWrite(1)];
    assert [Release, Admit(WritePermit)] + [OtherWrite(1)] == [Release, Admit(WritePermit), OtherWrite(1)];
  }

  lemma RunTwo(s: State, a: Action, b: Action, rest: seq<Action>)
    ensures Run(s, [a, b] + rest) == Run(Step(Step(s, a), b), rest)
  {
    hide Step;
    var actions := [a, b] + rest;
    assert actions[1..] == [b] + rest && actions[1..][1..] == rest;
  }

  /** A run in which no permit that counts as a write ends and the process does not restart. */
  predicate Quiet(s: State, actions: seq<Action>)
    decreases |actions|
  {
    actions == []
    || (!(actions[0].Release? && Counts(s.permit)) && !actions[0].Restart? && Quiet(Step(s, actions[0]), actions[1..]))
  }

  lemma StepToken(s: State, a: Action)
    requires GateAgrees(s)
    ensures var before, after := TokenOf(s.gate), TokenOf(Step(s, a).gate);
            && (after == before <==> !(a.Release? && Counts(s.permit)) && !a.Restart?)
            && (after != before
                ==> after.nonce > before.nonce || (after.nonce == before.nonce && after.revision > before.revision))
  {
    hide Record, Confirm;
  }

  predicate NotBefore(t: Token, u: Token) {
    u.nonce > t.nonce || (u.nonce == t.nonce && u.revision >= t.revision)
  }

  /** A token stays current exactly as long as no write ended since it was issued. */
  lemma {:induction false} TokenIsCurrentWhileQuiet(s: State, actions: seq<Action>)
    requires Inv(s)
    ensures TokenOf(Run(s, actions).gate) == TokenOf(s.gate) <==> Quiet(s, actions)
    ensures NotBefore(TokenOf(s.gate), TokenOf(Run(s, actions).gate))
    decreases |actions|
  {
    hide Step;
    if actions != [] {
      StepToken(s, actions[0]);
      StepKeeps(s, actions[0]);
      TokenIsCurrentWhileQuiet(Step(s, actions[0]), actions[1..]);
    }
  }

  /** A first commit under the token of an earlier state is recorded exactly when no write ended
      since; otherwise it is refused as stale and writes nothing. */
  lemma FirstCommitNeedsQuiet(before: seq<Action>, since: seq<Action>, q: Request)
    requires var s := Run(START, before);
             var now := Run(s, since);
             && q.key.Key? && (q.guarded || q.kind.Batch?) && q.expected == Presented(TokenOf(s.gate)) && q.built.Some?
             && q.key.mutation.id !in now.store.singles && q.key.mutation.id !in now.store.batches
    ensures var s := Run(START, before);
            var now := Run(s, since);
            Record(now.store, TokenOf(now.gate), q)
            == if Quiet(s, since)
                then (Commit(now.store, q.kind, q.key, q.built.value), Recorded(AnswerOf(q.kind, q.built.value)))
               else (now.store, Refused(StalePreview))
  {
    hide Run, Commit, Quiet, Inv;
    StartInv();
    RunKeeps(START, before);
    TokenIsCurrentWhileQuiet(Run(START, before), since);
  }

  // ----- Permits

  /** After shutdown the facts stay as they are, until a restart. */
  lemma {:induction false} NothingIsWrittenAfterShutdown(s: State, actions: seq<Action>)
    requires s.gate.shuttingDown && !s.gate.exclusive && s.permit.Free? && forall a :: a in actions ==> !a.Restart?
    ensures Run(s, actions).store == s.store && Run(s, actions).permit.Free?
    decreases |actions|
  {
    if actions != [] {
      assert actions[0] in actions;
      NothingIsWrittenAfterShutdown(Step(s, actions[0]), actions[1..]);
    }
  }

  /** Once exclusive work has asked for the gate, no ordinary permit is granted before it ends. */
  lemma {:induction false} ExclusiveWorkIsFenced(s: State, actions: seq<Action>)
    requires s.gate.exclusive && (s.permit.Free? || s.permit.kind.ExclusivePermit?)
    requires forall a :: a in actions ==> !a.Release? && !a.Restart?
    ensures var now := Run(s, actions); now.gate.exclusive && (now.permit.Free? || now.permit.kind.ExclusivePermit?)
    decreases |actions|
  {
    hide Record, Confirm;
    if actions != [] {
      assert actions[0] in actions;
      ExclusiveWorkIsFenced(Step(s, actions[0]), actions[1..]);
    }
  }
}
