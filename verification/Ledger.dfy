/** Receipts, transactions and the pending slot, and the statements that change them. */
module LedgerTables {
  import opened Domain

  type User = nat
  type ReceiptId = nat
  type TxId = nat
  type MessageId = nat

  /** What a confirmed transaction records. Texts are represented by numbers. */
  datatype Facts = Facts(amount: int, currency: nat, merchant: nat, kind: nat, occurredAt: int)

  datatype Receipt = Receipt(user: User, status: ReceiptStatus)

  datatype Tx = Tx(
    user: User, receipt: Option<ReceiptId>, message: Option<MessageId>, status: TxStatus,
    facts: Facts, category: nat, version: nat, deleted: bool, createdAt: int)

  datatype PendingKind =
    | ConfirmExtraction | EditTotal | EditMerchant | EditDate | EditCategory | EditType
    | DeleteAccount | DeleteRecent

  /** The one open question of a user's chat. */
  datatype Pending = Pending(kind: PendingKind, tx: Option<TxId>)

  datatype Tables = Tables(receipts: map<ReceiptId, Receipt>, txs: map<TxId, Tx>, pending: map<User, Pending>)

  predicate Active(x: Tx) {
    !x.deleted && x.status != TxDeleted
  }

  /** UPDATE ... WHERE id AND status = from, after the state machine allowed the move. */
  predicate Movable(t: Tables, r: ReceiptId, from: ReceiptStatus, to: ReceiptStatus) {
    ReceiptCanMove(from, to) && r in t.receipts && t.receipts[r].status == from
  }

  function ReceiptMoved(t: Tables, r: ReceiptId, from: ReceiptStatus, to: ReceiptStatus): Tables {
    if Movable(t, r, from, to) then t.(receipts := t.receipts[r := t.receipts[r].(status := to)]) else t
  }

  /** The receipt behind a draft under review follows the draft. */
  function Following(t: Tables, receipt: Option<ReceiptId>, to: ReceiptStatus): Tables {
    if receipt.Some? then ReceiptMoved(t, receipt.value, ReviewRequired, to) else t
  }

  /** `existing` is what a lookup of an active row with property `p` returned. */
  ghost predicate Lookup(t: Tables, p: Tx -> bool, existing: Option<TxId>) {
    match existing
    case Some(id) => id in t.txs && Active(t.txs[id]) && p(t.txs[id])
    case None => forall id :: id in t.txs && Active(t.txs[id]) ==> !p(t.txs[id])
  }

  /** The final guard of FinalizeReceiptReview; if it fails everything is rolled back. */
  predicate Reviewable(t: Tables, r: ReceiptId) {
    r in t.receipts && t.receipts[r].status == Extracting
  }

  /** The transaction that turns an extraction into a draft under review. */
  function Finalized(t: Tables, r: ReceiptId, existing: Option<TxId>, newId: TxId, facts: Facts, category: nat,
                     now: int): Tables
    requires existing.Some? ==> existing.value in t.txs
  {
    if !Reviewable(t, r) then t
    else
      var user := t.receipts[r].user;
      var id := if existing.Some? then existing.value else newId;
      var row := if existing.Some?
                 then t.txs[id].(facts := facts, category := category, status := TxAwaiting,
                                 version := t.txs[id].version + 1)
                 else Tx(user, Some(r), None, TxAwaiting, facts, category, 1, false, now);
      Tables(t.receipts[r := t.receipts[r].(status := ReviewRequired)], t.txs[id := row],
             t.pending[user := Pending(ConfirmExtraction, Some(id))])
  }

  /** The transaction that stores a typed entry; a retry of the same message reuses its draft. */
  function Drafted(t: Tables, user: User, message: MessageId, existing: Option<TxId>, newId: TxId, facts: Facts,
                   category: nat, now: int): Tables {
    if existing.Some? then t.(pending := t.pending[user := Pending(ConfirmExtraction, existing)])
    else t.(txs := t.txs[newId := Tx(user, None, Some(message), TxAwaiting, facts, category, 1, false, now)],
            pending := t.pending[user := Pending(ConfirmExtraction, Some(newId))])
  }

  predicate Updatable(t: Tables, id: TxId, expected: nat) {
    id in t.txs && t.txs[id].version == expected && !t.txs[id].deleted
  }

  /** The optimistic write: every mutable field is replaced if the version is still the expected one. */
  function Updated(t: Tables, id: TxId, row: Tx, expected: nat): Tables {
    if Updatable(t, id, expected)
    then t.(txs := t.txs[id := t.txs[id].(receipt := row.receipt, status := row.status, facts := row.facts,
                                          category := row.category, version := expected + 1)])
    else t
  }

  predicate Erasable(t: Tables, id: TxId, user: User) {
    id in t.txs && t.txs[id].user == user && !t.txs[id].deleted
  }

  /** The write of SoftDeleteTransaction; it has no version guard. */
  function Erased(t: Tables, id: TxId, user: User): Tables {
    if Erasable(t, id, user)
    then t.(txs := t.txs[id := t.txs[id].(status := TxDeleted, deleted := true, version := t.txs[id].version + 1)])
    else t
  }

  function AccountPurged(t: Tables, user: User): Tables {
    Tables(map r | r in t.receipts && t.receipts[r].user != user :: t.receipts[r],
           map id | id in t.txs && t.txs[id].user != user :: t.txs[id],
           t.pending - {user})
  }

  /** A field correction typed in reply to an edit prompt. */
  datatype Correction =
    | NewTotal(amount: int, currency: nat) | NewMerchant(merchant: nat) | NewDate(occurredAt: int)
    | NewCategory(category: nat) | NewType(kind: nat)
  {
    function Slot(): PendingKind {
      match this
      case NewTotal(_, _) => EditTotal
      case NewMerchant(_) => EditMerchant
      case NewDate(_) => EditDate
      case NewCategory(_) => EditCategory
      case NewType(_) => EditType
    }

    function Of(x: Tx): Tx {
      match this
      case NewTotal(amount, currency) => x.(facts := x.facts.(amount := amount, currency := currency))
      case NewMerchant(merchant) => x.(facts := x.facts.(merchant := merchant))
      case NewDate(at) => x.(facts := x.facts.(occurredAt := at))
      case NewCategory(category) => x.(category := category)
      case NewType(kind) => x.(facts := x.facts.(kind := kind))
    }
  }
}

/**
Every interleaving of chat handlers, receipt workers, the retention sweep, account deletion and
crashes on these tables. No lock is assumed: a chat handler reads a row, and its write comes any time
later. A lane not in `lanes` is idle.
*/
module LedgerRuns {
  import opened Domain
  import opened LedgerTables

  type Lane = nat

  datatype Intent = IntentConfirm | IntentDiscard | IntentOther

  /** What a handler knows: the sender, the intent of the message and the pending slot it found. */
  datatype Session = Session(user: User, intent: Intent, slot: Option<Pending>)

  datatype Why = ForConfirm | ForEdit(correction: Correction) | ForCategory

  datatype Pc =
    | Opened(session: Session)
    | Writing(session: Session, id: TxId, base: Tx, row: Tx, why: Why)
    | Erasing(session: Session, id: TxId)

  /** Who confirmed a transaction, and what it recorded at that moment. */
  datatype Confirmation = Confirmation(session: Session, facts: Facts)

  /** What a transaction was drafted with, and the corrections written since. */
  datatype Origin = Origin(facts: Facts, edits: seq<Correction>)

  /** `receiptsEver` and `txsEver` are the identifiers used so far; `linked` maps a receipt to the one
      transaction drafted for it. */
  datatype State = State(
    t: Tables, lanes: map<Lane, Pc>, receiptsEver: set<ReceiptId>, txsEver: set<TxId>,
    linked: map<ReceiptId, TxId>, confirmed: map<TxId, Confirmation>,
    past: map<TxId, Origin>)

  const INIT: State := State(Tables(map[], map[], map[]), map[], {}, {}, map[], map[], map[])

  datatype Step =
    | NewReceipt(r: ReceiptId, user: User)
    | MoveReceipt(r: ReceiptId, from: ReceiptStatus, to: ReceiptStatus)
    | DropReceipt(r: ReceiptId)
    | Finalize(r: ReceiptId, existing: Option<TxId>, newId: TxId, facts: Facts, category: nat, now: int)
    | Draft(user: User, message: MessageId, existing: Option<TxId>, newId: TxId, facts: Facts, category: nat, now: int)
    | SetPending(user: User, pending: Option<Pending>)
    | Open(lane: Lane, user: User, intent: Intent)
    | ReadConfirm(lane: Lane)
    | ReadEdit(lane: Lane, correction: Correction)
    | ReadCategory(lane: Lane, id: TxId, category: nat)
    | Write(lane: Lane)
    | ReadErase(lane: Lane)
    | Erase(lane: Lane)
    | PurgeAccount(user: User)
    | Crash(lane: Lane)

  predicate Names(session: Session, kind: PendingKind) {
    session.slot.Some? && session.slot.value.kind == kind && session.slot.value.tx.Some?
  }

  /** GetTransactionForUser. */
  predicate Visible(t: Tables, id: TxId, user: User) {
    id in t.txs && t.txs[id].user == user
  }

  ghost predicate Enabled(s: State, step: Step) {
    match step
    case NewReceipt(r, _) => r !in s.receiptsEver
    case Finalize(r, existing, newId, _, _, _) =>
      newId !in s.txsEver && Lookup(s.t, (x: Tx) => x.receipt == Some(r), existing)
    case Draft(_, m, existing, newId, _, _, _) =>
      newId !in s.txsEver && Lookup(s.t, (x: Tx) => x.message == Some(m), existing)
    case Open(lane, _, _) => lane !in s.lanes
    case ReadConfirm(lane) =>
      && lane in s.lanes && s.lanes[lane].Opened?
      && s.lanes[lane].session.intent == IntentConfirm && Names(s.lanes[lane].session, ConfirmExtraction)
    case ReadEdit(lane, c) => lane in s.lanes && s.lanes[lane].Opened? && Names(s.lanes[lane].session, c.Slot())
    case ReadCategory(lane, id, _) =>
      && lane in s.lanes && s.lanes[lane].Opened? && Visible(s.t, id, s.lanes[lane].session.user)
      && Recorded(s.t.txs[id].status) && !s.t.txs[id].deleted
    case Write(lane) => lane in s.lanes && s.lanes[lane].Writing?
    case ReadErase(lane) =>
      && lane in s.lanes && s.lanes[lane].Opened?
      && var se := s.lanes[lane].session;
         || (se.intent == IntentDiscard && Names(se, ConfirmExtraction))
         || (se.intent == IntentConfirm && Names(se, DeleteRecent))
    case Erase(lane) => lane in s.lanes && s.lanes[lane].Erasing?
    case _ => true
  }

  /** A draft under review is loaded for a confirmation or a correction; a stale slot is cleared. */
  function Reviewing(s: State, lane: Lane, row: Tx -> Tx, why: Why): State
    requires lane in s.lanes && s.lanes[lane].Opened?
    requires s.lanes[lane].session.slot.Some? && s.lanes[lane].session.slot.value.tx.Some?
  {
    var se := s.lanes[lane].session;
    var id := se.slot.value.tx.value;
    if Visible(s.t, id, se.user) && s.t.txs[id].status == TxAwaiting
    then s.(lanes := s.lanes[lane := Writing(se, id, s.t.txs[id], row(s.t.txs[id]), why)])
    else s.(lanes := s.lanes - {lane}, t := s.t.(pending := s.t.pending - {se.user}))
  }

  function Recategorised(x: Tx, category: nat): Tx {
    x.(category := category, status := TxAmended)
  }

  function Edited(past: map<TxId, Origin>, id: TxId, why: Why): map<TxId, Origin> {
    if id in past && why.ForEdit? then past[id := Origin(past[id].facts, past[id].edits + [why.correction])] else past
  }

  function AfterWrite(s: State, lane: Lane): State
    requires lane in s.lanes && s.lanes[lane].Writing?
  {
    var pc := s.lanes[lane];
    var wins := Updatable(s.t, pc.id, pc.base.version);
    s.(t := Updated(s.t, pc.id, pc.row, pc.base.version), lanes := s.lanes - {lane},
       confirmed := if wins && pc.why == ForConfirm
                    then s.confirmed[pc.id := Confirmation(pc.session, pc.row.facts)] else s.confirmed,
       past := if wins then Edited(s.past, pc.id, pc.why) else s.past)
  }

  ghost function Apply(s: State, step: Step): State
    requires Enabled(s, step)
  {
    match step
    case NewReceipt(r, user) =>
      s.(t := s.t.(receipts := s.t.receipts[r := Receipt(user, Received)]), receiptsEver := s.receiptsEver + {r})
    case MoveReceipt(r, from, to) => s.(t := ReceiptMoved(s.t, r, from, to))
    case DropReceipt(r) =>
      if r in s.t.receipts && s.t.receipts[r].status == Received
      then s.(t := s.t.(receipts := s.t.receipts - {r})) else s
    case Finalize(r, existing, newId, facts, category, now) =>
      var t' := Finalized(s.t, r, existing, newId, facts, category, now);
      if Reviewable(s.t, r) && existing.None?
      then s.(t := t', txsEver := s.txsEver + {newId}, linked := s.linked[r := newId],
              past := s.past[newId := Origin(facts, [])])
      else s.(t := t')
    case Draft(user, message, existing, newId, facts, category, now) =>
      s.(t := Drafted(s.t, user, message, existing, newId, facts, category, now), txsEver := s.txsEver + {newId},
         past := s.past[newId := Origin(facts, [])])
    case SetPending(user, pending) =>
      s.(t := s.t.(pending := if pending.Some? then s.t.pending[user := pending.value] else s.t.pending - {user}))
    case Open(lane, user, intent) =>
      var slot := if user in s.t.pending then Some(s.t.pending[user]) else None;
      s.(lanes := s.lanes[lane := Opened(Session(user, intent, slot))])
    case ReadConfirm(lane) => Reviewing(s, lane, (x: Tx) => x.(status := TxConfirmed), ForConfirm)
    case ReadEdit(lane, c) => Reviewing(s, lane, (x: Tx) => c.Of(x), ForEdit(c))
    case ReadCategory(lane, id, category) =>
      var x := s.t.txs[id];
      s.(lanes := s.lanes[lane := Writing(s.lanes[lane].session, id, x, Recategorised(x, category), ForCategory)])
    case Write(lane) => AfterWrite(s, lane)
    case ReadErase(lane) =>
      var se := s.lanes[lane].session;
      var id := se.slot.value.tx.value;
      if Visible(s.t, id, se.user) && TxCanMove(s.t.txs[id].status, TxDeleted)
      then s.(lanes := s.lanes[lane := Erasing(se, id)])
      else s.(lanes := s.lanes - {lane})
    case Erase(lane) =>
      s.(t := Erased(s.t, s.lanes[lane].id, s.lanes[lane].session.user), lanes := s.lanes - {lane})
    case PurgeAccount(user) => s.(t := AccountPurged(s.t, user))
    case Crash(lane) => s.(lanes := s.lanes - {lane})
  }

  ghost predicate ValidRun(s: State, steps: seq<Step>)
    decreases steps
  {
    steps == [] || (Enabled(s, steps[0]) && ValidRun(Apply(s, steps[0]), steps[1..]))
  }

  ghost function Run(s: State, steps: seq<Step>): State
    requires ValidRun(s, steps)
    decreases steps
  {
    if steps == [] then s else Run(Apply(s, steps[0]), steps[1..])
  }

  lemma {:induction false} RunAppend(s: State, steps: seq<Step>, last: Step)
    requires ValidRun(s, steps) && Enabled(Run(s, steps), last)
    ensures ValidRun(s, steps + [last]) && Run(s, steps + [last]) == Apply(Run(s, steps), last)
    decreases steps
  {
    if steps == [] {
      assert (steps + [last])[1..] == [];
    } else {
      RunAppend(Apply(s, steps[0]), steps[1..], last);
      assert (steps + [last])[1..] == steps[1..] + [last];
    }
  }

  // ---------------------------------------------------------------- what every step keeps

  predicate TxOk(s: State, id: TxId)
    requires id in s.t.txs
  {
    var x := s.t.txs[id];
    && id in s.txsEver
    && (x.deleted <==> x.status == TxDeleted)
    && x.status != TxDraft
    && (x.receipt.Some? ==> x.receipt.value in s.linked && s.linked[x.receipt.value] == id)
    && (Recorded(x.status) ==> id in s.confirmed)
    && (id in s.confirmed ==> x.status in {TxConfirmed, TxAmended, TxDeleted} && x.facts == s.confirmed[id].facts)
  }

  ghost predicate TxsOk(s: State) {
    forall id :: id in s.t.txs ==> TxOk(s, id)
  }

  /** A receipt that has a draft has left the pipeline for good. */
  ghost predicate ReceiptsOk(s: State) {
    && (forall r :: r in s.t.receipts ==> r in s.receiptsEver)
    && (forall r :: r in s.linked ==> r in s.receiptsEver && s.linked[r] in s.txsEver)
    && (forall r :: r in s.linked && r in s.t.receipts ==> PostReview(s.t.receipts[r].status))
  }

  predicate ConfirmedBy(session: Session, id: TxId) {
    session.intent == IntentConfirm && session.slot == Some(Pending(ConfirmExtraction, Some(id)))
  }

  ghost predicate ConfirmationsOk(s: State) {
    forall id :: id in s.confirmed ==> id in s.txsEver && ConfirmedBy(s.confirmed[id].session, id)
  }

  /** What a pending write was computed from, and that it is still exact if the version is unchanged. */
  predicate LaneOk(s: State, pc: Pc) {
    pc.Writing? ==>
      && pc.id in s.txsEver
      && (pc.id in s.t.txs ==>
            && s.t.txs[pc.id].version >= pc.base.version
            && (s.t.txs[pc.id].version == pc.base.version ==> s.t.txs[pc.id] == pc.base))
      && pc.row.receipt == pc.base.receipt
      && (pc.why == ForConfirm ==>
            pc.base.status == TxAwaiting && pc.row.status == TxConfirmed && pc.row.facts == pc.base.facts
            && ConfirmedBy(pc.session, pc.id))
      && (pc.why.ForEdit? ==> pc.base.status == TxAwaiting && pc.row.status == TxAwaiting)
      && (pc.why == ForCategory ==>
            Recorded(pc.base.status) && pc.row.status == TxAmended && pc.row.facts == pc.base.facts)
  }

  ghost predicate LanesOk(s: State) {
    forall l :: l in s.lanes ==> LaneOk(s, s.lanes[l])
  }

  ghost predicate Inv(s: State) {
    TxsOk(s) && ReceiptsOk(s) && ConfirmationsOk(s) && LanesOk(s)
  }

  /** How one statement may change a transaction row. */
  predicate TxMoved(x: Tx, y: Tx) {
    || x == y
    || (&& y.version == x.version + 1 && y.user == x.user && y.receipt == x.receipt && y.message == x.message
        && (x.status == y.status || TxCanMove(x.status, y.status))
        && (x.status != TxAwaiting ==> y.facts == x.facts)
        && x.status != TxDeleted)
  }

  ghost predicate TxsMoved(t: Tables, t': Tables) {
    forall id :: id in t.txs && id in t'.txs ==> TxMoved(t.txs[id], t'.txs[id])
  }

  lemma LanesStay(s: State, s': State)
    requires LanesOk(s) && s.txsEver <= s'.txsEver && TxsMoved(s.t, s'.t)
    requires forall id :: id in s'.t.txs ==> id in s.t.txs || id !in s.txsEver
    requires forall l :: l in s'.lanes ==> l in s.lanes && s'.lanes[l] == s.lanes[l]
    ensures LanesOk(s')
  {
    forall l | l in s'.lanes ensures LaneOk(s', s'.lanes[l]) {
      assert LaneOk(s, s.lanes[l]);
    }
  }

  lemma ReceiptStep(s: State, step: Step)
    requires Inv(s) && Enabled(s, step)
    requires (step.NewReceipt? || step.MoveReceipt? || step.DropReceipt? || step.SetPending?)
    ensures Inv(Apply(s, step)) && TxsMoved(s.t, Apply(s, step).t)
  {
    hide LaneOk, ConfirmedBy, TxsOk, LanesOk, AfterWrite, Finalized, Drafted, Reviewing, Erased, AccountPurged, Lookup;
    var s' := Apply(s, step);
    TxsStay(s, s');
    LanesStay(s, s');
  }

  lemma TxsStay(s: State, s': State)
    requires TxsOk(s) && s'.t.txs == s.t.txs && s'.txsEver == s.txsEver && s'.linked == s.linked
    requires s'.confirmed == s.confirmed
    ensures TxsOk(s')
  {
    forall id | id in s'.t.txs ensures TxOk(s', id) {
      assert TxOk(s, id);
    }
  }

  lemma PurgeStep(s: State, step: Step)
    requires Inv(s) && Enabled(s, step) && step.PurgeAccount?
    ensures Inv(Apply(s, step)) && TxsMoved(s.t, Apply(s, step).t)
  {
    var s' := Apply(s, step);
    assert forall id :: id in s'.t.txs ==> TxOk(s, id) && TxOk(s', id);
    LanesStay(s, s');
  }

  /** A receipt that can still be finalised has no transaction, so the overwriting branch cannot commit. */
  lemma NothingToOverwrite(s: State, r: ReceiptId, existing: Option<TxId>)
    requires Inv(s) && Reviewable(s.t, r) && Lookup(s.t, (x: Tx) => x.receipt == Some(r), existing)
    ensures existing.None? && r !in s.linked
  {
    assert r !in s.linked;
    assert existing.Some? ==> TxOk(s, existing.value);
  }

  lemma FinalizeStep(s: State, step: Step)
    requires Inv(s) && Enabled(s, step) && step.Finalize?
    ensures Inv(Apply(s, step)) && TxsMoved(s.t, Apply(s, step).t)
  {
    var s' := Apply(s, step);
    if Reviewable(s.t, step.r) {
      NothingToOverwrite(s, step.r, step.existing);
      forall id | id in s'.t.txs ensures TxOk(s', id) {
        if id != step.newId {
          assert TxOk(s, id);
        } else {
          assert id !in s.confirmed;
        }
      }
      LanesStay(s, s');
    }
  }

  lemma DraftStep(s: State, step: Step)
    requires Inv(s) && Enabled(s, step) && step.Draft?
    ensures Inv(Apply(s, step)) && TxsMoved(s.t, Apply(s, step).t)
  {
    var s' := Apply(s, step);
    forall id | id in s'.t.txs ensures TxOk(s', id) {
      if id != step.newId {
        assert TxOk(s, id);
      } else {
        assert id !in s.confirmed;
      }
    }
    LanesStay(s, s');
  }

  /** A step that changes no transaction and at most moves one lane. */
  lemma LaneSteps(s: State, s': State, lane: Lane)
    requires Inv(s) && s'.t.txs == s.t.txs && s'.t.receipts == s.t.receipts && s'.txsEver == s.txsEver
    requires s'.receiptsEver == s.receiptsEver && s'.linked == s.linked && s'.confirmed == s.confirmed
    requires forall l :: l in s'.lanes && l != lane ==> l in s.lanes && s'.lanes[l] == s.lanes[l]
    requires lane in s'.lanes ==> LaneOk(s, s'.lanes[lane])
    ensures Inv(s') && TxsMoved(s.t, s'.t)
  {
    forall id | id in s'.t.txs ensures TxOk(s', id) {
      assert TxOk(s, id);
    }
    forall l | l in s'.lanes ensures LaneOk(s', s'.lanes[l]) {
      assert LaneOk(s, s'.lanes[l]);
    }
  }

  lemma ReadStep(s: State, step: Step)
    requires Inv(s) && Enabled(s, step)
    requires step.ReadConfirm? || step.ReadEdit? || step.ReadCategory?
    ensures Inv(Apply(s, step)) && TxsMoved(s.t, Apply(s, step).t)
  {
    var s' := Apply(s, step);
    if step.lane in s'.lanes {
      ReadLane(s, step, s'.lanes[step.lane]);
    }
    LaneSteps(s, s', step.lane);
  }

  /** A read leaves the lane with an exact copy. */
  lemma ReadLane(s: State, step: Step, pc: Pc)
    requires Inv(s) && Enabled(s, step) && (step.ReadConfirm? || step.ReadEdit? || step.ReadCategory?)
    requires step.lane in Apply(s, step).lanes && pc == Apply(s, step).lanes[step.lane]
    ensures LaneOk(s, pc)
  {
    assert pc.Writing? && pc.id in s.t.txs && TxOk(s, pc.id) && pc.base == s.t.txs[pc.id];
  }

  lemma WriteStep(s: State, step: Step)
    requires Inv(s) && Enabled(s, step) && step.Write?
    ensures Inv(Apply(s, step)) && TxsMoved(s.t, Apply(s, step).t)
  {
    var s' := Apply(s, step);
    var pc := s.lanes[step.lane];
    assert LaneOk(s, pc);
    if Updatable(s.t, pc.id, pc.base.version) {
      assert s.t.txs[pc.id] == pc.base;
      forall id | id in s'.t.txs ensures TxOk(s', id) && TxMoved(s.t.txs[id], s'.t.txs[id]) {
        assert TxOk(s, id);
      }
    } else {
      assert forall id :: id in s'.t.txs ==> TxOk(s, id) && TxOk(s', id);
    }
    LanesStay(s, s');
  }

  lemma EraseStep(s: State, step: Step)
    requires Inv(s) && Enabled(s, step) && step.Erase?
    ensures Inv(Apply(s, step)) && TxsMoved(s.t, Apply(s, step).t)
  {
    var s' := Apply(s, step);
    forall id | id in s'.t.txs ensures TxOk(s', id) && TxMoved(s.t.txs[id], s'.t.txs[id]) {
      assert TxOk(s, id);
    }
    LanesStay(s, s');
  }

  lemma StepKeeps(s: State, step: Step)
    requires Inv(s) && Enabled(s, step)
    ensures Inv(Apply(s, step)) && TxsMoved(s.t, Apply(s, step).t)
  {
    match step
    case NewReceipt(_, _) => ReceiptStep(s, step);
    case MoveReceipt(_, _, _) => ReceiptStep(s, step);
    case DropReceipt(_) => ReceiptStep(s, step);
    case SetPending(_, _) => ReceiptStep(s, step);
    case PurgeAccount(_) => PurgeStep(s, step);
    case Finalize(_, _, _, _, _, _) => FinalizeStep(s, step);
    case Draft(_, _, _, _, _, _, _) => DraftStep(s, step);
    case Write(_) => WriteStep(s, step);
    case Erase(_) => EraseStep(s, step);
    case ReadConfirm(_) => ReadStep(s, step);
    case ReadEdit(_, _) => ReadStep(s, step);
    case ReadCategory(_, _, _) => ReadStep(s, step);
    case Open(lane, _, _) => LaneSteps(s, Apply(s, step), lane);
    case ReadErase(lane) => LaneSteps(s, Apply(s, step), lane);
    case Crash(lane) => LaneSteps(s, Apply(s, step), lane);
  }

  lemma {:induction false} RunKeeps(s: State, steps: seq<Step>)
    requires Inv(s) && ValidRun(s, steps)
    ensures Inv(Run(s, steps))
    decreases steps
  {
    if steps != [] {
      StepKeeps(s, steps[0]);
      RunKeeps(Apply(s, steps[0]), steps[1..]);
    }
  }

  // ---------------------------------------------------------------- main results

  /** In every reachable state a receipt that has not reached review has no transaction, and a receipt never
      has two, deleted ones included. */
  lemma OneDraftPerReceipt(steps: seq<Step>)
    requires ValidRun(INIT, steps)
    ensures var t := Run(INIT, steps).t;
            && (forall id :: id in t.txs && t.txs[id].receipt.Some? && t.txs[id].receipt.value in t.receipts ==>
                  PostReview(t.receipts[t.txs[id].receipt.value].status))
            && (forall i, j :: i in t.txs && j in t.txs && t.txs[i].receipt.Some?
                               && t.txs[i].receipt == t.txs[j].receipt
                               ==> i == j)
  {
    RunKeeps(INIT, steps);
    var s := Run(INIT, steps);
    assert forall id :: id in s.t.txs ==> TxOk(s, id);
  }

  /** However many workers finish the same receipt, a finalisation that finds a transaction changes nothing. */
  lemma FinalizeNeverOverwrites(steps: seq<Step>, last: Step)
    requires ValidRun(INIT, steps) && Enabled(Run(INIT, steps), last) && last.Finalize? && last.existing.Some?
    ensures Apply(Run(INIT, steps), last).t == Run(INIT, steps).t
  {
    RunKeeps(INIT, steps);
    var s := Run(INIT, steps);
    if Reviewable(s.t, last.r) {
      NothingToOverwrite(s, last.r, last.existing);
    }
  }

  /** Transactions move only along their state machine, every change raises the version by one, and what a
      transaction records changes only while it awaits confirmation. */
  lemma TransactionsMoveLegally(steps: seq<Step>, last: Step)
    requires ValidRun(INIT, steps) && Enabled(Run(INIT, steps), last)
    ensures TxsMoved(Run(INIT, steps).t, Apply(Run(INIT, steps), last).t)
  {
    RunKeeps(INIT, steps);
    StepKeeps(Run(INIT, steps), last);
  }

  /** A transaction becomes confirmed only by the write of a handler that was sent an explicit confirmation
      while the pending slot named that transaction. */
  lemma ConfirmedOnlyByUser(steps: seq<Step>, last: Step, id: TxId)
    requires ValidRun(INIT, steps) && Enabled(Run(INIT, steps), last)
    requires var s, s' := Run(INIT, steps), Apply(Run(INIT, steps), last);
             && id in s'.t.txs && s'.t.txs[id].status == TxConfirmed
             && !(id in s.t.txs && s.t.txs[id].status == TxConfirmed)
    ensures var s := Run(INIT, steps);
            && last.Write? && s.lanes[last.lane].id == id
            && s.lanes[last.lane].session.intent == IntentConfirm
            && s.lanes[last.lane].session.slot == Some(Pending(ConfirmExtraction, Some(id)))
            && id in s.t.txs && s.t.txs[id].status == TxAwaiting
  {
    var s := Run(INIT, steps);
    RunKeeps(INIT, steps);
    StepKeeps(s, last);
    if id in s.t.txs {
      assert TxOk(s, id);
      if last.Write? {
        assert LaneOk(s, s.lanes[last.lane]);
      } else {
        OthersDoNotConfirm(s, last, id);
      }
    } else {
      OthersDoNotConfirm(s, last, id);
    }
  }

  lemma OthersDoNotConfirm(s: State, step: Step, id: TxId)
    requires Inv(s) && Enabled(s, step) && !step.Write?
    requires id in Apply(s, step).t.txs && Apply(s, step).t.txs[id].status == TxConfirmed
    ensures id in s.t.txs && s.t.txs[id].status == TxConfirmed
  {
    if step.Finalize? && Reviewable(s.t, step.r) {
      NothingToOverwrite(s, step.r, step.existing);
    }
  }

  /** Once confirmed in a run, amount, currency, merchant, type and date are frozen over everything that follows. */
  lemma FactsFrozen(before: seq<Step>, after: seq<Step>, id: TxId)
    requires ValidRun(INIT, before) && ValidRun(Run(INIT, before), after)
    requires var t := Run(INIT, before).t; id in t.txs && Recorded(t.txs[id].status)
    ensures var t, t' := Run(INIT, before).t, Run(Run(INIT, before), after).t;
            id in t'.txs ==>
              && t'.txs[id].facts == t.txs[id].facts && t'.txs[id].version >= t.txs[id].version
              && t'.txs[id].status in {TxConfirmed, TxAmended, TxDeleted}
  {
    hide Apply, Enabled, ValidRun, Run, LaneOk;
    RunKeeps(INIT, before);
    var s := Run(INIT, before);
    RunKeeps(s, after);
    VersionsStay(s, after, id);
    assert TxOk(s, id);
    ConfirmationsKept(s, after, id);
    if id in Run(s, after).t.txs {
      assert TxOk(Run(s, after), id);
    }
  }

  // ---------------------------------------------------------------- where the facts come from

  /** What a draft records after corrections: the last one of each field counts. */
  function Corrected(facts: Facts, edits: seq<Correction>): Facts {
    if edits == [] then facts
    else
      var f := Corrected(facts, edits[..|edits| - 1]);
      match edits[|edits| - 1]
      case NewTotal(amount, currency) => Facts(amount, currency, f.merchant, f.kind, f.occurredAt)
      case NewMerchant(merchant) => Facts(f.amount, f.currency, merchant, f.kind, f.occurredAt)
      case NewDate(at) => Facts(f.amount, f.currency, f.merchant, f.kind, at)
      case NewType(kind) => Facts(f.amount, f.currency, f.merchant, kind, f.occurredAt)
      case NewCategory(_) => f
  }

  ghost predicate FactsOk(s: State) {
    && (forall id :: id in s.t.txs ==>
          id in s.past && s.t.txs[id].facts == Corrected(s.past[id].facts, s.past[id].edits))
    && (forall l :: l in s.lanes && s.lanes[l].Writing? && s.lanes[l].why.ForEdit? ==>
          s.lanes[l].row == s.lanes[l].why.correction.Of(s.lanes[l].base))
  }

  lemma CorrectedAppend(facts: Facts, edits: seq<Correction>, x: Tx, c: Correction)
    requires x.facts == Corrected(facts, edits)
    ensures c.Of(x).facts == Corrected(facts, edits + [c])
  {
    assert (edits + [c])[..|edits|] == edits;
  }

  lemma FactsWrite(s: State, step: Step)
    requires Inv(s) && FactsOk(s) && Enabled(s, step) && step.Write?
    ensures FactsOk(Apply(s, step))
  {
    hide Corrected, TxsOk, ReceiptsOk, ConfirmationsOk;
    var s' := Apply(s, step);
    var pc := s.lanes[step.lane];
    assert LaneOk(s, pc);
    if Updatable(s.t, pc.id, pc.base.version) && pc.why.ForEdit? {
      CorrectedAppend(s.past[pc.id].facts, s.past[pc.id].edits, pc.base, pc.why.correction);
    }
  }

  lemma FactsDraft(s: State, step: Step)
    requires Inv(s) && FactsOk(s) && Enabled(s, step) && (step.Finalize? || step.Draft?)
    ensures FactsOk(Apply(s, step))
  {
    hide LaneOk, ConfirmationsOk, Lookup;
    assert forall id :: id in s.t.txs ==> TxOk(s, id);
    if step.Finalize? && Reviewable(s.t, step.r) { NothingToOverwrite(s, step.r, step.existing); }
  }

  lemma FactsOther(s: State, step: Step)
    requires FactsOk(s) && Enabled(s, step) && !step.Write? && !step.Finalize? && !step.Draft?
    ensures FactsOk(Apply(s, step))
  {
    hide Corrected, Lookup, Finalized, Drafted, AfterWrite;
  }

  lemma {:induction false} FactsRun(s: State, steps: seq<Step>)
    requires Inv(s) && FactsOk(s) && ValidRun(s, steps)
    ensures FactsOk(Run(s, steps))
    decreases steps
  {
    hide Apply, Enabled, Inv, FactsOk;
    if steps != [] {
      StepKeeps(s, steps[0]);
      if steps[0].Write? { FactsWrite(s, steps[0]); }
      else if steps[0].Finalize? || steps[0].Draft? { FactsDraft(s, steps[0]); }
      else { FactsOther(s, steps[0]); }
      FactsRun(Apply(s, steps[0]), steps[1..]);
    }
  }

  /** In every run a transaction records what its extraction or its typed entry said, with the user's corrections since
      and nothing else; so that is what was confirmed. */
  lemma FactsAsDrafted(steps: seq<Step>, id: TxId)
    requires ValidRun(INIT, steps) && id in Run(INIT, steps).t.txs
    ensures var s := Run(INIT, steps);
            && id in s.past && s.t.txs[id].facts == Corrected(s.past[id].facts, s.past[id].edits)
            && (id in s.confirmed ==> s.confirmed[id].facts == s.t.txs[id].facts)
  {
    hide Apply, Enabled, ValidRun, Run, Corrected;
    RunKeeps(INIT, steps);
    FactsRun(INIT, steps);
    assert TxOk(Run(INIT, steps), id);
  }

  /** Versions never go back over any run. */
  lemma VersionsGrow(before: seq<Step>, after: seq<Step>, id: TxId)
    requires ValidRun(INIT, before) && ValidRun(Run(INIT, before), after) && id in Run(INIT, before).t.txs
    ensures var t, t' := Run(INIT, before).t, Run(Run(INIT, before), after).t;
            id in t'.txs ==> t'.txs[id].version >= t.txs[id].version
  {
    RunKeeps(INIT, before);
    VersionsStay(Run(INIT, before), after, id);
  }

  lemma {:induction false} ConfirmationsKept(s: State, steps: seq<Step>, id: TxId)
    requires Inv(s) && ValidRun(s, steps) && id in s.confirmed
    ensures id in Run(s, steps).confirmed && Run(s, steps).confirmed[id].facts == s.confirmed[id].facts
    decreases steps
  {
    if steps != [] {
      StepKeeps(s, steps[0]);
      var s1 := Apply(s, steps[0]);
      if steps[0].Write? {
        var pc := s.lanes[steps[0].lane];
        assert LaneOk(s, pc);
        if Updatable(s.t, pc.id, pc.base.version) && pc.id == id {
          assert TxOk(s, id);
        }
      }
      assert id in s1.confirmed && s1.confirmed[id].facts == s.confirmed[id].facts;
      ConfirmationsKept(s1, steps[1..], id);
    }
  }

  lemma {:induction false} VersionsStay(s: State, steps: seq<Step>, id: TxId)
    requires Inv(s) && ValidRun(s, steps) && id in s.t.txs
    ensures id in Run(s, steps).t.txs ==> Run(s, steps).t.txs[id].version >= s.t.txs[id].version
    decreases steps
  {
    if steps != [] {
      StepKeeps(s, steps[0]);
      var s1 := Apply(s, steps[0]);
      assert TxOk(s, id);
      if id in s1.t.txs {
        VersionsStay(s1, steps[1..], id);
      } else {
        GoneForever(s1, steps[1..], id);
      }
    }
  }

  lemma GoneStep(s: State, step: Step, id: TxId)
    requires Inv(s) && Enabled(s, step) && id in s.txsEver && id !in s.t.txs
    ensures id in Apply(s, step).txsEver && id !in Apply(s, step).t.txs
  {
    hide Inv, Edited;
  }

  lemma {:induction false} GoneForever(s: State, steps: seq<Step>, id: TxId)
    requires Inv(s) && ValidRun(s, steps) && id in s.txsEver && id !in s.t.txs
    ensures id !in Run(s, steps).t.txs
    decreases steps
  {
    if steps != [] {
      GoneStep(s, steps[0], id);
      StepKeeps(s, steps[0]);
      GoneForever(Apply(s, steps[0]), steps[1..], id);
    }
  }

  lemma NoSteps(s: State)
    ensures ValidRun(s, []) && Run(s, []) == s
  {
  }

  lemma Extend(s: State, steps: seq<Step>, now: State, step: Step) returns (more: seq<Step>, next: State)
    requires ValidRun(s, steps) && now == Run(s, steps) && Enabled(now, step)
    ensures more == steps + [step] && ValidRun(s, more)
    ensures next == Apply(now, step) == Run(s, more)
  {
    hide Enabled, Apply;
    RunAppend(s, steps, step);
    more := steps + [step];
    next := Apply(now, step);
  }

  /** A handler opens a session on the user's slot and reads the draft it names, for a confirmation or a correction. */
  lemma ReadDraft(s: State, lane: Lane, user: User, intent: Intent, id: TxId, read: Step)
    returns (steps: seq<Step>, now: State)
    requires lane !in s.lanes && user in s.t.pending && s.t.pending[user].tx == Some(id)
    requires || (read == ReadConfirm(lane) && intent == IntentConfirm && s.t.pending[user].kind == ConfirmExtraction)
             || (read.ReadEdit? && read.lane == lane && s.t.pending[user].kind == read.correction.Slot())
    ensures ValidRun(s, steps) && now == Run(s, steps)
    ensures Visible(s.t, id, user) && s.t.txs[id].status == TxAwaiting ==>
              var x := s.t.txs[id];
              var row := if read.ReadConfirm? then x.(status := TxConfirmed) else read.correction.Of(x);
              var why := if read.ReadConfirm? then ForConfirm else ForEdit(read.correction);
              now == s.(lanes := s.lanes[lane := Writing(Session(user, intent, Some(s.t.pending[user])), id, x, row, why)])
    ensures !(Visible(s.t, id, user) && s.t.txs[id].status == TxAwaiting) ==>
              now.lanes == s.lanes && now.t == s.t.(pending := s.t.pending - {user})
  {
    hide ValidRun, Run;
    NoSteps(s);
    steps, now := Extend(s, [], s, Open(lane, user, intent));
    steps, now := Extend(s, steps, now, read);
  }

  /** A handler opens a session and reads a recorded transaction for a new category. */
  lemma ReadRecorded(s: State, lane: Lane, user: User, id: TxId, category: nat) returns (steps: seq<Step>, now: State)
    requires lane !in s.lanes && Visible(s.t, id, user) && Recorded(s.t.txs[id].status) && !s.t.txs[id].deleted
    ensures ValidRun(s, steps) && now == Run(s, steps)
    ensures var slot := if user in s.t.pending then Some(s.t.pending[user]) else None;
            var x := s.t.txs[id];
            var pc := Writing(Session(user, IntentOther, slot), id, x, Recategorised(x, category), ForCategory);
            now == s.(lanes := s.lanes[lane := pc])
  {
    hide ValidRun, Run;
    NoSteps(s);
    steps, now := Extend(s, [], s, Open(lane, user, IntentOther));
    steps, now := Extend(s, steps, now, ReadCategory(lane, id, category));
  }
}
