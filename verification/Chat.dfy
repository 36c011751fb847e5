/** The ledger store and the chat handler as they run, tied to the statements and steps of the ledger. */
module Chat {
  import opened Domain
  import opened LedgerTables
  import Runs = LedgerRuns

  /** The receipts after a draft under review left it: the receipt behind the draft leaves it too. */
  function Followed(receipts: map<ReceiptId, Receipt>, receipt: Option<ReceiptId>, to: ReceiptStatus)
    : (after: map<ReceiptId, Receipt>)
    ensures after.Keys == receipts.Keys
    ensures forall r :: r in receipts ==>
              after[r] == if receipt == Some(r) && receipts[r].status == ReviewRequired
                          then Receipt(receipts[r].user, to) else receipts[r]
  {
    if receipt.Some? && receipt.value in receipts && receipts[receipt.value].status == ReviewRequired
    then receipts[receipt.value := receipts[receipt.value].(status := to)] else receipts
  }

  function Discarded(t: Tables, id: TxId, user: User): Tables {
    if Runs.Visible(t, id, user) then Following(t, t.txs[id].receipt, Deleted) else t
  }

  predicate IsRecorded(x: Tx, user: User) {
    x.user == user && Recorded(x.status) && !x.deleted
  }

  /** ORDER BY occurred_at DESC, created_at DESC does not put `y` before `x`. */
  predicate NoLaterThan(y: Tx, x: Tx) {
    y.facts.occurredAt < x.facts.occurredAt || (y.facts.occurredAt == x.facts.occurredAt && y.createdAt <= x.createdAt)
  }

  /** What occurred last among the recorded transactions of the user, and was created last among those. */
  ghost predicate Latest(txs: map<TxId, Tx>, user: User, found: Option<TxId>) {
    match found
    case None => forall id :: id in txs ==> !IsRecorded(txs[id], user)
    case Some(id) =>
      && id in txs && IsRecorded(txs[id], user)
      && forall other :: other in txs && IsRecorded(txs[other], user) ==>
           || txs[other].facts.occurredAt < txs[id].facts.occurredAt
           || (txs[other].facts.occurredAt == txs[id].facts.occurredAt && txs[other].createdAt <= txs[id].createdAt)
  }

  /** The slot names a draft of the user that awaits confirmation. */
  predicate Reviewed(t: Tables, user: User)
    requires user in t.pending
  {
    var slot := t.pending[user].tx;
    slot.Some? && Runs.Visible(t, slot.value, user) && t.txs[slot.value].status == TxAwaiting
  }

  function Corrected(t: Tables, user: User, id: TxId, c: Correction): Tables
    requires id in t.txs
  {
    t.(txs := t.txs[id := c.Of(t.txs[id]).(version := t.txs[id].version + 1)],
       pending := t.pending[user := Pending(ConfirmExtraction, Some(id))])
  }

  /** The tables after a reply to an edit prompt: a stale slot is cleared, an unreadable reply changes nothing. */
  function Edited(t: Tables, user: User, c: Option<Correction>): Tables
    requires user in t.pending
  {
    if !Reviewed(t, user) then t.(pending := t.pending - {user})
    else
      var id := t.pending[user].tx.value;
      if c.None? || t.txs[id].deleted then t else Corrected(t, user, id, c.value)
  }

  class LedgerDb {
    var receipts: map<ReceiptId, Receipt>
    var txs: map<TxId, Tx>
    var pending: map<User, Pending>

    ghost function Tab(): Tables
      reads this
    {
      Tables(receipts, txs, pending)
    }

    constructor ()
      ensures Tab() == Tables(map[], map[], map[])
    {
      receipts, txs, pending := map[], map[], map[];
    }

    method TransitionReceipt(r: ReceiptId, from: ReceiptStatus, to: ReceiptStatus) returns (o: Outcome)
      modifies this`receipts
      ensures Tab() == ReceiptMoved(old(Tab()), r, from, to)
      ensures o == if !ReceiptCanMove(from, to) then Err(Validation)
                   else if r in old(receipts) && old(receipts)[r].status == from then Nil else Err(Conflict)
      ensures receipts == if o == Nil then old(receipts)[r := Receipt(old(receipts)[r].user, to)] else old(receipts)
    {
      if !ReceiptCanMove(from, to) { return Err(Validation); }
      if r !in receipts || receipts[r].status != from { return Err(Conflict); }
      receipts := receipts[r := receipts[r].(status := to)];
      o := Nil;
    }

    /** SELECT of the active transaction drafted for a receipt. */
    method FindByReceipt(r: ReceiptId) returns (existing: Option<TxId>)
      ensures Lookup(Tab(), (x: Tx) => x.receipt == Some(r), existing)
    {
      var rest := txs.Keys;
      existing := None;
      while rest != {}
        invariant rest <= txs.Keys
        invariant forall id :: id in txs && id !in rest && Active(txs[id]) ==> txs[id].receipt != Some(r)
        decreases |rest|
      {
        var id :| id in rest;
        if Active(txs[id]) && txs[id].receipt == Some(r) { return Some(id); }
        rest := rest - {id};
      }
    }

    /** All rows of the draft commit together, or the receipt is no longer extracting and none does. */
    method FinalizeReceiptReview(r: ReceiptId, newId: TxId, facts: Facts, category: nat, now: int)
      returns (o: Outcome, existing: Option<TxId>)
      requires newId !in txs
      modifies this
      ensures Lookup(old(Tab()), (x: Tx) => x.receipt == Some(r), existing)
      ensures Tab() == Finalized(old(Tab()), r, existing, newId, facts, category, now)
      ensures o == if r in old(receipts) && old(receipts)[r].status == Extracting then Nil else Err(Conflict)
      ensures o == Nil ==>
                var owner, id := old(receipts)[r].user, if existing.Some? then existing.value else newId;
                && txs.Keys == old(txs).Keys + {id} && txs == old(txs)[id := txs[id]]
                && txs[id].facts == facts && txs[id].category == category && txs[id].status == TxAwaiting
                && (existing.None? ==> txs[id] == Tx(owner, Some(r), None, TxAwaiting, facts, category, 1, false, now))
                && (existing.Some? ==>
                      var x := old(txs)[id];
                      txs[id] == Tx(x.user, x.receipt, x.message, TxAwaiting, facts, category, x.version + 1, x.deleted,
                                    x.createdAt))
                && pending == old(pending)[owner := Pending(ConfirmExtraction, Some(id))]
                && receipts == old(receipts)[r := Receipt(owner, ReviewRequired)]
      ensures o != Nil ==> Tab() == old(Tab())
    {
      var receipts0, txs0 := receipts, txs;
      existing := FindByReceipt(r);
      var id := newId;
      if existing.Some? {
        id := existing.value;
        var x := txs[id];
        txs := txs[id := x.(facts := facts, category := category, status := TxAwaiting, version := x.version + 1)];
      } else {
        var owner := if r in receipts then receipts[r].user else 0;
        txs := txs[id := Tx(owner, Some(r), None, TxAwaiting, facts, category, 1, false, now)];
      }
      if r !in receipts || receipts[r].status != Extracting {
        receipts, txs := receipts0, txs0;
        return Err(Conflict), existing;
      }
      var owner := receipts[r].user;
      receipts := receipts[r := receipts[r].(status := ReviewRequired)];
      pending := pending[owner := Pending(ConfirmExtraction, Some(id))];
      o := Nil;
    }

    /** SELECT of the active transaction typed in a message. */
    method FindByMessage(message: MessageId) returns (existing: Option<TxId>)
      ensures Lookup(Tab(), (x: Tx) => x.message == Some(message), existing)
    {
      var rest := txs.Keys;
      existing := None;
      while rest != {}
        invariant rest <= txs.Keys
        invariant forall id :: id in txs && id !in rest && Active(txs[id]) ==> txs[id].message != Some(message)
        decreases |rest|
      {
        var id :| id in rest;
        if Active(txs[id]) && txs[id].message == Some(message) { return Some(id); }
        rest := rest - {id};
      }
    }

    /** A typed entry becomes a draft that awaits confirmation; the same message again only shows its draft again. */
    method CreateManualDraft(user: User, message: MessageId, newId: TxId, facts: Facts, category: nat, now: int,
                             ghost s: Runs.State)
      returns (existing: Option<TxId>, ghost trace: seq<Runs.Step>)
      requires s.t == Tab() && newId !in s.txsEver && newId !in txs
      modifies this`txs, this`pending
      ensures Runs.ValidRun(s, trace)
      ensures var s' := Runs.Run(s, trace); s'.t == Tab() && s'.lanes == s.lanes
      ensures existing.Some? ==>
                && existing.value in old(txs) && old(txs)[existing.value].message == Some(message)
                && !old(txs)[existing.value].deleted && old(txs)[existing.value].status != TxDeleted
                && txs == old(txs)
      ensures existing.None? ==>
                && (forall id :: id in old(txs) && old(txs)[id].message == Some(message) ==>
                      old(txs)[id].deleted || old(txs)[id].status == TxDeleted)
                && txs == old(txs)[newId := Tx(user, None, Some(message), TxAwaiting, facts, category, 1, false, now)]
      ensures pending == old(pending)[user := Pending(ConfirmExtraction,
                                                      if existing.Some? then existing else Some(newId))]
    {
      hide Runs.ValidRun, Runs.Run;
      existing := FindByMessage(message);
      ghost var last;
      Runs.NoSteps(s);
      trace, last := Runs.Extend(s, [], s, Runs.Draft(user, message, existing, newId, facts, category, now));
      if existing.Some? {
        pending := pending[user := Pending(ConfirmExtraction, existing)];
      } else {
        txs := txs[newId := Tx(user, None, Some(message), TxAwaiting, facts, category, 1, false, now)];
        pending := pending[user := Pending(ConfirmExtraction, Some(newId))];
      }
    }

    method UpdateTransaction(id: TxId, row: Tx, expected: nat) returns (o: Outcome)
      modifies this
      ensures Tab() == Updated(old(Tab()), id, row, expected)
      ensures o == if id in old(txs) && old(txs)[id].version == expected && !old(txs)[id].deleted then Nil
                   else Err(Conflict)
      ensures o == Nil ==>
                var x := old(txs)[id];
                txs == old(txs)[id := Tx(x.user, row.receipt, x.message, row.status, row.facts, row.category,
                                         expected + 1, false, x.createdAt)]
      ensures o != Nil ==> Tab() == old(Tab())
    {
      if id !in txs || txs[id].version != expected || txs[id].deleted { return Err(Conflict); }
      txs := txs[id := txs[id].(receipt := row.receipt, status := row.status, facts := row.facts,
                                category := row.category, version := expected + 1)];
      o := Nil;
    }

    method SoftDeleteTransaction(id: TxId, user: User) returns (o: Outcome)
      modifies this
      ensures o == if id !in old(txs) || old(txs)[id].user != user then Err(NotFound)
                   else if !TxCanMove(old(txs)[id].status, TxDeleted) then Err(Validation)
                   else if old(txs)[id].deleted then Err(Conflict) else Nil
      ensures o == Nil ==> Tab() == Erased(old(Tab()), id, user)
      ensures o == Nil ==>
                var x := old(txs)[id];
                txs == old(txs)[id := x.(status := TxDeleted, deleted := true, version := x.version + 1)]
      ensures o != Nil ==> Tab() == old(Tab())
    {
      if id !in txs || txs[id].user != user { return Err(NotFound); }
      if !TxCanMove(txs[id].status, TxDeleted) { return Err(Validation); }
      if txs[id].deleted { return Err(Conflict); }
      txs := txs[id := txs[id].(status := TxDeleted, deleted := true, version := txs[id].version + 1)];
      o := Nil;
    }

    /** A reply to a confirmation card that says yes: the draft becomes confirmed with the facts it shows and its
        receipt follows; a draft that is no longer awaiting confirmation is left alone. */
    method ConfirmTx(user: User, id: TxId, ghost s: Runs.State, ghost lane: Runs.Lane)
      returns (ghost trace: seq<Runs.Step>)
      requires s.t == Tab() && lane !in s.lanes
      requires user in pending && pending[user] == Pending(ConfirmExtraction, Some(id))
      modifies this
      ensures Runs.ValidRun(s, trace)
      ensures var s' := Runs.Run(s, trace); s'.t == Tab() && s'.lanes == s.lanes
      ensures pending == old(pending) - {user}
      ensures var open := id in old(txs) && old(txs)[id].user == user && old(txs)[id].status == TxAwaiting
                          && !old(txs)[id].deleted;
              && (!open ==> txs == old(txs) && receipts == old(receipts))
              && (open ==>
                    var x := old(txs)[id];
                    && txs == old(txs)[id := x.(status := TxConfirmed, version := x.version + 1)]
                    && receipts == Followed(old(receipts), x.receipt, Confirmed))
    {
      hide Runs.ValidRun, Runs.Run, Finalized, Drafted, AccountPurged, Lookup, Runs.Edited;
      ghost var now;
      trace, now := Runs.ReadDraft(s, lane, user, Runs.IntentConfirm, id, Runs.ReadConfirm(lane));
      if id !in txs || txs[id].user != user || txs[id].status != TxAwaiting {
        pending := pending - {user};
        return;
      }
      var tx := txs[id];
      var o := UpdateTransaction(id, tx.(status := TxConfirmed), tx.version);
      trace, now := Runs.Extend(s, trace, now, Runs.Write(lane));
      trace := Finish(user, if o == Nil then tx.receipt else None, s, trace, now);
    }

    /** The receipt follows its draft, and the slot is cleared. */
    method Finish(user: User, receipt: Option<ReceiptId>, ghost s: Runs.State, ghost before: seq<Runs.Step>,
                  ghost now: Runs.State)
      returns (ghost trace: seq<Runs.Step>)
      requires Runs.ValidRun(s, before) && now == Runs.Run(s, before) && now.t == Tab()
      modifies this
      ensures Runs.ValidRun(s, trace)
      ensures var s' := Runs.Run(s, trace); s'.t == Tab() && s'.lanes == now.lanes
      ensures Tab() == Following(old(Tab()), receipt, Confirmed).(pending := old(pending) - {user})
    {
      hide Runs.ValidRun, Runs.Run, Finalized, Drafted, AccountPurged, Lookup, Runs.AfterWrite;
      ghost var s1 := now;
      trace := before;
      if receipt.Some? {
        var _ := TransitionReceipt(receipt.value, ReviewRequired, Confirmed);
        trace, s1 := Runs.Extend(s, trace, s1, Runs.MoveReceipt(receipt.value, ReviewRequired, Confirmed));
      }
      pending := pending - {user};
      trace, s1 := Runs.Extend(s, trace, s1, Runs.SetPending(user, None));
    }

    /** A reply to an edit prompt; `c` is the correction it was read as, if it could be read. One field of the draft
        changes and the card is shown again. */
    method ResolveEdit(user: User, c: Option<Correction>, ghost s: Runs.State, ghost lane: Runs.Lane)
      returns (o: Outcome, ghost trace: seq<Runs.Step>)
      requires s.t == Tab() && lane !in s.lanes && user in pending
      requires c.Some? ==>
                 match pending[user].kind
                 case EditTotal => c.value.NewTotal?
                 case EditMerchant => c.value.NewMerchant?
                 case EditDate => c.value.NewDate?
                 case EditCategory => c.value.NewCategory?
                 case EditType => c.value.NewType?
                 case _ => false
      modifies this
      ensures Runs.ValidRun(s, trace)
      ensures var s' := Runs.Run(s, trace); s'.t == Tab() && s'.lanes == s.lanes
      ensures Tab() == Edited(old(Tab()), user, c)
      ensures o == if c.Some? && Reviewed(old(Tab()), user) && old(txs)[old(pending)[user].tx.value].deleted
                   then Err(Conflict) else Nil
      ensures receipts == old(receipts)
      ensures var slot := old(pending)[user].tx;
              var reviewed := slot.Some? && slot.value in old(txs) && old(txs)[slot.value].user == user
                              && old(txs)[slot.value].status == TxAwaiting;
              && (!reviewed ==> txs == old(txs) && pending == old(pending) - {user})
              && (reviewed && (c.None? || old(txs)[slot.value].deleted) ==> Tab() == old(Tab()))
              && (reviewed && c.Some? && !old(txs)[slot.value].deleted ==>
                    var x, f := old(txs)[slot.value], old(txs)[slot.value].facts;
                    var facts := match c.value
                                 case NewTotal(amount, currency) => f.(amount := amount, currency := currency)
                                 case NewMerchant(merchant) => f.(merchant := merchant)
                                 case NewDate(at) => f.(occurredAt := at)
                                 case NewType(kind) => f.(kind := kind)
                                 case NewCategory(_) => f;
                    var category := if c.value.NewCategory? then c.value.category else x.category;
                    && txs == old(txs)[slot.value := x.(facts := facts, category := category, version := x.version + 1)]
                    && pending == old(pending)[user := Pending(ConfirmExtraction, slot)])
    {
      hide Runs.ValidRun, Runs.Run, Finalized, Drafted, AccountPurged, Lookup, Runs.Edited;
      Runs.NoSteps(s);
      trace := [];
      var slot := pending[user].tx;
      if slot.None? || slot.value !in txs || txs[slot.value].user != user || txs[slot.value].status != TxAwaiting {
        trace := Clear(user, s);
        return Nil, trace;
      }
      if c.None? { return Nil, trace; }
      o, trace := Correct(user, slot.value, c.value, s, lane);
    }

    method Clear(user: User, ghost s: Runs.State) returns (ghost trace: seq<Runs.Step>)
      requires s.t == Tab()
      modifies this`pending
      ensures pending == old(pending) - {user}
      ensures Runs.ValidRun(s, trace) && Runs.Run(s, trace).t == Tab() && Runs.Run(s, trace).lanes == s.lanes
    {
      hide Runs.ValidRun, Runs.Run;
      Runs.NoSteps(s);
      pending := pending - {user};
      ghost var now;
      trace, now := Runs.Extend(s, [], s, Runs.SetPending(user, None));
    }

    method Correct(user: User, id: TxId, c: Correction, ghost s: Runs.State, ghost lane: Runs.Lane)
      returns (o: Outcome, ghost trace: seq<Runs.Step>)
      requires s.t == Tab() && lane !in s.lanes && user in pending && pending[user] == Pending(c.Slot(), Some(id))
      requires Runs.Visible(Tab(), id, user) && txs[id].status == TxAwaiting
      modifies this
      ensures Runs.ValidRun(s, trace)
      ensures var s' := Runs.Run(s, trace); s'.t == Tab() && s'.lanes == s.lanes
      ensures o == if old(txs)[id].deleted then Err(Conflict) else Nil
      ensures Tab() == if o == Nil then Corrected(old(Tab()), user, id, c) else old(Tab())
    {
      hide Runs.ValidRun, Runs.Run, Finalized, Drafted, AccountPurged, Lookup, Runs.Edited;
      ghost var now;
      trace, now := Runs.ReadDraft(s, lane, user, Runs.IntentOther, id, Runs.ReadEdit(lane, c));
      var tx := txs[id];
      o := UpdateTransaction(id, c.Of(tx), tx.version);
      trace, now := Runs.Extend(s, trace, now, Runs.Write(lane));
      if o != Nil { return; }
      pending := pending[user := Pending(ConfirmExtraction, Some(id))];
      trace, now := Runs.Extend(s, trace, now, Runs.SetPending(user, Some(Pending(ConfirmExtraction, Some(id)))));
    }

    /** A reply to a confirmation card that says no: the draft and its receipt are deleted. */
    method DiscardTx(user: User, id: TxId, ghost s: Runs.State, ghost lane: Runs.Lane)
      returns (o: Outcome, ghost trace: seq<Runs.Step>)
      requires s.t == Tab() && lane !in s.lanes
      requires user in pending && pending[user] == Pending(ConfirmExtraction, Some(id))
      modifies this
      ensures Runs.ValidRun(s, trace)
      ensures var s' := Runs.Run(s, trace); s'.t == Tab() && s'.lanes == s.lanes
      ensures Runs.Visible(old(Tab()), id, user) && Active(old(txs)[id]) ==>
                var x := old(txs)[id];
                && o == Nil && pending == old(pending) - {user}
                && txs == old(txs)[id := x.(status := TxDeleted, deleted := true, version := x.version + 1)]
                && receipts == Followed(old(receipts), x.receipt, Deleted)
      ensures !(Runs.Visible(old(Tab()), id, user) && Active(old(txs)[id])) ==>
                && txs == old(txs) && pending == (if o == Nil then old(pending) - {user} else old(pending))
                && receipts == (if id in old(txs) && old(txs)[id].user == user
                                then Followed(old(receipts), old(txs)[id].receipt, Deleted) else old(receipts))
      ensures o == if id in old(txs) && old(txs)[id].user == user && old(txs)[id].deleted
                      && old(txs)[id].status != TxDeleted
                   then Err(Conflict) else Nil
    {
      hide Runs.ValidRun, Runs.Run, Finalized, Drafted, AccountPurged, Lookup, Followed, Following, Runs.AfterWrite;
      ghost var now;
      trace, now := DiscardReceipt(user, id, s, lane);
      o, trace := EraseTx(user, id, s, trace, now, lane);
      now := Runs.Run(s, trace);
      if o == Err(Conflict) { return; }
      pending := pending - {user};
      trace, now := Runs.Extend(s, trace, now, Runs.SetPending(user, None));
      o := Nil;
    }

    method DiscardReceipt(user: User, id: TxId, ghost s: Runs.State, ghost lane: Runs.Lane)
      returns (ghost trace: seq<Runs.Step>, ghost now: Runs.State)
      requires s.t == Tab() && lane !in s.lanes && user in pending
      modifies this`receipts
      ensures Runs.ValidRun(s, trace) && now == Runs.Run(s, trace) && now.t == Tab()
      ensures now.lanes == s.lanes[lane := Runs.Opened(Runs.Session(user, Runs.IntentDiscard, Some(pending[user])))]
      ensures Tab() == Discarded(old(Tab()), id, user)
      ensures receipts == if id in txs && txs[id].user == user then Followed(old(receipts), txs[id].receipt, Deleted)
                          else old(receipts)
    {
      hide Runs.ValidRun, Runs.Run, Finalized, Drafted, AccountPurged, Lookup, Runs.Edited;
      Runs.NoSteps(s);
      trace, now := Runs.Extend(s, [], s, Runs.Open(lane, user, Runs.IntentDiscard));
      if id in txs && txs[id].user == user && txs[id].receipt.Some? {
        var r := txs[id].receipt.value;
        var _ := TransitionReceipt(r, ReviewRequired, Deleted);
        trace, now := Runs.Extend(s, trace, now, Runs.MoveReceipt(r, ReviewRequired, Deleted));
      }
    }

    /** SoftDeleteTransaction as two steps of the ledger: its read and its write. */
    method EraseTx(user: User, id: TxId, ghost s: Runs.State, ghost before: seq<Runs.Step>, ghost now: Runs.State,
                   ghost lane: Runs.Lane)
      returns (o: Outcome, ghost trace: seq<Runs.Step>)
      requires Runs.ValidRun(s, before) && now == Runs.Run(s, before) && now.t == Tab()
      requires Runs.Enabled(now, Runs.ReadErase(lane))
      requires now.lanes[lane].session.user == user && now.lanes[lane].session.slot.value.tx == Some(id)
      modifies this
      ensures Runs.ValidRun(s, trace)
      ensures var s' := Runs.Run(s, trace); s'.t == Tab() && s'.lanes == now.lanes - {lane}
      ensures receipts == old(receipts) && pending == old(pending)
      ensures Runs.Visible(old(Tab()), id, user) && Active(old(txs)[id]) ==>
                var x := old(txs)[id];
                && o == Nil
                && txs == old(txs)[id := x.(status := TxDeleted, deleted := true, version := x.version + 1)]
      ensures !(Runs.Visible(old(Tab()), id, user) && Active(old(txs)[id])) ==> txs == old(txs)
      ensures o == Err(Conflict) <==>
                id in old(txs) && old(txs)[id].user == user && old(txs)[id].deleted && old(txs)[id].status != TxDeleted
    {
      hide Runs.ValidRun, Runs.Run, Finalized, Drafted, AccountPurged, Lookup, Runs.Edited;
      o := SoftDeleteTransaction(id, user);
      ghost var s1 := now;
      trace, s1 := Runs.Extend(s, before, now, Runs.ReadErase(lane));
      if lane in s1.lanes {
        trace, s1 := Runs.Extend(s, trace, s1, Runs.Erase(lane));
      }
    }

    /** The recorded transaction of the user that occurred last, if there is one; of several, the one created last. */
    method LatestConfirmedTransaction(user: User) returns (found: Option<TxId>)
      ensures Latest(txs, user, found)
      ensures found.None? ==> forall id :: id in txs && txs[id].user == user && !txs[id].deleted ==>
                                             txs[id].status !in {TxConfirmed, TxAmended}
      ensures found.Some? ==>
                && found.value in txs && txs[found.value].user == user && !txs[found.value].deleted
                && txs[found.value].status in {TxConfirmed, TxAmended}
    {
      var rest := txs.Keys;
      found := None;
      while rest != {}
        invariant rest <= txs.Keys
        invariant found.None? ==> forall id :: id in txs && id !in rest ==> !IsRecorded(txs[id], user)
        invariant found.Some? ==> found.value in txs && IsRecorded(txs[found.value], user)
        invariant found.Some? ==>
                    forall id :: id in txs && id !in rest && IsRecorded(txs[id], user) ==>
                      NoLaterThan(txs[id], txs[found.value])
        decreases |rest|
      {
        var id :| id in rest;
        rest := rest - {id};
        if IsRecorded(txs[id], user) && (found.None? || !NoLaterThan(txs[id], txs[found.value])) {
          found := Some(id);
        }
      }
    }

    /** The last recorded transaction moves to another category; `category` is what the reply was matched to, if any. */
    method Recategorise(user: User, category: Option<nat>, ghost s: Runs.State, ghost lane: Runs.Lane)
      returns (o: Outcome, found: Option<TxId>, ghost trace: seq<Runs.Step>)
      requires s.t == Tab() && lane !in s.lanes
      modifies this
      ensures Runs.ValidRun(s, trace)
      ensures var s' := Runs.Run(s, trace); s'.t == Tab() && s'.lanes == s.lanes
      ensures Latest(old(txs), user, found)
      ensures o == Nil && receipts == old(receipts) && pending == old(pending)
      ensures txs == if found.None? || category.None? then old(txs)
                     else
                       var x := old(txs)[found.value];
                       var y := x.(category := category.value, status := TxAmended, version := x.version + 1);
                       old(txs)[found.value := y]
    {
      hide Runs.ValidRun, Runs.Run, Finalized, Drafted, AccountPurged, Lookup, Runs.Edited;
      Runs.NoSteps(s);
      trace := [];
      found := LatestConfirmedTransaction(user);
      if found.None? || category.None? { return Nil, found, trace; }
      ghost var now;
      var id := found.value;
      trace, now := Runs.ReadRecorded(s, lane, user, id, category.value);
      var tx := txs[id];
      var status := if tx.status == TxConfirmed then TxAmended else tx.status;
      o := UpdateTransaction(id, tx.(category := category.value, status := status), tx.version);
      trace, now := Runs.Extend(s, trace, now, Runs.Write(lane));
    }
  }
}
