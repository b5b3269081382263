/** The insurance contract service: the listener for `EInsurance` events and
    the transition methods, written as the steps the service takes against
    the store. Each method is proved to leave the store exactly as the
    matching step function of `Lifecycle` says; what those functions keep is
    proved in `LifecycleProps`. Each public method is one atomic
    step, as the per-insurance lock makes it; the on-chain call's outcome,
    the current price and the clock are parameters. */
module InsuranceContract {
  import opened Types
  import opened Lifecycle
  import opened Db

  /** `addStateLog`: pushes `entry` onto the record's log; a missing record
      makes the update throw, which changes nothing. */
  method AddStateLog(db: Database, id: string, entry: StateLog) returns (updated: Option<Insurance>)
    modifies db`insurances
    ensures KeyedById(old(db.insurances)) ==> KeyedById(db.insurances)
    ensures db.insurances == AppendLog(old(db.insurances), id, entry)
    ensures updated.Some? <==> id in old(db.insurances)
    ensures updated.Some? ==> updated.value == db.insurances[id]
    ensures updated.Some? ==>
      |updated.value.stateLogs| == |old(db.insurances[id].stateLogs)| + 1
      && updated.value.stateLogs[..|updated.value.stateLogs| - 1] == old(db.insurances[id].stateLogs)
  {
    if id !in db.insurances {
      return None;
    }
    var rec := db.insurances[id];
    rec := rec.(stateLogs := rec.stateLogs + [entry]);
    db.insurances := db.insurances[id := rec];
    updated := Some(rec);
  }

  /** The writes a transition makes once its guarded update has matched:
      the record, its update event, the on-chain calls and the log entry. */
  method WriteTransition(db: Database, id: string, rec: Insurance, calls: seq<ChainCall>, entry: StateLog)
    requires id in db.insurances && rec.id == db.insurances[id].id
    modifies db`insurances, db`events, db`calls
    ensures KeyedById(old(db.insurances)) ==> KeyedById(db.insurances)
    ensures db.insurances == AppendLog(old(db.insurances)[id := rec], id, entry)
    ensures db.events == old(db.events) + [UpdatedEvent(rec)]
    ensures db.calls == old(db.calls) + calls
  {
    KeyedAfterWrite(db.insurances, id, rec, entry);
    db.insurances := db.insurances[id := rec];
    db.events := db.events + [UpdatedEvent(rec)];
    db.calls := db.calls + calls;
    var _ := AddStateLog(db, id, entry);
  }

  /** `updateTxhash` of the contract service: stores the funding hash; a
      failed update is logged and swallowed. */
  method UpdateTxhash(db: Database, id: string, txhash: string)
    modifies db`insurances
    ensures KeyedById(old(db.insurances)) ==> KeyedById(db.insurances)
    ensures db.insurances == SetTxhash(old(db.insurances), id, txhash)
  {
    if id in db.insurances {
      db.insurances := db.insurances[id := db.insurances[id].(txhash := Some(txhash))];
    }
  }

  /** `onContractStateChanged`: the compare-and-swap to the confirmed state. */
  method OnContractStateChanged(db: Database, id: string, state: InsuranceState, txhash: string, now: int)
    modifies db`insurances, db`events
    ensures KeyedById(old(db.insurances)) ==> KeyedById(db.insurances)
    ensures db.Snapshot() == StateChanged(old(db.Snapshot()), id, state, txhash, now)
  {
    if id in db.insurances && db.insurances[id].state != state {
      var rec := db.insurances[id].(state := state, closedAt := Some(now));
      db.insurances := db.insurances[id := rec];
      db.events := db.events + [UpdatedEvent(rec)];
      var _ := AddStateLog(db, id, StateLog(state, now, Some(txhash), None));
    }
  }

  /** `invalidateInsurance`: an unguarded write of INVALID, then the
      pay-back call when asked for, then one log entry. */
  method InvalidateInsurance(db: Database, id: string, reason: string, payback: bool, o: ChainOutcome, now: int)
    modifies db`insurances, db`calls
    ensures KeyedById(old(db.insurances)) ==> KeyedById(db.insurances)
    ensures db.Snapshot() == Invalidate(old(db.Snapshot()), id, reason, payback, o, now)
  {
    if id !in db.insurances {
      return;
    }
    db.insurances := db.insurances[id := db.insurances[id].(state := Invalid, invalidReason := Some(reason),
                                                            closedAt := Some(now))];
    var entry := StateLog(Invalid, now, None, None);
    if payback {
      db.calls := db.calls + [UpdateInvalidInsurance(id)];
      entry := LogEntry(Invalid, now, o);
    }
    var _ := AddStateLog(db, id, entry);
  }

  /** `availableInsurance`: prices the snapshot `ins`, writes the parameters
      with AVAILABLE if the record is not AVAILABLE already, then announces
      it, calls the contract and logs the outcome. */
  method AvailableInsurance(db: Database, ins: Insurance, price: Option<real>, calcParams: ParamsInput -> Params,
                            o: ChainOutcome, now: int)
    modifies db`insurances, db`events, db`calls
    ensures KeyedById(old(db.insurances)) ==> KeyedById(db.insurances)
    ensures db.Snapshot() == MakeAvailable(old(db.Snapshot()), ins, price, calcParams, o, now)
  {
    if price.None? {
      return;
    }
    var p := calcParams(ParamsInput(ins.margin, ins.q_covered, price.value, ins.p_claim,
                                    ins.period, ins.periodUnit, ins.periodChangeRatio));
    if !(ins.id in db.insurances && db.insurances[ins.id].state != Available) {
      return;
    }
    var rec := WithParams(db.insurances[ins.id], price.value, p);
    db.insurances := db.insurances[ins.id := rec];
    db.events := db.events + [CreatedEvent(rec)];
    db.calls := db.calls + [UpdateAvailableInsurance(ins.id, p.q_claim, p.expiredAt / 1000)];
    var _ := AddStateLog(db, ins.id, LogEntry(Available, now, o));
  }

  /** `cancelInsurance` of the contract service. Returns the record as
      written (before its log entry), or nothing when the write matched no
      record. */
  method CancelInsurance(db: Database, ins: Insurance, pClose: real, o: ChainOutcome, now: int)
    returns (updated: Option<Insurance>)
    modifies db`insurances, db`transactions, db`events, db`calls
    ensures KeyedById(old(db.insurances)) ==> KeyedById(db.insurances)
    ensures db.Snapshot() == Cancel(old(db.Snapshot()), ins, pClose, o, now)
    ensures updated.Some? <==> WriteMatches(old(db.insurances), ins.id, Cancelled)
    ensures updated.Some? ==> db.events == old(db.events) + [UpdatedEvent(updated.value)]
  {
    if !(ins.id in db.insurances && db.insurances[ins.id].state != Cancelled) {
      return None;
    }
    assert WriteMatches(old(db.insurances), ins.id, Cancelled);
    var rec := db.insurances[ins.id].(state := Cancelled, p_close := Some(pClose), closedAt := Some(now));
    db.transactions := db.transactions + [Transaction(ins.margin, ins.id, Success, HashOf(o), CancelTx, ins.unit, ins.userId)];
    WriteTransition(db, ins.id, rec, [CancelCall(ins.id)], LogEntry(Cancelled, now, o));
    updated := Some(rec);
  }

  /** `claimInsurance`: writes CLAIM_WAITING with the close price and the
      two opposite PnL figures, then calls, records and logs. */
  method ClaimInsurance(db: Database, ins: Insurance, price: real, o: ChainOutcome, now: int)
    returns (updated: Option<Insurance>)
    modifies db`insurances, db`transactions, db`events, db`calls
    ensures KeyedById(old(db.insurances)) ==> KeyedById(db.insurances)
    ensures db.Snapshot() == Claim(old(db.Snapshot()), ins, price, o, now)
    ensures updated.Some? <==> WriteMatches(old(db.insurances), ins.id, ClaimWaiting)
    ensures updated.Some? ==> db.events == old(db.events) + [UpdatedEvent(updated.value)]
  {
    ghost var l0 := db.Snapshot();
    if !(ins.id in db.insurances && db.insurances[ins.id].state != ClaimWaiting) {
      return None;
    }
    var pnlUser := ins.q_claim - ins.margin;
    var rec := db.insurances[ins.id].(state := ClaimWaiting, p_close := Some(price),
                                      pnlUser := Some(pnlUser), pnlProject := Some(-pnlUser));
    ClaimWrite(l0, ins, price, o, now);
    db.transactions := db.transactions + [Transaction(ins.q_claim, ins.id, Success, HashOf(o), ClaimTx, ins.unit, ins.userId)];
    WriteTransition(db, ins.id, rec, [ClaimCall(ins.id)], LogEntry(ClaimWaiting, now, o));
    updated := Some(rec);
  }

  /** `refundInsurance`: writes REFUND_WAITING with the close price and
      time, then calls, records and logs. */
  method RefundInsurance(db: Database, ins: Insurance, pClose: real, o: ChainOutcome, now: int)
    returns (updated: Option<Insurance>)
    modifies db`insurances, db`transactions, db`events, db`calls
    ensures KeyedById(old(db.insurances)) ==> KeyedById(db.insurances)
    ensures db.Snapshot() == Refund(old(db.Snapshot()), ins, pClose, o, now)
    ensures updated.Some? <==> WriteMatches(old(db.insurances), ins.id, RefundWaiting)
    ensures updated.Some? ==> db.events == old(db.events) + [UpdatedEvent(updated.value)]
  {
    if !(ins.id in db.insurances && db.insurances[ins.id].state != RefundWaiting) {
      return None;
    }
    assert WriteMatches(old(db.insurances), ins.id, RefundWaiting);
    var rec := db.insurances[ins.id].(state := RefundWaiting, p_close := Some(pClose), closedAt := Some(now));
    db.transactions := db.transactions + [Transaction(ins.margin, ins.id, Success, HashOf(o), RefundTx, ins.unit, ins.userId)];
    WriteTransition(db, ins.id, rec, [RefundCall(ins.id)], LogEntry(RefundWaiting, now, o));
    updated := Some(rec);
  }

  /** `liquidatedOrExpiredInsurance`: writes `state` with the close price
      and time and the PnL of a lost margin, calls `liquidate` or `expire`
      according to `state` (neither for any other state), and logs. */
  method LiquidatedOrExpiredInsurance(db: Database, ins: Insurance, state: InsuranceState, pClose: real,
                                      o: ChainOutcome, now: int)
    returns (updated: Option<Insurance>)
    modifies db`insurances, db`events, db`calls
    ensures KeyedById(old(db.insurances)) ==> KeyedById(db.insurances)
    ensures db.Snapshot() == LiquidateOrExpire(old(db.Snapshot()), ins, state, pClose, o, now)
    ensures updated.Some? <==> WriteMatches(old(db.insurances), ins.id, state)
    ensures updated.Some? ==> db.events == old(db.events) + [UpdatedEvent(updated.value)]
  {
    ghost var l0 := db.Snapshot();
    if !(ins.id in db.insurances && db.insurances[ins.id].state != state) {
      return None;
    }
    var pnlUser := -ins.margin;
    var rec := db.insurances[ins.id].(state := state, p_close := Some(pClose), closedAt := Some(now),
                                      pnlUser := Some(pnlUser), pnlProject := Some(-pnlUser));
    // the switch on the target: `liquidate`, `expire`, or no call and no outcome
    var entry := if state == Liquidated || state == Expired then LogEntry(state, now, o)
                 else StateLog(state, now, None, None);
    CloseWrite(l0, ins, state, pClose, o, now);
    WriteTransition(db, ins.id, rec, CloseCall(ins.id, state), entry);
    updated := Some(rec);
  }

  /** `onContractCreated`: reads the record with its owner, stores the
      funding hash and records the MARGIN transaction, and for a PENDING
      record runs the funding checks, invalidating or making it available. */
  method OnContractCreated(db: Database, id: string, address: string, unit: Option<string>, margin: real,
                           txhash: string, now: int, price: Option<real>, calcParams: ParamsInput -> Params,
                           o: ChainOutcome)
    requires KeyedById(db.insurances)
    modifies db`insurances, db`transactions, db`events, db`calls
    ensures KeyedById(db.insurances)
    ensures db.Snapshot() == Created(old(db.Snapshot()), old(db.users), id, address, unit, margin, txhash, now,
                                     price, calcParams, o)
  {
    if id !in db.insurances {
      return;
    }
    ghost var l0 := db.Snapshot();
    var ins := db.insurances[id];
    var wallet := WalletOf(db.users, ins.userId);
    UpdateTxhash(db, id, txhash);
    db.transactions := db.transactions + [FundingTx(ins, margin, txhash)];
    ghost var funded := db.Snapshot();
    assert funded == l0.(insurances := SetTxhash(l0.insurances, id, txhash),
                         transactions := l0.transactions + [FundingTx(ins, margin, txhash)]);
    if ins.state != Pending {
      return;
    }
    var failure := FundingFailure(ins, wallet, address, unit, margin, now);
    if failure.Some? {
      InvalidateInsurance(db, id, ReasonText(failure.value), Payback(failure.value), o, now);
      return;
    }
    AvailableInsurance(db, ins, price, calcParams, o, now);
  }

  /** `onEventInsurance`: decodes the margin from wei and the unit code,
      then dispatches on the event type. */
  method OnEventInsurance(db: Database, id: string, address: string, unitCode: int, marginWei: int,
                          eventType: int, txhash: string, now: int, price: Option<real>,
                          calcParams: ParamsInput -> Params, unitTable: int -> Option<string>, o: ChainOutcome)
    requires KeyedById(db.insurances)
    modifies db`insurances, db`transactions, db`events, db`calls
    ensures KeyedById(db.insurances)
    ensures Dispatch(eventType) == OnCreated ==>
      db.Snapshot() == Created(old(db.Snapshot()), old(db.users), id, address, unitTable(unitCode),
                               marginWei as real / WeiPerEther, txhash, now, price, calcParams, o)
    ensures Dispatch(eventType).OnStateChanged? ==>
      db.Snapshot() == StateChanged(old(db.Snapshot()), id, Dispatch(eventType).confirmed, txhash, now)
    ensures Dispatch(eventType) == Ignored ==> db.Snapshot() == old(db.Snapshot())
  {
    var margin := marginWei as real / WeiPerEther;
    var unit := unitTable(unitCode);
    match Dispatch(eventType)
    case OnCreated =>
      OnContractCreated(db, id, address, unit, margin, txhash, now, price, calcParams, o);
    case OnStateChanged(state) =>
      OnContractStateChanged(db, id, state, txhash, now);
    case Ignored =>
  }
}
