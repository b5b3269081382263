/** The pure half of the insurance contract service: the event-type dispatch,
    the decoding of the on-chain mirror of a contract, the funding checks run
    when the deposit is observed, and one step function per transition of the
    lifecycle engine over a `Ledger` value (the insurance table, the
    transaction table, the domain events emitted and the on-chain calls issued).

    Every transition other than `Invalidate` is a compare-and-swap: the write
    "update where id = X and state != target" either matches, and then the
    event, the on-chain call, the transaction and the log entry follow, or it
    matches nothing and the step has no effect at all. */
module Lifecycle {
  import opened Types
  import Text

  datatype Ledger = Ledger(
    insurances: map<string, Insurance>,
    transactions: seq<Transaction>,
    events: seq<DomainEvent>,
    calls: seq<ChainCall>)

  // ---------------------------------------------------------------------
  // Event dispatch

  /** What the listener does with an `EInsurance` event. */
  datatype Handler = OnCreated | OnStateChanged(confirmed: InsuranceState) | Ignored

  /** The event-type switch: CREATE (0) funds a contract, REFUND (3) and
      CLAIM (5) confirm a terminal state; every other type is ignored. */
  function Dispatch(eventType: int): (h: Handler)
    ensures h == OnCreated <==> eventType == 0
    ensures h == OnStateChanged(Refunded) <==> eventType == 3
    ensures h == OnStateChanged(Claimed) <==> eventType == 5
    ensures h == Ignored <==> eventType != 0 && eventType != 3 && eventType != 5
    ensures h.OnStateChanged? ==> h.confirmed == Refunded || h.confirmed == Claimed
  {
    match eventType
    case 0 => OnCreated
    case 3 => OnStateChanged(Refunded)
    case 5 => OnStateChanged(Claimed)
    case _ => Ignored
  }

  // ---------------------------------------------------------------------
  // The on-chain mirror of a contract

  const ZeroAddress: string := "0x0000000000000000000000000000000000000000"
  const WeiPerEther: real := 1000000000000000000.0

  /** The tuple `readInsurance` returns: owner address (possibly absent),
      unit code, margin and claim quantity in wei, state code. */
  datatype ChainRecord = ChainRecord(address: Option<string>, unitCode: int, marginWei: int, qClaimWei: int, stateCode: int)

  datatype ContractView = ContractView(address: string, unitCode: int, margin: real, q_claim: real, stateCode: int)

  /** `getInsuranceContract`: no contract when the address is absent, empty
      or the zero address; otherwise the lower-cased owner and the amounts
      converted from wei to ether. */
  function ReadInsurance(rec: ChainRecord): (r: Option<ContractView>)
    ensures r.None? <==> rec.address.None? || rec.address.value == "" || Text.ToLower(rec.address.value) == ZeroAddress
    ensures r.Some? ==>
      && r.value.address == Text.ToLower(rec.address.value)
      && r.value.margin * WeiPerEther == rec.marginWei as real
      && r.value.q_claim * WeiPerEther == rec.qClaimWei as real
      && r.value.unitCode == rec.unitCode && r.value.stateCode == rec.stateCode
  {
    match rec.address
    case None => None
    case Some(a) =>
      var lower := Text.ToLower(a);
      if lower == "" || lower == ZeroAddress then None
      else Some(ContractView(lower, rec.unitCode, rec.marginWei as real / WeiPerEther,
                             rec.qClaimWei as real / WeiPerEther, rec.stateCode))
  }

  // ---------------------------------------------------------------------
  // Funding checks

  datatype InvalidReason = InvalidMargin | InvalidWalletAddress | CreatedTimeTimeout | InvalidUnit

  /** The text stored in `invalidReason` for each funding failure. */
  function ReasonText(r: InvalidReason): string
  {
    match r
    case InvalidMargin => "INVALID_MARGIN"
    case InvalidWalletAddress => "INVALID_WALLET_ADDRESS"
    case CreatedTimeTimeout => "CREATED_TIME_TIMEOUT"
    case InvalidUnit => "INVALID_UNIT"
  }

  /** Whole seconds from `createdAt` to `now`, truncated toward zero. */
  function ElapsedSeconds(createdAt: int, now: int): int
  {
    TruncDiv(now - createdAt, 1000)
  }

  /** The owner's registered wallet, absent when the user is unknown. */
  function WalletOf(users: map<string, User>, userId: string): Option<string>
  {
    if userId in users then users[userId].walletAddress else None
  }

  /** The four funding checks, in order; the first failure is the reason. */
  function FundingFailure(ins: Insurance, wallet: Option<string>, address: string,
                          unit: Option<string>, margin: real, now: int): (r: Option<InvalidReason>)
    ensures r == Some(InvalidMargin) <==> margin != ins.margin
    ensures r == Some(InvalidWalletAddress) <==>
      margin == ins.margin && wallet != Some(Text.ToLower(address))
    ensures r == Some(CreatedTimeTimeout) <==>
      margin == ins.margin && wallet == Some(Text.ToLower(address))
      && ElapsedSeconds(ins.createdAt, now) > 60
    ensures r == Some(InvalidUnit) <==>
      margin == ins.margin && wallet == Some(Text.ToLower(address))
      && ElapsedSeconds(ins.createdAt, now) <= 60 && unit != Some(ins.unit)
  {
    if margin != ins.margin then Some(InvalidMargin)
    else if wallet != Some(Text.ToLower(address)) then Some(InvalidWalletAddress)
    else if ElapsedSeconds(ins.createdAt, now) > 60 then Some(CreatedTimeTimeout)
    else if unit != Some(ins.unit) then Some(InvalidUnit)
    else None
  }

  /** Only the timeout asks the contract to pay the deposit back. */
  function Payback(r: InvalidReason): bool
  {
    r == CreatedTimeTimeout
  }

  // ---------------------------------------------------------------------
  // Primitive writes

  /** Every stored record carries its own key as id. */
  predicate KeyedById(store: map<string, Insurance>)
  {
    forall k :: k in store ==> store[k].id == k
  }

  /** Rewriting a stored record without touching its id keeps the table
      keyed by id. */
  lemma KeyedAfterWrite(store: map<string, Insurance>, id: string, rec: Insurance, entry: StateLog)
    requires id in store && rec.id == store[id].id
    ensures KeyedById(store) ==> KeyedById(AppendLog(store[id := rec], id, entry))
  {
  }

  /** The compare-and-swap guard "update where id = X and state != target". */
  predicate WriteMatches(store: map<string, Insurance>, id: string, target: InsuranceState)
  {
    id in store && store[id].state != target
  }

  /** `addStateLog`: pushes one entry onto the record's log. A missing record
      makes the update throw, which leaves the table as it was. */
  function AppendLog(store: map<string, Insurance>, id: string, entry: StateLog): (r: map<string, Insurance>)
    ensures r.Keys == store.Keys
    ensures forall k :: k in store && k != id ==> r[k] == store[k]
    ensures id in store ==> r[id] == store[id].(stateLogs := store[id].stateLogs + [entry])
  {
    if id in store then store[id := store[id].(stateLogs := store[id].stateLogs + [entry])] else store
  }

  /** `updateTxhash` of the contract service: sets the funding hash. */
  function SetTxhash(store: map<string, Insurance>, id: string, txhash: string): (r: map<string, Insurance>)
    ensures r.Keys == store.Keys
    ensures forall k :: k in store && k != id ==> r[k] == store[k]
    ensures id in store ==> r[id] == store[id].(txhash := Some(txhash))
  {
    if id in store then store[id := store[id].(txhash := Some(txhash))] else store
  }

  /** The log entry recording a write and the outcome of its on-chain call. */
  function LogEntry(state: InsuranceState, now: int, o: ChainOutcome): StateLog
  {
    StateLog(state, now, HashOf(o), ErrorOf(o))
  }

  // ---------------------------------------------------------------------
  // Transitions

  /** On-chain REFUND / CLAIM confirmation: writes the confirmed state and the
      close time, emits an update and logs the event's hash. No on-chain call
      and no transaction. */
  function StateChanged(l: Ledger, id: string, state: InsuranceState, txhash: string, now: int): (r: Ledger)
    ensures !WriteMatches(l.insurances, id, state) ==> r == l
    ensures r.insurances.Keys == l.insurances.Keys
    ensures forall k :: k in l.insurances && k != id ==> r.insurances[k] == l.insurances[k]
    ensures r.transactions == l.transactions && r.calls == l.calls
    ensures WriteMatches(l.insurances, id, state) ==>
      var rec := l.insurances[id].(state := state, closedAt := Some(now));
      && r.insurances[id] == rec.(stateLogs := rec.stateLogs + [StateLog(state, now, Some(txhash), None)])
      && r.events == l.events + [UpdatedEvent(rec)]
  {
    if !WriteMatches(l.insurances, id, state) then l
    else
      var rec := l.insurances[id].(state := state, closedAt := Some(now));
      l.(insurances := AppendLog(l.insurances[id := rec], id, StateLog(state, now, Some(txhash), None)),
         events := l.events + [UpdatedEvent(rec)])
  }

  /** `invalidateInsurance`: an unconditional write of INVALID, the reason and
      the close time; the on-chain call is made only when `payback` is set,
      and exactly one INVALID entry is logged either way. */
  function Invalidate(l: Ledger, id: string, reason: string, payback: bool, o: ChainOutcome, now: int): (r: Ledger)
    ensures id !in l.insurances ==> r == l
    ensures r.insurances.Keys == l.insurances.Keys
    ensures forall k :: k in l.insurances && k != id ==> r.insurances[k] == l.insurances[k]
    ensures r.transactions == l.transactions && r.events == l.events
    ensures id in l.insurances ==>
      && r.insurances[id].state == Invalid
      && r.insurances[id].invalidReason == Some(reason)
      && r.insurances[id].closedAt == Some(now)
      && r.insurances[id] == l.insurances[id].(state := Invalid, invalidReason := Some(reason), closedAt := Some(now),
                                               stateLogs := r.insurances[id].stateLogs)
      && r.insurances[id].stateLogs == l.insurances[id].stateLogs
           + [if payback then LogEntry(Invalid, now, o) else StateLog(Invalid, now, None, None)]
      && r.calls == l.calls + (if payback then [UpdateInvalidInsurance(id)] else [])
  {
    if id !in l.insurances then l
    else
      var rec := l.insurances[id].(state := Invalid, invalidReason := Some(reason), closedAt := Some(now));
      var entry := if payback then LogEntry(Invalid, now, o) else StateLog(Invalid, now, None, None);
      l.(insurances := AppendLog(l.insurances[id := rec], id, entry),
         calls := l.calls + (if payback then [UpdateInvalidInsurance(id)] else []))
  }

  /** The parameters computed for `ins` at open price `price`. */
  function ParamsAt(ins: Insurance, price: real, calcParams: ParamsInput -> Params): Params
  {
    calcParams(ParamsInput(ins.margin, ins.q_covered, price, ins.p_claim, ins.period, ins.periodUnit, ins.periodChangeRatio))
  }

  /** The record written by `availableInsurance`. */
  function WithParams(rec: Insurance, price: real, p: Params): Insurance
  {
    rec.(state := Available, p_open := price, p_liquidation := p.p_liquidation, q_claim := p.q_claim,
         systemCapital := p.systemCapital, p_refund := p.p_refund, p_cancel := p.p_cancel,
         leverage := p.leverage, expiredAt := p.expiredAt, hedge := p.hedge)
  }

  /** `availableInsurance`: with the current price (absent when the price
      lookup fails, which aborts the step), computes the parameters from the
      caller's snapshot and writes them with AVAILABLE; then emits a creation
      event, calls `updateAvailableInsurance` with the claim quantity and the
      expiry in unix seconds, and logs the outcome. */
  function MakeAvailable(l: Ledger, ins: Insurance, price: Option<real>, calcParams: ParamsInput -> Params,
                         o: ChainOutcome, now: int): (r: Ledger)
    ensures price.None? || !WriteMatches(l.insurances, ins.id, Available) ==> r == l
    ensures r.insurances.Keys == l.insurances.Keys
    ensures forall k :: k in l.insurances && k != ins.id ==> r.insurances[k] == l.insurances[k]
    ensures r.transactions == l.transactions
    ensures price.Some? && WriteMatches(l.insurances, ins.id, Available) ==>
      var p := ParamsAt(ins, price.value, calcParams);
      var rec := WithParams(l.insurances[ins.id], price.value, p);
      && r.insurances[ins.id].state == Available
      && r.insurances[ins.id].p_open == price.value
      && r.insurances[ins.id] == rec.(stateLogs := rec.stateLogs + [LogEntry(Available, now, o)])
      && r.events == l.events + [CreatedEvent(rec)]
      && r.calls == l.calls + [UpdateAvailableInsurance(ins.id, p.q_claim, p.expiredAt / 1000)]
  {
    if price.None? || !WriteMatches(l.insurances, ins.id, Available) then l
    else
      var p := ParamsAt(ins, price.value, calcParams);
      var rec := WithParams(l.insurances[ins.id], price.value, p);
      Ledger(AppendLog(l.insurances[ins.id := rec], ins.id, LogEntry(Available, now, o)),
             l.transactions,
             l.events + [CreatedEvent(rec)],
             l.calls + [UpdateAvailableInsurance(ins.id, p.q_claim, p.expiredAt / 1000)])
  }

  /** The transaction row written beside a transition, for the snapshot `ins`. */
  function TxFor(ins: Insurance, amount: real, kind: TxType, o: ChainOutcome): Transaction
  {
    Transaction(amount, ins.id, Success, HashOf(o), kind, ins.unit, ins.userId)
  }

  /** `cancelInsurance` of the contract service: CANCELLED with the close
      price and time; PnL is left as it was; one CANCEL transaction for the
      margin, with status SUCCESS whatever the on-chain call did. */
  function Cancel(l: Ledger, ins: Insurance, pClose: real, o: ChainOutcome, now: int): (r: Ledger)
    ensures !WriteMatches(l.insurances, ins.id, Cancelled) ==> r == l
    ensures r.insurances.Keys == l.insurances.Keys
    ensures forall k :: k in l.insurances && k != ins.id ==> r.insurances[k] == l.insurances[k]
    ensures WriteMatches(l.insurances, ins.id, Cancelled) ==>
      var rec := l.insurances[ins.id].(state := Cancelled, p_close := Some(pClose), closedAt := Some(now));
      && r.insurances[ins.id] == rec.(stateLogs := rec.stateLogs + [LogEntry(Cancelled, now, o)])
      && r.insurances[ins.id].pnlUser == l.insurances[ins.id].pnlUser
      && r.insurances[ins.id].pnlProject == l.insurances[ins.id].pnlProject
      && r.events == l.events + [UpdatedEvent(rec)]
      && r.calls == l.calls + [CancelCall(ins.id)]
      && r.transactions == l.transactions + [Transaction(ins.margin, ins.id, Success, HashOf(o), CancelTx, ins.unit, ins.userId)]
  {
    if !WriteMatches(l.insurances, ins.id, Cancelled) then l
    else
      var rec := l.insurances[ins.id].(state := Cancelled, p_close := Some(pClose), closedAt := Some(now));
      Ledger(AppendLog(l.insurances[ins.id := rec], ins.id, LogEntry(Cancelled, now, o)),
             l.transactions + [TxFor(ins, ins.margin, CancelTx, o)],
             l.events + [UpdatedEvent(rec)],
             l.calls + [CancelCall(ins.id)])
  }

  /** `claimInsurance`: CLAIM_WAITING with the close price, user PnL
      q_claim - margin and the project PnL its negation (the close time is
      not written); one CLAIM transaction for q_claim. */
  function Claim(l: Ledger, ins: Insurance, price: real, o: ChainOutcome, now: int): (r: Ledger)
    ensures !WriteMatches(l.insurances, ins.id, ClaimWaiting) ==> r == l
    ensures r.insurances.Keys == l.insurances.Keys
    ensures forall k :: k in l.insurances && k != ins.id ==> r.insurances[k] == l.insurances[k]
    ensures WriteMatches(l.insurances, ins.id, ClaimWaiting) ==>
      var rec := l.insurances[ins.id].(state := ClaimWaiting, p_close := Some(price),
                                       pnlUser := Some(ins.q_claim - ins.margin),
                                       pnlProject := Some(ins.margin - ins.q_claim));
      && r.insurances[ins.id] == rec.(stateLogs := rec.stateLogs + [LogEntry(ClaimWaiting, now, o)])
      && r.insurances[ins.id].closedAt == l.insurances[ins.id].closedAt
      && r.events == l.events + [UpdatedEvent(rec)]
      && r.calls == l.calls + [ClaimCall(ins.id)]
      && r.transactions == l.transactions + [Transaction(ins.q_claim, ins.id, Success, HashOf(o), ClaimTx, ins.unit, ins.userId)]
  {
    if !WriteMatches(l.insurances, ins.id, ClaimWaiting) then l
    else
      var pnlUser := ins.q_claim - ins.margin;
      var rec := l.insurances[ins.id].(state := ClaimWaiting, p_close := Some(price),
                                       pnlUser := Some(pnlUser), pnlProject := Some(-pnlUser));
      Ledger(AppendLog(l.insurances[ins.id := rec], ins.id, LogEntry(ClaimWaiting, now, o)),
             l.transactions + [TxFor(ins, ins.q_claim, ClaimTx, o)],
             l.events + [UpdatedEvent(rec)],
             l.calls + [ClaimCall(ins.id)])
  }

  /** The ledger `Claim` leaves after a matching write, spelled out field by
      field. */
  lemma ClaimWrite(l: Ledger, ins: Insurance, price: real, o: ChainOutcome, now: int)
    requires WriteMatches(l.insurances, ins.id, ClaimWaiting)
    ensures var rec := l.insurances[ins.id].(state := ClaimWaiting, p_close := Some(price),
                                             pnlUser := Some(ins.q_claim - ins.margin),
                                             pnlProject := Some(-(ins.q_claim - ins.margin)));
      Claim(l, ins, price, o, now)
        == Ledger(AppendLog(l.insurances[ins.id := rec], ins.id, LogEntry(ClaimWaiting, now, o)),
                  l.transactions + [Transaction(ins.q_claim, ins.id, Success, HashOf(o), ClaimTx, ins.unit, ins.userId)],
                  l.events + [UpdatedEvent(rec)], l.calls + [ClaimCall(ins.id)])
  {
  }

  /** `refundInsurance`: REFUND_WAITING with the close price and time; PnL is
      left as it was; one REFUND transaction for the margin. */
  function Refund(l: Ledger, ins: Insurance, pClose: real, o: ChainOutcome, now: int): (r: Ledger)
    ensures !WriteMatches(l.insurances, ins.id, RefundWaiting) ==> r == l
    ensures r.insurances.Keys == l.insurances.Keys
    ensures forall k :: k in l.insurances && k != ins.id ==> r.insurances[k] == l.insurances[k]
    ensures WriteMatches(l.insurances, ins.id, RefundWaiting) ==>
      var rec := l.insurances[ins.id].(state := RefundWaiting, p_close := Some(pClose), closedAt := Some(now));
      && r.insurances[ins.id] == rec.(stateLogs := rec.stateLogs + [LogEntry(RefundWaiting, now, o)])
      && r.insurances[ins.id].pnlUser == l.insurances[ins.id].pnlUser
      && r.insurances[ins.id].pnlProject == l.insurances[ins.id].pnlProject
      && r.events == l.events + [UpdatedEvent(rec)]
      && r.calls == l.calls + [RefundCall(ins.id)]
      && r.transactions == l.transactions + [Transaction(ins.margin, ins.id, Success, HashOf(o), RefundTx, ins.unit, ins.userId)]
  {
    if !WriteMatches(l.insurances, ins.id, RefundWaiting) then l
    else
      var rec := l.insurances[ins.id].(state := RefundWaiting, p_close := Some(pClose), closedAt := Some(now));
      Ledger(AppendLog(l.insurances[ins.id := rec], ins.id, LogEntry(RefundWaiting, now, o)),
             l.transactions + [TxFor(ins, ins.margin, RefundTx, o)],
             l.events + [UpdatedEvent(rec)],
             l.calls + [RefundCall(ins.id)])
  }

  /** The on-chain call `liquidatedOrExpiredInsurance` makes for a target:
      none for a target other than LIQUIDATED and EXPIRED. */
  function CloseCall(id: string, target: InsuranceState): seq<ChainCall>
  {
    if target == Liquidated then [LiquidateCall(id)]
    else if target == Expired then [ExpireCall(id)]
    else []
  }

  /** `liquidatedOrExpiredInsurance`: the target state with the close price
      and time, user PnL -margin and project PnL +margin; `liquidate` or
      `expire` on chain as the target says; no transaction. */
  function LiquidateOrExpire(l: Ledger, ins: Insurance, target: InsuranceState, pClose: real,
                             o: ChainOutcome, now: int): (r: Ledger)
    ensures !WriteMatches(l.insurances, ins.id, target) ==> r == l
    ensures r.insurances.Keys == l.insurances.Keys
    ensures forall k :: k in l.insurances && k != ins.id ==> r.insurances[k] == l.insurances[k]
    ensures r.transactions == l.transactions
    ensures WriteMatches(l.insurances, ins.id, target) ==>
      var rec := l.insurances[ins.id].(state := target, p_close := Some(pClose), closedAt := Some(now),
                                       pnlUser := Some(-ins.margin), pnlProject := Some(ins.margin));
      var called := target == Liquidated || target == Expired;
      && r.insurances[ins.id] == rec.(stateLogs := rec.stateLogs
           + [if called then LogEntry(target, now, o) else StateLog(target, now, None, None)])
      && r.events == l.events + [UpdatedEvent(rec)]
      && r.calls == l.calls + CloseCall(ins.id, target)
      && (called <==> |r.calls| == |l.calls| + 1)
  {
    if !WriteMatches(l.insurances, ins.id, target) then l
    else
      var pnlUser := -ins.margin;
      var rec := l.insurances[ins.id].(state := target, p_close := Some(pClose), closedAt := Some(now),
                                       pnlUser := Some(pnlUser), pnlProject := Some(-pnlUser));
      var entry := if target == Liquidated || target == Expired then LogEntry(target, now, o)
                   else StateLog(target, now, None, None);
      l.(insurances := AppendLog(l.insurances[ins.id := rec], ins.id, entry),
         events := l.events + [UpdatedEvent(rec)],
         calls := l.calls + CloseCall(ins.id, target))
  }

  /** The ledger `LiquidateOrExpire` leaves after a matching write, spelled
      out field by field. */
  lemma CloseWrite(l: Ledger, ins: Insurance, state: InsuranceState, pClose: real, o: ChainOutcome, now: int)
    requires WriteMatches(l.insurances, ins.id, state)
    ensures var rec := l.insurances[ins.id].(state := state, p_close := Some(pClose), closedAt := Some(now),
                                             pnlUser := Some(-ins.margin), pnlProject := Some(--ins.margin));
      var entry := if state == Liquidated || state == Expired then LogEntry(state, now, o)
                   else StateLog(state, now, None, None);
      LiquidateOrExpire(l, ins, state, pClose, o, now)
        == Ledger(AppendLog(l.insurances[ins.id := rec], ins.id, entry), l.transactions,
                  l.events + [UpdatedEvent(rec)], l.calls + CloseCall(ins.id, state))
  {
  }

  /** The funding transaction recorded for a CREATE event. */
  function FundingTx(ins: Insurance, margin: real, txhash: string): Transaction
  {
    Transaction(margin, ins.id, Success, Some(txhash), MarginTx, ins.unit, ins.userId)
  }

  /** `onContractCreated`: an unknown id is ignored. For a known id the
      funding hash is stored and a MARGIN transaction for the observed margin
      recorded before anything else; a record that is no longer PENDING stops
      there. Otherwise the funding checks decide between INVALID (paying back
      only on timeout) and AVAILABLE. */
  function Created(l: Ledger, users: map<string, User>, id: string, address: string, unit: Option<string>,
                   margin: real, txhash: string, now: int, price: Option<real>,
                   calcParams: ParamsInput -> Params, o: ChainOutcome): (r: Ledger)
    requires KeyedById(l.insurances)
    ensures id !in l.insurances ==> r == l
    ensures r.insurances.Keys == l.insurances.Keys
    ensures forall k :: k in l.insurances && k != id ==> r.insurances[k] == l.insurances[k]
    ensures id in l.insurances ==>
      r.transactions == l.transactions + [FundingTx(l.insurances[id], margin, txhash)]
      && r.insurances[id].txhash == Some(txhash)
    ensures id in l.insurances && l.insurances[id].state != Pending ==>
      r.insurances[id] == l.insurances[id].(txhash := Some(txhash))
      && r.events == l.events && r.calls == l.calls
    ensures id in l.insurances && l.insurances[id].state == Pending ==>
      var ins := l.insurances[id];
      var failure := FundingFailure(ins, WalletOf(users, ins.userId), address, unit, margin, now);
      && (failure.Some? ==>
            && r.insurances[id].state == Invalid
            && r.insurances[id].invalidReason == Some(ReasonText(failure.value))
            && r.insurances[id].closedAt == Some(now)
            && r.events == l.events
            && r.calls == l.calls + (if Payback(failure.value) then [UpdateInvalidInsurance(id)] else []))
      && (failure.None? && price.Some? ==>
            var p := ParamsAt(ins, price.value, calcParams);
            && r.insurances[id].state == Available
            && r.insurances[id].p_open == price.value
            && r.insurances[id].q_claim == p.q_claim && r.insurances[id].expiredAt == p.expiredAt
            && r.events == l.events + [CreatedEvent(r.insurances[id].(stateLogs := ins.stateLogs))]
            && r.calls == l.calls + [UpdateAvailableInsurance(id, p.q_claim, p.expiredAt / 1000)])
      && (failure.None? && price.None? ==>
            r.insurances[id] == ins.(txhash := Some(txhash)) && r.events == l.events && r.calls == l.calls)
  {
    if id !in l.insurances then l
    else
      var ins := l.insurances[id];
      var funded := l.(insurances := SetTxhash(l.insurances, id, txhash),
                       transactions := l.transactions + [FundingTx(ins, margin, txhash)]);
      if ins.state != Pending then funded
      else
        match FundingFailure(ins, WalletOf(users, ins.userId), address, unit, margin, now)
        case Some(reason) => Invalidate(funded, id, ReasonText(reason), Payback(reason), o, now)
        case None => MakeAvailable(funded, ins, price, calcParams, o, now)
  }
}
