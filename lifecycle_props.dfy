/** Properties of the lifecycle engine over whole runs: any sequence of
    transitions keeps history append-only, keeps each record's last log entry
    in step with its state, keeps the two PnL figures opposite, and lets the
    on-chain outcome reach only logs and transaction hashes. Also the
    idempotence of every compare-and-swap transition and the behaviour of
    duplicated or late CREATE events. */
module LifecycleProps {
  import opened Types
  import opened Lifecycle

  /** One atomic step of the engine (each public method under its lock). */
  datatype Step =
    | ContractCreated(id: string, address: string, unit: Option<string>, margin: real,
                      txhash: string, now: int, price: Option<real>, o: ChainOutcome)
    | ContractStateChanged(id: string, state: InsuranceState, txhash: string, now: int)
    | InvalidateStep(id: string, reason: string, payback: bool, o: ChainOutcome, now: int)
    | AvailableStep(ins: Insurance, price: Option<real>, o: ChainOutcome, now: int)
    | CancelStep(ins: Insurance, pClose: real, o: ChainOutcome, now: int)
    | ClaimStep(ins: Insurance, pClose: real, o: ChainOutcome, now: int)
    | RefundStep(ins: Insurance, pClose: real, o: ChainOutcome, now: int)
    | CloseStep(ins: Insurance, target: InsuranceState, pClose: real, o: ChainOutcome, now: int)

  function Apply(l: Ledger, users: map<string, User>, calcParams: ParamsInput -> Params, s: Step): Ledger
    requires KeyedById(l.insurances)
  {
    match s
    case ContractCreated(id, address, unit, margin, txhash, now, price, o) =>
      Created(l, users, id, address, unit, margin, txhash, now, price, calcParams, o)
    case ContractStateChanged(id, state, txhash, now) => StateChanged(l, id, state, txhash, now)
    case InvalidateStep(id, reason, payback, o, now) => Invalidate(l, id, reason, payback, o, now)
    case AvailableStep(ins, price, o, now) => MakeAvailable(l, ins, price, calcParams, o, now)
    case CancelStep(ins, pClose, o, now) => Cancel(l, ins, pClose, o, now)
    case ClaimStep(ins, pClose, o, now) => Claim(l, ins, pClose, o, now)
    case RefundStep(ins, pClose, o, now) => Refund(l, ins, pClose, o, now)
    case CloseStep(ins, target, pClose, o, now) => LiquidateOrExpire(l, ins, target, pClose, o, now)
  }

  /** The same step with a different on-chain outcome. */
  function WithOutcome(s: Step, o': ChainOutcome): Step
  {
    match s
    case ContractCreated(id, address, unit, margin, txhash, now, price, _) =>
      ContractCreated(id, address, unit, margin, txhash, now, price, o')
    case ContractStateChanged(_, _, _, _) => s
    case InvalidateStep(id, reason, payback, _, now) => InvalidateStep(id, reason, payback, o', now)
    case AvailableStep(ins, price, _, now) => AvailableStep(ins, price, o', now)
    case CancelStep(ins, pClose, _, now) => CancelStep(ins, pClose, o', now)
    case ClaimStep(ins, pClose, _, now) => ClaimStep(ins, pClose, o', now)
    case RefundStep(ins, pClose, _, now) => RefundStep(ins, pClose, o', now)
    case CloseStep(ins, target, pClose, _, now) => CloseStep(ins, target, pClose, o', now)
  }

  // ---------------------------------------------------------------------
  // Invariants of the insurance table

  predicate LogTracksState(store: map<string, Insurance>)
  {
    forall k :: k in store && |store[k].stateLogs| > 0 ==>
      store[k].stateLogs[|store[k].stateLogs| - 1].state == store[k].state
  }

  predicate PnlBalanced(store: map<string, Insurance>)
  {
    forall k :: k in store ==>
      (store[k].pnlUser.Some? <==> store[k].pnlProject.Some?)
      && (store[k].pnlUser.Some? ==> store[k].pnlUser.value + store[k].pnlProject.value == 0.0)
  }

  predicate Consistent(store: map<string, Insurance>)
  {
    KeyedById(store) && LogTracksState(store) && PnlBalanced(store)
  }

  /** Nothing recorded is lost: records stay, logs and the transaction,
      event and call sequences only grow at their ends. */
  predicate Extends(l: Ledger, r: Ledger)
  {
    && l.insurances.Keys <= r.insurances.Keys
    && (forall k :: k in l.insurances ==> l.insurances[k].stateLogs <= r.insurances[k].stateLogs)
    && l.transactions <= r.transactions
    && l.events <= r.events
    && l.calls <= r.calls
  }

  /** A step adds at most one transaction, one event, one call. */
  predicate GrowsByAtMostOne(l: Ledger, r: Ledger)
  {
    && |r.transactions| <= |l.transactions| + 1
    && |r.events| <= |l.events| + 1
    && |r.calls| <= |l.calls| + 1
  }

  /** A record's log gains at most one entry, and a record whose state
      changed gains exactly one, recording the new state. */
  predicate LoggedChange(a: Insurance, b: Insurance)
  {
    && |a.stateLogs| <= |b.stateLogs| <= |a.stateLogs| + 1
    && (b.state != a.state ==>
          |b.stateLogs| == |a.stateLogs| + 1 && b.stateLogs[|a.stateLogs|].state == b.state)
  }

  predicate RecordBalanced(rec: Insurance)
  {
    (rec.pnlUser.Some? <==> rec.pnlProject.Some?)
    && (rec.pnlUser.Some? ==> rec.pnlUser.value + rec.pnlProject.value == 0.0)
  }

  /** The shape of every matched transition: one record rewritten (keeping
      its id and its log) and one entry, for the state written, pushed on
      its log. */
  lemma WriteAndLogFacts(store: map<string, Insurance>, id: string, rec: Insurance, entry: StateLog)
    requires Consistent(store) && id in store
    requires rec.id == id && rec.stateLogs == store[id].stateLogs
    requires entry.state == rec.state && RecordBalanced(rec)
    ensures var r := AppendLog(store[id := rec], id, entry);
      && Consistent(r) && r.Keys == store.Keys
      && (forall k :: k in store ==> store[k].stateLogs <= r[k].stateLogs)
  {
    var r := AppendLog(store[id := rec], id, entry);
    forall k | k in store
      ensures store[k].stateLogs <= r[k].stateLogs
    {
      if k == id {
        assert r[k].stateLogs == store[k].stateLogs + [entry];
      }
    }
  }

  lemma StateChangedFacts(l: Ledger, id: string, state: InsuranceState, txhash: string, now: int)
    requires Consistent(l.insurances)
    ensures var r := StateChanged(l, id, state, txhash, now);
      Consistent(r.insurances) && Extends(l, r) && GrowsByAtMostOne(l, r)
  {
    if WriteMatches(l.insurances, id, state) {
      var rec := l.insurances[id].(state := state, closedAt := Some(now));
      WriteAndLogFacts(l.insurances, id, rec, StateLog(state, now, Some(txhash), None));
    }
  }

  lemma InvalidateFacts(l: Ledger, id: string, reason: string, payback: bool, o: ChainOutcome, now: int)
    requires Consistent(l.insurances)
    ensures var r := Invalidate(l, id, reason, payback, o, now);
      Consistent(r.insurances) && Extends(l, r) && GrowsByAtMostOne(l, r)
  {
    if id in l.insurances {
      var rec := l.insurances[id].(state := Invalid, invalidReason := Some(reason), closedAt := Some(now));
      var entry := if payback then LogEntry(Invalid, now, o) else StateLog(Invalid, now, None, None);
      WriteAndLogFacts(l.insurances, id, rec, entry);
    }
  }

  lemma MakeAvailableFacts(l: Ledger, ins: Insurance, price: Option<real>, calcParams: ParamsInput -> Params,
                           o: ChainOutcome, now: int)
    requires Consistent(l.insurances)
    ensures var r := MakeAvailable(l, ins, price, calcParams, o, now);
      Consistent(r.insurances) && Extends(l, r) && GrowsByAtMostOne(l, r)
  {
    if price.Some? && WriteMatches(l.insurances, ins.id, Available) {
      var rec := WithParams(l.insurances[ins.id], price.value, ParamsAt(ins, price.value, calcParams));
      WriteAndLogFacts(l.insurances, ins.id, rec, LogEntry(Available, now, o));
    }
  }

  lemma CancelFacts(l: Ledger, ins: Insurance, pClose: real, o: ChainOutcome, now: int)
    requires Consistent(l.insurances)
    ensures var r := Cancel(l, ins, pClose, o, now);
      Consistent(r.insurances) && Extends(l, r) && GrowsByAtMostOne(l, r)
  {
    if WriteMatches(l.insurances, ins.id, Cancelled) {
      var rec := l.insurances[ins.id].(state := Cancelled, p_close := Some(pClose), closedAt := Some(now));
      WriteAndLogFacts(l.insurances, ins.id, rec, LogEntry(Cancelled, now, o));
    }
  }

  lemma ClaimFacts(l: Ledger, ins: Insurance, price: real, o: ChainOutcome, now: int)
    requires Consistent(l.insurances)
    ensures var r := Claim(l, ins, price, o, now);
      Consistent(r.insurances) && Extends(l, r) && GrowsByAtMostOne(l, r)
  {
    if WriteMatches(l.insurances, ins.id, ClaimWaiting) {
      var pnlUser := ins.q_claim - ins.margin;
      var rec := l.insurances[ins.id].(state := ClaimWaiting, p_close := Some(price),
                                       pnlUser := Some(pnlUser), pnlProject := Some(-pnlUser));
      var entry := LogEntry(ClaimWaiting, now, o);
      var store := AppendLog(l.insurances[ins.id := rec], ins.id, entry);
      var r := Ledger(store, l.transactions + [TxFor(ins, ins.q_claim, ClaimTx, o)],
                      l.events + [UpdatedEvent(rec)], l.calls + [ClaimCall(ins.id)]);
      assert r == Claim(l, ins, price, o, now);
      assert RecordBalanced(rec);
      WriteAndLogFacts(l.insurances, ins.id, rec, entry);
      assert Consistent(r.insurances);
      assert Extends(l, r);
    }
  }

  lemma RefundFacts(l: Ledger, ins: Insurance, pClose: real, o: ChainOutcome, now: int)
    requires Consistent(l.insurances)
    ensures var r := Refund(l, ins, pClose, o, now);
      Consistent(r.insurances) && Extends(l, r) && GrowsByAtMostOne(l, r)
  {
    if WriteMatches(l.insurances, ins.id, RefundWaiting) {
      var rec := l.insurances[ins.id].(state := RefundWaiting, p_close := Some(pClose), closedAt := Some(now));
      WriteAndLogFacts(l.insurances, ins.id, rec, LogEntry(RefundWaiting, now, o));
    }
  }

  lemma LiquidateOrExpireFacts(l: Ledger, ins: Insurance, target: InsuranceState, pClose: real, o: ChainOutcome, now: int)
    requires Consistent(l.insurances)
    ensures var r := LiquidateOrExpire(l, ins, target, pClose, o, now);
      Consistent(r.insurances) && Extends(l, r) && GrowsByAtMostOne(l, r)
  {
    if WriteMatches(l.insurances, ins.id, target) {
      var rec := l.insurances[ins.id].(state := target, p_close := Some(pClose), closedAt := Some(now),
                                       pnlUser := Some(-ins.margin), pnlProject := Some(--ins.margin));
      var entry := if target == Liquidated || target == Expired then LogEntry(target, now, o)
                   else StateLog(target, now, None, None);
      CloseWrite(l, ins, target, pClose, o, now);
      WriteStepFacts(l, LiquidateOrExpire(l, ins, target, pClose, o, now), ins.id, rec, entry,
                     UpdatedEvent(rec), CloseCall(ins.id, target));
    }
  }

  /** A step that rewrites one record, logs it, and appends one event and at
      most one call keeps the invariants and only extends the ledger. */
  lemma WriteStepFacts(l: Ledger, r: Ledger, id: string, rec: Insurance, entry: StateLog, ev: DomainEvent,
                       calls: seq<ChainCall>)
    requires Consistent(l.insurances) && id in l.insurances
    requires rec.id == id && rec.stateLogs == l.insurances[id].stateLogs
    requires entry.state == rec.state && RecordBalanced(rec)
    requires r == Ledger(AppendLog(l.insurances[id := rec], id, entry), l.transactions, l.events + [ev], l.calls + calls)
    requires |calls| <= 1
    ensures Consistent(r.insurances) && Extends(l, r) && GrowsByAtMostOne(l, r)
  {
    WriteAndLogFacts(l.insurances, id, rec, entry);
  }

  /** Storing the funding hash and its transaction keeps the invariants. */
  lemma FundingFacts(l: Ledger, id: string, margin: real, txhash: string)
    requires Consistent(l.insurances) && id in l.insurances
    ensures var funded := l.(insurances := SetTxhash(l.insurances, id, txhash),
                             transactions := l.transactions + [FundingTx(l.insurances[id], margin, txhash)]);
      Consistent(funded.insurances) && Extends(l, funded)
  {
  }

  lemma ExtendsTrans(a: Ledger, b: Ledger, c: Ledger)
    requires Extends(a, b) && Extends(b, c)
    ensures Extends(a, c)
  {
    forall k | k in a.insurances
      ensures a.insurances[k].stateLogs <= c.insurances[k].stateLogs
    {
      PrefixTrans(a.insurances[k].stateLogs, b.insurances[k].stateLogs, c.insurances[k].stateLogs);
    }
    PrefixTrans(a.transactions, b.transactions, c.transactions);
    PrefixTrans(a.events, b.events, c.events);
    PrefixTrans(a.calls, b.calls, c.calls);
  }

  lemma CreatedFacts(l: Ledger, users: map<string, User>, id: string, address: string, unit: Option<string>,
                     margin: real, txhash: string, now: int, price: Option<real>,
                     calcParams: ParamsInput -> Params, o: ChainOutcome)
    requires Consistent(l.insurances)
    ensures var r := Created(l, users, id, address, unit, margin, txhash, now, price, calcParams, o);
      Consistent(r.insurances) && Extends(l, r) && GrowsByAtMostOne(l, r)
  {
    if id in l.insurances {
      var ins := l.insurances[id];
      var funded := l.(insurances := SetTxhash(l.insurances, id, txhash),
                       transactions := l.transactions + [FundingTx(ins, margin, txhash)]);
      FundingFacts(l, id, margin, txhash);
      if ins.state == Pending {
        var r := Created(l, users, id, address, unit, margin, txhash, now, price, calcParams, o);
        match FundingFailure(ins, WalletOf(users, ins.userId), address, unit, margin, now)
        case Some(reason) =>
          assert r == Invalidate(funded, id, ReasonText(reason), Payback(reason), o, now);
          InvalidateFacts(funded, id, ReasonText(reason), Payback(reason), o, now);
          ExtendsTrans(l, funded, r);
        case None =>
          assert r == MakeAvailable(funded, ins, price, calcParams, o, now);
          MakeAvailableFacts(funded, ins, price, calcParams, o, now);
          ExtendsTrans(l, funded, r);
      }
    }
  }

  lemma ApplyStepFacts(l: Ledger, users: map<string, User>, calcParams: ParamsInput -> Params, s: Step)
    requires Consistent(l.insurances)
    ensures var r := Apply(l, users, calcParams, s);
      Consistent(r.insurances) && Extends(l, r) && GrowsByAtMostOne(l, r)
      && r.insurances.Keys == l.insurances.Keys
  {
    match s
    case ContractCreated(id, address, unit, margin, txhash, now, price, o) =>
      CreatedFacts(l, users, id, address, unit, margin, txhash, now, price, calcParams, o);
    case ContractStateChanged(id, state, txhash, now) => StateChangedFacts(l, id, state, txhash, now);
    case InvalidateStep(id, reason, payback, o, now) => InvalidateFacts(l, id, reason, payback, o, now);
    case AvailableStep(ins, price, o, now) => MakeAvailableFacts(l, ins, price, calcParams, o, now);
    case CancelStep(ins, pClose, o, now) => CancelFacts(l, ins, pClose, o, now);
    case ClaimStep(ins, pClose, o, now) => ClaimFacts(l, ins, pClose, o, now);
    case RefundStep(ins, pClose, o, now) => RefundFacts(l, ins, pClose, o, now);
    case CloseStep(ins, target, pClose, o, now) => LiquidateOrExpireFacts(l, ins, target, pClose, o, now);
  }

  /** Any run of steps from a consistent table keeps it consistent and
      only ever appends to what was recorded. */
  lemma {:induction false} RunKeepsInvariants(l: Ledger, users: map<string, User>,
                                              calcParams: ParamsInput -> Params, steps: seq<Step>)
    requires Consistent(l.insurances)
    ensures var r := Run(l, users, calcParams, steps);
      && Consistent(r.insurances)
      && Extends(l, r)
      && |r.transactions| <= |l.transactions| + |steps|
      && |r.events| <= |l.events| + |steps|
      && |r.calls| <= |l.calls| + |steps|
    decreases |steps|
  {
    if steps != [] {
      var l1 := Apply(l, users, calcParams, steps[0]);
      ApplyStepFacts(l, users, calcParams, steps[0]);
      RunKeepsInvariants(l1, users, calcParams, steps[1..]);
      var r := Run(l1, users, calcParams, steps[1..]);
      forall k | k in l.insurances
        ensures l.insurances[k].stateLogs <= r.insurances[k].stateLogs
      {
        PrefixTrans(l.insurances[k].stateLogs, l1.insurances[k].stateLogs, r.insurances[k].stateLogs);
      }
      PrefixTrans(l.transactions, l1.transactions, r.transactions);
      PrefixTrans(l.events, l1.events, r.events);
      PrefixTrans(l.calls, l1.calls, r.calls);
    }
  }

  lemma PrefixTrans<T>(a: seq<T>, b: seq<T>, c: seq<T>)
    requires a <= b && b <= c
    ensures a <= c
  {
    assert c[..|a|] == b[..|a|];
  }

  function Run(l: Ledger, users: map<string, User>, calcParams: ParamsInput -> Params, steps: seq<Step>): Ledger
    requires Consistent(l.insurances)
    decreases |steps|
  {
    if steps == [] then l
    else
      ApplyStepFacts(l, users, calcParams, steps[0]);
      Run(Apply(l, users, calcParams, steps[0]), users, calcParams, steps[1..])
  }

  // Per-transition halves of StateChangeIsLogged.

  lemma StateChangedLogged(l: Ledger, id: string, state: InsuranceState, txhash: string, now: int, k: string)
    requires k in l.insurances
    ensures var r := StateChanged(l, id, state, txhash, now);
      k in r.insurances && LoggedChange(l.insurances[k], r.insurances[k])
  {
  }

  lemma InvalidateLogged(l: Ledger, id: string, reason: string, payback: bool, o: ChainOutcome, now: int, k: string)
    requires k in l.insurances
    ensures var r := Invalidate(l, id, reason, payback, o, now);
      k in r.insurances && LoggedChange(l.insurances[k], r.insurances[k])
  {
  }

  lemma MakeAvailableLogged(l: Ledger, ins: Insurance, price: Option<real>, calcParams: ParamsInput -> Params,
                            o: ChainOutcome, now: int, k: string)
    requires k in l.insurances
    ensures var r := MakeAvailable(l, ins, price, calcParams, o, now);
      k in r.insurances && LoggedChange(l.insurances[k], r.insurances[k])
  {
  }

  lemma CancelLogged(l: Ledger, ins: Insurance, pClose: real, o: ChainOutcome, now: int, k: string)
    requires k in l.insurances
    ensures var r := Cancel(l, ins, pClose, o, now);
      k in r.insurances && LoggedChange(l.insurances[k], r.insurances[k])
  {
  }

  lemma ClaimLogged(l: Ledger, ins: Insurance, price: real, o: ChainOutcome, now: int, k: string)
    requires k in l.insurances
    ensures var r := Claim(l, ins, price, o, now);
      k in r.insurances && LoggedChange(l.insurances[k], r.insurances[k])
  {
  }

  lemma RefundLogged(l: Ledger, ins: Insurance, pClose: real, o: ChainOutcome, now: int, k: string)
    requires k in l.insurances
    ensures var r := Refund(l, ins, pClose, o, now);
      k in r.insurances && LoggedChange(l.insurances[k], r.insurances[k])
  {
  }

  lemma LiquidateOrExpireLogged(l: Ledger, ins: Insurance, target: InsuranceState, pClose: real,
                                o: ChainOutcome, now: int, k: string)
    requires k in l.insurances
    ensures var r := LiquidateOrExpire(l, ins, target, pClose, o, now);
      k in r.insurances && LoggedChange(l.insurances[k], r.insurances[k])
  {
  }

  lemma CreatedLogged(l: Ledger, users: map<string, User>, id: string, address: string, unit: Option<string>,
                      margin: real, txhash: string, now: int, price: Option<real>,
                      calcParams: ParamsInput -> Params, o: ChainOutcome, k: string)
    requires KeyedById(l.insurances) && k in l.insurances
    ensures var r := Created(l, users, id, address, unit, margin, txhash, now, price, calcParams, o);
      k in r.insurances && LoggedChange(l.insurances[k], r.insurances[k])
  {
    if id in l.insurances {
      var ins := l.insurances[id];
      var funded := l.(insurances := SetTxhash(l.insurances, id, txhash),
                       transactions := l.transactions + [FundingTx(ins, margin, txhash)]);
      assert funded.insurances[k].stateLogs == l.insurances[k].stateLogs;
      assert funded.insurances[k].state == l.insurances[k].state;
      if ins.state == Pending {
        match FundingFailure(ins, WalletOf(users, ins.userId), address, unit, margin, now)
        case Some(reason) => InvalidateLogged(funded, id, ReasonText(reason), Payback(reason), o, now, k);
        case None => MakeAvailableLogged(funded, ins, price, calcParams, o, now, k);
      }
    }
  }

  /** A step that changes a record's state appends exactly one log entry to
      it, recording that state; a record whose state stays is given at most
      one entry. */
  lemma StateChangeIsLogged(l: Ledger, users: map<string, User>, calcParams: ParamsInput -> Params, s: Step, k: string)
    requires Consistent(l.insurances) && k in l.insurances
    ensures var r := Apply(l, users, calcParams, s);
      && k in r.insurances
      && |l.insurances[k].stateLogs| <= |r.insurances[k].stateLogs| <= |l.insurances[k].stateLogs| + 1
      && (r.insurances[k].state != l.insurances[k].state ==>
            |r.insurances[k].stateLogs| == |l.insurances[k].stateLogs| + 1
            && r.insurances[k].stateLogs[|l.insurances[k].stateLogs|].state == r.insurances[k].state)
  {
    match s
    case ContractCreated(id, address, unit, margin, txhash, now, price, o) =>
      CreatedLogged(l, users, id, address, unit, margin, txhash, now, price, calcParams, o, k);
    case ContractStateChanged(id, state, txhash, now) => StateChangedLogged(l, id, state, txhash, now, k);
    case InvalidateStep(id, reason, payback, o, now) => InvalidateLogged(l, id, reason, payback, o, now, k);
    case AvailableStep(ins, price, o, now) => MakeAvailableLogged(l, ins, price, calcParams, o, now, k);
    case CancelStep(ins, pClose, o, now) => CancelLogged(l, ins, pClose, o, now, k);
    case ClaimStep(ins, pClose, o, now) => ClaimLogged(l, ins, pClose, o, now, k);
    case RefundStep(ins, pClose, o, now) => RefundLogged(l, ins, pClose, o, now, k);
    case CloseStep(ins, target, pClose, o, now) => LiquidateOrExpireLogged(l, ins, target, pClose, o, now, k);
  }

  /** Two ledgers that differ at most in log entries' hash and error fields
      and in transaction hashes. */
  predicate SameButOutcome(r: Ledger, r': Ledger)
  {
    && r.insurances.Keys == r'.insurances.Keys
    && (forall k :: k in r.insurances ==>
          && r.insurances[k].(stateLogs := []) == r'.insurances[k].(stateLogs := [])
          && |r.insurances[k].stateLogs| == |r'.insurances[k].stateLogs|
          && (forall i :: 0 <= i < |r.insurances[k].stateLogs| ==>
                r.insurances[k].stateLogs[i].state == r'.insurances[k].stateLogs[i].state))
    && r.events == r'.events && r.calls == r'.calls
    && |r.transactions| == |r'.transactions|
  }

  /** Logging one entry per ledger, for the same state, on the same record of
      ledgers that already agree, keeps them agreeing. */
  lemma AppendKeepsSame(a: map<string, Insurance>, b: map<string, Insurance>, id: string, e: StateLog, e': StateLog,
                        events: seq<DomainEvent>, calls: seq<ChainCall>, txs: seq<Transaction>, txs': seq<Transaction>)
    requires SameButOutcome(Ledger(a, txs, events, calls), Ledger(b, txs', events, calls))
    requires e.state == e'.state
    ensures SameButOutcome(Ledger(AppendLog(a, id, e), txs, events, calls), Ledger(AppendLog(b, id, e'), txs', events, calls))
  {
    var a2, b2 := AppendLog(a, id, e), AppendLog(b, id, e');
    forall k | k in a2
      ensures && a2[k].(stateLogs := []) == b2[k].(stateLogs := [])
              && |a2[k].stateLogs| == |b2[k].stateLogs|
              && (forall i :: 0 <= i < |a2[k].stateLogs| ==> a2[k].stateLogs[i].state == b2[k].stateLogs[i].state)
    {
      if k == id {
        assert a2[k].(stateLogs := []) == a[k].(stateLogs := []);
        assert b2[k].(stateLogs := []) == b[k].(stateLogs := []);
      }
    }
  }

  lemma SameReflexive(l: Ledger)
    ensures SameButOutcome(l, l)
  {
  }

  lemma SameAfterWrite(l: Ledger, id: string, rec: Insurance, events: seq<DomainEvent>, calls: seq<ChainCall>,
                       txs: seq<Transaction>, txs': seq<Transaction>, e: StateLog, e': StateLog)
    requires id in l.insurances && e.state == e'.state && |txs| == |txs'|
    ensures SameButOutcome(Ledger(AppendLog(l.insurances[id := rec], id, e), txs, events, calls),
                           Ledger(AppendLog(l.insurances[id := rec], id, e'), txs', events, calls))
  {
    SameReflexive(Ledger(l.insurances[id := rec], txs, events, calls));
    assert SameButOutcome(Ledger(l.insurances[id := rec], txs, events, calls), Ledger(l.insurances[id := rec], txs', events, calls));
    AppendKeepsSame(l.insurances[id := rec], l.insurances[id := rec], id, e, e', events, calls, txs, txs');
  }

  lemma InvalidateOutcome(l: Ledger, id: string, reason: string, payback: bool, o: ChainOutcome, o': ChainOutcome, now: int)
    ensures SameButOutcome(Invalidate(l, id, reason, payback, o, now), Invalidate(l, id, reason, payback, o', now))
  {
    if id in l.insurances {
      var rec := l.insurances[id].(state := Invalid, invalidReason := Some(reason), closedAt := Some(now));
      var calls := l.calls + (if payback then [UpdateInvalidInsurance(id)] else []);
      var e := if payback then LogEntry(Invalid, now, o) else StateLog(Invalid, now, None, None);
      var e' := if payback then LogEntry(Invalid, now, o') else StateLog(Invalid, now, None, None);
      assert Invalidate(l, id, reason, payback, o, now)
          == Ledger(AppendLog(l.insurances[id := rec], id, e), l.transactions, l.events, calls);
      assert Invalidate(l, id, reason, payback, o', now)
          == Ledger(AppendLog(l.insurances[id := rec], id, e'), l.transactions, l.events, calls);
      SameAfterWrite(l, id, rec, l.events, calls, l.transactions, l.transactions, e, e');
    } else {
      SameReflexive(l);
    }
  }

  lemma MakeAvailableOutcome(l: Ledger, ins: Insurance, price: Option<real>, calcParams: ParamsInput -> Params,
                             o: ChainOutcome, o': ChainOutcome, now: int)
    ensures SameButOutcome(MakeAvailable(l, ins, price, calcParams, o, now), MakeAvailable(l, ins, price, calcParams, o', now))
  {
    if price.Some? && WriteMatches(l.insurances, ins.id, Available) {
      var pr := ParamsAt(ins, price.value, calcParams);
      var rec := WithParams(l.insurances[ins.id], price.value, pr);
      var events := l.events + [CreatedEvent(rec)];
      var calls := l.calls + [UpdateAvailableInsurance(ins.id, pr.q_claim, pr.expiredAt / 1000)];
      assert MakeAvailable(l, ins, price, calcParams, o, now)
          == Ledger(AppendLog(l.insurances[ins.id := rec], ins.id, LogEntry(Available, now, o)), l.transactions, events, calls);
      assert MakeAvailable(l, ins, price, calcParams, o', now)
          == Ledger(AppendLog(l.insurances[ins.id := rec], ins.id, LogEntry(Available, now, o')), l.transactions, events, calls);
      SameAfterWrite(l, ins.id, rec, events, calls, l.transactions, l.transactions,
                     LogEntry(Available, now, o), LogEntry(Available, now, o'));
    } else {
      SameReflexive(l);
    }
  }

  lemma CancelOutcome(l: Ledger, ins: Insurance, pClose: real, o: ChainOutcome, o': ChainOutcome, now: int)
    ensures SameButOutcome(Cancel(l, ins, pClose, o, now), Cancel(l, ins, pClose, o', now))
  {
    if WriteMatches(l.insurances, ins.id, Cancelled) {
      var rec := l.insurances[ins.id].(state := Cancelled, p_close := Some(pClose), closedAt := Some(now));
      var events := l.events + [UpdatedEvent(rec)];
      var calls := l.calls + [CancelCall(ins.id)];
      var txs := l.transactions + [TxFor(ins, ins.margin, CancelTx, o)];
      var txs' := l.transactions + [TxFor(ins, ins.margin, CancelTx, o')];
      assert Cancel(l, ins, pClose, o, now)
          == Ledger(AppendLog(l.insurances[ins.id := rec], ins.id, LogEntry(Cancelled, now, o)), txs, events, calls);
      assert Cancel(l, ins, pClose, o', now)
          == Ledger(AppendLog(l.insurances[ins.id := rec], ins.id, LogEntry(Cancelled, now, o')), txs', events, calls);
      SameAfterWrite(l, ins.id, rec, events, calls, txs, txs', LogEntry(Cancelled, now, o), LogEntry(Cancelled, now, o'));
    } else {
      SameReflexive(l);
    }
  }

  lemma ClaimOutcome(l: Ledger, ins: Insurance, pClose: real, o: ChainOutcome, o': ChainOutcome, now: int)
    ensures SameButOutcome(Claim(l, ins, pClose, o, now), Claim(l, ins, pClose, o', now))
  {
    if WriteMatches(l.insurances, ins.id, ClaimWaiting) {
      var pnlUser := ins.q_claim - ins.margin;
      var rec := l.insurances[ins.id].(state := ClaimWaiting, p_close := Some(pClose),
                                       pnlUser := Some(pnlUser), pnlProject := Some(-pnlUser));
      var events := l.events + [UpdatedEvent(rec)];
      var calls := l.calls + [ClaimCall(ins.id)];
      var txs := l.transactions + [TxFor(ins, ins.q_claim, ClaimTx, o)];
      var txs' := l.transactions + [TxFor(ins, ins.q_claim, ClaimTx, o')];
      assert Claim(l, ins, pClose, o, now)
          == Ledger(AppendLog(l.insurances[ins.id := rec], ins.id, LogEntry(ClaimWaiting, now, o)), txs, events, calls);
      assert Claim(l, ins, pClose, o', now)
          == Ledger(AppendLog(l.insurances[ins.id := rec], ins.id, LogEntry(ClaimWaiting, now, o')), txs', events, calls);
      SameAfterWrite(l, ins.id, rec, events, calls, txs, txs', LogEntry(ClaimWaiting, now, o), LogEntry(ClaimWaiting, now, o'));
    } else {
      SameReflexive(l);
    }
  }

  lemma RefundOutcome(l: Ledger, ins: Insurance, pClose: real, o: ChainOutcome, o': ChainOutcome, now: int)
    ensures SameButOutcome(Refund(l, ins, pClose, o, now), Refund(l, ins, pClose, o', now))
  {
    if WriteMatches(l.insurances, ins.id, RefundWaiting) {
      var rec := l.insurances[ins.id].(state := RefundWaiting, p_close := Some(pClose), closedAt := Some(now));
      var events := l.events + [UpdatedEvent(rec)];
      var calls := l.calls + [RefundCall(ins.id)];
      var txs := l.transactions + [TxFor(ins, ins.margin, RefundTx, o)];
      var txs' := l.transactions + [TxFor(ins, ins.margin, RefundTx, o')];
      assert Refund(l, ins, pClose, o, now)
          == Ledger(AppendLog(l.insurances[ins.id := rec], ins.id, LogEntry(RefundWaiting, now, o)), txs, events, calls);
      assert Refund(l, ins, pClose, o', now)
          == Ledger(AppendLog(l.insurances[ins.id := rec], ins.id, LogEntry(RefundWaiting, now, o')), txs', events, calls);
      SameAfterWrite(l, ins.id, rec, events, calls, txs, txs', LogEntry(RefundWaiting, now, o), LogEntry(RefundWaiting, now, o'));
    } else {
      SameReflexive(l);
    }
  }

  lemma LiquidateOrExpireOutcome(l: Ledger, ins: Insurance, target: InsuranceState, pClose: real,
                                 o: ChainOutcome, o': ChainOutcome, now: int)
    ensures SameButOutcome(LiquidateOrExpire(l, ins, target, pClose, o, now), LiquidateOrExpire(l, ins, target, pClose, o', now))
  {
    if WriteMatches(l.insurances, ins.id, target) {
      var pnlUser := -ins.margin;
      var rec := l.insurances[ins.id].(state := target, p_close := Some(pClose), closedAt := Some(now),
                                       pnlUser := Some(pnlUser), pnlProject := Some(-pnlUser));
      var called := target == Liquidated || target == Expired;
      var e := if called then LogEntry(target, now, o) else StateLog(target, now, None, None);
      var e' := if called then LogEntry(target, now, o') else StateLog(target, now, None, None);
      var events := l.events + [UpdatedEvent(rec)];
      var calls := l.calls + CloseCall(ins.id, target);
      assert LiquidateOrExpire(l, ins, target, pClose, o, now)
          == Ledger(AppendLog(l.insurances[ins.id := rec], ins.id, e), l.transactions, events, calls);
      assert LiquidateOrExpire(l, ins, target, pClose, o', now)
          == Ledger(AppendLog(l.insurances[ins.id := rec], ins.id, e'), l.transactions, events, calls);
      SameAfterWrite(l, ins.id, rec, events, calls, l.transactions, l.transactions, e, e');
    } else {
      SameReflexive(l);
    }
  }

  /** The PENDING branch of a CREATE event, after funding. */
  lemma FundedOutcome(funded: Ledger, ins: Insurance, failure: Option<InvalidReason>, price: Option<real>,
                      calcParams: ParamsInput -> Params, o: ChainOutcome, o': ChainOutcome, now: int)
    ensures failure.Some? ==>
      SameButOutcome(Invalidate(funded, ins.id, ReasonText(failure.value), Payback(failure.value), o, now),
                     Invalidate(funded, ins.id, ReasonText(failure.value), Payback(failure.value), o', now))
    ensures failure.None? ==>
      SameButOutcome(MakeAvailable(funded, ins, price, calcParams, o, now),
                     MakeAvailable(funded, ins, price, calcParams, o', now))
  {
    if failure.Some? {
      InvalidateOutcome(funded, ins.id, ReasonText(failure.value), Payback(failure.value), o, o', now);
    } else {
      MakeAvailableOutcome(funded, ins, price, calcParams, o, o', now);
    }
  }

  /** A CREATE event for a PENDING record, once funded, is the invalidation
      or the availability its funding checks choose. */
  lemma CreatedPending(l: Ledger, users: map<string, User>, id: string, address: string, unit: Option<string>,
                       margin: real, txhash: string, now: int, price: Option<real>,
                       calcParams: ParamsInput -> Params, o: ChainOutcome)
    requires KeyedById(l.insurances) && id in l.insurances && l.insurances[id].state == Pending
    ensures var ins := l.insurances[id];
      var funded := l.(insurances := SetTxhash(l.insurances, id, txhash),
                       transactions := l.transactions + [FundingTx(ins, margin, txhash)]);
      var failure := FundingFailure(ins, WalletOf(users, ins.userId), address, unit, margin, now);
      Created(l, users, id, address, unit, margin, txhash, now, price, calcParams, o)
        == if failure.Some? then Invalidate(funded, ins.id, ReasonText(failure.value), Payback(failure.value), o, now)
           else MakeAvailable(funded, ins, price, calcParams, o, now)
  {
  }

  lemma CreatedOutcome(l: Ledger, users: map<string, User>, id: string, address: string, unit: Option<string>,
                       margin: real, txhash: string, now: int, price: Option<real>,
                       calcParams: ParamsInput -> Params, o: ChainOutcome, o': ChainOutcome)
    requires KeyedById(l.insurances)
    ensures SameButOutcome(Created(l, users, id, address, unit, margin, txhash, now, price, calcParams, o),
                           Created(l, users, id, address, unit, margin, txhash, now, price, calcParams, o'))
  {
    if id !in l.insurances {
      SameReflexive(l);
    } else if l.insurances[id].state != Pending {
      SameReflexive(Created(l, users, id, address, unit, margin, txhash, now, price, calcParams, o));
    } else {
      var ins := l.insurances[id];
      var funded := l.(insurances := SetTxhash(l.insurances, id, txhash),
                       transactions := l.transactions + [FundingTx(ins, margin, txhash)]);
      var failure := FundingFailure(ins, WalletOf(users, ins.userId), address, unit, margin, now);
      CreatedPending(l, users, id, address, unit, margin, txhash, now, price, calcParams, o);
      CreatedPending(l, users, id, address, unit, margin, txhash, now, price, calcParams, o');
      FundedOutcome(funded, ins, failure, price, calcParams, o, o', now);
    }
  }

  /** The on-chain outcome never changes which records are written, to which
      state, or which events and calls follow: a failed call reverts nothing
      and shows only in the log entries and transaction hashes. */
  lemma OutcomeOnlyReachesLogs(l: Ledger, users: map<string, User>, calcParams: ParamsInput -> Params,
                               s: Step, o': ChainOutcome)
    requires Consistent(l.insurances)
    ensures SameButOutcome(Apply(l, users, calcParams, s), Apply(l, users, calcParams, WithOutcome(s, o')))
  {
    match s
    case ContractCreated(id, address, unit, margin, txhash, now, price, o) =>
      CreatedOutcome(l, users, id, address, unit, margin, txhash, now, price, calcParams, o, o');
    case ContractStateChanged(id, state, txhash, now) =>
      SameReflexive(Apply(l, users, calcParams, s));
    case InvalidateStep(id, reason, payback, o, now) => InvalidateOutcome(l, id, reason, payback, o, o', now);
    case AvailableStep(ins, price, o, now) => MakeAvailableOutcome(l, ins, price, calcParams, o, o', now);
    case CancelStep(ins, pClose, o, now) => CancelOutcome(l, ins, pClose, o, o', now);
    case ClaimStep(ins, pClose, o, now) => ClaimOutcome(l, ins, pClose, o, o', now);
    case RefundStep(ins, pClose, o, now) => RefundOutcome(l, ins, pClose, o, o', now);
    case CloseStep(ins, target, pClose, o, now) => LiquidateOrExpireOutcome(l, ins, target, pClose, o, o', now);
  }

  // ---------------------------------------------------------------------
  // Idempotence of the compare-and-swap transitions

  /** A repeated confirmation is a no-op: the second write matches nothing. */
  lemma StateChangedIdempotent(l: Ledger, id: string, state: InsuranceState, txhash: string, now: int, now': int)
    ensures var l1 := StateChanged(l, id, state, txhash, now);
      StateChanged(l1, id, state, txhash, now') == l1
  {
  }

  lemma CancelIdempotent(l: Ledger, ins: Insurance, pClose: real, o: ChainOutcome, o': ChainOutcome, now: int, now': int)
    ensures var l1 := Cancel(l, ins, pClose, o, now);
      Cancel(l1, ins, pClose, o', now') == l1
  {
  }

  lemma ClaimIdempotent(l: Ledger, ins: Insurance, price: real, o: ChainOutcome, o': ChainOutcome, now: int, now': int)
    ensures var l1 := Claim(l, ins, price, o, now);
      Claim(l1, ins, price, o', now') == l1
  {
  }

  lemma RefundIdempotent(l: Ledger, ins: Insurance, pClose: real, o: ChainOutcome, o': ChainOutcome, now: int, now': int)
    ensures var l1 := Refund(l, ins, pClose, o, now);
      Refund(l1, ins, pClose, o', now') == l1
  {
  }

  lemma LiquidateOrExpireIdempotent(l: Ledger, ins: Insurance, target: InsuranceState, pClose: real,
                                    o: ChainOutcome, o': ChainOutcome, now: int, now': int)
    ensures var l1 := LiquidateOrExpire(l, ins, target, pClose, o, now);
      LiquidateOrExpire(l1, ins, target, pClose, o', now') == l1
  {
  }

  lemma MakeAvailableIdempotent(l: Ledger, ins: Insurance, price: Option<real>, calcParams: ParamsInput -> Params,
                                o: ChainOutcome, o': ChainOutcome, now: int, now': int)
    ensures var l1 := MakeAvailable(l, ins, price, calcParams, o, now);
      MakeAvailable(l1, ins, price, calcParams, o', now') == l1
  {
  }

  // ---------------------------------------------------------------------
  // CREATE events

  /** A CREATE delivered again after the record has left PENDING records one
      more MARGIN transaction and stores the hash, and changes nothing else:
      no state, no log entry, no event, no on-chain call. */
  lemma {:induction false} DuplicateCreateOnlyAddsTransaction(
    l: Ledger, users: map<string, User>, calcParams: ParamsInput -> Params,
    id: string, address: string, unit: Option<string>, margin: real, txhash: string,
    now: int, now': int, price: Option<real>, price': Option<real>, o: ChainOutcome, o': ChainOutcome)
    requires Consistent(l.insurances) && id in l.insurances
    requires l.insurances[id].state != Pending
      || FundingFailure(l.insurances[id], WalletOf(users, l.insurances[id].userId), address, unit, margin, now).Some?
      || price.Some?
    ensures var l1 := Created(l, users, id, address, unit, margin, txhash, now, price, calcParams, o);
      var l2 := Created(l1, users, id, address, unit, margin, txhash, now', price', calcParams, o');
      && l1.insurances[id].state != Pending
      && l2.insurances == l1.insurances
      && l2.events == l1.events && l2.calls == l1.calls
      && l2.transactions == l1.transactions + [FundingTx(l1.insurances[id], margin, txhash)]
  {
    var l1 := Created(l, users, id, address, unit, margin, txhash, now, price, calcParams, o);
    if l.insurances[id].state == Pending {
      var ins := l.insurances[id];
      var funded := l.(insurances := SetTxhash(l.insurances, id, txhash),
                       transactions := l.transactions + [FundingTx(ins, margin, txhash)]);
      assert WriteMatches(funded.insurances, id, Available);
    }
    assert l1.insurances[id].txhash == Some(txhash);
    assert l1.insurances[id].(txhash := Some(txhash)) == l1.insurances[id];
    assert l1.insurances[l1.insurances[id].id := l1.insurances[id]] == l1.insurances;
  }

  /** A deposit observed more than 60 whole seconds after creation, with
      matching margin, wallet and unit, invalidates the contract with the
      timeout reason and asks the contract to pay the deposit back. */
  lemma LateFundingIsPaidBack(l: Ledger, users: map<string, User>, calcParams: ParamsInput -> Params,
                              id: string, address: string, txhash: string, now: int,
                              price: Option<real>, o: ChainOutcome)
    requires Consistent(l.insurances) && id in l.insurances
    requires l.insurances[id].state == Pending
    requires WalletOf(users, l.insurances[id].userId) == Some(Text.ToLower(address))
    requires now >= l.insurances[id].createdAt + 61000
    ensures var ins := l.insurances[id];
      var r := Created(l, users, id, address, Some(ins.unit), ins.margin, txhash, now, price, calcParams, o);
      && r.insurances[id].state == Invalid
      && r.insurances[id].invalidReason == Some("CREATED_TIME_TIMEOUT")
      && r.calls == l.calls + [UpdateInvalidInsurance(id)]
      && r.insurances[id].stateLogs == ins.stateLogs + [LogEntry(Invalid, now, o)]
  {
    var ins := l.insurances[id];
    assert ElapsedSeconds(ins.createdAt, now) >= 61;
  }

  // ---------------------------------------------------------------------
  // No predecessor check

  /** The guards compare only with the target state: a user cancellation
      followed by an on-chain REFUND confirmation both take effect, leaving
      REFUNDED with two new log entries and the cancel call issued. */
  lemma CancelThenRefundConfirmationBothApply(l: Ledger, ins: Insurance, pClose: real, o: ChainOutcome,
                                              now: int, txhash: string, now': int)
    requires ins.id in l.insurances && l.insurances[ins.id].state == Available
    ensures var l1 := Cancel(l, ins, pClose, o, now);
      var l2 := StateChanged(l1, ins.id, Refunded, txhash, now');
      && l1.insurances[ins.id].state == Cancelled
      && l2.insurances[ins.id].state == Refunded
      && l2.insurances[ins.id].stateLogs == l.insurances[ins.id].stateLogs
           + [LogEntry(Cancelled, now, o), StateLog(Refunded, now', Some(txhash), None)]
      && l2.calls == l.calls + [CancelCall(ins.id)]
      && |l2.events| == |l.events| + 2
  {
  }
}
