/** Records shared by the insurance services: the insurance entity with its
    state enum and state log, the transaction rows written beside transitions,
    the domain events and on-chain calls a transition may produce, and the
    outcome of an on-chain call. Monetary amounts are `real`; instants are
    integer milliseconds since the Unix epoch. */
module Types {

  datatype Option<+T> = None | Some(value: T)

  /** The lifecycle states of an insurance contract. */
  datatype InsuranceState =
    | Pending | Available | Invalid | Cancelled
    | ClaimWaiting | Claimed | RefundWaiting | Refunded
    | Liquidated | Expired

  datatype Side = Bull | Bear

  datatype PeriodUnit = Hour | Day

  /** One entry of an insurance's append-only state log: the state written,
      when, and the hash or the error of the paired on-chain call. */
  datatype StateLog = StateLog(state: InsuranceState, time: int, txhash: Option<string>, error: Option<string>)

  datatype Insurance = Insurance(
    id: string,
    userId: string,
    asset: string,
    unit: string,
    side: Side,
    margin: real,
    q_covered: real,
    q_claim: real,
    p_open: real,
    p_claim: real,
    p_liquidation: real,
    p_refund: real,
    p_cancel: real,
    p_close: Option<real>,
    leverage: real,
    systemCapital: real,
    hedge: bool,
    period: int,
    periodUnit: PeriodUnit,
    periodChangeRatio: real,
    state: InsuranceState,
    createdAt: int,
    expiredAt: int,
    closedAt: Option<int>,
    pnlUser: Option<real>,
    pnlProject: Option<real>,
    invalidReason: Option<string>,
    txhash: Option<string>,
    stateLogs: seq<StateLog>)

  /** What `calculateInsuranceParams` is given ... */
  datatype ParamsInput = ParamsInput(
    margin: real, q_covered: real, p_open: real, p_claim: real,
    period: int, periodUnit: PeriodUnit, periodChangeRatio: real)

  /** ... and what it returns (the function itself is not part of this model). */
  datatype Params = Params(
    expiredAt: int, hedge: bool, p_liquidation: real, q_claim: real,
    systemCapital: real, p_refund: real, leverage: real, p_cancel: real)

  datatype TxType = MarginTx | CancelTx | ClaimTx | RefundTx

  /** The only transaction status these services ever write. */
  datatype TxStatus = Success

  datatype Transaction = Transaction(
    amount: real, insuranceId: string, status: TxStatus, txhash: Option<string>,
    kind: TxType, unit: string, userId: string)

  /** Notifications for downstream consumers, carrying the record as written. */
  datatype DomainEvent = CreatedEvent(record: Insurance) | UpdatedEvent(record: Insurance)

  /** Calls issued to the insurance smart contract. */
  datatype ChainCall =
    | UpdateAvailableInsurance(id: string, qClaim: real, expirySeconds: int)
    | UpdateInvalidInsurance(id: string)
    | CancelCall(id: string)
    | ClaimCall(id: string)
    | RefundCall(id: string)
    | LiquidateCall(id: string)
    | ExpireCall(id: string)

  /** How an on-chain call ended: a transaction hash, or the error it threw. */
  datatype ChainOutcome = Hash(hash: string) | Failure(message: string)

  function HashOf(o: ChainOutcome): (h: Option<string>)
    ensures h.Some? <==> o.Hash?
  {
    if o.Hash? then Some(o.hash) else None
  }

  function ErrorOf(o: ChainOutcome): (e: Option<string>)
    ensures e.Some? <==> o.Failure?
  {
    if o.Failure? then Some(o.message) else None
  }

  /** The user columns the core reads or writes. */
  datatype User = User(
    id: string, walletAddress: Option<string>, isPartner: bool,
    level: int, totalFriends: int)

  /** Integer division truncating toward zero, as JavaScript's
      `Math.trunc(a / b)` and dayjs's `diff` do. */
  function TruncDiv(a: int, b: int): int
    requires b > 0
  {
    if a >= 0 then a / b else -((-a) / b)
  }
}
