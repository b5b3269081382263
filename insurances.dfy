/** The request-time insurance service: the guard chain and the derivations
    of `create` (market checks, BULL/BEAR side, the chart bucket of the
    current time, the period lookup), the `findAll` filter builder and its
    query, the guarded delete of a PENDING insurance, the guard chain of a
    user's cancel request, and the owner-scoped txhash update. The price
    service, the pair and prediction tables, the external period formula and
    the parameter helpers are inputs. */
module Insurances {
  import opened Types
  import Text
  import Lifecycle
  import InsuranceContract
  import opened Db

  /** The errors the service raises to its caller. */
  datatype ApiError =
    | BadSymbol | Maintained | InvalidPeriod | ValidationFailed
    | NotFound | ErrorCancel | PriceUnavailable | InvalidCancelPrice | InternalError

  datatype Outcome<T> = Ok(value: T) | Err(error: ApiError)

  // ---------------------------------------------------------------------
  // create

  /** The pair row's flags that `create` reads. */
  datatype PairInfo = PairInfo(isActive: bool, isMaintain: bool, hasConfig: bool)

  datatype CreateRequest = CreateRequest(
    asset: string, unit: string, period: int, periodUnit: PeriodUnit,
    p_claim: real, margin: real, q_covered: real)

  /** A pair `create` may trade on: present, active and configured. */
  predicate PairUsable(pair: Option<PairInfo>)
  {
    pair.Some? && pair.value.isActive && pair.value.hasConfig
  }

  /** The first three rejections of `create`, in order: an unusable pair, a
      pair under maintenance, a failed price lookup. */
  function MarketRejection(pair: Option<PairInfo>, price: Option<real>): (e: Option<ApiError>)
    ensures e == Some(BadSymbol) <==> !PairUsable(pair) || (!pair.value.isMaintain && price.None?)
    ensures e == Some(Maintained) <==> PairUsable(pair) && pair.value.isMaintain
    ensures e.None? <==> PairUsable(pair) && !pair.value.isMaintain && price.Some?
  {
    if !PairUsable(pair) then Some(BadSymbol)
    else if pair.value.isMaintain then Some(Maintained)
    else if price.None? then Some(BadSymbol)
    else None
  }

  /** BULL exactly when the claim price is above the current price. */
  function SideOf(p_claim: real, price: real): (s: Side)
    ensures s == Bull <==> p_claim > price
    ensures s == Bear <==> p_claim <= price
  {
    if p_claim > price then Bull else Bear
  }

  const HourMs: nat := 3600000
  const DayMs: nat := 86400000

  /** The chart interval and bucket start used to look up the signal. */
  datatype Bucket = Bucket(interval: Option<string>, date: Option<int>)

  function StartOfDay(now: nat): nat
  {
    now - now % DayMs
  }

  function HourOfDay(now: nat): nat
  {
    (now % DayMs) / HourMs
  }

  /** The bucket of instant `now` (milliseconds, UTC) for a period: the start
      of the hour for one hour, the hour floored to a multiple of 4 or 12
      for those periods, nothing for any other hour count, and the start of
      the day for a period counted in days. */
  function BucketOf(unit: PeriodUnit, period: int, now: nat): (b: Bucket)
    ensures b.interval.Some? <==> b.date.Some?
    ensures b.interval.None? <==> unit == Hour && period != 1 && period != 4 && period != 12
  {
    match unit
    case Hour =>
      if period == 1 then Bucket(Some("1h"), Some(now - now % HourMs))
      else if period == 4 then Bucket(Some("4h"), Some(StartOfDay(now) + 4 * (HourOfDay(now) / 4) * HourMs))
      else if period == 12 then Bucket(Some("12h"), Some(StartOfDay(now) + 12 * (HourOfDay(now) / 12) * HourMs))
      else Bucket(None, None)
    case Day => Bucket(Some("1d"), Some(StartOfDay(now)))
  }

  /** The length of a bucket. */
  function BucketWidth(unit: PeriodUnit, period: int): nat
  {
    match unit
    case Hour => if period == 4 then 4 * HourMs else if period == 12 then 12 * HourMs else HourMs
    case Day => DayMs
  }

  /** Flooring within the day: the start of the day plus `k` whole blocks of
      `m` hours is `now` rounded down to a multiple of `m` hours, when `m`
      divides a day. */
  lemma HourBlockFloor(now: nat, m: nat)
    requires m == 1 || m == 4 || m == 12
    ensures var d := StartOfDay(now) + m * (HourOfDay(now) / m) * HourMs;
      d % (m * HourMs) == 0 && d <= now < d + m * HourMs
  {
    var q := now / DayMs;
    var r := now % DayMs;
    var h := r / HourMs;
    var s := r % HourMs;
    var a := h / m;
    var b := h % m;
    assert now == DayMs * q + r;
    assert r == HourMs * h + s;
    assert h == m * a + b;
    var d := StartOfDay(now) + m * (HourOfDay(now) / m) * HourMs;
    assert d == DayMs * q + m * a * HourMs;
    assert DayMs == m * HourMs * (24 / m);
    assert d == m * HourMs * ((24 / m) * q + a);
    assert now - d == b * HourMs + s;
  }

  /** Every bucket start is aligned to the bucket length and is the last
      such boundary at or before `now`. */
  lemma BucketIsFloor(unit: PeriodUnit, period: int, now: nat)
    requires BucketOf(unit, period, now).date.Some?
    ensures var d, w := BucketOf(unit, period, now).date.value, BucketWidth(unit, period);
      d % w == 0 && d <= now < d + w
  {
    match unit
    case Hour =>
      if period == 1 {
        assert HourMs == 1 * HourMs;
      } else if period == 4 {
        HourBlockFloor(now, 4);
      } else {
        HourBlockFloor(now, 12);
      }
    case Day =>
  }

  /** One entry of the external formula's list of available periods. */
  datatype AvailablePeriod = AvailablePeriod(periodUnit: PeriodUnit, period: int, periodChangeRatio: real)

  predicate PeriodMatches(p: AvailablePeriod, unit: PeriodUnit, period: int)
  {
    p.periodUnit == unit && p.period == period
  }

  /** The index of the first entry for (unit, period), as `find` returns it. */
  function FirstPeriod(list: seq<AvailablePeriod>, unit: PeriodUnit, period: int): (r: Option<nat>)
    ensures r.None? <==> forall i :: 0 <= i < |list| ==> !PeriodMatches(list[i], unit, period)
    ensures r.Some? ==>
      && r.value < |list| && PeriodMatches(list[r.value], unit, period)
      && forall j :: 0 <= j < r.value ==> !PeriodMatches(list[j], unit, period)
  {
    if list == [] then None
    else if PeriodMatches(list[0], unit, period) then Some(0)
    else match FirstPeriod(list[1..], unit, period)
      case None => None
      case Some(i) => Some(i + 1)
  }

  /** What the prediction signal is looked up by. */
  datatype SignalKey = SignalKey(symbol: string, interval: string, date: int)

  datatype Prediction = Buy | Sell

  /** The signal handed to validation: BUY only when a BUY prediction is
      stored for the bucket; no bucket, no row or any other signal is SELL. */
  function SignalFor(symbol: string, b: Bucket, signals: map<SignalKey, Prediction>): (p: Prediction)
    ensures p == Buy <==>
      && b.interval.Some? && b.date.Some?
      && SignalKey(Text.ToUpper(symbol), b.interval.value, b.date.value) in signals
      && signals[SignalKey(Text.ToUpper(symbol), b.interval.value, b.date.value)] == Buy
  {
    if b.interval.None? || b.date.None? then Sell
    else
      var key := SignalKey(Text.ToUpper(symbol), b.interval.value, b.date.value);
      if key in signals && signals[key] == Buy then Buy else Sell
  }

  /** The request as completed before validation. */
  datatype Draft = Draft(req: CreateRequest, p_open: real, side: Side, periodChangeRatio: real)

  function ParamsFor(d: Draft): ParamsInput
  {
    ParamsInput(d.req.margin, d.req.q_covered, d.p_open, d.req.p_claim, d.req.period, d.req.periodUnit,
                d.periodChangeRatio)
  }

  /** `create`: rejects with BAD_SYMBOL, MAINTAINED, BAD_SYMBOL (price),
      INVALID_PERIOD or a validation error, writing nothing; otherwise
      stores a PENDING insurance with an empty log, opened at the current
      price, with the computed parameters. `newId` is the id the database
      assigns and `now` the creation instant. */
  method Create(db: Database, userId: string, req: CreateRequest, newId: string, now: nat,
                pairs: map<string, PairInfo>, price: Option<real>, available: seq<AvailablePeriod>,
                signals: map<SignalKey, Prediction>, calcParams: ParamsInput -> Params,
                validate: (Draft, Prediction) -> bool)
    returns (r: Outcome<Insurance>)
    requires newId !in db.insurances
    modifies db`insurances
    ensures Lifecycle.KeyedById(old(db.insurances)) ==> Lifecycle.KeyedById(db.insurances)
    ensures r.Err? ==> db.insurances == old(db.insurances)
    ensures var pair := if req.asset + req.unit in pairs then Some(pairs[req.asset + req.unit]) else None;
      var rejected := MarketRejection(pair, price);
      && (rejected.Some? ==> r == Err(rejected.value))
      && (rejected.None? && FirstPeriod(available, req.periodUnit, req.period).None? ==> r == Err(InvalidPeriod))
      && (rejected.None? && FirstPeriod(available, req.periodUnit, req.period).Some? ==>
            var ratio := available[FirstPeriod(available, req.periodUnit, req.period).value].periodChangeRatio;
            var d := Draft(req, price.value, SideOf(req.p_claim, price.value), ratio);
            var signal := SignalFor(req.asset + req.unit, BucketOf(req.periodUnit, req.period, now), signals);
            (r.Ok? <==> validate(d, signal))
            && (r.Err? ==> r.error == ValidationFailed)
            && (r.Ok? ==>
                  var p := calcParams(ParamsFor(d));
                  && db.insurances == old(db.insurances)[newId := r.value]
                  && r.value == Insurance(
                       newId, userId, req.asset, req.unit, d.side, req.margin, req.q_covered, p.q_claim,
                       price.value, req.p_claim, p.p_liquidation, p.p_refund, p.p_cancel, None, p.leverage,
                       p.systemCapital, p.hedge, req.period, req.periodUnit, ratio, Pending,
                       now, p.expiredAt, None, None, None, None, None, [])))
  {
    var symbol := req.asset + req.unit;
    var pair := if symbol in pairs then Some(pairs[symbol]) else None;
    if pair.None? || !pair.value.isActive || !pair.value.hasConfig {
      return Err(BadSymbol);
    }
    if pair.value.isMaintain {
      return Err(Maintained);
    }
    if price.None? {
      return Err(BadSymbol);
    }
    var currentPrice := price.value;
    var bucket := BucketOf(req.periodUnit, req.period, now);
    var side := SideOf(req.p_claim, currentPrice);
    var found := FirstPeriod(available, req.periodUnit, req.period);
    if found.None? {
      return Err(InvalidPeriod);
    }
    var draft := Draft(req, currentPrice, side, available[found.value].periodChangeRatio);
    var p := calcParams(ParamsFor(draft));
    if !validate(draft, SignalFor(symbol, bucket, signals)) {
      return Err(ValidationFailed);
    }
    var rec := Insurance(
      newId, userId, req.asset, req.unit, side, req.margin, req.q_covered, p.q_claim,
      currentPrice, req.p_claim, p.p_liquidation, p.p_refund, p.p_cancel, None, p.leverage,
      p.systemCapital, p.hedge, req.period, req.periodUnit, draft.periodChangeRatio, Pending,
      now, p.expiredAt, None, None, None, None, None, []);
    db.insurances := db.insurances[newId := rec];
    r := Ok(rec);
  }

  // ---------------------------------------------------------------------
  // findAll

  datatype Query = Query(
    userId: string, state: Option<InsuranceState>, isClosed: bool, q: Option<string>,
    closedFrom: Option<int>, closedTo: Option<int>, createdFrom: Option<int>, createdTo: Option<int>,
    asset: Option<string>, skip: nat, limit: nat)

  /** A query string counts only when present and non-empty. */
  predicate Given(s: Option<string>)
  {
    s.Some? && s.value != ""
  }

  datatype Range = Range(gte: Option<int>, lte: Option<int>)

  datatype ClosedCond = AnyClose | ClosedNotNull | ClosedIn(range: Range)

  /** The OR search: txhash containing the text, and the id itself when the
      text is a Mongo id. */
  datatype Search = Search(text: string, byId: bool)

  /** The `where` object the builder produces. */
  datatype Where = Where(
    userId: string, state: Option<InsuranceState>, closedAt: ClosedCond, search: Option<Search>,
    createdAt: Option<Range>, asset: Option<string>)

  predicate InRange(rg: Range, t: int)
  {
    (rg.gte.Some? ==> rg.gte.value <= t) && (rg.lte.Some? ==> t <= rg.lte.value)
  }

  /** The OR of the search: the txhash contains the text ignoring case, or
      the id is the text when the id branch is present. */
  predicate SearchHit(rec: Insurance, text: string, byId: bool)
  {
    (rec.txhash.Some? && Text.ContainsInsensitive(rec.txhash.value, text)) || (byId && rec.id == text)
  }

  /** What the database selects for a `where` object. */
  predicate Admits(w: Where, rec: Insurance)
  {
    && rec.userId == w.userId
    && (w.state.Some? ==> rec.state == w.state.value)
    && (match w.closedAt
        case AnyClose => true
        case ClosedNotNull => rec.closedAt.Some?
        case ClosedIn(rg) => rec.closedAt.Some? && InRange(rg, rec.closedAt.value))
    && (w.search.Some? ==> SearchHit(rec, w.search.value.text, w.search.value.byId))
    && (w.createdAt.Some? ==> InRange(w.createdAt.value, rec.createdAt))
    && (w.asset.Some? ==> rec.asset == w.asset.value)
  }

  /** The records a query asks for, stated on the query itself: the caller's
      own, in the given state, closed within the given window (or merely
      closed when only `isClosed` is set), whose txhash contains the search
      text ignoring case or whose id is that text when it is a Mongo id,
      created within the given window, on the given asset in upper case. */
  predicate Requested(query: Query, rec: Insurance)
  {
    && rec.userId == query.userId
    && (query.state.Some? ==> rec.state == query.state.value)
    && (if query.closedFrom.Some? || query.closedTo.Some? then
          rec.closedAt.Some? && InRange(Range(query.closedFrom, query.closedTo), rec.closedAt.value)
        else query.isClosed ==> rec.closedAt.Some?)
    && (Given(query.q) ==> SearchHit(rec, query.q.value, Text.IsMongoId(query.q.value)))
    && InRange(Range(query.createdFrom, query.createdTo), rec.createdAt)
    && (Given(query.asset) ==> rec.asset == Text.ToUpper(query.asset.value))
  }

  /** The filter builder of `findAll`, condition by condition. The `where`
      it builds selects exactly the records the query asks for. */
  method BuildWhere(query: Query) returns (w: Where)
    ensures w.userId == query.userId
    ensures forall rec :: Admits(w, rec) <==> Requested(query, rec)
  {
    w := Where(query.userId, None, AnyClose, None, None, None);
    if query.state.Some? {
      w := w.(state := query.state);
    }
    assert w.state == query.state;
    if query.isClosed {
      w := w.(closedAt := ClosedNotNull);
    }
    if Given(query.q) {
      w := w.(search := Some(Search(query.q.value, false)));
      if Text.IsMongoId(query.q.value) {
        w := w.(search := Some(Search(query.q.value, true)));
      }
    }
    assert w.search == if Given(query.q) then Some(Search(query.q.value, Text.IsMongoId(query.q.value))) else None;
    if query.closedFrom.Some? || query.closedTo.Some? {
      var rg := BuildRange(query.closedFrom, query.closedTo);
      w := w.(closedAt := ClosedIn(rg));
    }
    assert w.closedAt ==
      if query.closedFrom.Some? || query.closedTo.Some? then ClosedIn(Range(query.closedFrom, query.closedTo))
      else if query.isClosed then ClosedNotNull else AnyClose;
    if query.createdFrom.Some? || query.createdTo.Some? {
      var rg := BuildRange(query.createdFrom, query.createdTo);
      w := w.(createdAt := Some(rg));
    }
    assert w.createdAt ==
      if query.createdFrom.Some? || query.createdTo.Some? then Some(Range(query.createdFrom, query.createdTo))
      else None;
    if Given(query.asset) {
      w := w.(asset := Some(Text.ToUpper(query.asset.value)));
    }
    forall rec
      ensures Admits(w, rec) <==> Requested(query, rec)
    {
      FilterAgreesWithQuery(query, w, rec);
    }
  }

  /** A range filter built bound by bound: `gte` when the lower bound is
      given, `lte` when the upper one is. */
  method BuildRange(from: Option<int>, to: Option<int>) returns (rg: Range)
    ensures rg.gte == from && rg.lte == to
  {
    rg := Range(None, None);
    if from.Some? {
      rg := rg.(gte := from);
    }
    if to.Some? {
      rg := rg.(lte := to);
    }
  }

  /** The `where` object built component by component selects what the
      query asks for. */
  lemma FilterAgreesWithQuery(query: Query, w: Where, rec: Insurance)
    requires w.userId == query.userId && w.state == query.state
    requires w.search == if Given(query.q) then Some(Search(query.q.value, Text.IsMongoId(query.q.value))) else None
    requires w.closedAt ==
      if query.closedFrom.Some? || query.closedTo.Some? then ClosedIn(Range(query.closedFrom, query.closedTo))
      else if query.isClosed then ClosedNotNull else AnyClose
    requires w.createdAt ==
      if query.createdFrom.Some? || query.createdTo.Some? then Some(Range(query.createdFrom, query.createdTo))
      else None
    requires w.asset == if Given(query.asset) then Some(Text.ToUpper(query.asset.value)) else None
    ensures Admits(w, rec) <==> Requested(query, rec)
  {
  }

  /** The ids of the records a query asks for. */
  function Matching(store: map<string, Insurance>, query: Query): set<string>
  {
    set k | k in store && Requested(query, store[k])
  }

  /** The length of the page `skip`/`take` cuts from `total` rows. */
  function PageLength(total: nat, skip: nat, limit: nat): nat
  {
    if skip >= total then 0 else if total - skip < limit then total - skip else limit
  }

  /** The ids of the records a filter admits. */
  function Admitted(store: map<string, Insurance>, w: Where): set<string>
  {
    set k | k in store && Admits(w, store[k])
  }

  /** The database's scan for a filter: every admitted record once, in some
      order. */
  method Collect(store: map<string, Insurance>, w: Where) returns (found: seq<Insurance>)
    requires Lifecycle.KeyedById(store)
    ensures |found| == |Admitted(store, w)|
    ensures forall i :: 0 <= i < |found| ==> found[i].id in Admitted(store, w) && store[found[i].id] == found[i]
    ensures forall i, j :: 0 <= i < j < |found| ==> found[i].id != found[j].id
  {
    found := [];
    ghost var ids: set<string> := {};
    var keys := store.Keys;
    while keys != {}
      invariant keys <= store.Keys
      invariant ids <= store.Keys && ids !! keys
      invariant forall k :: k in store && k !in keys && Admits(w, store[k]) ==> k in ids
      invariant forall k :: k in ids ==> Admits(w, store[k])
      invariant |found| == |ids|
      invariant forall i :: 0 <= i < |found| ==> found[i].id in ids && store[found[i].id] == found[i]
      invariant forall i, j :: 0 <= i < j < |found| ==> found[i].id != found[j].id
      decreases keys
    {
      var k :| k in keys;
      if Admits(w, store[k]) {
        found := found + [store[k]];
        ids := ids + {k};
      }
      keys := keys - {k};
    }
    assert ids == Admitted(store, w);
  }

  /** `findAll`: the count and the page are taken with the same filter, so
      the count is the number of requested records and the page holds
      distinct requested records, as many as `skip`/`limit` leave. */
  method FindAll(db: Database, query: Query) returns (total: nat, rows: seq<Insurance>)
    requires Lifecycle.KeyedById(db.insurances)
    ensures total == |Matching(db.insurances, query)|
    ensures |rows| == PageLength(total, query.skip, query.limit)
    ensures forall i :: 0 <= i < |rows| ==>
      rows[i].id in Matching(db.insurances, query) && db.insurances[rows[i].id] == rows[i]
    ensures forall i, j :: 0 <= i < j < |rows| ==> rows[i].id != rows[j].id
  {
    var w := BuildWhere(query);
    var store := db.insurances;
    var found := Collect(store, w);
    assert Admitted(store, w) == Matching(store, query) by {
      forall k | k in store
        ensures Admits(w, store[k]) <==> Requested(query, store[k])
      {
      }
    }
    total := |found|;
    var from := if query.skip < total then query.skip else total;
    var to := if total - from < query.limit then total else from + query.limit;
    rows := found[from..to];
  }

  // ---------------------------------------------------------------------
  // deletePendingInsurance, cancelInsurance, updateTxHash

  /** The record with this id, if the given user owns it. */
  function OwnedBy(store: map<string, Insurance>, id: string, userId: string): (r: Option<Insurance>)
    ensures r.Some? <==> id in store && store[id].userId == userId
    ensures r.Some? ==> r.value == store[id]
  {
    if id in store && store[id].userId == userId then Some(store[id]) else None
  }

  /** `deletePendingInsurance`: deletes only the caller's own PENDING record;
      anything else matches nothing and the delete fails. */
  method DeletePendingInsurance(db: Database, userId: string, id: string) returns (r: Outcome<bool>)
    modifies db`insurances
    ensures Lifecycle.KeyedById(old(db.insurances)) ==> Lifecycle.KeyedById(db.insurances)
    ensures r.Ok? <==> OwnedBy(old(db.insurances), id, userId).Some? && old(db.insurances)[id].state == Pending
    ensures r.Ok? ==> r.value && db.insurances == old(db.insurances) - {id}
    ensures r.Err? ==> r.error == NotFound && db.insurances == old(db.insurances)
  {
    if !(id in db.insurances && db.insurances[id].state == Pending && db.insurances[id].userId == userId) {
      return Err(NotFound);
    }
    db.insurances := db.insurances - {id};
    r := Ok(true);
  }

  /** The guard chain of a user's cancel request, in order: the record must
      exist for the caller, be AVAILABLE and unlocked, have a current price,
      and that price must be nonzero and within the cancel range. */
  function CancelRejection(found: Option<Insurance>, isLocked: bool, price: Option<real>,
                           inRange: (real, real, real) -> bool): (e: Option<ApiError>)
    ensures e == Some(NotFound) <==> found.None?
    ensures e == Some(ErrorCancel) <==> found.Some? && (found.value.state != Available || isLocked)
    ensures e == Some(PriceUnavailable) <==>
      found.Some? && found.value.state == Available && !isLocked && price.None?
    ensures e == Some(InvalidCancelPrice) <==>
      found.Some? && found.value.state == Available && !isLocked && price.Some?
      && (price.value == 0.0 || !inRange(price.value, found.value.p_cancel, found.value.p_claim))
    ensures e.None? <==>
      found.Some? && found.value.state == Available && !isLocked && price.Some? && price.value != 0.0
      && inRange(price.value, found.value.p_cancel, found.value.p_claim)
  {
    if found.None? then Some(NotFound)
    else if found.value.state != Available || isLocked then Some(ErrorCancel)
    else if price.None? then Some(PriceUnavailable)
    else if price.value == 0.0 then Some(InvalidCancelPrice)
    else if !inRange(price.value, found.value.p_cancel, found.value.p_claim) then Some(InvalidCancelPrice)
    else None
  }

  /** `cancelInsurance` of the request service: runs the guard chain and
      hands the record and the current price to the contract service; a
      failure there surfaces as an internal error. */
  method CancelInsurance(db: Database, userId: string, id: string, isLocked: bool, price: Option<real>,
                         inRange: (real, real, real) -> bool, o: ChainOutcome, now: int)
    returns (r: Outcome<Insurance>)
    modifies db`insurances, db`transactions, db`events, db`calls
    ensures Lifecycle.KeyedById(old(db.insurances)) ==> Lifecycle.KeyedById(db.insurances)
    requires Lifecycle.KeyedById(db.insurances)
    ensures var found := OwnedBy(old(db.insurances), id, userId);
      var rejected := CancelRejection(found, isLocked, price, inRange);
      && (rejected.Some? ==> r == Err(rejected.value) && db.Snapshot() == old(db.Snapshot()))
      && (rejected.None? ==>
            && db.Snapshot() == Lifecycle.Cancel(old(db.Snapshot()), found.value, price.value, o, now)
            && r.Ok? && r.value.state == Cancelled && r.value.p_close == Some(price.value)
            && r.value.closedAt == Some(now))
  {
    var found := OwnedBy(db.insurances, id, userId);
    if found.None? {
      return Err(NotFound);
    }
    var insurance := found.value;
    if insurance.state != Available || isLocked {
      return Err(ErrorCancel);
    }
    if price.None? {
      return Err(PriceUnavailable);
    }
    var currentPrice := price.value;
    if currentPrice == 0.0 {
      return Err(InvalidCancelPrice);
    }
    if !inRange(currentPrice, insurance.p_cancel, insurance.p_claim) {
      return Err(InvalidCancelPrice);
    }
    var updated := InsuranceContract.CancelInsurance(db, insurance, currentPrice, o, now);
    if updated.None? {
      return Err(InternalError);
    }
    assert db.events[|db.events| - 1] == UpdatedEvent(updated.value);
    r := Ok(updated.value);
  }

  /** `updateTxHash` of the request service: only the record matching both
      the id and the caller is touched; otherwise the update fails. */
  method UpdateTxHash(db: Database, userId: string, id: string, txhash: string) returns (r: Outcome<Insurance>)
    modifies db`insurances
    ensures Lifecycle.KeyedById(old(db.insurances)) ==> Lifecycle.KeyedById(db.insurances)
    ensures r.Ok? <==> OwnedBy(old(db.insurances), id, userId).Some?
    ensures r.Ok? ==>
      && db.insurances == old(db.insurances)[id := old(db.insurances)[id].(txhash := Some(txhash))]
      && r.value == db.insurances[id]
    ensures r.Err? ==> r.error == NotFound && db.insurances == old(db.insurances)
  {
    if OwnedBy(db.insurances, id, userId).None? {
      return Err(NotFound);
    }
    var rec := db.insurances[id].(txhash := Some(txhash));
    db.insurances := db.insurances[id := rec];
    r := Ok(rec);
  }
}
