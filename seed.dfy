/** The seed script: tokens and USDT pairs inserted only into empty tables,
    the per-market statistics aggregated over the insurance records and
    upserted by symbol, and every record's PnL recomputed from its state. */
module Seed {
  import opened Types
  import Lifecycle
  import opened Db

  // ---------------------------------------------------------------------
  // tokens and pairs

  const BaseUnit: string := "USDT"

  /** One USDT pair per token, in token order. */
  function PairsFor(tokens: seq<Token>): (pairs: seq<Pair>)
    ensures |pairs| == |tokens|
    ensures forall i :: 0 <= i < |tokens| ==>
      pairs[i] == Pair(tokens[i].symbol, BaseUnit, tokens[i].symbol + BaseUnit)
  {
    if tokens == [] then []
    else PairsFor(tokens[..|tokens| - 1]) + [Pair(tokens[|tokens| - 1].symbol, BaseUnit, tokens[|tokens| - 1].symbol + BaseUnit)]
  }

  /** Seed-if-empty: the token file is inserted only into an empty token
      table, and the pairs of the (possibly just seeded) tokens only into an
      empty pair table. */
  method SeedTokensAndPairs(db: Database, tokenFile: seq<Token>)
    modifies db`tokens, db`pairs
    ensures db.tokens == if old(db.tokens) == [] then tokenFile else old(db.tokens)
    ensures db.pairs == if old(db.pairs) == [] then PairsFor(db.tokens) else old(db.pairs)
  {
    var allTokens := db.tokens;
    if |allTokens| == 0 {
      db.tokens := db.tokens + tokenFile;
      allTokens := db.tokens;
    }
    var allPairs := db.pairs;
    if |allPairs| == 0 {
      db.pairs := db.pairs + PairsFor(allTokens);
    }
  }

  // ---------------------------------------------------------------------
  // reading the insurance table

  /** `rows` lists every record of the store exactly once. */
  predicate Enumerates(rows: seq<Insurance>, store: map<string, Insurance>)
  {
    && (forall i :: 0 <= i < |rows| ==> rows[i].id in store && store[rows[i].id] == rows[i])
    && (forall i, j :: 0 <= i < j < |rows| ==> rows[i].id != rows[j].id)
    && (forall k :: k in store ==> exists i :: 0 <= i < |rows| && rows[i].id == k)
  }

  /** `findMany` over the insurance table, in the table's own order. */
  method ScanInsurances(db: Database) returns (rows: seq<Insurance>)
    requires Lifecycle.KeyedById(db.insurances)
    ensures Enumerates(rows, db.insurances)
  {
    var store := db.insurances;
    rows := [];
    var keys := store.Keys;
    while keys != {}
      invariant keys <= store.Keys
      invariant forall i :: 0 <= i < |rows| ==> rows[i].id in store && rows[i].id !in keys && store[rows[i].id] == rows[i]
      invariant forall i, j :: 0 <= i < j < |rows| ==> rows[i].id != rows[j].id
      invariant forall k :: k in store && k !in keys ==> exists i :: 0 <= i < |rows| && rows[i].id == k
      decreases keys
    {
      var k :| k in keys;
      ghost var before := rows;
      rows := rows + [store[k]];
      assert forall i :: 0 <= i < |before| ==> rows[i] == before[i];
      assert rows[|before|].id == k;
      keys := keys - {k};
    }
  }

  // ---------------------------------------------------------------------
  // the aggregation pipeline

  /** Records in PENDING or INVALID take no part in the statistics. */
  predicate Counted(s: InsuranceState)
  {
    s != Pending && s != Invalid
  }

  predicate ClaimedState(s: InsuranceState)
  {
    s == Claimed || s == ClaimWaiting
  }

  predicate RefundedState(s: InsuranceState)
  {
    s == Refunded || s == RefundWaiting
  }

  function Zero(): Figures
  {
    Figures(0, 0.0, 0.0, 0.0, 0.0, 0, 0, 0.0)
  }

  /** Field-wise sum of two figures. */
  function Plus(a: Figures, b: Figures): Figures
  {
    Figures(a.totalContract + b.totalContract, a.margin + b.margin, a.q_covered + b.q_covered,
            a.claimed + b.claimed, a.refunded + b.refunded, a.totalBull + b.totalBull,
            a.totalBear + b.totalBear, a.payback + b.payback)
  }

  /** What one counted record adds in the `$group` stage (payback is only
      added afterwards). */
  function Contribution(rec: Insurance): Figures
  {
    Figures(1, rec.margin, rec.q_covered,
            if ClaimedState(rec.state) then rec.q_claim else 0.0,
            if RefundedState(rec.state) then rec.margin else 0.0,
            if rec.side == Bull then 1 else 0,
            if rec.side == Bear then 1 else 0,
            0.0)
  }

  /** One output document of the pipeline: the (asset, unit) key and its figures. */
  datatype Group = Group(asset: string, unit: string, figures: Figures)

  /** The position of the group with key (asset, unit). */
  function FindGroup(groups: seq<Group>, asset: string, unit: string): (r: Option<nat>)
    ensures r.None? <==> forall i :: 0 <= i < |groups| ==> !(groups[i].asset == asset && groups[i].unit == unit)
    ensures r.Some? ==> r.value < |groups| && groups[r.value].asset == asset && groups[r.value].unit == unit
  {
    if groups == [] then None
    else if groups[0].asset == asset && groups[0].unit == unit then Some(0)
    else match FindGroup(groups[1..], asset, unit)
      case None => None
      case Some(i) => Some(i + 1)
  }

  /** `$match` and `$group` for one more record: an excluded record changes
      nothing; a counted one is added to its group, which is opened on the
      first record of its key. */
  function Accumulate(groups: seq<Group>, rec: Insurance): seq<Group>
  {
    if !Counted(rec.state) then groups
    else match FindGroup(groups, rec.asset, rec.unit)
      case Some(i) => groups[i := groups[i].(figures := Plus(groups[i].figures, Contribution(rec)))]
      case None => groups + [Group(rec.asset, rec.unit, Contribution(rec))]
  }

  function GroupStage(rows: seq<Insurance>): seq<Group>
  {
    if rows == [] then [] else Accumulate(GroupStage(rows[..|rows| - 1]), rows[|rows| - 1])
  }

  /** `$addFields`: payback is claimed plus refunded. */
  function AddPayback(groups: seq<Group>): (r: seq<Group>)
    ensures |r| == |groups|
    ensures forall i :: 0 <= i < |groups| ==>
      r[i] == groups[i].(figures := groups[i].figures.(payback := groups[i].figures.claimed + groups[i].figures.refunded))
  {
    if groups == [] then []
    else
      var g := groups[0];
      [g.(figures := g.figures.(payback := g.figures.claimed + g.figures.refunded))] + AddPayback(groups[1..])
  }

  /** The whole `aggregateRaw` pipeline over the rows read. */
  function Aggregate(rows: seq<Insurance>): seq<Group>
  {
    AddPayback(GroupStage(rows))
  }

  /** A record belongs to the statistics of (asset, unit). */
  predicate InGroup(rec: Insurance, asset: string, unit: string)
  {
    Counted(rec.state) && rec.asset == asset && rec.unit == unit
  }

  /** What one record of the group adds to the reference totals, payback
      included. */
  function Share(rec: Insurance): Figures
  {
    var c := Contribution(rec);
    c.(payback := c.claimed + c.refunded)
  }

  /** Reference definition of one market's figures: sums over exactly the
      counted records of that (asset, unit). */
  function Totals(rows: seq<Insurance>, asset: string, unit: string): (t: Figures)
    ensures t.totalContract >= 0
    ensures t.totalBull + t.totalBear == t.totalContract
    ensures t.payback == t.claimed + t.refunded
    ensures t.totalContract == 0 ==> t == Zero()
  {
    if rows == [] then Zero()
    else
      var prior := Totals(rows[..|rows| - 1], asset, unit);
      if InGroup(rows[|rows| - 1], asset, unit) then Plus(prior, Share(rows[|rows| - 1])) else prior
  }

  /** No two groups share a key. */
  predicate DistinctKeys(g: seq<Group>)
  {
    forall i, j :: 0 <= i < j < |g| ==> !(g[i].asset == g[j].asset && g[i].unit == g[j].unit)
  }

  /** Every group's key is carried by some counted record. */
  predicate KeysOccur(g: seq<Group>, rows: seq<Insurance>)
  {
    forall i :: 0 <= i < |g| ==> exists j :: 0 <= j < |rows| && InGroup(rows[j], g[i].asset, g[i].unit)
  }

  /** Every counted record's key has a group. */
  predicate KeysCovered(g: seq<Group>, rows: seq<Insurance>)
  {
    forall j :: 0 <= j < |rows| && Counted(rows[j].state) ==> FindGroup(g, rows[j].asset, rows[j].unit).Some?
  }

  /** A key with no counted record has all-zero totals. */
  lemma {:induction false} TotalsOfAbsentKey(rows: seq<Insurance>, asset: string, unit: string)
    requires forall j :: 0 <= j < |rows| ==> !InGroup(rows[j], asset, unit)
    ensures Totals(rows, asset, unit) == Zero()
  {
    if rows != [] {
      var prefix := rows[..|rows| - 1];
      assert forall j :: 0 <= j < |prefix| ==> prefix[j] == rows[j];
      TotalsOfAbsentKey(prefix, asset, unit);
    }
  }

  /** What one record does to the groups: existing keys stay in place and
      at most one group, for the record's key, is appended. */
  lemma AccumulateKeys(g0: seq<Group>, rec: Insurance)
    ensures var g := Accumulate(g0, rec);
      && |g0| <= |g| <= |g0| + 1
      && (forall k :: 0 <= k < |g0| ==> g[k].asset == g0[k].asset && g[k].unit == g0[k].unit)
      && (|g| == |g0| + 1 ==> InGroup(rec, g[|g0|].asset, g[|g0|].unit) && FindGroup(g0, rec.asset, rec.unit).None?)
      && (Counted(rec.state) ==> FindGroup(g, rec.asset, rec.unit).Some?)
  {
    var g := Accumulate(g0, rec);
    if Counted(rec.state) {
      match FindGroup(g0, rec.asset, rec.unit)
      case Some(i) =>
        assert g[i].asset == rec.asset && g[i].unit == rec.unit;
      case None =>
        assert g[|g0|].asset == rec.asset && g[|g0|].unit == rec.unit;
    }
  }

  /** The group stage opens one group per key. */
  lemma {:induction false} GroupKeysDistinct(rows: seq<Insurance>)
    ensures DistinctKeys(GroupStage(rows))
  {
    if rows != [] {
      GroupKeysDistinct(rows[..|rows| - 1]);
      AccumulateKeys(GroupStage(rows[..|rows| - 1]), rows[|rows| - 1]);
    }
  }

  /** Every counted record's key gets a group. */
  lemma {:induction false} GroupKeysCovered(rows: seq<Insurance>)
    ensures KeysCovered(GroupStage(rows), rows)
  {
    if rows != [] {
      var prefix := rows[..|rows| - 1];
      GroupKeysCovered(prefix);
      var g0 := GroupStage(prefix);
      var g := GroupStage(rows);
      AccumulateKeys(g0, rows[|rows| - 1]);
      forall j | 0 <= j < |rows| && Counted(rows[j].state)
        ensures FindGroup(g, rows[j].asset, rows[j].unit).Some?
      {
        if j < |prefix| {
          assert prefix[j] == rows[j];
          var p := FindGroup(g0, rows[j].asset, rows[j].unit).value;
          assert g[p].asset == rows[j].asset && g[p].unit == rows[j].unit;
        }
      }
    }
  }

  /** Every group's key is carried by a counted record. */
  lemma {:induction false} GroupKeysOccur(rows: seq<Insurance>)
    ensures KeysOccur(GroupStage(rows), rows)
  {
    if rows != [] {
      var prefix := rows[..|rows| - 1];
      GroupKeysOccur(prefix);
      var g0 := GroupStage(prefix);
      var g := GroupStage(rows);
      AccumulateKeys(g0, rows[|rows| - 1]);
      forall k | 0 <= k < |g|
        ensures exists j :: 0 <= j < |rows| && InGroup(rows[j], g[k].asset, g[k].unit)
      {
        if k == |g0| {
          assert InGroup(rows[|rows| - 1], g[k].asset, g[k].unit);
        } else {
          var j :| 0 <= j < |prefix| && InGroup(prefix[j], g0[k].asset, g0[k].unit);
          assert InGroup(rows[j], g[k].asset, g[k].unit);
        }
      }
    }
  }

  /** The counted records of `prefix` with the key of a record that opened
      a new group: there are none. */
  lemma NewKeyAbsent(prefix: seq<Insurance>, rec: Insurance)
    requires FindGroup(GroupStage(prefix), rec.asset, rec.unit).None?
    ensures Totals(prefix, rec.asset, rec.unit) == Zero()
  {
    GroupKeysCovered(prefix);
    forall j | 0 <= j < |prefix|
      ensures !InGroup(prefix[j], rec.asset, rec.unit)
    {
    }
    TotalsOfAbsentKey(prefix, rec.asset, rec.unit);
  }

  /** Each group's figures are its key's reference totals, payback aside
      (it is added by the later stage). */
  predicate FiguresAreTotals(rows: seq<Insurance>)
  {
    forall i :: 0 <= i < |GroupStage(rows)| ==>
      GroupStage(rows)[i].figures == Totals(rows, GroupStage(rows)[i].asset, GroupStage(rows)[i].unit).(payback := 0.0)
  }

  /** A record the `$match` stage drops changes neither the groups nor the
      totals. */
  lemma ExcludedRecordStep(rows: seq<Insurance>)
    requires rows != [] && !Counted(rows[|rows| - 1].state)
    requires FiguresAreTotals(rows[..|rows| - 1])
    ensures FiguresAreTotals(rows)
  {
    var g := GroupStage(rows);
    forall k | 0 <= k < |g|
      ensures g[k].figures == Totals(rows, g[k].asset, g[k].unit).(payback := 0.0)
    {
      assert !InGroup(rows[|rows| - 1], g[k].asset, g[k].unit);
    }
  }

  /** A counted record whose key has a group adds its contribution to that
      group, and to that key's totals only: the row at `k`. */
  lemma ExistingGroupRow(rows: seq<Insurance>, i: nat, k: nat)
    requires rows != [] && Counted(rows[|rows| - 1].state)
    requires FindGroup(GroupStage(rows[..|rows| - 1]), rows[|rows| - 1].asset, rows[|rows| - 1].unit) == Some(i)
    requires FiguresAreTotals(rows[..|rows| - 1])
    requires k < |GroupStage(rows)|
    ensures GroupStage(rows)[k].figures
         == Totals(rows, GroupStage(rows)[k].asset, GroupStage(rows)[k].unit).(payback := 0.0)
  {
    var prefix, rec := rows[..|rows| - 1], rows[|rows| - 1];
    var g0 := GroupStage(prefix);
    var g := g0[i := g0[i].(figures := Plus(g0[i].figures, Contribution(rec)))];
    assert GroupStage(rows) == g;
    if k == i {
      assert InGroup(rec, g[k].asset, g[k].unit);
    } else {
      GroupKeysDistinct(prefix);
      assert !InGroup(rec, g[k].asset, g[k].unit);
    }
  }

  lemma ExistingGroupStep(rows: seq<Insurance>, i: nat)
    requires rows != [] && Counted(rows[|rows| - 1].state)
    requires FindGroup(GroupStage(rows[..|rows| - 1]), rows[|rows| - 1].asset, rows[|rows| - 1].unit) == Some(i)
    requires FiguresAreTotals(rows[..|rows| - 1])
    ensures FiguresAreTotals(rows)
  {
    forall k | 0 <= k < |GroupStage(rows)|
      ensures GroupStage(rows)[k].figures
           == Totals(rows, GroupStage(rows)[k].asset, GroupStage(rows)[k].unit).(payback := 0.0)
    {
      ExistingGroupRow(rows, i, k);
    }
  }

  /** A counted record whose key has no group yet opens one holding its own
      contribution, which is its key's totals. */
  lemma NewGroupStep(rows: seq<Insurance>)
    requires rows != [] && Counted(rows[|rows| - 1].state)
    requires FindGroup(GroupStage(rows[..|rows| - 1]), rows[|rows| - 1].asset, rows[|rows| - 1].unit).None?
    requires FiguresAreTotals(rows[..|rows| - 1])
    ensures FiguresAreTotals(rows)
  {
    var prefix, rec := rows[..|rows| - 1], rows[|rows| - 1];
    var g0, g := GroupStage(prefix), GroupStage(rows);
    AccumulateKeys(g0, rec);
    NewKeyAbsent(prefix, rec);
    forall k | 0 <= k < |g|
      ensures g[k].figures == Totals(rows, g[k].asset, g[k].unit).(payback := 0.0)
    {
      if k == |g0| {
        assert InGroup(rec, g[k].asset, g[k].unit);
      } else {
        assert !InGroup(rec, g[k].asset, g[k].unit);
      }
    }
  }

  /** Each group's figures are its key's reference totals (before the
      payback stage). */
  lemma {:induction false} GroupFiguresAreTotals(rows: seq<Insurance>)
    ensures FiguresAreTotals(rows)
  {
    if rows != [] {
      var prefix, rec := rows[..|rows| - 1], rows[|rows| - 1];
      GroupFiguresAreTotals(prefix);
      if !Counted(rec.state) {
        ExcludedRecordStep(rows);
      } else {
        match FindGroup(GroupStage(prefix), rec.asset, rec.unit)
        case Some(i) => ExistingGroupStep(rows, i);
        case None => NewGroupStep(rows);
      }
    }
  }

  /** The pipeline's output: one document per (asset, unit) that has a
      counted record and no other, each holding exactly that key's totals:
      the record count, the margin and q_covered sums, q_claim summed over
      CLAIMED/CLAIM_WAITING, margin summed over REFUNDED/REFUND_WAITING, the
      BULL and BEAR counts and payback = claimed + refunded. */
  lemma AggregateIsTotals(rows: seq<Insurance>)
    ensures DistinctKeys(Aggregate(rows))
    ensures forall i :: 0 <= i < |Aggregate(rows)| ==>
      Aggregate(rows)[i].figures == Totals(rows, Aggregate(rows)[i].asset, Aggregate(rows)[i].unit)
    ensures KeysOccur(Aggregate(rows), rows)
    ensures KeysCovered(Aggregate(rows), rows)
  {
    GroupKeysDistinct(rows);
    GroupKeysCovered(rows);
    GroupKeysOccur(rows);
    GroupFiguresAreTotals(rows);
    var g0 := GroupStage(rows);
    var g := Aggregate(rows);
    assert forall i :: 0 <= i < |g| ==> g[i].asset == g0[i].asset && g[i].unit == g0[i].unit;
    forall i | 0 <= i < |g|
      ensures g[i].figures == Totals(rows, g[i].asset, g[i].unit)
    {
      var t := Totals(rows, g0[i].asset, g0[i].unit);
      assert g0[i].figures == t.(payback := 0.0);
    }
    forall j | 0 <= j < |rows| && Counted(rows[j].state)
      ensures FindGroup(g, rows[j].asset, rows[j].unit).Some?
    {
      var p := FindGroup(g0, rows[j].asset, rows[j].unit).value;
      assert g[p].asset == rows[j].asset && g[p].unit == rows[j].unit;
    }
  }

  // ---------------------------------------------------------------------
  // the upsert

  function SymbolOf(g: Group): string
  {
    g.asset + g.unit
  }

  /** One `upsert` keyed by symbol: an existing row gets the new figures and
      keeps its other fields; a missing row is created from the group. */
  function Upsert(stats: map<string, MarketStat>, g: Group): map<string, MarketStat>
  {
    var symbol := SymbolOf(g);
    if symbol in stats then stats[symbol := stats[symbol].(figures := g.figures)]
    else stats[symbol := MarketStat(symbol, g.asset, g.unit, g.figures)]
  }

  function UpsertAll(stats: map<string, MarketStat>, groups: seq<Group>): map<string, MarketStat>
  {
    if groups == [] then stats else Upsert(UpsertAll(stats, groups[..|groups| - 1]), groups[|groups| - 1])
  }

  /** The figures of the last group with this symbol. */
  function LastFor(groups: seq<Group>, symbol: string): (r: Option<Figures>)
    ensures r.None? <==> forall i :: 0 <= i < |groups| ==> SymbolOf(groups[i]) != symbol
  {
    if groups == [] then None
    else if SymbolOf(groups[|groups| - 1]) == symbol then Some(groups[|groups| - 1].figures)
    else LastFor(groups[..|groups| - 1], symbol)
  }

  /** After the upserts, a row exists for every symbol that had one or that
      some group names; a named row carries the last group's figures and
      otherwise keeps its fields; an unnamed row is untouched. */
  lemma {:induction false} UpsertAllRow(stats: map<string, MarketStat>, groups: seq<Group>, symbol: string)
    ensures symbol in UpsertAll(stats, groups) <==> symbol in stats || LastFor(groups, symbol).Some?
    ensures symbol in stats && LastFor(groups, symbol).None? ==> UpsertAll(stats, groups)[symbol] == stats[symbol]
    ensures symbol in stats && LastFor(groups, symbol).Some? ==>
      UpsertAll(stats, groups)[symbol] == stats[symbol].(figures := LastFor(groups, symbol).value)
    ensures symbol !in stats && LastFor(groups, symbol).Some? ==>
      UpsertAll(stats, groups)[symbol].symbol == symbol
      && UpsertAll(stats, groups)[symbol].figures == LastFor(groups, symbol).value
  {
    if groups != [] {
      UpsertAllRow(stats, groups[..|groups| - 1], symbol);
    }
  }

  /** Re-running the upserts with the same groups writes the same rows. */
  lemma UpsertAllIdempotent(stats: map<string, MarketStat>, groups: seq<Group>)
    ensures UpsertAll(UpsertAll(stats, groups), groups) == UpsertAll(stats, groups)
  {
    var once := UpsertAll(stats, groups);
    var twice := UpsertAll(once, groups);
    forall symbol
      ensures symbol in twice <==> symbol in once
      ensures symbol in once ==> twice[symbol] == once[symbol]
    {
      UpsertAllRow(stats, groups, symbol);
      UpsertAllRow(once, groups, symbol);
    }
    assert twice.Keys == once.Keys;
  }

  /** The `for` loop over the pipeline's documents. */
  method UpsertMarketStats(db: Database, groups: seq<Group>)
    modifies db`marketStats
    ensures db.marketStats == UpsertAll(old(db.marketStats), groups)
  {
    var i := 0;
    while i < |groups|
      invariant 0 <= i <= |groups|
      invariant db.marketStats == UpsertAll(old(db.marketStats), groups[..i])
    {
      var g := groups[i];
      var symbol := g.asset + g.unit;
      if symbol in db.marketStats {
        db.marketStats := db.marketStats[symbol := db.marketStats[symbol].(figures := g.figures)];
      } else {
        db.marketStats := db.marketStats[symbol := MarketStat(symbol, g.asset, g.unit, g.figures)];
      }
      assert groups[..i + 1][..i] == groups[..i];
      i := i + 1;
    }
    assert groups[..i] == groups;
  }

  // ---------------------------------------------------------------------
  // PnL recomputation

  /** The user's PnL implied by a record's state. */
  function PnlUserOf(rec: Insurance): (p: real)
    ensures ClaimedState(rec.state) ==> p == rec.q_claim - rec.margin
    ensures rec.state == Liquidated || rec.state == Expired ==> p == -rec.margin
    ensures !ClaimedState(rec.state) && rec.state != Liquidated && rec.state != Expired ==> p == 0.0
  {
    match rec.state
    case Claimed => rec.q_claim - rec.margin
    case ClaimWaiting => rec.q_claim - rec.margin
    case Liquidated => -rec.margin
    case Expired => -rec.margin
    case _ => 0.0
  }

  /** A record with its PnL recomputed; the project's PnL mirrors the user's. */
  function WithSeedPnl(rec: Insurance): (r: Insurance)
    ensures r.pnlProject.Some? && r.pnlUser.Some? && r.pnlProject.value == -r.pnlUser.value
  {
    var p := PnlUserOf(rec);
    rec.(pnlUser := Some(p), pnlProject := Some(-p))
  }

  /** A record just claimed already carries the PnL the seed would write. */
  lemma ClaimPnlAgreesWithSeed(l: Lifecycle.Ledger, ins: Insurance, price: real, o: ChainOutcome, now: int)
    requires Lifecycle.WriteMatches(l.insurances, ins.id, ClaimWaiting)
    requires l.insurances[ins.id].q_claim == ins.q_claim && l.insurances[ins.id].margin == ins.margin
    ensures var rec := Lifecycle.Claim(l, ins, price, o, now).insurances[ins.id];
      WithSeedPnl(rec) == rec
  {
    var rec := Lifecycle.Claim(l, ins, price, o, now).insurances[ins.id];
    assert rec.state == ClaimWaiting;
  }

  /** A record just liquidated or expired already carries the PnL the seed
      would write. */
  lemma LiquidateOrExpirePnlAgreesWithSeed(l: Lifecycle.Ledger, ins: Insurance, target: InsuranceState,
                                           pClose: real, o: ChainOutcome, now: int)
    requires target == Liquidated || target == Expired
    requires Lifecycle.WriteMatches(l.insurances, ins.id, target)
    requires l.insurances[ins.id].margin == ins.margin
    ensures var rec := Lifecycle.LiquidateOrExpire(l, ins, target, pClose, o, now).insurances[ins.id];
      WithSeedPnl(rec) == rec
  {
    var rec := Lifecycle.LiquidateOrExpire(l, ins, target, pClose, o, now).insurances[ins.id];
    assert rec.state == target;
  }

  /** The PnL loop: every record read gets the PnL of its state. */
  method RecomputePnl(db: Database, rows: seq<Insurance>)
    requires Enumerates(rows, db.insurances)
    modifies db`insurances
    ensures Lifecycle.KeyedById(old(db.insurances)) ==> Lifecycle.KeyedById(db.insurances)
    ensures db.insurances.Keys == old(db.insurances).Keys
    ensures forall k :: k in db.insurances ==> db.insurances[k] == WithSeedPnl(old(db.insurances)[k])
  {
    ghost var orig := db.insurances;
    var i := 0;
    while i < |rows|
      invariant 0 <= i <= |rows|
      invariant db.insurances.Keys == orig.Keys
      invariant PnlWrittenUpTo(orig, db.insurances, rows, i)
    {
      var rec := rows[i];
      var pnlUser := PnlUserOf(rec);
      ghost var before := db.insurances;
      db.insurances := db.insurances[rec.id := db.insurances[rec.id].(pnlUser := Some(pnlUser), pnlProject := Some(-pnlUser))];
      SeedPnlStep(orig, before, db.insurances, rows, i);
      i := i + 1;
    }
    SeedPnlDone(orig, db.insurances, rows);
  }

  /** The invariant of the PnL loop: the first `i` rows carry their seed PnL
      and the others are as they were. */
  predicate PnlWrittenUpTo(orig: map<string, Insurance>, m: map<string, Insurance>, rows: seq<Insurance>, i: nat)
    requires Enumerates(rows, orig) && m.Keys == orig.Keys && i <= |rows|
  {
    && (forall j :: 0 <= j < i ==> m[rows[j].id] == WithSeedPnl(orig[rows[j].id]))
    && (forall j :: i <= j < |rows| ==> m[rows[j].id] == orig[rows[j].id])
  }

  /** One step of the PnL loop keeps its invariant. */
  lemma SeedPnlStep(orig: map<string, Insurance>, before: map<string, Insurance>, after: map<string, Insurance>,
                    rows: seq<Insurance>, i: nat)
    requires Enumerates(rows, orig) && i < |rows|
    requires before.Keys == orig.Keys && PnlWrittenUpTo(orig, before, rows, i)
    requires after == before[rows[i].id := before[rows[i].id].(pnlUser := Some(PnlUserOf(rows[i])),
                                                               pnlProject := Some(-PnlUserOf(rows[i])))]
    ensures after.Keys == orig.Keys && PnlWrittenUpTo(orig, after, rows, i + 1)
  {
    var id := rows[i].id;
    assert before[id] == orig[id] == rows[i];
    assert after[id] == WithSeedPnl(orig[id]);
    forall j | 0 <= j < i + 1
      ensures after[rows[j].id] == WithSeedPnl(orig[rows[j].id])
    {
      if j < i {
        assert rows[j].id != id;
      }
    }
    forall j | i + 1 <= j < |rows|
      ensures after[rows[j].id] == orig[rows[j].id]
    {
      assert rows[j].id != id;
    }
  }

  /** Once every row is visited, every record carries its seed PnL. */
  lemma SeedPnlDone(orig: map<string, Insurance>, after: map<string, Insurance>, rows: seq<Insurance>)
    requires Enumerates(rows, orig) && after.Keys == orig.Keys
    requires PnlWrittenUpTo(orig, after, rows, |rows|)
    ensures forall k :: k in after ==> after[k] == WithSeedPnl(orig[k])
  {
    forall k | k in after
      ensures after[k] == WithSeedPnl(orig[k])
    {
      var j :| 0 <= j < |rows| && rows[j].id == k;
    }
  }

  /** The whole script, in order: seed tokens and pairs, aggregate and
      upsert the market statistics, recompute every record's PnL. */
  method RunSeed(db: Database, tokenFile: seq<Token>) returns (rows: seq<Insurance>)
    requires Lifecycle.KeyedById(db.insurances)
    modifies db`tokens, db`pairs, db`marketStats, db`insurances
    ensures Lifecycle.KeyedById(db.insurances)
    ensures db.tokens == if old(db.tokens) == [] then tokenFile else old(db.tokens)
    ensures db.pairs == if old(db.pairs) == [] then PairsFor(db.tokens) else old(db.pairs)
    ensures Enumerates(rows, old(db.insurances))
    ensures db.marketStats == UpsertAll(old(db.marketStats), Aggregate(rows))
    ensures db.insurances.Keys == old(db.insurances).Keys
    ensures forall k :: k in db.insurances ==> db.insurances[k] == WithSeedPnl(old(db.insurances)[k])
  {
    SeedTokensAndPairs(db, tokenFile);
    rows := ScanInsurances(db);
    UpsertMarketStats(db, Aggregate(rows));
    var current := ScanInsurances(db);
    RecomputePnl(db, current);
  }
}
