/** The persistent state the services share: one object holding every table
    the core reads or writes, updated in place by the services' methods. The
    domain events emitted and the on-chain calls issued are ghost fields: they
    record what left the process, for the contracts to talk about. */
module Db {
  import opened Types
  import Lifecycle

  /** A deposit wallet, unique per (userId, asset). */
  datatype Wallet = Wallet(id: string, userId: string, asset: string)

  /** Per-user referral statistics. */
  datatype UserStat = UserStat(userId: string, totalFriendsMargin: real, lastCheckLevelTime: int)

  datatype Token = Token(symbol: string)

  datatype Pair = Pair(asset: string, unit: string, symbol: string)

  /** The figures of one market's statistics row. */
  datatype Figures = Figures(
    totalContract: int, margin: real, q_covered: real, claimed: real, refunded: real,
    totalBull: int, totalBear: int, payback: real)

  datatype MarketStat = MarketStat(symbol: string, asset: string, unit: string, figures: Figures)

  class Database {
    var insurances: map<string, Insurance>
    var transactions: seq<Transaction>
    ghost var events: seq<DomainEvent>
    ghost var calls: seq<ChainCall>
    var users: map<string, User>
    /** The order in which the user collection returns its rows. */
    var userOrder: seq<string>
    var userStats: map<string, UserStat>
    var wallets: seq<Wallet>
    var tokens: seq<Token>
    var pairs: seq<Pair>
    var marketStats: map<string, MarketStat>

    /** The lifecycle engine's view of this state. */
    ghost function Snapshot(): (l: Lifecycle.Ledger)
      reads this
      ensures l.insurances == insurances && l.transactions == transactions
    {
      Lifecycle.Ledger(insurances, transactions, events, calls)
    }

    constructor ()
      ensures insurances == map[] && transactions == [] && events == [] && calls == []
      ensures users == map[] && userOrder == [] && userStats == map[]
      ensures wallets == [] && tokens == [] && pairs == [] && marketStats == map[]
    {
      insurances := map[];
      transactions := [];
      events := [];
      calls := [];
      users := map[];
      userOrder := [];
      userStats := map[];
      wallets := [];
      tokens := [];
      pairs := [];
      marketStats := map[];
    }
  }
}
