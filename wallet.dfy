/** The wallet lookup: with an asset, the user's wallet for that asset is
    returned, created first when there is none; without one, all of the
    user's wallets are listed. The wallet table holds at most one wallet per
    (userId, asset). */
module Wallets {
  import opened Types
  import opened Db

  /** Position of the wallet for (userId, asset), the `findUnique` lookup. */
  function FindWallet(wallets: seq<Wallet>, userId: string, asset: string): (r: Option<nat>)
    ensures r.None? <==> forall i :: 0 <= i < |wallets| ==> !(wallets[i].userId == userId && wallets[i].asset == asset)
    ensures r.Some? ==> r.value < |wallets| && wallets[r.value].userId == userId && wallets[r.value].asset == asset
  {
    if wallets == [] then None
    else if wallets[0].userId == userId && wallets[0].asset == asset then Some(0)
    else match FindWallet(wallets[1..], userId, asset)
      case None => None
      case Some(i) => Some(i + 1)
  }

  /** The table's unique index on (userId, asset). */
  predicate UniqueKeys(wallets: seq<Wallet>)
  {
    forall i, j :: 0 <= i < j < |wallets| ==>
      !(wallets[i].userId == wallets[j].userId && wallets[i].asset == wallets[j].asset)
  }

  /** Get-or-create on a table: an existing wallet is returned with the table
      as it was; otherwise one wallet {asset, userId} with the new id is
      appended and returned. The unique index is kept. */
  function GetOrCreate(wallets: seq<Wallet>, userId: string, asset: string, newId: string): (r: (Wallet, seq<Wallet>))
    ensures r.0.userId == userId && r.0.asset == asset
    ensures FindWallet(wallets, userId, asset).Some? ==>
      r.1 == wallets && r.0 == wallets[FindWallet(wallets, userId, asset).value]
    ensures FindWallet(wallets, userId, asset).None? ==> r.1 == wallets + [r.0] && r.0.id == newId
    ensures UniqueKeys(wallets) ==> UniqueKeys(r.1)
  {
    match FindWallet(wallets, userId, asset)
    case Some(i) => (wallets[i], wallets)
    case None => var w := Wallet(newId, userId, asset); (w, wallets + [w])
  }

  /** A second get-or-create for the same (userId, asset) returns the same
      wallet and creates nothing, whatever id it would have used. */
  lemma GetOrCreateIdempotent(wallets: seq<Wallet>, userId: string, asset: string, newId: string, otherId: string)
    requires UniqueKeys(wallets)
    ensures var first := GetOrCreate(wallets, userId, asset, newId);
      var second := GetOrCreate(first.1, userId, asset, otherId);
      second.0 == first.0 && second.1 == first.1
  {
    var first := GetOrCreate(wallets, userId, asset, newId);
    if FindWallet(wallets, userId, asset).None? {
      assert first.1[|wallets|] == first.0;
      assert forall k :: 0 <= k < |wallets| ==> first.1[k] == wallets[k];
    }
  }

  /** The user's wallets, in table order (`findMany` by userId). */
  function WalletsOf(wallets: seq<Wallet>, userId: string): (r: seq<Wallet>)
    ensures |r| <= |wallets|
    ensures forall w :: w in r ==> w in wallets && w.userId == userId
    ensures forall i :: 0 <= i < |wallets| && wallets[i].userId == userId ==> wallets[i] in r
  {
    if wallets == [] then []
    else (if wallets[0].userId == userId then [wallets[0]] else []) + WalletsOf(wallets[1..], userId)
  }

  /** What `getWallets` returns: one wallet, or a list. */
  datatype WalletResult = One(wallet: Wallet) | Many(wallets: seq<Wallet>)

  /** An asset counts only when present and non-empty. */
  predicate Given(asset: Option<string>)
  {
    asset.Some? && asset.value != ""
  }

  /** `getWallets`: get-or-create for (userId, asset) when an asset is given,
      otherwise the user's wallets with the table untouched. `newId` is the
      id the database would assign to a created wallet. */
  method GetWallets(db: Database, userId: string, asset: Option<string>, newId: string) returns (r: WalletResult)
    modifies db`wallets
    ensures Given(asset) ==>
      var (w, table) := GetOrCreate(old(db.wallets), userId, asset.value, newId);
      r == One(w) && db.wallets == table
    ensures !Given(asset) ==> r == Many(WalletsOf(old(db.wallets), userId)) && db.wallets == old(db.wallets)
  {
    if Given(asset) {
      var found := FindWallet(db.wallets, userId, asset.value);
      if found.Some? {
        return One(db.wallets[found.value]);
      }
      var wallet := Wallet(newId, userId, asset.value);
      db.wallets := db.wallets + [wallet];
      return One(wallet);
    }
    r := Many(WalletsOf(db.wallets, userId));
  }
}
