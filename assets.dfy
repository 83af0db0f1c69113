/**
 * The asset book (AssetServiceImpl): a user's holding of one coin, with the
 * quantity held and the price it was opened at.
 */
module Assets {
  import opened Domain
  import Store

  /** An asset row: its owner, the coin it holds, the quantity and the buy price. */
  datatype Asset = Asset(user: UserId, coin: Coin, quantity: real, buyPrice: real)

  /** The key of `user`'s asset in coin `coin` among the keys below `bound`, as `findByUserIdAndCoinId` finds it. */
  function PositionKey(assets: map<nat, Asset>, user: UserId, coin: CoinId, bound: nat): (r: Option<nat>)
    ensures r.Some? ==> r.value < bound && r.value in assets && assets[r.value].user == user && assets[r.value].coin.id == coin
    ensures r.None? ==> forall k :: k < bound && k in assets ==> !(assets[k].user == user && assets[k].coin.id == coin)
  {
    if bound == 0 then None
    else match PositionKey(assets, user, coin, bound - 1)
      case Some(k) => Some(k)
      case None =>
        var k := bound - 1;
        if k in assets && assets[k].user == user && assets[k].coin.id == coin then Some(k) else None
  }

  /**
   * No user holds two assets in the same coin.  The repository does not enforce
   * this; the order settlement keeps it, since it is the only code that opens
   * an asset and it opens one only when the lookup finds none.
   */
  ghost predicate OnePerCoin(assets: map<nat, Asset>)
  {
    forall i, j {:trigger assets[i].user, assets[j].user} ::
      i in assets && j in assets && assets[i].user == assets[j].user && assets[i].coin.id == assets[j].coin.id ==> i == j
  }

  class AssetService {
    /** The asset repository. */
    var assets: map<nat, Asset>
    /** The key the next saved asset receives. */
    var nextId: nat

    ghost predicate Valid()
      reads this
    {
      forall k :: k in assets ==> k < nextId
    }

    constructor ()
      ensures Valid() && assets == map[] && nextId == 0
    {
      assets := map[];
      nextId := 0;
    }

    /** The key of the user's asset in the coin, if the user holds one. */
    function PositionOf(user: UserId, coin: CoinId): (r: Option<nat>)
      reads this
      ensures r.Some? ==> r.value in assets && assets[r.value].user == user && assets[r.value].coin.id == coin
    {
      PositionKey(assets, user, coin, nextId)
    }

    /** `createAsset`: saves a new asset of the coin for the user, bought at the coin's current price. */
    method CreateAsset(user: UserId, coin: Coin, quantity: real) returns (k: nat)
      requires Valid()
      modifies this
      ensures Valid()
      ensures k == old(nextId) && k !in old(assets) && nextId == k + 1
      ensures assets == old(assets)[k := Asset(user, coin, quantity, coin.currentPrice)]
    {
      k := nextId;
      assets := assets[k := Asset(user, coin, quantity, coin.currentPrice)];
      nextId := nextId + 1;
    }

    /** `getAssetById`: the stored asset, or "Asset not found". */
    method GetAssetById(id: nat) returns (r: Result<Asset>)
      ensures id in assets ==> r == Ok(assets[id])
      ensures id !in assets ==> r == Err("Asset not found")
    {
      if id in assets {
        r := Ok(assets[id]);
      } else {
        r := Err("Asset not found");
      }
    }

    /** `getAssetByUserAndId` is a stub: it finds nothing, whatever is stored. */
    method GetAssetByUserAndId(user: UserId, id: nat) returns (r: Option<Asset>)
      ensures r == None
    {
      r := None;
    }

    /** `getUsersAssets`: exactly the user's assets, each row listed once per key that holds it. */
    method GetUsersAssets(user: UserId) returns (r: seq<Asset>)
      requires Valid()
      ensures forall a :: a in r ==> a.user == user && a in assets.Values
      ensures forall k :: k in assets && assets[k].user == user ==> assets[k] in r
      ensures forall a :: multiset(r)[a] == |set k | k in assets && assets[k].user == user && assets[k] == a|
    {
      var owned := (a: Asset) => a.user == user;
      r := Store.Select(assets, owned, nextId);
      forall a
        ensures multiset(r)[a] == |set k | k in assets && assets[k].user == user && assets[k] == a|
      {
        assert Store.Hits(assets, owned, nextId, a) == set k | k in assets && assets[k].user == user && assets[k] == a;
      }
    }

    /**
     * `updateAsset`: overwrites the stored quantity with `quantity` (it does
     * not add to it), or fails with "Asset not found".
     */
    method UpdateAsset(id: nat, quantity: real) returns (r: Result<Asset>)
      requires Valid()
      modifies this
      ensures Valid() && nextId == old(nextId)
      ensures id !in old(assets) ==> r == Err("Asset not found") && assets == old(assets)
      ensures id in old(assets) ==>
                && r == Ok(old(assets)[id].(quantity := quantity))
                && assets == old(assets)[id := r.value]
    {
      r := GetAssetById(id);
      if r.Err? {
        return;
      }
      r := Ok(r.value.(quantity := quantity));
      assets := assets[id := r.value];
    }

    /** `findAssetByUserIdAndCoinId`: the key of the user's asset in the coin, or null. */
    method FindAssetByUserIdAndCoinId(user: UserId, coin: CoinId) returns (r: Option<nat>)
      requires Valid()
      ensures r.Some? ==> r.value in assets && assets[r.value].user == user && assets[r.value].coin.id == coin
      ensures r.None? <==> forall k :: k in assets ==> !(assets[k].user == user && assets[k].coin.id == coin)
    {
      r := PositionOf(user, coin);
    }

    /** `deleteAsset`: removes the row with that key, if any. */
    method DeleteAsset(id: nat)
      requires Valid()
      modifies this
      ensures Valid() && nextId == old(nextId)
      ensures assets == old(assets) - {id}
    {
      assets := assets - {id};
    }
  }
}
