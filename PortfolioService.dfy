/**
 * The holdings store (app/services/portfolio_service.py) over an
 * in-memory collection keyed by document id. A holding is reachable only
 * through its id together with its owner. The database's fresh ids and
 * the clock are parameters.
 */
module PortfolioService {
  import opened Domain
  import opened Text
  import opened PortfolioModel

  /** `AssetType(s.lower())`, with any unrecognised value taken as "other". */
  function ParseAssetType(s: string): (a: AssetType)
    ensures AssetTypeName(a) == ToLower(s) || (a == OtherAsset && forall b :: AssetTypeName(b) != ToLower(s))
  {
    var low := ToLower(s);
    if low == "stock" then Stock
    else if low == "bond" then Bond
    else if low == "etf" then Etf
    else if low == "crypto" then Crypto
    else if low == "real_estate" then RealEstate
    else OtherAsset
  }

  /** Every member's own value reads back as that member, whatever its letter case. */
  lemma ParseAssetTypeRoundTrip(a: AssetType, s: string)
    requires ToLower(s) == AssetTypeName(a)
    ensures ParseAssetType(s) == a
  {
  }

  /** An asset type as a caller passes it: a string, or already a member. */
  datatype AssetTypeInput = TypeText(text: string) | TypeMember(member: AssetType)

  function CoerceAssetType(t: AssetTypeInput): AssetType
  {
    match t
    case TypeText(s) => ParseAssetType(s)
    case TypeMember(a) => a
  }

  /** The holding `create_portfolio_asset` builds: a missing current value becomes the purchase price. */
  function NewAsset(id: string, userId: string, assetName: string, assetType: AssetTypeInput, quantity: real,
                    purchasePrice: real, purchaseDate: int, currentValue: Option<real>, now: int): Portfolio
  {
    Portfolio(id, userId, assetName, CoerceAssetType(assetType), quantity, purchasePrice, purchaseDate,
      Some(if currentValue.None? then purchasePrice else currentValue.value), now)
  }

  /**
   * A holding created without a current value is worth what it cost, so
   * its gain is 0% whenever its purchase price is positive.
   */
  lemma CreatedWithoutValueBreaksEven(id: string, userId: string, assetName: string, assetType: AssetTypeInput,
                                      quantity: real, purchasePrice: real, purchaseDate: int, now: int)
    ensures var p := NewAsset(id, userId, assetName, assetType, quantity, purchasePrice, purchaseDate, None, now);
            TotalCurrentValue(p).Some? && TotalCurrentValue(p).value == TotalPurchaseValue(p)
            && (purchasePrice > 0.0 ==> GainLossPercent(p) == Some(0.0))
            && (purchasePrice <= 0.0 ==> GainLossPercent(p).None?)
  {
  }

  /** One entry of an update dictionary: a field and its new value. */
  datatype FieldValue =
    | UserIdField(owner: string)
    | AssetNameField(name: string)
    | AssetTypeField(kind: AssetTypeInput)
    | QuantityField(quantity: real)
    | PurchasePriceField(price: real)
    | PurchaseDateField(date: int)
    | CurrentValueField(value: Option<real>)
    | LastUpdatedField(at: int)

  /** `setattr(item, key, value)` for one entry. */
  function Apply(p: Portfolio, f: FieldValue): Portfolio
  {
    match f
    case UserIdField(o) => p.(userId := o)
    case AssetNameField(n) => p.(assetName := n)
    case AssetTypeField(t) => p.(assetType := CoerceAssetType(t))
    case QuantityField(q) => p.(quantity := q)
    case PurchasePriceField(x) => p.(purchasePrice := x)
    case PurchaseDateField(d) => p.(purchaseDate := d)
    case CurrentValueField(v) => p.(currentValue := v)
    case LastUpdatedField(t) => p.(lastUpdated := t)
  }

  /** The entries applied in order. */
  function ApplyAll(p: Portfolio, data: seq<FieldValue>): Portfolio
  {
    if data == [] then p else Apply(ApplyAll(p, data[..|data| - 1]), data[|data| - 1])
  }

  /** The update dictionary after its asset type is coerced to a member and `last_updated` is set to `now`. */
  function Stamped(data: seq<FieldValue>, now: int): (r: seq<FieldValue>)
    ensures LastUpdatedField(now) in r
    ensures forall f :: f in r ==> !(f.AssetTypeField? && f.kind.TypeText?)
  {
    var coerced := seq(|data|, i requires 0 <= i < |data| =>
      match data[i]
      case AssetTypeField(t) => AssetTypeField(TypeMember(CoerceAssetType(t)))
      case LastUpdatedField(_) => LastUpdatedField(now)
      case _ => data[i]);
    if exists i :: 0 <= i < |data| && data[i].LastUpdatedField? then
      var i :| 0 <= i < |data| && data[i].LastUpdatedField?;
      assert coerced[i] == LastUpdatedField(now);
      coerced
    else coerced + [LastUpdatedField(now)]
  }

  /** The key of a dictionary entry. */
  datatype Key = UserIdKey | AssetNameKey | AssetTypeKey | QuantityKey | PurchasePriceKey | PurchaseDateKey
               | CurrentValueKey | LastUpdatedKey

  function KeyOf(f: FieldValue): Key
  {
    match f
    case UserIdField(_) => UserIdKey
    case AssetNameField(_) => AssetNameKey
    case AssetTypeField(_) => AssetTypeKey
    case QuantityField(_) => QuantityKey
    case PurchasePriceField(_) => PurchasePriceKey
    case PurchaseDateField(_) => PurchaseDateKey
    case CurrentValueField(_) => CurrentValueKey
    case LastUpdatedField(_) => LastUpdatedKey
  }

  /** Whether `data` holds an entry for `key`. */
  predicate Sets(data: seq<FieldValue>, key: Key)
  {
    exists i :: 0 <= i < |data| && KeyOf(data[i]) == key
  }

  lemma {:induction false} ApplyAllFrame(p: Portfolio, data: seq<FieldValue>)
    ensures var r := ApplyAll(p, data);
            r.id == p.id
            && (!Sets(data, UserIdKey) ==> r.userId == p.userId)
            && (!Sets(data, AssetNameKey) ==> r.assetName == p.assetName)
            && (!Sets(data, AssetTypeKey) ==> r.assetType == p.assetType)
            && (!Sets(data, QuantityKey) ==> r.quantity == p.quantity)
            && (!Sets(data, PurchasePriceKey) ==> r.purchasePrice == p.purchasePrice)
            && (!Sets(data, PurchaseDateKey) ==> r.purchaseDate == p.purchaseDate)
            && (!Sets(data, CurrentValueKey) ==> r.currentValue == p.currentValue)
  {
    if data != [] {
      var init := data[..|data| - 1];
      ApplyAllFrame(p, init);
      SetsSplit(data);
      ApplyFrame(ApplyAll(p, init), data[|data| - 1]);
    }
  }

  /** A key is set by a non-empty list exactly when it is set by all but the last entry, or by the last. */
  lemma SetsSplit(data: seq<FieldValue>)
    requires data != []
    ensures forall k :: Sets(data, k) <==> Sets(data[..|data| - 1], k) || KeyOf(data[|data| - 1]) == k
  {
    var init := data[..|data| - 1];
    forall k ensures Sets(data, k) <==> Sets(init, k) || KeyOf(data[|data| - 1]) == k {
      if Sets(data, k) {
        var i :| 0 <= i < |data| && KeyOf(data[i]) == k;
        if i < |init| {
          assert KeyOf(init[i]) == k;
        }
      }
      if Sets(init, k) {
        var i :| 0 <= i < |init| && KeyOf(init[i]) == k;
        assert KeyOf(data[i]) == k;
      }
      if KeyOf(data[|data| - 1]) == k {
        assert KeyOf(data[|data| - 1]) == k;
      }
    }
  }

  /** One entry changes only the field of its own key. */
  lemma ApplyFrame(p: Portfolio, f: FieldValue)
    ensures var r := Apply(p, f);
            r.id == p.id
            && (KeyOf(f) != UserIdKey ==> r.userId == p.userId)
            && (KeyOf(f) != AssetNameKey ==> r.assetName == p.assetName)
            && (KeyOf(f) != AssetTypeKey ==> r.assetType == p.assetType)
            && (KeyOf(f) != QuantityKey ==> r.quantity == p.quantity)
            && (KeyOf(f) != PurchasePriceKey ==> r.purchasePrice == p.purchasePrice)
            && (KeyOf(f) != PurchaseDateKey ==> r.purchaseDate == p.purchaseDate)
            && (KeyOf(f) != CurrentValueKey ==> r.currentValue == p.currentValue)
  {
  }

  lemma {:induction false} ApplyAllStamp(p: Portfolio, data: seq<FieldValue>, now: int)
    requires forall f :: f in data && f.LastUpdatedField? ==> f.at == now
    requires LastUpdatedField(now) in data
    ensures ApplyAll(p, data).lastUpdated == now
  {
    var last := data[|data| - 1];
    var init := data[..|data| - 1];
    assert data == init + [last];
    if !last.LastUpdatedField? {
      assert LastUpdatedField(now) in init;
      ApplyAllStamp(p, init, now);
    }
  }

  /**
   * An update changes only the fields the caller supplied, plus
   * `last_updated`, which becomes the time of the update.
   */
  lemma UpdateTouchesOnlySupplied(p: Portfolio, data: seq<FieldValue>, now: int)
    ensures var r := ApplyAll(p, Stamped(data, now));
            r.lastUpdated == now && r.id == p.id
            && (!Sets(data, UserIdKey) ==> r.userId == p.userId)
            && (!Sets(data, AssetNameKey) ==> r.assetName == p.assetName)
            && (!Sets(data, AssetTypeKey) ==> r.assetType == p.assetType)
            && (!Sets(data, QuantityKey) ==> r.quantity == p.quantity)
            && (!Sets(data, PurchasePriceKey) ==> r.purchasePrice == p.purchasePrice)
            && (!Sets(data, PurchaseDateKey) ==> r.purchaseDate == p.purchaseDate)
            && (!Sets(data, CurrentValueKey) ==> r.currentValue == p.currentValue)
  {
    var s := Stamped(data, now);
    ApplyAllFrame(p, s);
    assert forall f :: f in s && f.LastUpdatedField? ==> f.at == now;
    ApplyAllStamp(p, s, now);
    SetsStamped(data, now);
  }

  /** Stamping adds no field other than `last_updated`. */
  lemma SetsStamped(data: seq<FieldValue>, now: int)
    ensures forall k :: k != LastUpdatedKey && Sets(Stamped(data, now), k) ==> Sets(data, k)
  {
    var s := Stamped(data, now);
    StampedKeys(data, now);
    forall k | k != LastUpdatedKey && Sets(s, k) ensures Sets(data, k) {
      var i :| 0 <= i < |s| && KeyOf(s[i]) == k;
      assert KeyOf(data[i]) == k;
    }
  }

  /** Stamping keeps each entry's key and may add a `last_updated` entry at the end. */
  lemma StampedKeys(data: seq<FieldValue>, now: int)
    ensures |data| <= |Stamped(data, now)|
    ensures forall i :: 0 <= i < |data| ==> KeyOf(Stamped(data, now)[i]) == KeyOf(data[i])
    ensures forall i :: |data| <= i < |Stamped(data, now)| ==> KeyOf(Stamped(data, now)[i]) == LastUpdatedKey
  {
  }

  /** The holding `get_portfolio_item` finds: the one with id `id`, if `userId` owns it. */
  function ItemOf(items: map<string, Portfolio>, id: string, userId: string): (r: Option<Portfolio>)
    ensures r.Some? <==> id in items && items[id].userId == userId
    ensures r.Some? ==> r.value == items[id]
  {
    if id in items && items[id].userId == userId then Some(items[id]) else None
  }

  /** The store of holdings, keyed by document id. */
  class PortfolioStore {
    var items: map<string, Portfolio>

    /** Each holding is stored under its own id. */
    ghost predicate Valid()
      reads this
    {
      forall id :: id in items ==> items[id].id == id
    }

    constructor ()
      ensures items == map[] && Valid()
    {
      items := map[];
    }

    /** `get_user_portfolio`: every holding of `userId`, each once. */
    method GetUserPortfolio(userId: string) returns (r: seq<Portfolio>)
      requires Valid()
      ensures forall p :: p in r <==> p in items.Values && p.userId == userId
      ensures forall i, j :: 0 <= i < j < |r| ==> r[i].id != r[j].id
    {
      r := [];
      var remaining := items.Keys;
      while remaining != {}
        invariant remaining <= items.Keys
        invariant forall p :: p in r <==> exists id :: id in items && id !in remaining && items[id] == p && p.userId == userId
        invariant forall p :: p in r ==> p.id in items && p.id !in remaining
        invariant forall i, j :: 0 <= i < j < |r| ==> r[i].id != r[j].id
        decreases remaining
      {
        var id :| id in remaining;
        if items[id].userId == userId {
          r := r + [items[id]];
        }
        remaining := remaining - {id};
      }
    }

    /** `get_portfolio_item`. */
    method GetPortfolioItem(id: string, userId: string) returns (r: Option<Portfolio>)
      ensures r == ItemOf(items, id, userId)
    {
      if id in items && items[id].userId == userId {
        r := Some(items[id]);
      } else {
        r := None;
      }
    }

    /** `create_portfolio_asset`, with `newId` the id the database assigns and `now` the clock. */
    method CreatePortfolioAsset(newId: string, now: int, userId: string, assetName: string, assetType: AssetTypeInput,
                                quantity: real, purchasePrice: real, purchaseDate: int, currentValue: Option<real>)
      returns (p: Portfolio)
      requires Valid() && newId !in items
      modifies this
      ensures Valid()
      ensures p == NewAsset(newId, userId, assetName, assetType, quantity, purchasePrice, purchaseDate, currentValue, now)
      ensures items == old(items)[newId := p]
    {
      var kind := CoerceAssetType(assetType);
      var value := if currentValue.None? then purchasePrice else currentValue.value;
      p := Portfolio(newId, userId, assetName, kind, quantity, purchasePrice, purchaseDate, Some(value), now);
      items := items[newId := p];
    }

    /**
     * `update_portfolio_asset`: nothing for a missing or foreign holding;
     * otherwise the caller's dictionary is coerced and stamped in place
     * (returned as `stamped`) and its entries are applied one by one.
     */
    method UpdatePortfolioAsset(id: string, userId: string, data: seq<FieldValue>, now: int)
      returns (r: Option<Portfolio>, stamped: seq<FieldValue>)
      requires Valid()
      modifies this
      ensures Valid()
      ensures ItemOf(old(items), id, userId).None? ==> r.None? && items == old(items) && stamped == data
      ensures ItemOf(old(items), id, userId).Some? ==>
                stamped == Stamped(data, now)
                && r == Some(ApplyAll(old(items)[id], stamped))
                && items == old(items)[id := r.value]
    {
      var found := GetPortfolioItem(id, userId);
      if found.None? {
        return None, data;
      }
      stamped := Stamped(data, now);
      var item := found.value;
      for i := 0 to |stamped|
        invariant item == ApplyAll(found.value, stamped[..i])
      {
        assert stamped[..i + 1][..i] == stamped[..i];
        item := Apply(item, stamped[i]);
      }
      assert stamped[..|stamped|] == stamped;
      ApplyAllFrame(found.value, stamped);
      items := items[id := item];
      r := Some(item);
    }

    /** `delete_portfolio_asset`: true, with the holding gone, exactly when the caller owns it. */
    method DeletePortfolioAsset(id: string, userId: string) returns (ok: bool)
      requires Valid()
      modifies this
      ensures Valid()
      ensures ok <==> ItemOf(old(items), id, userId).Some?
      ensures items == if ok then old(items) - {id} else old(items)
    {
      var found := GetPortfolioItem(id, userId);
      if found.None? {
        return false;
      }
      items := items - {id};
      ok := true;
    }
  }
}
