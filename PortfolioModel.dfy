/**
 * The portfolio holding document (app/models/portfolio.py) and its three
 * derived values. Here `currentValue` is a price per unit.
 */
module PortfolioModel {
  import opened Domain

  /** The six values of `AssetType`. */
  datatype AssetType = Stock | Bond | Etf | Crypto | RealEstate | OtherAsset

  /** The string value each enumeration member carries. */
  function AssetTypeName(a: AssetType): string
  {
    match a
    case Stock => "stock"
    case Bond => "bond"
    case Etf => "etf"
    case Crypto => "crypto"
    case RealEstate => "real_estate"
    case OtherAsset => "other"
  }

  /**
   * A holding. `id` and `userId` are ObjectIds written as strings; dates
   * are whole seconds since the Unix epoch.
   */
  datatype Portfolio = Portfolio(
    id: string,
    userId: string,
    assetName: string,
    assetType: AssetType,
    quantity: real,
    purchasePrice: real,
    purchaseDate: int,
    currentValue: Option<real>,
    lastUpdated: int)

  /** `total_purchase_value`: what the holding cost. */
  function TotalPurchaseValue(p: Portfolio): real
  {
    p.purchasePrice * p.quantity
  }

  /** `total_current_value`: what the holding is worth now, when a current price is known. */
  function TotalCurrentValue(p: Portfolio): (v: Option<real>)
    ensures v.None? <==> p.currentValue.None?
  {
    if p.currentValue.Some? then Some(p.currentValue.value * p.quantity) else None
  }

  /** `gain_loss_percent`: the change from the purchase price to the current price, in percent. */
  function GainLossPercent(p: Portfolio): (g: Option<real>)
    ensures g.None? <==> p.currentValue.None? || p.purchasePrice <= 0.0
  {
    if p.currentValue.Some? && p.purchasePrice > 0.0
    then Some((p.currentValue.value - p.purchasePrice) / p.purchasePrice * 100.0)
    else None
  }

  /** A defined gain has the sign of the price change, and is zero exactly when the price is unchanged. */
  lemma GainLossSign(p: Portfolio)
    requires GainLossPercent(p).Some?
    ensures var g := GainLossPercent(p).value;
            var c := p.currentValue.value;
            (g > 0.0 <==> c > p.purchasePrice) && (g == 0.0 <==> c == p.purchasePrice) && (g < 0.0 <==> c < p.purchasePrice)
  {
    var c := p.currentValue.value;
    var d := c - p.purchasePrice;
    var q := d / p.purchasePrice;
    assert q * p.purchasePrice == d;
    if d > 0.0 {
      assert q > 0.0;
    } else if d < 0.0 {
      assert q < 0.0;
    }
  }

  /**
   * The gain in percent applied to the purchase value gives the change in
   * total value: `gain * total_purchase_value == (total_current_value -
   * total_purchase_value) * 100`.
   */
  lemma GainLossOfTotals(p: Portfolio)
    requires GainLossPercent(p).Some?
    ensures GainLossPercent(p).value * TotalPurchaseValue(p)
            == (TotalCurrentValue(p).value - TotalPurchaseValue(p)) * 100.0
  {
    var c := p.currentValue.value;
    var pp := p.purchasePrice;
    var q := (c - pp) / pp;
    assert q * pp == c - pp;
    calc {
      GainLossPercent(p).value * TotalPurchaseValue(p);
      q * 100.0 * (pp * p.quantity);
      (q * pp) * p.quantity * 100.0;
      (c - pp) * p.quantity * 100.0;
      (c * p.quantity - pp * p.quantity) * 100.0;
    }
  }
}
