/** components/ProductDetail.tsx: a session-local copy of the scanned product whose stock
    can be nudged up and down, its status, and the alert offered for it. */
module ProductDetail {
  import opened Types
  import Strings
  import Utils

  /** The product after `adjustStock(amount)`: the count moves by `amount` but never below
      zero, and every other field is kept. */
  function Adjusted(p: Product, amount: int): (q: Product)
    ensures q.stock >= 0
    ensures p.stock + amount >= 0 ==> q.stock == p.stock + amount
    ensures p.stock + amount < 0 ==> q.stock == 0
    ensures q == p.(stock := q.stock)
  {
    p.(stock := if 0 < p.stock + amount then p.stock + amount else 0)
  }

  /** For a non-negative count, one increase followed by one decrease gives the product
      back; a decrease at zero leaves it at zero. */
  lemma IncreaseThenDecreaseRestores(p: Product)
    requires p.stock >= 0
    ensures Adjusted(Adjusted(p, 1), -1) == p
    ensures p.stock == 0 ==> Adjusted(p, -1) == p
  {
  }

  /** Adjustments that never hit the floor add up. */
  lemma AdjustmentsCompose(p: Product, a: int, b: int)
    requires p.stock + a >= 0 && p.stock + a + b >= 0
    ensures Adjusted(Adjusted(p, a), b) == Adjusted(p, a + b)
  {
  }

  /** The tiers for which the manager alert is offered. */
  predicate ShowsAlert(status: StockStatus) {
    status == LOW || status == MONITOR
  }

  /** The alert is offered exactly for counts of 50 or less, whatever the product's own
      threshold. */
  lemma AlertShownIffAtMostFifty(stock: int)
    ensures ShowsAlert(Utils.GetStockStatus(stock)) <==> stock <= 50
  {
  }

  /** The detail screen's state: its own copy of the product. */
  class ProductDetailView {
    var product: Product
    const settings: AppSettings

    /** The copy starts equal to the product handed in. */
    constructor (initialProduct: Product, settings: AppSettings)
      ensures product == initialProduct && this.settings == settings
    {
      product := initialProduct;
      this.settings := settings;
    }

    /** The Increase (+1) and Decrease (-1) buttons. */
    method AdjustStock(amount: int)
      modifies this
      ensures product == Adjusted(old(product), amount)
      ensures product.stock >= 0
    {
      var next := product.stock + amount;
      if next < 0 {
        next := 0;
      }
      product := product.(stock := next);
    }

    /** The tier shown for the current count. */
    function Status(): (status: StockStatus)
      reads this
      ensures status == HEALTHY <==> product.stock > 50
      ensures status == MONITOR <==> 20 <= product.stock <= 50
      ensures status == LOW <==> product.stock < 20
    {
      Utils.GetStockStatus(product.stock)
    }

    /** Whether the low-stock warning and the report button are shown. */
    function ShowAlert(): (shown: bool)
      reads this
      ensures shown <==> product.stock <= 50
    {
      ShowsAlert(Status())
    }

    /** The report link, present only while the alert is shown; it is built from the
        local copy, so it reports the adjusted count. */
    function ReportLink(date: string, encode: string -> string): (link: Option<string>)
      reads this
      ensures link.Some? <==> product.stock <= 50
      ensures link.Some? ==>
        Utils.ParseWhatsAppLink(link.value) ==
        Some((Strings.DigitsOnly(settings.managerPhone), encode(Utils.AlertMessage(product, settings, date))))
    {
      if ShowAlert() then
        Utils.WhatsAppLinkRoundTrip(product, settings, date, encode);
        Some(Utils.WhatsAppLink(product, settings, date, encode))
      else None
    }
  }
}
