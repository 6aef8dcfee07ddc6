/** The stock badge of app/components/StockStatus.tsx: a three-way decision on
    the `inStock` and `preOrderOnly` flags in which pre-order wins. */
module StockStatus {

  datatype Badge = OnOrder | Available | Unavailable {
    /** The text on the badge. */
    function Text(): string {
      match this
      case OnOrder => "Под заказ"
      case Available => "В наличии"
      case Unavailable => "Нет в наличии"
    }
  }

  /** The badge for the two flags. */
  function StatusBadge(inStock: bool, preOrderOnly: bool): (b: Badge)
    ensures b == OnOrder <==> preOrderOnly
    ensures b == Available <==> inStock && !preOrderOnly
    ensures b == Unavailable <==> !inStock && !preOrderOnly
  {
    if preOrderOnly then OnOrder
    else if inStock then Available
    else Unavailable
  }

  /** The three badges read differently, so the text alone tells the status. */
  lemma TextsDistinct(a: Badge, b: Badge)
    requires a.Text() == b.Text()
    ensures a == b
  {
  }
}
