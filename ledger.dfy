/**
 * The client ledger of the details modal (DetailsClientsShop.tsx): what the
 * client paid over all purchases, plus their standalone credits, minus what
 * their orders cost. Amounts are integer minor units.
 */
module Ledger {
  import opened Wrappers
  import opened Folds

  datatype Product = Product(id: string, name: string, price: int)
  datatype Order = Order(id: string, quantity: int, product: Product)
  datatype Shop = Shop(id: string, orders: seq<Order>, amountPaid: int)
  datatype Credit = Credit(id: string, value: int)
  datatype Client = Client(id: string, name: string, shops: seq<Shop>, credits: seq<Credit>)

  /** Heading colours of the balance. */
  const GREEN := "#00fa00"
  const RED := "red"

  function AmountPaid(s: Shop): int { s.amountPaid }
  function CreditValue(c: Credit): int { c.value }

  /** `quantity * product.price`: what one order line costs. */
  function LineTotal(o: Order): int { o.quantity * o.product.price }

  /** One shop's debt: the fold over its orders. */
  function ShopDebt(s: Shop): int { SumBy(s.orders, LineTotal) }

  /** `todosOsValoresPagosPelosClients`: the fold of `amountPaid` over the shops. */
  function PaidTotal(shops: seq<Shop>): (r: int)
    ensures r == Sum(seq(|shops|, i requires 0 <= i < |shops| => shops[i].amountPaid))
  {
    SumOfMapped(shops, seq(|shops|, i requires 0 <= i < |shops| => shops[i].amountPaid), AmountPaid);
    SumBy(shops, AmountPaid)
  }

  /** `dividaDoClient`: one debt per shop, in shop order. */
  function ShopDebts(shops: seq<Shop>): (r: seq<int>)
    ensures |r| == |shops|
    ensures forall i :: 0 <= i < |shops| ==> r[i] == SumBy(shops[i].orders, LineTotal)
  {
    seq(|shops|, i requires 0 <= i < |shops| => ShopDebt(shops[i]))
  }

  /**
   * `somarTodasAsDividasDosClients`: the per-shop debts added up. It is the
   * fold of the shops by their own debt, and the flat sum over all orders.
   */
  function DebtTotal(shops: seq<Shop>): (r: int)
    ensures r == SumBy(shops, ShopDebt)
    ensures r == SumBy(AllOrders(shops), LineTotal)
  {
    SumOfMapped(shops, ShopDebts(shops), ShopDebt);
    DebtIsFlatSum(shops);
    Sum(ShopDebts(shops))
  }

  /** `creditoDoClient`: the fold of `value` over the credits. */
  function CreditTotal(credits: seq<Credit>): (r: int)
    ensures r == Sum(seq(|credits|, i requires 0 <= i < |credits| => credits[i].value))
  {
    SumOfMapped(credits, seq(|credits|, i requires 0 <= i < |credits| => credits[i].value), CreditValue);
    SumBy(credits, CreditValue)
  }

  /** `clientDebit`: paid plus credits minus debt, which is the closed form. */
  function Balance(c: Client): (b: int)
    ensures b == ClosedFormBalance(c)
  {
    PaidTotal(c.shops) + CreditTotal(c.credits) - DebtTotal(c.shops)
  }

  /** The heading colour chosen by the sign of the balance. */
  function IndicatorColor(balance: int): (color: string)
    ensures color == GREEN <==> balance >= 0
    ensures color == RED <==> balance < 0
  {
    if balance >= 0 then GREEN else RED
  }

  // ---------------------------------------------------------------------
  // The reference definition: one flat sum over every order of every shop.

  /** Every order of every shop, shop by shop. */
  function AllOrders(shops: seq<Shop>): seq<Order>
    decreases |shops|
  {
    if |shops| == 0 then [] else AllOrders(shops[..|shops| - 1]) + shops[|shops| - 1].orders
  }

  /** The balance as one closed form: Σ amountPaid + Σ value − Σ quantity·price over all orders. */
  function ClosedFormBalance(c: Client): int
  {
    SumBy(c.shops, AmountPaid) + SumBy(c.credits, CreditValue) - SumBy(AllOrders(c.shops), LineTotal)
  }

  /** The two-level reduction, shop by shop, is the flat sum over all orders of all shops. */
  lemma {:induction false} DebtIsFlatSum(shops: seq<Shop>)
    ensures SumBy(shops, ShopDebt) == SumBy(AllOrders(shops), LineTotal)
    decreases |shops|
  {
    if |shops| > 0 {
      var init := shops[..|shops| - 1];
      DebtIsFlatSum(init);
      SumByAppend(AllOrders(init), shops[|shops| - 1].orders, LineTotal);
    }
  }

  /** No shops and no credits: the balance is zero, and so it shows in green. */
  lemma EmptyClientBalance(id: string, name: string)
    ensures Balance(Client(id, name, [], [])) == 0
    ensures IndicatorColor(Balance(Client(id, name, [], []))) == GREEN
  {
    assert ShopDebts([]) == [];
  }

  /** A shop without orders contributes only what was paid for it. */
  lemma ShopWithoutOrders(c: Client, s: Shop)
    requires s.orders == []
    ensures Balance(c.(shops := c.shops + [s])) == Balance(c) + s.amountPaid
  {
    var shops' := c.shops + [s];
    assert shops'[..|shops'| - 1] == c.shops;
  }

  /** Receiving a credit of value `v` raises the balance by exactly `v`. */
  lemma CreditRaisesBalance(c: Client, cr: Credit)
    ensures Balance(c.(credits := c.credits + [cr])) == Balance(c) + cr.value
  {
    var credits' := c.credits + [cr];
    assert credits'[..|credits'| - 1] == c.credits;
  }

  /** One more order of `quantity` at `price` in shop `i` lowers the balance by `quantity * price`. */
  lemma OrderLowersBalance(c: Client, i: nat, o: Order)
    requires i < |c.shops|
    ensures var s := c.shops[i];
            Balance(c.(shops := c.shops[i := s.(orders := s.orders + [o])]))
            == Balance(c) - o.quantity * o.product.price
  {
    var s := c.shops[i];
    var s' := s.(orders := s.orders + [o]);
    var shops' := c.shops[i := s'];
    SumByUpdate(c.shops, i, s', AmountPaid);
    SumByUpdate(c.shops, i, s', ShopDebt);
    SumByAppend(s.orders, [o], LineTotal);
    SumBySingleton(o, LineTotal);
  }

  /** Reordering the shops or the credits leaves the balance unchanged. */
  lemma BalanceIgnoresRecordOrder(c: Client, shops: seq<Shop>, credits: seq<Credit>)
    requires multiset(shops) == multiset(c.shops)
    requires multiset(credits) == multiset(c.credits)
    ensures Balance(c.(shops := shops, credits := credits)) == Balance(c)
  {
    SumByPermutation(shops, c.shops, AmountPaid);
    SumByPermutation(credits, c.credits, CreditValue);
    SumByPermutation(shops, c.shops, ShopDebt);
  }

  /** Reordering the orders inside each shop leaves the balance unchanged. */
  lemma BalanceIgnoresOrderOrder(c: Client, shops: seq<Shop>)
    requires |shops| == |c.shops|
    requires forall i :: 0 <= i < |shops| ==>
               shops[i].amountPaid == c.shops[i].amountPaid &&
               multiset(shops[i].orders) == multiset(c.shops[i].orders)
    ensures Balance(c.(shops := shops)) == Balance(c)
  {
    forall i | 0 <= i < |shops|
      ensures ShopDebt(shops[i]) == ShopDebt(c.shops[i])
    {
      SumByPermutation(shops[i].orders, c.shops[i].orders, LineTotal);
    }
    SumByPointwise(shops, AmountPaid, c.shops, AmountPaid);
    SumByPointwise(shops, ShopDebt, c.shops, ShopDebt);
  }

  // ---------------------------------------------------------------------
  // What the modal shows.

  /** The heading: the balance and its colour; `None` while the query has no data (NaN). */
  datatype Heading = Heading(amount: Option<int>, color: string)

  /** One purchase in the list: the shop's order total, what was paid, and each line's total. */
  datatype ShopView = ShopView(total: int, paid: int, lineTotals: seq<int>)

  /**
   * The heading over the client's name. While `data` is undefined the sums are
   * `undefined` and the balance is NaN, which fails `>= 0` and shows in red.
   */
  function DetailsHeading(data: Option<Client>): (h: Heading)
    ensures data.None? ==> h == Heading(None, RED)
    ensures data.Some? ==> h.amount == Some(ClosedFormBalance(data.value))
    ensures h.color == GREEN <==> (h.amount.Some? && h.amount.value >= 0)
  {
    match data
    case None => Heading(None, RED)
    case Some(c) =>
      var b := Balance(c);
      Heading(Some(b), IndicatorColor(b))
  }

  /** The per-shop rows: the inline order total, the amount paid, and `quantity * price` per line. */
  function ShopViews(shops: seq<Shop>): (r: seq<ShopView>)
    ensures |r| == |shops|
    ensures forall i :: 0 <= i < |shops| ==> r[i].total == ShopDebts(shops)[i] && r[i].paid == shops[i].amountPaid
    ensures forall i :: 0 <= i < |shops| ==> |r[i].lineTotals| == |shops[i].orders|
    ensures forall i, j :: 0 <= i < |shops| && 0 <= j < |shops[i].orders| ==>
              r[i].lineTotals[j] == shops[i].orders[j].quantity * shops[i].orders[j].product.price
  {
    seq(|shops|, i requires 0 <= i < |shops| =>
      ShopView(SumBy(shops[i].orders, LineTotal), shops[i].amountPaid,
               seq(|shops[i].orders|, j requires 0 <= j < |shops[i].orders| => LineTotal(shops[i].orders[j]))))
  }

  /** The shop totals on screen add up to the debt the balance subtracts. */
  lemma ShownTotalsAreDebt(shops: seq<Shop>)
    ensures SumBy(ShopViews(shops), (v: ShopView) => v.total) == DebtTotal(shops)
  {
    var views := ShopViews(shops);
    SumByPointwise(views, (v: ShopView) => v.total, ShopDebts(shops), Id);
  }
}
