/**
 * The shopping bag (Modais/BagModal.tsx): line subtotals and the cart total,
 * the quantity buttons, the buyer search box, and checkout, which posts one
 * shop and then one order per cart line.
 */
module BagModal {
  import opened Wrappers
  import opened Folds

  datatype CartProduct = CartProduct(id: string, name: string, price: int, amount: int)

  /** A `cartFormatted` entry: the product with `priceFormatted` and `subTotal` added. */
  datatype FormattedProduct = FormattedProduct(product: CartProduct, priceFormatted: int, subTotal: int)

  datatype ClientRef = ClientRef(id: string, name: string)

  /** A request to the cart hook. */
  datatype CartRequest = UpdateAmount(productId: string, amount: int) | RemoveProduct(productId: string) | RemoveAll

  /** A POST the checkout issues. */
  datatype Post =
    | ShopPost(clientId: Option<string>, amountPaid: int)
    | OrderPost(productId: string, shopId: string, quantity: int)

  /** What the bottom of the modal shows. */
  datatype CheckoutPanel = CheckoutForm(total: int) | EmptyMessage(text: string)

  const EMPTY_CART_TEXT := "Nenhum item no carrinho"

  /** `price * amount`: one line's subtotal. */
  function LineSubtotal(p: CartProduct): int { p.price * p.amount }

  /** `cartFormatted`: the cart, line by line, with formatted price and subtotal. */
  function CartFormatted(cart: seq<CartProduct>): (r: seq<FormattedProduct>)
    ensures |r| == |cart|
    ensures forall i :: 0 <= i < |cart| ==>
              r[i].product == cart[i] && r[i].priceFormatted == cart[i].price &&
              r[i].subTotal == cart[i].price * cart[i].amount
  {
    seq(|cart|, i requires 0 <= i < |cart| => FormattedProduct(cart[i], cart[i].price, LineSubtotal(cart[i])))
  }

  /** `total`: the fold of `price * amount` over the cart, which is the sum of the subtotals shown line by line. */
  function Total(cart: seq<CartProduct>): (t: int)
    ensures t == SumBy(CartFormatted(cart), (f: FormattedProduct) => f.subTotal)
    ensures cart == [] ==> t == 0
  {
    SumByPointwise(cart, LineSubtotal, CartFormatted(cart), (f: FormattedProduct) => f.subTotal);
    SumBy(cart, LineSubtotal)
  }

  /** Adding one more unit of a line raises the total by that line's price. */
  lemma IncrementRaisesTotal(cart: seq<CartProduct>, i: nat)
    requires i < |cart|
    ensures Total(cart[i := cart[i].(amount := cart[i].amount + 1)]) == Total(cart) + cart[i].price
  {
    SumByUpdate(cart, i, cart[i].(amount := cart[i].amount + 1), LineSubtotal);
  }

  /** The form shows only for a non-empty cart; otherwise the empty-bag message. */
  function Panel(cart: seq<CartProduct>): (p: CheckoutPanel)
    ensures p.CheckoutForm? <==> |cart| > 0
    ensures p.CheckoutForm? ==> p.total == Total(cart)
    ensures p.EmptyMessage? ==> p.text == EMPTY_CART_TEXT
  {
    if |CartFormatted(cart)| > 0 then CheckoutForm(Total(cart)) else EmptyMessage(EMPTY_CART_TEXT)
  }

  /** The order posts for a new shop: one per cart line, in cart order. */
  function OrderPosts(cart: seq<CartProduct>, shopId: string): (r: seq<Post>)
    ensures |r| == |cart|
    ensures forall i :: 0 <= i < |cart| ==> r[i] == OrderPost(cart[i].id, shopId, cart[i].amount)
    decreases |cart|
  {
    if |cart| == 0 then []
    else OrderPosts(cart[..|cart| - 1], shopId) + [OrderPost(cart[|cart| - 1].id, shopId, cart[|cart| - 1].amount)]
  }

  /** The modal's own state and the requests it issues. */
  class Bag {
    var searchClient: seq<ClientRef>
    /** `None` is the empty object `{}`, whose `id` is undefined. */
    var selectClient: Option<ClientRef>
    var haveText: bool
    /** Every name searched with `GET clients?name=`, in order. */
    var searches: seq<string>
    var cartRequests: seq<CartRequest>
    var posts: seq<Post>

    constructor ()
      ensures searchClient == [] && selectClient == None && !haveText
      ensures searches == [] && cartRequests == [] && posts == []
    {
      searchClient := [];
      selectClient := None;
      haveText := false;
      searches := [];
      cartRequests := [];
      posts := [];
    }

    /** The plus button: ask the cart for one more unit of this product. */
    method HandleProductIncrement(p: CartProduct)
      modifies this
      ensures cartRequests == old(cartRequests) + [UpdateAmount(p.id, p.amount + 1)]
      ensures posts == old(posts) && searches == old(searches)
      ensures searchClient == old(searchClient) && selectClient == old(selectClient) && haveText == old(haveText)
    {
      cartRequests := cartRequests + [UpdateAmount(p.id, p.amount + 1)];
    }

    /** The minus button: ask for one unit less, with no lower bound here. */
    method HandleProductDecrement(p: CartProduct)
      modifies this
      ensures cartRequests == old(cartRequests) + [UpdateAmount(p.id, p.amount - 1)]
      ensures posts == old(posts) && searches == old(searches)
      ensures searchClient == old(searchClient) && selectClient == old(selectClient) && haveText == old(haveText)
    {
      cartRequests := cartRequests + [UpdateAmount(p.id, p.amount - 1)];
    }

    /** The trash button. */
    method HandleRemoveProduct(productId: string)
      modifies this
      ensures cartRequests == old(cartRequests) + [RemoveProduct(productId)]
      ensures posts == old(posts) && searches == old(searches)
      ensures searchClient == old(searchClient) && selectClient == old(selectClient) && haveText == old(haveText)
    {
      cartRequests := cartRequests + [RemoveProduct(productId)];
    }

    /**
     * `getClient`, on every change of the buyer field. `found` is the answer
     * of the search, `None` when it fails (the handler then stops at the await).
     */
    method GetClient(value: string, found: Option<seq<ClientRef>>)
      modifies this
      ensures selectClient == None
      ensures cartRequests == old(cartRequests) && posts == old(posts)
      ensures |value| == 0 ==>
                !haveText && searches == old(searches) && searchClient == old(searchClient)
      ensures |value| > 0 ==> searches == old(searches) + [value]
      ensures |value| > 0 && found.Some? ==> haveText && searchClient == found.value
      ensures |value| > 0 && found.None? ==> haveText == old(haveText) && searchClient == old(searchClient)
    {
      selectClient := None;
      if |value| <= 0 {
        haveText := false;
      }
      if |value| > 0 {
        searches := searches + [value];
        if found.Some? {
          searchClient := found.value;
          haveText := true;
        }
      }
    }

    /** `closeOptionsClients`: pick a buyer from the list and close it. */
    method CloseOptionsClients(c: ClientRef)
      modifies this
      ensures selectClient == Some(c) && !haveText
      ensures searchClient == old(searchClient) && searches == old(searches)
      ensures cartRequests == old(cartRequests) && posts == old(posts)
    {
      selectClient := Some(c);
      haveText := false;
    }

    /** The id the shop POST sends: `selectClient.id`, undefined for `{}`. */
    function SelectedClientId(): (id: Option<string>)
      reads this
      ensures id.Some? <==> selectClient.Some?
      ensures id.Some? ==> id.value == selectClient.value.id
    {
      match selectClient
      case None => None
      case Some(c) => Some(c.id)
    }

    /**
     * `onSubmit`: post the shop; `shopId` is the id it answers with, `None`
     * when it fails (the catch block swallows the error and nothing else
     * happens). On success, one order POST per line, then the cart is emptied.
     */
    method Checkout(cart: seq<CartProduct>, amountPaid: int, shopId: Option<string>)
      modifies this
      ensures shopId.None? ==>
                posts == old(posts) + [ShopPost(old(SelectedClientId()), amountPaid)] &&
                cartRequests == old(cartRequests)
      ensures shopId.Some? ==>
                posts == old(posts) + [ShopPost(old(SelectedClientId()), amountPaid)] + OrderPosts(cart, shopId.value) &&
                cartRequests == old(cartRequests) + [RemoveAll]
      ensures searchClient == old(searchClient) && selectClient == old(selectClient)
      ensures haveText == old(haveText) && searches == old(searches)
    {
      posts := posts + [ShopPost(SelectedClientId(), amountPaid)];
      if shopId.None? {
        return;
      }
      var id := shopId.value;
      var formatted := CartFormatted(cart);
      var sent := posts;
      var i := 0;
      while i < |formatted|
        invariant 0 <= i <= |formatted|
        invariant sent == posts + OrderPosts(cart[..i], id)
      {
        assert cart[..i + 1][..i] == cart[..i];
        sent := sent + [OrderPost(formatted[i].product.id, id, formatted[i].product.amount)];
        i := i + 1;
      }
      assert cart[..i] == cart;
      posts := sent;
      cartRequests := cartRequests + [RemoveAll];
    }
  }
}
