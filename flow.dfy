/** What the storefront's checkout and the order handler agree on: the single
    payment the client sends equals the total the server stores exactly when the
    cart's prices are the catalogue's current prices. */
module CheckoutFlow {
  import opened Common
  import opened Api
  import opened Cart
  import opened Checkout
  import opened Store
  import opened Orders

  /** Every cart entry's product is in the server's catalogue at the price the cart shows. */
  ghost predicate PricesCurrent(items: seq<CartItem>, produtos: map<int, Product>) {
    forall k :: 0 <= k < |items| ==> items[k].id in produtos && produtos[items[k].id].preco == items[k].preco
  }

  /** With current prices, the server's total of the checkout lines is the cart total. */
  lemma {:induction false} ServerTotalMatchesCart(items: seq<CartItem>, produtos: map<int, Product>)
    requires PricesCurrent(items, produtos)
    ensures OrderTotal(produtos, OrderLines(items)) == CartTotal(items)
    decreases |items|
  {
    if |items| > 0 {
      var init := items[..|items| - 1];
      assert PricesCurrent(init, produtos);
      ServerTotalMatchesCart(init, produtos);
      var lines := OrderLines(items);
      assert lines[..|lines| - 1] == OrderLines(init);
    }
  }

  /** With current prices, a checkout request is accepted by the order handler and its
      one payment carries exactly the total the handler stores with the order. */
  lemma CheckoutPaysTheOrderTotal(userId: Option<int>, items: seq<CartItem>, forma: string, today: int,
                                  produtos: map<int, Product>)
    requires PricesCurrent(items, produtos)
    requires CheckoutRequest(userId, items, forma, today).Some?
    ensures AllProductsExist(produtos, CheckoutRequest(userId, items, forma, today).value.produtos)
    ensures CheckoutRequest(userId, items, forma, today).value.formasPagamento ==
            [PaymentRequest(forma, OrderTotal(produtos, CheckoutRequest(userId, items, forma, today).value.produtos))]
  {
    var req := CheckoutRequest(userId, items, forma, today).value;
    assert req.produtos == OrderLines(items);
    ServerTotalMatchesCart(items, produtos);
  }

  /** A cart entry whose product has left the catalogue makes the order handler abort
      without storing anything. */
  lemma CheckoutOfRemovedProductFails(userId: Option<int>, items: seq<CartItem>, forma: string, today: int,
                                      produtos: map<int, Product>, k: int)
    requires CheckoutRequest(userId, items, forma, today).Some?
    requires 0 <= k < |items| && items[k].id !in produtos
    ensures !AllProductsExist(produtos, CheckoutRequest(userId, items, forma, today).value.produtos)
  {
    var req := CheckoutRequest(userId, items, forma, today).value;
    assert req.produtos[k].idProduto == items[k].id;
  }

  /** The handler does not compare the payment with the total: after a price change
      the stored total and the stored payment disagree. */
  lemma StalePriceIsNotDetected()
    ensures var items := [CartItem(1, "Arroz", 500, 2)];
            var produtos := map[1 := Product("Arroz", "Alimentos", None, 600, 10, None, Ativo)];
            var req := CheckoutRequest(Some(7), items, "pix", 0).value;
            AllProductsExist(produtos, req.produtos) &&
            req.formasPagamento[0].valor == 1000 && OrderTotal(produtos, req.produtos) == 1200
  {
    var items := [CartItem(1, "Arroz", 500, 2)];
    var produtos := map[1 := Product("Arroz", "Alimentos", None, 600, 10, None, Ativo)];
    var lines := OrderLines(items);
    assert lines == [LineRequest(1, 2)];
    assert lines[..0] == [];
    assert CartTotal(items) == 1000 by {
      assert items[..0] == [];
    }
  }
}
