/** The order request that processarCompra posts to POST /api/pedidos: one line per
    cart entry, in cart order, and a single payment of the whole cart total. */
module Checkout {
  import opened Common
  import opened Api
  import opened Cart

  /** The fixed note the web storefront attaches to every order. */
  const WebOrderNote := "Pedido realizado via sistema web"

  /** `carrinho.map(item => ({ id_produto: item.id, quantidade: item.quantidade }))`. */
  function OrderLines(items: seq<CartItem>): (r: seq<LineRequest>)
    ensures |r| == |items|
    ensures forall k :: 0 <= k < |items| ==> r[k] == LineRequest(items[k].id, items[k].quantidade)
  {
    if |items| == 0 then []
    else [LineRequest(items[0].id, items[0].quantidade)] + OrderLines(items[1..])
  }

  /** The body processarCompra sends, or nothing when no user (or a user with a
      falsy id) is logged in. `today` is the client's current date. */
  function CheckoutRequest(currentUserId: Option<int>, items: seq<CartItem>, formaPagamento: string, today: int)
    : (r: Option<OrderRequest>)
    ensures r.None? <==> currentUserId.None? || currentUserId.value == 0
    ensures r.Some? ==> r.value.idConta == currentUserId.value && r.value.dataPedido == today
    ensures r.Some? ==> |r.value.produtos| == |items|
    ensures r.Some? ==> forall k :: 0 <= k < |items| ==>
                          r.value.produtos[k].idProduto == items[k].id &&
                          r.value.produtos[k].quantidade == items[k].quantidade
    ensures r.Some? ==> r.value.formasPagamento == [PaymentRequest(formaPagamento, CartTotal(items))]
    ensures r.Some? ==> r.value.observacoes == WebOrderNote
  {
    match currentUserId
    case None => None
    case Some(id) =>
      if id == 0 then None
      else Some(OrderRequest(id, today, OrderLines(items), [PaymentRequest(formaPagamento, CartTotal(items))], WebOrderNote))
  }
}
