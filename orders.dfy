/** POST /api/pedidos: in one transaction, price the requested lines from the
    catalogue, insert the order, one line per requested product with the unit price
    of that moment, one payment per requested payment, and the order's shipment. */
module Orders {
  import opened Common
  import opened Api
  import opened Store
  import opened Customers

  /** Shipping address used when the customer's profile has none. */
  const NoAddress := "Endereço não informado"
  /** Days from the order to its estimated delivery. */
  const DeliveryDays := 7
  /** First letters of every tracking code. */
  const TrackingPrefix := "BR"

  /** What the first loop adds for one requested line: nothing when the product is unknown. */
  function LineValue(produtos: map<int, Product>, line: LineRequest): int {
    if line.idProduto in produtos then produtos[line.idProduto].preco * line.quantidade else 0
  }

  /** The order total: the sum of price times quantity over the lines whose product
      exists, whatever the product's status. It is zero when no line names an existing
      product, and never negative when no price and no quantity is. */
  function OrderTotal(produtos: map<int, Product>, lines: seq<LineRequest>): (r: int)
    ensures (forall k :: 0 <= k < |lines| ==> lines[k].idProduto !in produtos) ==> r == 0
    ensures ((forall id :: id in produtos ==> produtos[id].preco >= 0) &&
             (forall k :: 0 <= k < |lines| ==> lines[k].quantidade >= 0)) ==> r >= 0
    decreases |lines|
  {
    if |lines| == 0 then 0
    else OrderTotal(produtos, lines[..|lines| - 1]) + LineValue(produtos, lines[|lines| - 1])
  }

  /** Every requested product exists, so the second loop never reads a missing row. */
  ghost predicate AllProductsExist(produtos: map<int, Product>, lines: seq<LineRequest>) {
    forall k :: 0 <= k < |lines| ==> lines[k].idProduto in produtos
  }

  /** The order lines inserted for order `pedidoId`: one per request line, in order,
      each with the product's current price and that price times the quantity. */
  function PricedLines(produtos: map<int, Product>, pedidoId: int, lines: seq<LineRequest>): (r: seq<ItemPedido>)
    requires AllProductsExist(produtos, lines)
    ensures |r| == |lines|
    ensures forall k :: 0 <= k < |lines| ==>
              r[k] == ItemPedido(pedidoId, lines[k].idProduto, lines[k].quantidade,
                                 produtos[lines[k].idProduto].preco,
                                 produtos[lines[k].idProduto].preco * lines[k].quantidade)
    decreases |lines|
  {
    if |lines| == 0 then []
    else
      var line := lines[|lines| - 1];
      var preco := produtos[line.idProduto].preco;
      PricedLines(produtos, pedidoId, lines[..|lines| - 1]) +
        [ItemPedido(pedidoId, line.idProduto, line.quantidade, preco, preco * line.quantidade)]
  }

  lemma PricedLinesOneMore(produtos: map<int, Product>, pedidoId: int, lines: seq<LineRequest>, line: LineRequest)
    requires AllProductsExist(produtos, lines) && line.idProduto in produtos
    ensures AllProductsExist(produtos, lines + [line])
    ensures PricedLines(produtos, pedidoId, lines + [line]) ==
            PricedLines(produtos, pedidoId, lines) +
              [ItemPedido(pedidoId, line.idProduto, line.quantidade, produtos[line.idProduto].preco,
                          produtos[line.idProduto].preco * line.quantidade)]
  {
    assert (lines + [line])[..|lines|] == lines;
  }

  /** One iteration of the line loop: the next priced line goes in at the next id. */
  lemma InsertLinesStep(produtos: map<int, Product>, itens: map<int, ItemPedido>, first: int, pedidoId: int,
                        lines: seq<LineRequest>, i: int)
    requires 0 <= i < |lines| && AllProductsExist(produtos, lines[..i]) && lines[i].idProduto in produtos
    ensures AllProductsExist(produtos, lines[..i + 1])
    ensures InsertRows(itens, first, PricedLines(produtos, pedidoId, lines[..i + 1])) ==
            InsertRows(itens, first, PricedLines(produtos, pedidoId, lines[..i]))[
              first + i := ItemPedido(pedidoId, lines[i].idProduto, lines[i].quantidade, produtos[lines[i].idProduto].preco,
                                      produtos[lines[i].idProduto].preco * lines[i].quantidade)]
  {
    assert lines[..i + 1] == lines[..i] + [lines[i]];
    PricedLinesOneMore(produtos, pedidoId, lines[..i], lines[i]);
    InsertOneMore(itens, first, PricedLines(produtos, pedidoId, lines[..i]),
                  ItemPedido(pedidoId, lines[i].idProduto, lines[i].quantidade, produtos[lines[i].idProduto].preco,
                             produtos[lines[i].idProduto].preco * lines[i].quantidade));
  }

  /** Sum of the subtotals of some order lines. */
  function SubtotalSum(rows: seq<ItemPedido>): int
    decreases |rows|
  {
    if |rows| == 0 then 0 else SubtotalSum(rows[..|rows| - 1]) + rows[|rows| - 1].subtotal
  }

  /** When every product exists, the stored total is the sum of the stored line subtotals. */
  lemma {:induction false} TotalIsSumOfSubtotals(produtos: map<int, Product>, pedidoId: int, lines: seq<LineRequest>)
    requires AllProductsExist(produtos, lines)
    ensures SubtotalSum(PricedLines(produtos, pedidoId, lines)) == OrderTotal(produtos, lines)
    decreases |lines|
  {
    if |lines| > 0 {
      var init := lines[..|lines| - 1];
      assert AllProductsExist(produtos, init);
      TotalIsSumOfSubtotals(produtos, pedidoId, init);
      var rows := PricedLines(produtos, pedidoId, lines);
      assert rows[..|rows| - 1] == PricedLines(produtos, pedidoId, init);
    }
  }

  lemma {:induction false} OrderTotalOfConcat(produtos: map<int, Product>, a: seq<LineRequest>, b: seq<LineRequest>)
    ensures OrderTotal(produtos, a + b) == OrderTotal(produtos, a) + OrderTotal(produtos, b)
    decreases |b|
  {
    if |b| > 0 {
      var b' := b[..|b| - 1];
      assert (a + b)[..|a + b| - 1] == a + b';
      assert (a + b)[|a + b| - 1] == b[|b| - 1];
      assert OrderTotal(produtos, b) == OrderTotal(produtos, b') + LineValue(produtos, b[|b| - 1]);
      OrderTotalOfConcat(produtos, a, b');
    } else {
      assert a + b == a;
    }
  }

  /** A line naming an unknown product changes the total by nothing, wherever it stands. */
  lemma UnknownProductAddsNothing(produtos: map<int, Product>, a: seq<LineRequest>, line: LineRequest, b: seq<LineRequest>)
    requires line.idProduto !in produtos
    ensures OrderTotal(produtos, a + [line] + b) == OrderTotal(produtos, a + b)
  {
    OrderTotalOfConcat(produtos, a + [line], b);
    OrderTotalOfConcat(produtos, a, [line]);
    OrderTotalOfConcat(produtos, a, b);
    assert OrderTotal(produtos, [line]) == OrderTotal(produtos, []) + LineValue(produtos, line);
  }

  /** The payment rows inserted for order `pedidoId`: one per requested payment, in order,
      each keeping the whole request entry as its data. */
  function PaymentRows(pedidoId: int, pays: seq<PaymentRequest>): (r: seq<Pagamento>)
    ensures |r| == |pays|
    ensures forall k :: 0 <= k < |pays| ==> r[k] == Pagamento(pedidoId, pays[k].tipo, pays[k].valor, pays[k])
    decreases |pays|
  {
    if |pays| == 0 then []
    else PaymentRows(pedidoId, pays[..|pays| - 1]) + [Pagamento(pedidoId, pays[|pays| - 1].tipo, pays[|pays| - 1].valor, pays[|pays| - 1])]
  }

  lemma PaymentRowsOneMore(pedidoId: int, pays: seq<PaymentRequest>, pay: PaymentRequest)
    ensures PaymentRows(pedidoId, pays + [pay]) == PaymentRows(pedidoId, pays) + [Pagamento(pedidoId, pay.tipo, pay.valor, pay)]
  {
    assert (pays + [pay])[..|pays|] == pays;
  }

  /** One iteration of the payment loop: the next payment row goes in at the next id. */
  lemma InsertPaymentsStep(pagamentos: map<int, Pagamento>, first: int, pedidoId: int, pays: seq<PaymentRequest>, j: int)
    requires 0 <= j < |pays|
    ensures InsertRows(pagamentos, first, PaymentRows(pedidoId, pays[..j + 1])) ==
            InsertRows(pagamentos, first, PaymentRows(pedidoId, pays[..j]))[
              first + j := Pagamento(pedidoId, pays[j].tipo, pays[j].valor, pays[j])]
  {
    assert pays[..j + 1] == pays[..j] + [pays[j]];
    PaymentRowsOneMore(pedidoId, pays[..j], pays[j]);
    InsertOneMore(pagamentos, first, PaymentRows(pedidoId, pays[..j]), Pagamento(pedidoId, pays[j].tipo, pays[j].valor, pays[j]));
  }

  /** The customer's address as the account view reports it, or the placeholder when
      there is no account, no profile or an empty address. Never empty. */
  function ShippingAddress(db: Db, idConta: int): (r: string)
    ensures r != ""
    ensures r != NoAddress ==>
              GetCustomer(db, idConta).Some? && GetCustomer(db, idConta).value.endereco == Some(r)
    ensures (GetCustomer(db, idConta).Some? && GetCustomer(db, idConta).value.endereco.Some? &&
             GetCustomer(db, idConta).value.endereco.value != "") ==>
              Some(r) == GetCustomer(db, idConta).value.endereco
  {
    var view := GetCustomer(db, idConta);
    if view.Some? && view.value.endereco.Some? && view.value.endereco.value != "" then view.value.endereco.value
    else NoAddress
  }

  /** The shipment address is the address column of the account's profile of its own
      kind, or the placeholder when there is no account, no such profile or the column is
      empty. */
  lemma ShippingAddressFromProfile(db: Db, idConta: int)
    ensures idConta !in db.contas ==> ShippingAddress(db, idConta) == NoAddress
    ensures idConta in db.contas && db.contas[idConta].tipo == PF ==>
              var p := JoinedPf(db, db.contas[idConta]);
              ShippingAddress(db, idConta) == if p.Some? && p.value.endereco != "" then p.value.endereco else NoAddress
    ensures idConta in db.contas && db.contas[idConta].tipo != PF ==>
              var p := JoinedPj(db, db.contas[idConta]);
              ShippingAddress(db, idConta) == if p.Some? && p.value.endereco != "" then p.value.endereco else NoAddress
  {
  }

  datatype OrderError = UnknownProduct(idProduto: int)

  /** The shipment inserted with a new order. `today` is the server's date and `token`
      the random part of the tracking code. */
  function NewShipment(db: Db, pedidoId: int, idConta: int, today: int, token: string): (r: Entrega)
    ensures r.idPedido == pedidoId && r.status == DefaultShipmentStatus
    ensures TrackingPrefix <= r.codigoRastreio
    ensures r.previsaoEntrega == today + DeliveryDays && r.dataEnvio.None? && r.dataEntrega.None?
    ensures r.enderecoEntrega == ShippingAddress(db, idConta)
  {
    Entrega(pedidoId, TrackingPrefix + token, ShippingAddress(db, idConta), today + DeliveryDays,
            DefaultShipmentStatus, None, None)
  }

  /** The first loop of POST /api/pedidos: the order total, skipping unknown products. */
  method ComputeTotal(produtos: map<int, Product>, lines: seq<LineRequest>) returns (total: int)
    ensures total == OrderTotal(produtos, lines)
  {
    total := 0;
    var i := 0;
    while i < |lines|
      invariant 0 <= i <= |lines|
      invariant total == OrderTotal(produtos, lines[..i])
    {
      var item := lines[i];
      assert lines[..i + 1][..i] == lines[..i];
      if item.idProduto in produtos {
        total := total + produtos[item.idProduto].preco * item.quantidade;
      }
      i := i + 1;
    }
    assert lines[..i] == lines;
  }

  /** The second loop of POST /api/pedidos: inserts, with consecutive ids from `first`,
      one line per requested product priced from the catalogue, or stops at the first
      product whose price cannot be read. */
  method InsertLines(produtos: map<int, Product>, itens: map<int, ItemPedido>, first: int, pedidoId: int,
                     lines: seq<LineRequest>)
    returns (itens': map<int, ItemPedido>, missing: Option<int>)
    ensures missing.None? <==> AllProductsExist(produtos, lines)
    ensures missing.Some? ==> missing.value !in produtos
    ensures missing.Some? ==> exists k :: 0 <= k < |lines| && lines[k].idProduto == missing.value
    ensures missing.None? ==> itens' == InsertRows(itens, first, PricedLines(produtos, pedidoId, lines))
  {
    itens' := itens;
    var i := 0;
    while i < |lines|
      invariant 0 <= i <= |lines|
      invariant AllProductsExist(produtos, lines[..i])
      invariant itens' == InsertRows(itens, first, PricedLines(produtos, pedidoId, lines[..i]))
    {
      var item := lines[i];
      if item.idProduto !in produtos {
        assert !AllProductsExist(produtos, lines) by { assert lines[i].idProduto !in produtos; }
        return itens', Some(item.idProduto);
      }
      var precoUnitario := produtos[item.idProduto].preco;
      var subtotal := precoUnitario * item.quantidade;
      var row := ItemPedido(pedidoId, item.idProduto, item.quantidade, precoUnitario, subtotal);
      InsertLinesStep(produtos, itens, first, pedidoId, lines, i);
      itens' := itens'[first + i := row];
      i := i + 1;
    }
    assert lines[..i] == lines;
    missing := None;
  }

  /** The third loop of POST /api/pedidos: one payment row per requested payment. */
  method InsertPayments(pagamentos: map<int, Pagamento>, first: int, pedidoId: int, pays: seq<PaymentRequest>)
    returns (pagamentos': map<int, Pagamento>)
    ensures pagamentos' == InsertRows(pagamentos, first, PaymentRows(pedidoId, pays))
  {
    pagamentos' := pagamentos;
    var j := 0;
    while j < |pays|
      invariant 0 <= j <= |pays|
      invariant pagamentos' == InsertRows(pagamentos, first, PaymentRows(pedidoId, pays[..j]))
    {
      var pagamento := pays[j];
      var row := Pagamento(pedidoId, pagamento.tipo, pagamento.valor, pagamento);
      InsertPaymentsStep(pagamentos, first, pedidoId, pays, j);
      pagamentos' := pagamentos'[first + j := row];
      j := j + 1;
    }
    assert pays[..j] == pays;
  }

  /** The store a committed POST /api/pedidos leaves behind: the new order with its
      total, its priced lines, its payments and its shipment, each under the next id of
      its table. */
  ghost function Committed(db: Db, req: OrderRequest, today: int, token: string): Db
    requires AllProductsExist(db.produtos, req.produtos)
  {
    db.(pedidos := db.pedidos[db.nextPedido := Pedido(req.idConta, req.dataPedido, OrderTotal(db.produtos, req.produtos),
                                                      OrNull(req.observacoes), DefaultOrderStatus)],
        itens := InsertRows(db.itens, db.nextItem, PricedLines(db.produtos, db.nextPedido, req.produtos)),
        pagamentos := InsertRows(db.pagamentos, db.nextPagamento, PaymentRows(db.nextPedido, req.formasPagamento)),
        entregas := db.entregas[db.nextEntrega := NewShipment(db, db.nextPedido, req.idConta, today, token)],
        nextPedido := db.nextPedido + 1, nextItem := db.nextItem + |req.produtos|,
        nextPagamento := db.nextPagamento + |req.formasPagamento|, nextEntrega := db.nextEntrega + 1)
  }

  /** POST /api/pedidos. The transaction fails, and nothing is stored, exactly when a
      requested product does not exist: the total skips such products but the line
      insertion reads their price and aborts. Otherwise the committed store is
      `Committed`, and the store invariants still hold. */
  method PlaceOrder(db: Db, req: OrderRequest, today: int, token: string) returns (db': Db, r: Result<int, OrderError>)
    ensures r.Err? <==> !AllProductsExist(db.produtos, req.produtos)
    ensures r.Err? ==> db' == db && r.error.idProduto !in db.produtos
    ensures r.Err? ==> exists k :: 0 <= k < |req.produtos| && req.produtos[k].idProduto == r.error.idProduto
    ensures r.Ok? ==> r.value == db.nextPedido && db' == Committed(db, req, today, token)
    ensures Valid(db) ==> Valid(db')
  {
    // First loop: the total, skipping unknown products.
    var total := ComputeTotal(db.produtos, req.produtos);

    // The order header, under the next order id.
    var pedidoId := db.nextPedido;
    var pedidos := db.pedidos[pedidoId := Pedido(req.idConta, req.dataPedido, total, OrNull(req.observacoes), DefaultOrderStatus)];

    // Second loop: one priced line per requested product.
    var itens, missing := InsertLines(db.produtos, db.itens, db.nextItem, pedidoId, req.produtos);
    if missing.Some? {
      // reading the price of a missing row throws: the transaction is never committed
      return db, Err(UnknownProduct(missing.value));
    }

    // Third loop: one row per requested payment.
    var pagamentos := InsertPayments(db.pagamentos, db.nextPagamento, pedidoId, req.formasPagamento);

    // The one shipment of the new order.
    var entrega := NewShipment(db, pedidoId, req.idConta, today, token);
    var entregas := db.entregas[db.nextEntrega := entrega];

    // commit
    db' := db.(pedidos := pedidos, itens := itens, pagamentos := pagamentos, entregas := entregas,
               nextPedido := pedidoId + 1, nextItem := db.nextItem + |req.produtos|,
               nextPagamento := db.nextPagamento + |req.formasPagamento|,
               nextEntrega := db.nextEntrega + 1);
    r := Ok(pedidoId);
    PlaceOrderKeepsValid(db, req, today, token);
  }

  /** A committed order keeps the store invariants: its lines and payments point at it,
      its lines at existing products with consistent subtotals, and it gets the one
      shipment it needs. */
  lemma PlaceOrderKeepsValid(db: Db, req: OrderRequest, today: int, token: string)
    requires AllProductsExist(db.produtos, req.produtos)
    ensures Valid(db) ==> Valid(Committed(db, req, today, token))
  {
    if !Valid(db) { return; }
    var c := Committed(db, req, today, token);
    CommittedIdsBelowCounters(db, req, today, token);
    NewLinesValid(db, c.pedidos, c.itens, req);
    NewPaymentsValid(db, c.pedidos, c.pagamentos, req);
    NewShipmentValid(db, c.pedidos, c.entregas, NewShipment(db, db.nextPedido, req.idConta, today, token));
    assert RowsReferenceParents(c);
    assert AccountKindsMatch(c);
  }

  /** Every new row takes the next id of its table, so ids stay below the counters. */
  lemma CommittedIdsBelowCounters(db: Db, req: OrderRequest, today: int, token: string)
    requires IdsBelowCounters(db)
    requires AllProductsExist(db.produtos, req.produtos)
    ensures IdsBelowCounters(Committed(db, req, today, token))
  {
  }

  /** An order changes no product (so no stock is taken) and no customer or account. */
  lemma OrderLeavesCatalogueAndCustomers(db: Db, req: OrderRequest, today: int, token: string)
    requires AllProductsExist(db.produtos, req.produtos)
    ensures Committed(db, req, today, token).produtos == db.produtos
    ensures Committed(db, req, today, token).contas == db.contas
    ensures Committed(db, req, today, token).clientesPf == db.clientesPf
    ensures Committed(db, req, today, token).clientesPj == db.clientesPj
  {
  }

  /** The stored order: its total is the sum of its stored line subtotals, its status the default. */
  lemma CommittedOrderTotal(db: Db, req: OrderRequest, today: int, token: string)
    requires AllProductsExist(db.produtos, req.produtos)
    ensures db.nextPedido in Committed(db, req, today, token).pedidos
    ensures Committed(db, req, today, token).pedidos[db.nextPedido].total ==
            SubtotalSum(PricedLines(db.produtos, db.nextPedido, req.produtos))
    ensures Committed(db, req, today, token).pedidos[db.nextPedido].status == DefaultOrderStatus
  {
    TotalIsSumOfSubtotals(db.produtos, db.nextPedido, req.produtos);
  }

  /** The k-th requested line is stored under the k-th new line id, for the new order,
      with the catalogue price of the moment. */
  lemma CommittedLines(db: Db, req: OrderRequest, today: int, token: string, k: int)
    requires AllProductsExist(db.produtos, req.produtos)
    requires 0 <= k < |req.produtos|
    ensures db.nextItem + k in Committed(db, req, today, token).itens
    ensures Committed(db, req, today, token).itens[db.nextItem + k] ==
            ItemPedido(db.nextPedido, req.produtos[k].idProduto, req.produtos[k].quantidade,
                       db.produtos[req.produtos[k].idProduto].preco,
                       db.produtos[req.produtos[k].idProduto].preco * req.produtos[k].quantidade)
  {
  }

  /** The k-th requested payment is stored under the k-th new payment id with its tipo and
      valor as sent, whatever the order total. */
  lemma CommittedPayments(db: Db, req: OrderRequest, today: int, token: string, k: int)
    requires AllProductsExist(db.produtos, req.produtos)
    requires 0 <= k < |req.formasPagamento|
    ensures db.nextPagamento + k in Committed(db, req, today, token).pagamentos
    ensures Committed(db, req, today, token).pagamentos[db.nextPagamento + k] ==
            Pagamento(db.nextPedido, req.formasPagamento[k].tipo, req.formasPagamento[k].valor, req.formasPagamento[k])
  {
  }

  /** In a valid store, the new order has exactly one shipment: the new one, with a "BR"
      code, the customer's address and an estimate of today plus seven days. */
  lemma CommittedHasOneShipment(db: Db, req: OrderRequest, today: int, token: string)
    requires Valid(db)
    requires AllProductsExist(db.produtos, req.produtos)
    ensures var c := Committed(db, req, today, token);
            && db.nextEntrega in c.entregas
            && c.entregas[db.nextEntrega].idPedido == db.nextPedido
            && (forall k :: k in c.entregas && c.entregas[k].idPedido == db.nextPedido ==> k == db.nextEntrega)
    ensures var e := Committed(db, req, today, token).entregas[db.nextEntrega];
            && TrackingPrefix <= e.codigoRastreio
            && e.enderecoEntrega == ShippingAddress(db, req.idConta)
            && e.previsaoEntrega == today + DeliveryDays
  {
    var c := Committed(db, req, today, token);
    forall k | k in c.entregas
      ensures c.entregas[k].idPedido == db.nextPedido ==> k == db.nextEntrega
    {
      if k != db.nextEntrega {
        assert c.entregas[k] == db.entregas[k];
      }
    }
  }

  /** The new order lines point at the new order and at existing products, with consistent subtotals. */
  lemma NewLinesValid(db: Db, pedidos': map<int, Pedido>, itens': map<int, ItemPedido>, req: OrderRequest)
    requires RowsReferenceParents(db) && SubtotalsConsistent(db)
    requires AllProductsExist(db.produtos, req.produtos)
    requires db.pedidos.Keys <= pedidos'.Keys && db.nextPedido in pedidos'
    requires itens' == InsertRows(db.itens, db.nextItem, PricedLines(db.produtos, db.nextPedido, req.produtos))
    ensures forall k :: k in itens' ==> itens'[k].idPedido in pedidos' && itens'[k].idProduto in db.produtos
    ensures forall k :: k in itens' ==> itens'[k].subtotal == itens'[k].precoUnitario * itens'[k].quantidade
  {
    var lines := PricedLines(db.produtos, db.nextPedido, req.produtos);
    forall k | k in itens'
      ensures itens'[k].idPedido in pedidos' && itens'[k].idProduto in db.produtos
      ensures itens'[k].subtotal == itens'[k].precoUnitario * itens'[k].quantidade
    {
      if db.nextItem <= k < db.nextItem + |lines| {
        assert itens'[k] == lines[k - db.nextItem];
      } else {
        assert itens'[k] == db.itens[k];
      }
    }
  }

  /** The new payments point at the new order. */
  lemma NewPaymentsValid(db: Db, pedidos': map<int, Pedido>, pagamentos': map<int, Pagamento>, req: OrderRequest)
    requires RowsReferenceParents(db)
    requires db.pedidos.Keys <= pedidos'.Keys && db.nextPedido in pedidos'
    requires pagamentos' == InsertRows(db.pagamentos, db.nextPagamento, PaymentRows(db.nextPedido, req.formasPagamento))
    ensures forall k :: k in pagamentos' ==> pagamentos'[k].idPedido in pedidos'
  {
    var pays := PaymentRows(db.nextPedido, req.formasPagamento);
    forall k | k in pagamentos'
      ensures pagamentos'[k].idPedido in pedidos'
    {
      if db.nextPagamento <= k < db.nextPagamento + |pays| {
        assert pagamentos'[k] == pays[k - db.nextPagamento];
      } else {
        assert pagamentos'[k] == db.pagamentos[k];
      }
    }
  }

  /** The new order gets the one new shipment, and every older order keeps its own. */
  lemma NewShipmentValid(db: Db, pedidos': map<int, Pedido>, entregas': map<int, Entrega>, e: Entrega)
    requires IdsBelowCounters(db) && RowsReferenceParents(db) && OneShipmentPerOrder(db)
    requires pedidos'.Keys == db.pedidos.Keys + {db.nextPedido}
    requires entregas' == db.entregas[db.nextEntrega := e] && e.idPedido == db.nextPedido
    ensures forall k :: k in entregas' ==> entregas'[k].idPedido in pedidos'
    ensures forall p :: p in pedidos' ==> exists k :: k in entregas' && entregas'[k].idPedido == p
    ensures forall k1, k2 :: k1 in entregas' && k2 in entregas' && entregas'[k1].idPedido == entregas'[k2].idPedido
              ==> k1 == k2
  {
    forall p | p in pedidos'
      ensures exists k :: k in entregas' && entregas'[k].idPedido == p
    {
      if p == db.nextPedido {
        assert entregas'[db.nextEntrega].idPedido == p;
      } else {
        var k :| k in db.entregas && db.entregas[k].idPedido == p;
        assert entregas'[k] == db.entregas[k];
      }
    }
  }
}
