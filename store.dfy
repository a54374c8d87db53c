/** The MySQL database behind server.js, as one in-memory value: a map per table
    from row id to row, and an auto-increment counter per table the handlers insert
    into. A handler is a method from the store before the request to the store
    after it; a transaction that is not committed returns the store it was given. */
module Store {
  import opened Common
  import opened Api

  datatype ProductStatus = Ativo | Inativo

  /** A row of `produtos`; prices are cents. */
  datatype Product = Product(
    nome: string, categoria: string, descricao: Option<string>,
    preco: int, estoque: int, imagem: Option<string>, status: ProductStatus)

  /** A row of `cliente_pf` (individual customer profile). */
  datatype ClientePf = ClientePf(
    nome: string, cpf: string, rg: Option<string>, dataNascimento: Option<string>,
    email: string, telefone: string, endereco: string)

  /** A row of `cliente_pj` (corporate customer profile). */
  datatype ClientePj = ClientePj(
    razaoSocial: string, nomeFantasia: Option<string>, cnpj: string, inscricaoEstadual: Option<string>,
    email: string, telefone: string, endereco: string)

  /** A row of `conta`: the account, pointing at one profile through a nullable reference. */
  datatype Conta = Conta(tipo: string, idClientePf: Option<int>, idClientePj: Option<int>)

  /** A row of `pedidos`; dates are day numbers. */
  datatype Pedido = Pedido(idConta: int, dataPedido: int, total: int, observacoes: Option<string>, status: string)

  /** A row of `itens_pedido`: the unit price is a snapshot taken when the order was placed. */
  datatype ItemPedido = ItemPedido(idPedido: int, idProduto: int, quantidade: int, precoUnitario: int, subtotal: int)

  /** A row of `pagamento`; `dados` keeps the serialized request entry. */
  datatype Pagamento = Pagamento(idPedido: int, tipo: string, valor: int, dados: PaymentRequest)

  /** A row of `entregas`; the two timestamps are null until a status update stamps them. */
  datatype Entrega = Entrega(
    idPedido: int, codigoRastreio: string, enderecoEntrega: string, previsaoEntrega: int,
    status: string, dataEnvio: Option<int>, dataEntrega: Option<int>)

  datatype Db = Db(
    produtos: map<int, Product>,
    clientesPf: map<int, ClientePf>,
    clientesPj: map<int, ClientePj>,
    contas: map<int, Conta>,
    pedidos: map<int, Pedido>,
    itens: map<int, ItemPedido>,
    pagamentos: map<int, Pagamento>,
    entregas: map<int, Entrega>,
    nextClientePf: int, nextClientePj: int, nextConta: int,
    nextPedido: int, nextItem: int, nextPagamento: int, nextEntrega: int)

  /** Column defaults of the schema for rows the handlers insert without a status. */
  const DefaultOrderStatus := "pendente"
  const DefaultShipmentStatus := "preparando"

  // ---------------------------------------------------------------- store invariants

  /** Auto-increment: every id in use is below its table's counter, so the next insert is fresh. */
  ghost predicate IdsBelowCounters(db: Db) {
    && (forall k :: k in db.clientesPf ==> k < db.nextClientePf)
    && (forall k :: k in db.clientesPj ==> k < db.nextClientePj)
    && (forall k :: k in db.contas ==> k < db.nextConta)
    && (forall k :: k in db.pedidos ==> k < db.nextPedido)
    && (forall k :: k in db.itens ==> k < db.nextItem)
    && (forall k :: k in db.pagamentos ==> k < db.nextPagamento)
    && (forall k :: k in db.entregas ==> k < db.nextEntrega)
  }

  /** Foreign keys: order lines, payments and shipments point at existing orders,
      order lines at existing products, accounts at existing profiles. */
  ghost predicate RowsReferenceParents(db: Db) {
    && (forall k :: k in db.itens ==> db.itens[k].idPedido in db.pedidos && db.itens[k].idProduto in db.produtos)
    && (forall k :: k in db.pagamentos ==> db.pagamentos[k].idPedido in db.pedidos)
    && (forall k :: k in db.entregas ==> db.entregas[k].idPedido in db.pedidos)
    && (forall k :: k in db.contas && db.contas[k].idClientePf.Some? ==> db.contas[k].idClientePf.value in db.clientesPf)
    && (forall k :: k in db.contas && db.contas[k].idClientePj.Some? ==> db.contas[k].idClientePj.value in db.clientesPj)
  }

  /** A PF account has only a PF profile, a PJ account only a PJ profile, any other kind neither. */
  ghost predicate AccountKindsMatch(db: Db) {
    forall k :: k in db.contas ==>
      var c := db.contas[k];
      && (c.idClientePf.Some? <==> c.tipo == PF)
      && (c.idClientePj.Some? <==> c.tipo == PJ)
  }

  /** Every order has exactly one shipment. */
  ghost predicate OneShipmentPerOrder(db: Db) {
    && (forall p :: p in db.pedidos ==> exists e :: e in db.entregas && db.entregas[e].idPedido == p)
    && (forall e1, e2 :: e1 in db.entregas && e2 in db.entregas && db.entregas[e1].idPedido == db.entregas[e2].idPedido
          ==> e1 == e2)
  }

  /** Every order line's subtotal is its unit price times its quantity. */
  ghost predicate SubtotalsConsistent(db: Db) {
    forall k :: k in db.itens ==> db.itens[k].subtotal == db.itens[k].precoUnitario * db.itens[k].quantidade
  }

  ghost predicate Valid(db: Db) {
    && IdsBelowCounters(db)
    && RowsReferenceParents(db)
    && AccountKindsMatch(db)
    && OneShipmentPerOrder(db)
    && SubtotalsConsistent(db)
  }

  // ---------------------------------------------------------------- inserting rows

  /** The ids `first`, `first + 1`, ..., `first + n - 1`. */
  function IdRange(first: int, n: nat): (r: seq<int>)
    ensures forall k :: k in r <==> first <= k < first + n
    decreases n
  {
    if n == 0 then [] else IdRange(first, n - 1) + [first + n - 1]
  }

  /** The table after inserting `rows` one by one with consecutive ids from `first`. */
  function InsertRows<V>(m: map<int, V>, first: int, rows: seq<V>): (r: map<int, V>)
    ensures forall k :: k in r <==> k in m || first <= k < first + |rows|
    ensures forall k :: first <= k < first + |rows| ==> r[k] == rows[k - first]
    ensures forall k :: k in m && !(first <= k < first + |rows|) ==> r[k] == m[k]
  {
    var ids := IdRange(first, |rows|);
    map k | k in m.Keys + (set x | x in ids) :: if first <= k < first + |rows| then rows[k - first] else m[k]
  }

  /** Inserting one more row extends the previous insertions by one id. */
  lemma InsertOneMore<V>(m: map<int, V>, first: int, rows: seq<V>, x: V)
    ensures InsertRows(m, first, rows + [x]) == InsertRows(m, first, rows)[first + |rows| := x]
  {
    var a, b := InsertRows(m, first, rows + [x]), InsertRows(m, first, rows)[first + |rows| := x];
    assert a.Keys == b.Keys;
    forall k | k in a
      ensures a[k] == b[k]
    {
      if first <= k < first + |rows| {
        assert (rows + [x])[k - first] == rows[k - first];
      }
    }
  }
}
