/** PUT and DELETE /api/produtos/:id: an update touches only an active product; a
    delete deactivates a product some order line still references and removes it
    from the table otherwise. */
module Products {
  import opened Common
  import opened Api
  import opened Store

  /** The row PUT /api/produtos/:id writes: empty description and image become null,
      and the product stays active. */
  function UpdatedProduct(req: ProductRequest): (r: Product)
    ensures r.nome == req.nome && r.categoria == req.categoria && r.preco == req.preco && r.estoque == req.estoque
    ensures r.descricao == OrNull(req.descricao) && r.imagem == OrNull(req.imagem) && r.status == Ativo
  {
    Product(req.nome, req.categoria, OrNull(req.descricao), req.preco, req.estoque, OrNull(req.imagem), Ativo)
  }

  /** The product is in the table and active: the rows both handlers' WHERE clauses select. */
  predicate IsActive(db: Db, id: int)
    ensures IsActive(db, id) ==> id in db.produtos
  {
    id in db.produtos && db.produtos[id].status == Ativo
  }

  /** PUT /api/produtos/:id: `found` is false (404) exactly when the product is missing
      or inactive, and then nothing changes; otherwise only that product's row changes. */
  method UpdateProduct(db: Db, id: int, req: ProductRequest) returns (db': Db, found: bool)
    ensures found <==> IsActive(db, id)
    ensures !found ==> db' == db
    ensures found ==> db' == db.(produtos := db.produtos[id := UpdatedProduct(req)])
    ensures Valid(db) ==> Valid(db')
  {
    found := IsActive(db, id);
    db' := db;
    if found {
      db' := db.(produtos := db.produtos[id := UpdatedProduct(req)]);
      if Valid(db) {
        RewriteProductKeepsValid(db, id, UpdatedProduct(req));
      }
    }
  }

  /** Some order line refers to the product (`COUNT(*) > 0` over `itens_pedido`). */
  predicate InSomeOrder(db: Db, id: int)
    ensures !InSomeOrder(db, id) ==> forall k :: k in db.itens ==> db.itens[k].idProduto != id
  {
    exists k :: k in db.itens && db.itens[k].idProduto == id
  }

  datatype DeleteOutcome = NotFound | Deactivated | Deleted

  /** DELETE /api/produtos/:id. A missing or inactive product is not found and nothing
      changes; a product some order line refers to only becomes inactive; any other
      product is removed. Either way it is no longer active afterwards, and the order
      lines never lose their product. */
  method DeleteProduct(db: Db, id: int) returns (db': Db, r: DeleteOutcome)
    ensures r == NotFound <==> !IsActive(db, id)
    ensures r == NotFound ==> db' == db
    ensures r == Deactivated <==> IsActive(db, id) && InSomeOrder(db, id)
    ensures r == Deactivated ==> db' == db.(produtos := db.produtos[id := db.produtos[id].(status := Inativo)])
    ensures r == Deleted ==> db' == db.(produtos := db.produtos - {id})
    ensures !IsActive(db', id)
    ensures Valid(db) ==> Valid(db')
  {
    if !IsActive(db, id) {
      return db, NotFound;
    }
    if InSomeOrder(db, id) {
      db' := db.(produtos := db.produtos[id := db.produtos[id].(status := Inativo)]);
      r := Deactivated;
      if Valid(db) {
        RewriteProductKeepsValid(db, id, db.produtos[id].(status := Inativo));
      }
    } else {
      db' := db.(produtos := db.produtos - {id});
      r := Deleted;
      if Valid(db) {
        RemoveUnreferencedKeepsValid(db, id);
      }
    }
  }

  /** Rewriting an existing product row keeps the store invariants. */
  lemma RewriteProductKeepsValid(db: Db, id: int, p: Product)
    requires Valid(db) && id in db.produtos
    ensures Valid(db.(produtos := db.produtos[id := p]))
  {
    var db' := db.(produtos := db.produtos[id := p]);
    assert RowsReferenceParents(db');
  }

  /** Removing a product no order line refers to keeps every line's product in place. */
  lemma RemoveUnreferencedKeepsValid(db: Db, id: int)
    requires Valid(db) && !InSomeOrder(db, id)
    ensures Valid(db.(produtos := db.produtos - {id}))
  {
    var db' := db.(produtos := db.produtos - {id});
    forall k | k in db'.itens
      ensures db'.itens[k].idProduto in db'.produtos
    {
      assert db.itens[k].idProduto != id;
    }
    assert RowsReferenceParents(db');
  }
}
