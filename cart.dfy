/** The storefront's shopping cart: the global `carrinho` list of script.js and the
    three operations that change it (adicionarAoCarrinho, removerDoCarrinho,
    alterarQuantidade), with the item count and money total shown beside it.
    Each operation is specified by a function on the list of entries; the class
    ShoppingCart holds the list and applies those functions in place. */
module Cart {
  import opened Common

  /** A product as the storefront holds it after listing the catalogue. Prices are cents. */
  datatype CatalogEntry = CatalogEntry(id: int, nome: string, categoria: string, preco: int, estoque: int)

  /** One cart entry; `preco` is the price copied from the catalogue when the entry was created. */
  datatype CartItem = CartItem(id: int, nome: string, preco: int, quantidade: int)

  /** What adicionarAoCarrinho tells the shopper: nothing, the stock warning, or success. */
  datatype AddOutcome = Ignored | StockLimitReached | AddedToCart

  /** `produtos.find(p => p.id === produtoId)`: the first catalogue entry with the id. */
  function FindProduct(catalog: seq<CatalogEntry>, id: int): (r: Option<CatalogEntry>)
    ensures r.Some? ==> r.value.id == id
    ensures r.Some? ==> exists k :: 0 <= k < |catalog| && catalog[k] == r.value &&
                                    forall j :: 0 <= j < k ==> catalog[j].id != id
    ensures r.None? <==> forall j :: 0 <= j < |catalog| ==> catalog[j].id != id
  {
    if |catalog| == 0 then None
    else if catalog[0].id == id then Some(catalog[0])
    else
      var r := FindProduct(catalog[1..], id);
      if r.Some? then
        var k :| 0 <= k < |catalog[1..]| && catalog[1..][k] == r.value &&
                 forall j :: 0 <= j < k ==> catalog[1..][j].id != id;
        assert catalog[k + 1] == r.value;
        assert forall j :: 0 <= j < k + 1 ==> catalog[j].id != id by {
          forall j | 0 <= j < k + 1 ensures catalog[j].id != id {
            if j > 0 { assert catalog[j] == catalog[1..][j - 1]; }
          }
        }
        r
      else
        assert forall j :: 1 <= j < |catalog| ==> catalog[j] == catalog[1..][j - 1];
        r
  }

  /** Position of `carrinho.find(item => item.id === produtoId)`: the first entry with the id. */
  function IndexOf(items: seq<CartItem>, id: int): (r: Option<nat>)
    ensures r.Some? ==> r.value < |items| && items[r.value].id == id
    ensures r.Some? ==> forall j :: 0 <= j < r.value ==> items[j].id != id
    ensures r.None? <==> forall j :: 0 <= j < |items| ==> items[j].id != id
  {
    if |items| == 0 then None
    else if items[0].id == id then Some(0)
    else
      match IndexOf(items[1..], id)
      case None =>
        assert forall j :: 1 <= j < |items| ==> items[j] == items[1..][j - 1];
        None
      case Some(i) =>
        assert forall j :: 1 <= j < i + 1 ==> items[j] == items[1..][j - 1];
        Some(i + 1)
  }

  /** The cart invariant: at most one entry per product id. */
  ghost predicate UniqueIds(items: seq<CartItem>) {
    forall i, j :: 0 <= i < j < |items| ==> items[i].id != items[j].id
  }

  function Subtotal(item: CartItem): int {
    item.preco * item.quantidade
  }

  /** Every entry holds at least one unit. */
  ghost predicate AtLeastOneEach(items: seq<CartItem>) {
    forall j :: 0 <= j < |items| ==> items[j].quantidade >= 1
  }

  /** No entry has a negative price or quantity. */
  ghost predicate NothingNegative(items: seq<CartItem>) {
    forall j :: 0 <= j < |items| ==> items[j].preco >= 0 && items[j].quantidade >= 0
  }

  /** `carrinho.reduce((total, item) => total + item.quantidade, 0)`. When every entry
      holds at least one unit, as the cart operations leave it, the count is at least the
      number of entries. */
  function ItemCount(items: seq<CartItem>): (r: int)
    ensures AtLeastOneEach(items) ==> r >= |items|
  {
    if |items| == 0 then 0 else ItemCount(items[..|items| - 1]) + items[|items| - 1].quantidade
  }

  /** The sum of `item.preco * item.quantidade` over the cart, in cart order; never
      negative when no price and no quantity is. */
  function CartTotal(items: seq<CartItem>): (r: int)
    ensures NothingNegative(items) ==> r >= 0
  {
    if |items| == 0 then 0 else CartTotal(items[..|items| - 1]) + Subtotal(items[|items| - 1])
  }

  /** The cart after adicionarAoCarrinho(id). */
  function Added(items: seq<CartItem>, catalog: seq<CatalogEntry>, id: int): (r: seq<CartItem>)
    ensures |r| == |items| || |r| == |items| + 1
    ensures forall j :: 0 <= j < |items| && items[j].id != id ==> r[j] == items[j]
    ensures FindProduct(catalog, id).None? ==> r == items
  {
    match FindProduct(catalog, id)
    case None => items
    case Some(p) =>
      match IndexOf(items, id)
      case Some(i) =>
        if items[i].quantidade < p.estoque then items[i := items[i].(quantidade := items[i].quantidade + 1)]
        else items
      case None => items + [CartItem(p.id, p.nome, p.preco, 1)]
  }

  /** The cart after removerDoCarrinho(id): `carrinho.filter(item => item.id !== id)`. */
  function Without(items: seq<CartItem>, id: int): (r: seq<CartItem>)
    ensures |r| <= |items|
    ensures forall j :: 0 <= j < |r| ==> r[j].id != id && r[j] in items
    ensures forall j :: 0 <= j < |items| && items[j].id != id ==> items[j] in r
  {
    if |items| == 0 then []
    else if items[0].id != id then [items[0]] + Without(items[1..], id)
    else Without(items[1..], id)
  }

  /** Removal distributes over concatenation, so the survivors keep their order. */
  lemma {:induction false} WithoutConcat(a: seq<CartItem>, b: seq<CartItem>, id: int)
    ensures Without(a + b, id) == Without(a, id) + Without(b, id)
  {
    if |a| == 0 {
      assert a + b == b;
    } else {
      assert (a + b)[0] == a[0];
      assert (a + b)[1..] == a[1..] + b;
      WithoutConcat(a[1..], b, id);
    }
  }

  /** The cart after alterarQuantidade(id, q). */
  function QuantityChanged(items: seq<CartItem>, id: int, q: int): (r: seq<CartItem>)
    ensures (forall j :: 0 <= j < |items| ==> items[j].id != id) ==> r == items
    ensures |r| <= |items|
  {
    match IndexOf(items, id)
    case None => items
    case Some(i) =>
      if q <= 0 then Without(items, id) else items[i := items[i].(quantidade := q)]
  }

  // ---------------------------------------------------------------- totals

  /** Changing one entry changes the count and the total by exactly that entry's difference. */
  lemma {:induction false} TotalsAfterUpdate(items: seq<CartItem>, i: nat, x: CartItem)
    requires i < |items|
    ensures ItemCount(items[i := x]) == ItemCount(items) - items[i].quantidade + x.quantidade
    ensures CartTotal(items[i := x]) == CartTotal(items) - Subtotal(items[i]) + Subtotal(x)
  {
    var n := |items|;
    var u := items[i := x];
    assert u[..n - 1] == if i < n - 1 then items[..n - 1][i := x] else items[..n - 1];
    if i < n - 1 {
      TotalsAfterUpdate(items[..n - 1], i, x);
    }
  }

  /** The count and the total of a concatenation are the sums of the parts. */
  lemma {:induction false} TotalsOfConcat(a: seq<CartItem>, b: seq<CartItem>)
    ensures ItemCount(a + b) == ItemCount(a) + ItemCount(b)
    ensures CartTotal(a + b) == CartTotal(a) + CartTotal(b)
  {
    if |b| == 0 {
      assert a + b == a;
    } else {
      assert (a + b)[..|a + b| - 1] == a + b[..|b| - 1];
      TotalsOfConcat(a, b[..|b| - 1]);
    }
  }

  /** A one-entry cart counts that entry's quantity and costs its subtotal. */
  lemma TotalsOfOne(x: CartItem)
    ensures ItemCount([x]) == x.quantidade && CartTotal([x]) == Subtotal(x)
  {
    assert [x][..0] == [];
  }

  // ---------------------------------------------------------------- adding

  /** Adding an id the catalogue does not list leaves the cart as it was. */
  lemma AddUnknownProduct(items: seq<CartItem>, catalog: seq<CatalogEntry>, id: int)
    requires forall j :: 0 <= j < |catalog| ==> catalog[j].id != id
    ensures Added(items, catalog, id) == items
  {
  }

  /** One more unit of an entry adds its price to its subtotal. */
  lemma SubtotalOfOneMore(item: CartItem)
    ensures Subtotal(item.(quantidade := item.quantidade + 1)) == Subtotal(item) + item.preco
  {
  }

  /** With unique ids, the entry found for an id is the one entry holding it. */
  lemma IndexOfUnique(items: seq<CartItem>, id: int, i: nat)
    requires UniqueIds(items) && i < |items| && items[i].id == id
    ensures IndexOf(items, id) == Some(i)
  {
    var found := IndexOf(items, id);
    assert found.Some? by {
      assert items[i].id == id;
    }
    assert items[found.value].id == items[i].id;
  }

  /** Adding a product already in the cart raises that entry by exactly one while
      it is below the stock, and changes nothing at the stock limit; the count
      and the total move by one unit of that entry. */
  lemma AddExistingProduct(items: seq<CartItem>, catalog: seq<CatalogEntry>, id: int, i: nat, p: CatalogEntry)
    requires UniqueIds(items) && i < |items| && items[i].id == id
    requires FindProduct(catalog, id) == Some(p)
    ensures items[i].quantidade < p.estoque ==>
              Added(items, catalog, id) == items[i := items[i].(quantidade := items[i].quantidade + 1)]
    ensures items[i].quantidade >= p.estoque ==> Added(items, catalog, id) == items
    ensures items[i].quantidade < p.estoque ==>
              ItemCount(Added(items, catalog, id)) == ItemCount(items) + 1 &&
              CartTotal(Added(items, catalog, id)) == CartTotal(items) + items[i].preco
  {
    IndexOfUnique(items, id, i);
    if items[i].quantidade < p.estoque {
      var x := items[i].(quantidade := items[i].quantidade + 1);
      assert Added(items, catalog, id) == items[i := x];
      TotalsAfterUpdate(items, i, x);
      SubtotalOfOneMore(items[i]);
    }
  }

  /** Adding a listed product that is not in the cart appends one entry with
      quantity 1 and the catalogue's name and price; the total grows by that price. */
  lemma AddNewProduct(items: seq<CartItem>, catalog: seq<CatalogEntry>, id: int, p: CatalogEntry)
    requires IndexOf(items, id).None?
    requires FindProduct(catalog, id) == Some(p)
    ensures Added(items, catalog, id) == items + [CartItem(id, p.nome, p.preco, 1)]
    ensures ItemCount(Added(items, catalog, id)) == ItemCount(items) + 1
    ensures CartTotal(Added(items, catalog, id)) == CartTotal(items) + p.preco
  {
    assert (items + [CartItem(id, p.nome, p.preco, 1)])[..|items|] == items;
  }

  // ---------------------------------------------------------------- removing

  /** Removing an id that has no entry leaves the cart as it was. */
  lemma {:induction false} RemoveAbsent(items: seq<CartItem>, id: int)
    requires forall j :: 0 <= j < |items| ==> items[j].id != id
    ensures Without(items, id) == items
  {
    if |items| > 0 {
      RemoveAbsent(items[1..], id);
    }
  }

  /** In a cart with unique ids, removing the entry at i cuts exactly that entry
      out and keeps the others in their order. */
  lemma RemoveCutsOneEntry(items: seq<CartItem>, id: int, i: nat)
    requires UniqueIds(items) && i < |items| && items[i].id == id
    ensures Without(items, id) == items[..i] + items[i + 1..]
  {
    var front, back := items[..i], items[i + 1..];
    assert items == front + [items[i]] + back;
    assert forall j :: 0 <= j < |front| ==> front[j].id != id by {
      forall j | 0 <= j < |front| ensures front[j].id != id {
        assert front[j] == items[j];
      }
    }
    assert forall j :: 0 <= j < |back| ==> back[j].id != id by {
      forall j | 0 <= j < |back| ensures back[j].id != id {
        assert back[j] == items[i + 1 + j];
      }
    }
    WithoutSplit(front, items[i], back, id);
  }

  /** Removing the id of the one entry between two id-free parts joins the parts. */
  lemma WithoutSplit(front: seq<CartItem>, x: CartItem, back: seq<CartItem>, id: int)
    requires x.id == id
    requires forall j :: 0 <= j < |front| ==> front[j].id != id
    requires forall j :: 0 <= j < |back| ==> back[j].id != id
    ensures Without(front + [x] + back, id) == front + back
  {
    calc {
      Without(front + [x] + back, id);
      { WithoutConcat(front + [x], back, id); }
      Without(front + [x], id) + Without(back, id);
      { WithoutConcat(front, [x], id); }
      Without(front, id) + Without([x], id) + Without(back, id);
      { assert [x][1..] == []; }
      Without(front, id) + [] + Without(back, id);
      { RemoveAbsent(front, id); RemoveAbsent(back, id); }
      front + [] + back;
      { assert front + [] == front; }
      front + back;
    }
  }

  /** Removing a present entry lowers the count and the total by exactly that entry. */
  lemma RemovePresent(items: seq<CartItem>, id: int, i: nat)
    requires UniqueIds(items) && i < |items| && items[i].id == id
    ensures ItemCount(Without(items, id)) == ItemCount(items) - items[i].quantidade
    ensures CartTotal(Without(items, id)) == CartTotal(items) - Subtotal(items[i])
  {
    RemoveCutsOneEntry(items, id, i);
    TotalsAfterCut(items, i);
  }

  /** Cutting out the entry at i lowers the count and the total by that entry. */
  lemma {:induction false} TotalsAfterCut(items: seq<CartItem>, i: nat)
    requires i < |items|
    ensures ItemCount(items[..i] + items[i + 1..]) == ItemCount(items) - items[i].quantidade
    ensures CartTotal(items[..i] + items[i + 1..]) == CartTotal(items) - Subtotal(items[i])
  {
    var n := |items|;
    var cut := items[..i] + items[i + 1..];
    if i == n - 1 {
      assert cut == items[..n - 1];
    } else {
      var init := items[..n - 1];
      assert cut[..|cut| - 1] == init[..i] + init[i + 1..];
      assert cut[|cut| - 1] == items[n - 1];
      TotalsAfterCut(init, i);
    }
  }

  // ---------------------------------------------------------------- changing a quantity

  /** A quantity of zero or less is the same as removing the product, whether or
      not it is in the cart. */
  lemma ChangeToNonPositiveIsRemove(items: seq<CartItem>, id: int, q: int)
    requires q <= 0
    ensures QuantityChanged(items, id, q) == Without(items, id)
  {
    if IndexOf(items, id).None? {
      RemoveAbsent(items, id);
    }
  }

  /** A positive quantity is stored exactly, with no stock cap; the count and the
      total move by the difference. */
  lemma ChangeToPositive(items: seq<CartItem>, id: int, q: int, i: nat)
    requires UniqueIds(items) && i < |items| && items[i].id == id && q > 0
    ensures QuantityChanged(items, id, q) == items[i := items[i].(quantidade := q)]
    ensures ItemCount(QuantityChanged(items, id, q)) == ItemCount(items) - items[i].quantidade + q
    ensures CartTotal(QuantityChanged(items, id, q)) == CartTotal(items) - Subtotal(items[i]) + items[i].preco * q
  {
    IndexOfUnique(items, id, i);
    TotalsAfterUpdate(items, i, items[i].(quantidade := q));
  }

  // ---------------------------------------------------------------- the invariant

  /** Filtering out one id keeps ids unique. */
  lemma {:induction false} WithoutKeepsUnique(items: seq<CartItem>, id: int)
    requires UniqueIds(items)
    ensures UniqueIds(Without(items, id))
  {
    if |items| > 0 {
      var rest := items[1..];
      assert UniqueIds(rest) by {
        forall i, j | 0 <= i < j < |rest| ensures rest[i].id != rest[j].id {
          assert rest[i] == items[i + 1] && rest[j] == items[j + 1];
        }
      }
      WithoutKeepsUnique(rest, id);
      var tail := Without(rest, id);
      if items[0].id != id {
        var r := [items[0]] + tail;
        forall a, b | 0 <= a < b < |r| ensures r[a].id != r[b].id {
          assert r[b] == tail[b - 1];
          if a == 0 {
            assert tail[b - 1] in rest;
            var k :| 0 <= k < |rest| && rest[k] == tail[b - 1];
            assert rest[k] == items[k + 1];
          } else {
            assert r[a] == tail[a - 1];
          }
        }
      }
    }
  }

  /** Every cart operation keeps at most one entry per product id. */
  lemma CartOperationsKeepIdsUnique(items: seq<CartItem>, catalog: seq<CatalogEntry>, id: int, q: int)
    requires UniqueIds(items)
    ensures UniqueIds(Added(items, catalog, id))
    ensures UniqueIds(Without(items, id))
    ensures UniqueIds(QuantityChanged(items, id, q))
  {
    AddedKeepsUnique(items, catalog, id);
    WithoutKeepsUnique(items, id);
    QuantityChangedKeepsUnique(items, id, q);
  }

  /** Rewriting one entry without changing its id keeps ids unique. */
  lemma UpdateKeepsUnique(items: seq<CartItem>, i: nat, x: CartItem)
    requires UniqueIds(items) && i < |items| && x.id == items[i].id
    ensures UniqueIds(items[i := x])
  {
    var r := items[i := x];
    assert forall k :: 0 <= k < |r| ==> r[k].id == items[k].id;
  }

  lemma AddedKeepsUnique(items: seq<CartItem>, catalog: seq<CatalogEntry>, id: int)
    requires UniqueIds(items)
    ensures UniqueIds(Added(items, catalog, id))
  {
    match FindProduct(catalog, id)
    case None =>
    case Some(p) =>
      match IndexOf(items, id)
      case Some(i) =>
        UpdateKeepsUnique(items, i, items[i].(quantidade := items[i].quantidade + 1));
      case None =>
        var r := items + [CartItem(p.id, p.nome, p.preco, 1)];
        assert forall k :: 0 <= k < |items| ==> r[k] == items[k];
  }

  lemma QuantityChangedKeepsUnique(items: seq<CartItem>, id: int, q: int)
    requires UniqueIds(items)
    ensures UniqueIds(QuantityChanged(items, id, q))
  {
    match IndexOf(items, id)
    case None =>
    case Some(i) =>
      if q <= 0 {
        WithoutKeepsUnique(items, id);
      } else {
        UpdateKeepsUnique(items, i, items[i].(quantidade := q));
      }
  }

  // ---------------------------------------------------------------- the cart itself

  class ShoppingCart {
    var items: seq<CartItem>

    /** The cart holds at most one entry per product id. */
    ghost predicate Valid()
      reads this
    {
      UniqueIds(items)
    }

    /** The cart starts empty. */
    constructor ()
      ensures items == [] && Valid()
    {
      items := [];
    }

    /** adicionarAoCarrinho. */
    method Add(catalog: seq<CatalogEntry>, id: int) returns (outcome: AddOutcome)
      requires Valid()
      modifies this
      ensures Valid()
      ensures items == Added(old(items), catalog, id)
      ensures outcome == Ignored <==> FindProduct(catalog, id).None?
      ensures outcome == AddedToCart <==> items != old(items)
    {
      AddedKeepsUnique(items, catalog, id);
      var produto := FindProduct(catalog, id);
      if produto.None? {
        return Ignored;
      }
      var existing := IndexOf(items, id);
      if existing.Some? {
        var i := existing.value;
        if items[i].quantidade < produto.value.estoque {
          items := items[i := items[i].(quantidade := items[i].quantidade + 1)];
          assert items[i] != old(items)[i];
        } else {
          return StockLimitReached;
        }
      } else {
        items := items + [CartItem(produto.value.id, produto.value.nome, produto.value.preco, 1)];
        assert |items| != |old(items)|;
      }
      outcome := AddedToCart;
    }

    /** removerDoCarrinho. */
    method Remove(id: int)
      requires Valid()
      modifies this
      ensures Valid()
      ensures items == Without(old(items), id)
    {
      WithoutKeepsUnique(items, id);
      items := Without(items, id);
    }

    /** alterarQuantidade. */
    method ChangeQuantity(id: int, q: int)
      requires Valid()
      modifies this
      ensures Valid()
      ensures items == QuantityChanged(old(items), id, q)
    {
      QuantityChangedKeepsUnique(items, id, q);
      var found := IndexOf(items, id);
      if found.Some? {
        if q <= 0 {
          Remove(id);
        } else {
          items := items[found.value := items[found.value].(quantidade := q)];
        }
      }
    }

    /** Emptying the cart, on logout and after a successful checkout. */
    method Clear()
      modifies this
      ensures items == [] && Valid()
    {
      items := [];
    }

    /** The money total accumulated by the loop in atualizarCarrinho. */
    method Total() returns (total: int)
      ensures total == CartTotal(items)
    {
      total := 0;
      var i := 0;
      while i < |items|
        invariant 0 <= i <= |items|
        invariant total == CartTotal(items[..i])
      {
        var subtotal := items[i].preco * items[i].quantidade;
        total := total + subtotal;
        assert items[..i + 1][..i] == items[..i];
        i := i + 1;
      }
      assert items[..i] == items;
    }

    /** finalizarCompra: nothing happens on an empty cart; otherwise the checkout
        summary shows the cart total. */
    method CheckoutTotal() returns (r: Option<int>)
      ensures r.None? <==> items == []
      ensures r.Some? ==> r.value == CartTotal(items)
    {
      if |items| == 0 {
        return None;
      }
      var total := Total();
      r := Some(total);
    }
  }
}
