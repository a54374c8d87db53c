# Mercado Digital — a verified model of the cart, checkout and order handlers

Mercado Digital is a small online grocery: a browser storefront (`script.js`) and an
Express server over MySQL (`server.js`). This project models its core in Dafny:

- the storefront's **shopping cart** (`carrinho`): add with a stock cap, remove,
  change quantity, the item count and the money total (`cart.dfy`, a class holding
  the list, each operation specified by a function on the list);
- the **checkout payload** posted to `POST /api/pedidos` (`checkout.dfy`);
- the **sign-up validation** of individual (PF) and corporate (PJ) customers
  (`registration.dfy`);
- the **status/payment labels** and the **category/status filters** (`listings.dfy`);
- the **server handlers**, over an in-memory store (`store.dfy`): order placement
  (`orders.dfy`), shipment status update (`shipments.dfy`), product update and delete
  (`products.dfy`), customer creation and the customer read-back (`customers.dfy`);
- how the two sides fit together: the single payment the storefront sends is the
  total the server stores when the cart's prices are current (`flow.dfy`).

The database is a value `Store.Db` with one map per table and one auto-increment
counter per table. Each handler is a method from the store before the request to the
store after it. A transaction that fails before `commit` returns the store it was
given. Every handler is proved to keep the invariant `Store.Valid`:

- ids stay below their counters;
- order lines, payments and shipments point at existing orders;
- order lines point at existing products;
- accounts point at existing profiles, of the account's own kind;
- every order has exactly one shipment;
- every line's subtotal is its unit price times its quantity.

Money is integer cents and dates are day numbers. The random tracking-code suffix and
the current date are method parameters. A JSON field the client leaves out is the
empty string.

## Model

| member | source | states |
|---|---|---|
| Common.OrNull | server.js:78 | `x \|\| null` on a string: null exactly for the empty string, the string itself otherwise |
| Cart.FindProduct | script.js:558 | the product found has the requested id and is the first catalogue entry with it; none is found exactly when no catalogue entry has that id |
| Cart.IndexOf | script.js:561 | the cart position found holds the requested id and no earlier entry does; none is found exactly when no entry has that id |
| Cart.ItemCount | script.js:608 | the item count of the badge; when every entry holds at least one unit it is at least the number of entries |
| Cart.CartTotal | script.js:817 | the money total of the checkout payment; never negative when no price and no quantity is |
| Cart.Added | script.js:557-582 | adding changes at most one entry or appends one; entries of other products keep their place and value; an unknown id changes nothing |
| Cart.Without | script.js:584-587 | removal keeps exactly the entries of other ids: none with the id survives, and every entry with another id does |
| Cart.WithoutConcat | script.js:585 | removal distributes over concatenation, so the surviving entries keep their relative order |
| Cart.QuantityChanged | script.js:589-599 | an id with no entry changes nothing; the cart never grows |
| Cart.TotalsAfterUpdate | script.js:608-617 | rewriting one entry moves the item count and the money total by exactly that entry's difference |
| Cart.TotalsOfConcat | script.js:608-617 | count and total of two joined carts are the sums of their counts and totals |
| Cart.AddUnknownProduct | script.js:557-559 | adding an id the catalogue does not list leaves the cart unchanged |
| Cart.SubtotalOfOneMore | script.js:564 | one more unit of an entry adds exactly its price to its subtotal |
| Cart.IndexOfUnique | script.js:561 | with at most one entry per id, the entry found for an id is the one holding it |
| Cart.AddExistingProduct | script.js:561-569 | for a product already in the cart: below stock its entry gains exactly one unit, the count rises by one and the total by its price; at the stock limit nothing changes |
| Cart.AddNewProduct | script.js:570-577 | a listed product not in the cart is appended at the end with quantity 1 and the catalogue's name and price; count +1, total + price |
| Cart.RemoveAbsent | script.js:584-587 | removing an id with no entry leaves the cart unchanged |
| Cart.RemoveCutsOneEntry | script.js:585 | in a cart with unique ids, removing cuts exactly the one entry with that id |
| Cart.WithoutSplit | script.js:585 | removing the id of the single entry between two parts free of that id joins the two parts |
| Cart.TotalsOfOne | script.js:608-617 | a one-entry cart counts that entry's quantity and costs its subtotal |
| Cart.TotalsAfterCut | script.js:608-617 | cutting one entry out lowers the count by its quantity and the total by its subtotal |
| Cart.RemovePresent | script.js:584-587 | removing a present entry lowers the count by its quantity and the total by its subtotal |
| Cart.ChangeToNonPositiveIsRemove | script.js:589-593 | a quantity of zero or less is the same as removing the product |
| Cart.ChangeToPositive | script.js:594-597 | a positive quantity is stored exactly, with no stock cap, and count and total move by the difference |
| Cart.WithoutKeepsUnique | script.js:585 | removal keeps at most one entry per product id |
| Cart.UpdateKeepsUnique | script.js:564 | rewriting one entry without changing its id keeps ids unique |
| Cart.AddedKeepsUnique | script.js:557-582 | adding keeps at most one entry per product id: a present product is raised in place, a new one appended |
| Cart.QuantityChangedKeepsUnique | script.js:589-599 | changing a quantity keeps at most one entry per product id |
| Cart.CartOperationsKeepIdsUnique | script.js:557-599 | add, remove and change-quantity each keep at most one entry per product id |
| Cart.ShoppingCart.constructor | script.js:7 | the cart starts empty, so with at most one entry per product id |
| Cart.ShoppingCart.Add | script.js:557-582 | the cart becomes `Added` of the old cart and keeps at most one entry per product id; the outcome is "ignored" exactly for an unknown product and "added" exactly when the cart changed |
| Cart.ShoppingCart.Remove | script.js:584-587 | the cart becomes `Without` of the old cart and keeps at most one entry per product id |
| Cart.ShoppingCart.ChangeQuantity | script.js:589-599 | the cart becomes `QuantityChanged` of the old cart and keeps at most one entry per product id, going through removal for quantities of zero or less |
| Cart.ShoppingCart.Clear | script.js:293 | logout and a successful checkout empty the cart |
| Cart.ShoppingCart.Total | script.js:613-617 | the accumulating loop computes the sum of price times quantity over the cart |
| Cart.ShoppingCart.CheckoutTotal | script.js:769-781 | checkout does nothing on an empty cart and otherwise shows the cart total |
| Checkout.OrderLines | script.js:811-814 | one `{id_produto, quantidade}` line per cart entry, in cart order |
| Checkout.CheckoutRequest | script.js:803-820 | nothing is sent without a logged-in user id; otherwise the body carries the account, today's date, the cart's lines exactly one payment of the cart total and the fixed web-order note |
| Registration.Payload | script.js:224-240 | the body carries the contact fields; PF carries nome, cpf and dataNascimento, PJ carries razaoSocial, cnpj, inscricaoEstadual and nomeFantasia; every field of the other kind, and rg, is empty |
| Registration.Validate | script.js:243-256 | the form is sent exactly when email, telefone, endereco and the kind's required fields are non-empty; a missing contact field is reported first |
| Listings.StatusText | script.js:735-746 | a known order status gets its own label from the map, which differs from it; any other string is shown as it is |
| Listings.PaymentMethodText | script.js:748-757 | a known payment kind gets its own label from the map, which differs from it; any other string is shown as it is |
| Listings.DeliveryStatusLabels | script.js:735-746 | the shipment statuses "preparando", "enviado" and "entregue" get labels, "transito" does not |
| Listings.FilterProducts | script.js:1004-1006 | no category shows every product; a category shows exactly the products of that category, each as many times as the catalogue holds it, and never more entries than the catalogue |
| Listings.FilterShipments | script.js:1035-1037 | no status shows every shipment; a status shows exactly the shipments with that status, each as many times as the list holds it, and never more entries than the list |
| Common.FilterMultiplicity | script.js:1006 | `Array.prototype.filter` keeps each passing element exactly as many times as the input holds it, and no failing one |
| Listings.FilterProductsIdempotent | script.js:1006 | filtering twice by the same category is filtering once |
| Listings.FilterProductsKeepsOrder | script.js:1006 | the category filter keeps the catalogue order |
| Listings.FilterShipmentsKeepsOrder | script.js:1037 | the status filter keeps the order of the shipment list |
| Store.IdRange | server.js:415-418 | the ids of a run of inserts are exactly the consecutive ids from the first one |
| Store.InsertRows | server.js:415-418 | inserting rows with consecutive ids adds exactly those ids, each holding its row, and keeps the other rows |
| Store.InsertOneMore | server.js:412-421 | one more insert extends the previous inserts by the next id |
| Customers.JoinedPf | server.js:138 | the PF row the LEFT JOIN finds is the referenced one, and there is none when the reference is null or dangling |
| Customers.JoinedPj | server.js:139 | the PJ row the LEFT JOIN finds is the referenced one, and there is none when the reference is null or dangling |
| Customers.GetCustomer | server.js:119-169 | an unknown account is not found; otherwise the response has the account's id and kind, PF details exactly for kind 'PF'; email, telefone, endereco and the details are the columns of the joined profile of that kind, and all null when the join finds no row |
| Customers.ViewReadsOnlyItsKind | server.js:150-169 | the response for a PF account does not depend on the PJ table, and the response for any other kind does not depend on the PF table |
| Customers.IndividualProfile | server.js:76-78 | the PF row keeps the request's name, cpf, email, telefone and endereco, with empty rg and birth date stored as null |
| Customers.CorporateProfile | server.js:84-86 | the PJ row keeps the request's legal name, cnpj, email, telefone and endereco, with empty trade name and state registration stored as null |
| Customers.CreateCustomer | server.js:63-111 | the account takes the next account id and the profile the next id of its kind's table (none for another kind); the new store is the one `Created` describes, and the store invariants hold |
| Customers.CreatedAccount | server.js:70-96 | only the customer tables change and no older account is touched; the new account has the requested kind, a PF reference exactly for 'PF' and a PJ reference exactly for 'PJ', each pointing at the profile built from the request |
| Customers.CreatedIndividualReadsBack | server.js:63-111 | reading a new PF account back returns the request's fields, empty rg and birth date as null |
| Customers.CreatedCorporateReadsBack | server.js:63-111 | reading a new PJ account back returns the request's fields, empty trade name and state registration as null |
| Customers.CreatedIdsBelowCounters | server.js:74-96 | the new profile and account take the next ids, so every id stays below its counter |
| Customers.ReadBackIndividual | server.js:150-163 | a PF account over a profile built from a request reads back as that request |
| Customers.ReadBackCorporate | server.js:150-169 | a PJ account over a profile built from a request reads back as that request |
| Customers.CreateCustomerKeepsValid | server.js:63-111 | creating a customer keeps the store invariants |
| Orders.PricedLines | server.js:411-421 | one line per requested product, in order, with the catalogue price of the moment and subtotal = price × quantity |
| Orders.OrderTotal | server.js:394-401 | the first loop's total: zero when no line names an existing product, never negative when no price and no quantity is |
| Orders.PricedLinesOneMore | server.js:411-421 | one more requested line adds one more priced line at the end |
| Orders.InsertLinesStep | server.js:415-418 | inserting the next priced line extends the lines inserted so far by the next id |
| Orders.TotalIsSumOfSubtotals | server.js:394-421 | when every product exists, the stored order total is the sum of the stored line subtotals |
| Orders.OrderTotalOfConcat | server.js:394-401 | the total of two joined requests is the sum of their totals |
| Orders.UnknownProductAddsNothing | server.js:397-400 | a line naming an unknown product contributes nothing to the total, wherever it stands |
| Orders.PaymentRows | server.js:423-429 | one payment per requested payment, in order, copying tipo and valor and keeping the whole entry as data |
| Orders.PaymentRowsOneMore | server.js:423-429 | one more requested payment adds one more payment row at the end |
| Orders.InsertPaymentsStep | server.js:424-428 | inserting the next payment extends the payments inserted so far by the next id |
| Orders.ShippingAddress | server.js:435-437 | the shipment address is never empty: the account's non-empty address when there is one, the placeholder otherwise |
| Orders.ShippingAddressFromProfile | server.js:436-438 | the shipment address is the address of the account's profile of its own kind, or the placeholder when the account, the profile or the address is missing |
| Orders.NewShipment | server.js:431-442 | the new shipment belongs to the order, its code starts with "BR", its estimate is today + 7 days, its status is the default and it has no dates yet |
| Orders.ComputeTotal | server.js:394-401 | the first loop computes the order total, skipping products that do not exist |
| Orders.InsertLines | server.js:411-421 | the second loop inserts every priced line, or stops at a product that does not exist and names it |
| Orders.InsertPayments | server.js:423-429 | the third loop inserts every payment row with consecutive ids |
| Orders.PlaceOrder | server.js:387-453 | the order fails and nothing is stored exactly when a requested product is missing, and the error records a requested product that is missing (the code itself fails with the `TypeError` of reading the price of a missing row, which names no product); otherwise the id is the next order id, the new store is the one `Committed` describes, and the store invariants hold |
| Orders.PlaceOrderKeepsValid | server.js:392-446 | a committed order keeps the store invariants |
| Orders.CommittedIdsBelowCounters | server.js:403-442 | every row the order inserts takes the next id of its table, so ids stay below the counters |
| Orders.OrderLeavesCatalogueAndCustomers | server.js:387-453 | an order changes no product (no stock is taken), no account and no profile |
| Orders.CommittedOrderTotal | server.js:394-421 | the stored order's total is the sum of its stored line subtotals, and its status is "pendente" |
| Orders.CommittedLines | server.js:411-421 | the k-th requested line is stored under the k-th new line id, for the new order, at the catalogue price of the moment |
| Orders.CommittedPayments | server.js:423-429 | the k-th requested payment is stored under the k-th new payment id with its tipo and valor as sent, whatever the total |
| Orders.CommittedHasOneShipment | server.js:431-442 | in a valid store the new order has exactly one shipment, with a "BR" code, the customer's address and an estimate of today + 7 days |
| Orders.NewLinesValid | server.js:411-421 | after the order, every line points at an order and at a product and its subtotal is price × quantity |
| Orders.NewPaymentsValid | server.js:423-429 | after the order, every payment points at an order |
| Orders.NewShipmentValid | server.js:431-443 | after the order, every order has exactly one shipment |
| Shipments.ApplyStatusUpdate | server.js:486-497 | the UPDATE the handler builds sets the status and at most one of the two dates |
| Shipments.Apply | server.js:486-499 | applying the UPDATE's assignments never changes the order, the tracking code, the address or the estimated delivery |
| Shipments.RewriteShipmentKeepsValid | server.js:499 | rewriting a shipment for the same order keeps the store invariants |
| Shipments.UpdateShipmentStatus | server.js:480-507 | any status is stored; data_envio is stamped iff the status is "enviado" or "transito", data_entrega iff it is "entregue"; no other column or row changes; an unknown id changes nothing |
| Products.UpdatedProduct | server.js:305-308 | the rewritten row keeps the request's fields, with empty description and image stored as null, and stays active |
| Products.IsActive | server.js:330-335 | a product the `status = "ativo"` filters select is in the table |
| Products.UpdateProduct | server.js:299-321 | only an active product is updated; a missing or inactive one is not found and nothing changes; the invariants hold |
| Products.RewriteProductKeepsValid | server.js:305-308 | rewriting an existing product row keeps the store invariants |
| Products.DeleteProduct | server.js:324-361 | a missing or inactive product is not found and nothing changes; a product some order line refers to only becomes inactive; any other is removed; the product is inactive or gone afterwards and the invariants hold |
| Products.InSomeOrder | server.js:338-343 | when the count is zero, no order line refers to the product |
| Products.RemoveUnreferencedKeepsValid | server.js:351-354 | removing a product no order line refers to leaves every line's product in place |
| CheckoutFlow.ServerTotalMatchesCart | server.js:394-401 | when the cart's prices are the catalogue's, the server's total of the checkout lines is the cart total |
| CheckoutFlow.CheckoutPaysTheOrderTotal | script.js:808-820 | with current prices, the checkout body is accepted and its single payment is the total the server stores |
| CheckoutFlow.CheckoutOfRemovedProductFails | server.js:411-414 | a cart entry whose product left the catalogue makes the order fail |
| CheckoutFlow.StalePriceIsNotDetected | server.js:423-429 | the server does not compare payments with the total: after a price change they disagree and the order is still stored |

## Left out

- The DOM, notifications, modals, navigation and event listeners: presentation only.
- `fetch`, Express routing, static files and the MySQL connection: each handler is a method on the store value instead.
- Floating-point money: prices and totals are integer cents, with no rounding.
- `Math.random` and `new Date()`: the tracking-code suffix and the current day are method parameters.
- `Intl` currency and date formatting.
- Receipt confirmation: the storefront calls `/entregas/:id/confirmar`, but the server has no such route.
- A duplicate CPF/CNPJ check: neither side has one.
- Dashboard counts and the listing queries (`GET /api/pedidos`, `GET /api/entregas`, …).
- The login lookup by email.
- The SQL view `view_clientes` is not part of this model. The shipment address reads the account's address through `Customers.GetCustomer`: the profile of the account's kind, as the customer read-back does.
- Orders.PlaceOrder: the `pedidos` and `entregas` status defaults ("pendente", "preparando") are assumed column defaults, since the schema is not part of this model.
- Orders.PlaceOrder: a failed order is modelled as storing nothing, with the counters unchanged. In the code the `catch` neither calls `rollback` nor ends the connection, so the open transaction lasts until the server drops that connection. Its uncommitted rows are lost then, but the auto-increment ids they took are not given back, which leaves a gap in the order and line ids that the model does not show.
- Orders.PlaceOrder: a request body without a `produtos` or `formas_pagamento` array makes the `for … of` loop throw, so nothing is committed. The request type always carries both lists, so the model cannot express that failure.
- Concurrency: each handler is one atomic step. The order handler reads each price twice (server.js:397 and 413) and `Orders.Committed` reads the catalogue once. So Orders.TotalIsSumOfSubtotals and Orders.CommittedOrderTotal hold in the code only when both reads see the same snapshot, as InnoDB's REPEATABLE READ gives inside the transaction. Under READ COMMITTED a concurrent price change could make them differ.
- Products.DeleteProduct: the code runs the existence check, the reference count and the write as separate statements with no transaction (server.js:330-353). A line inserted by a concurrent order in between is not modelled.
- Orders.PlaceOrder: `previsao_entrega` is today + 7 days. Month lengths do not matter with day numbers, and the UTC cut of `toISOString` is not modelled.
- Store.Valid: the referential links that the handlers keep (lines, payments and shipments to their order, lines to their product, accounts to their profile) are an invariant the handlers are proved to keep. The database does not enforce them in this model. The model assumes no link from `pedidos.id_conta` to `conta`: `Orders.PlaceOrder` stores an order for any account id. If the schema has that foreign key, the INSERT at server.js:404 fails for an unknown account, and the model does not capture that failure.
- `updated_at` timestamps on products are not modelled.
- Errors from the driver are not modelled, for example an `undefined` bind value or an `id` path parameter that is not a number.
- Label maps: keys inherited from `Object.prototype` (such as "constructor") are not modelled. Only the listed keys have labels.
- The catalogue and shipment listings the filters read are given as sequences; loading them from the server is not modelled.

## Where the model follows the code

In a few places the code does something other than what the workflow would suggest. The model follows the code:

- A shipment status update accepts any status, with no check of the current status.
- The estimated delivery date counts from the server's current date, not from `data_pedido`.
- The order total prices a product whatever its status, so an inactive product can still be ordered.
- Stock is never decremented.
- The storefront sends `dataNascimento` only for PF sign-ups and `nomeFantasia` only for PJ ones. The server stores empty values as null.
