/** Display helpers of the storefront that carry logic: the status and payment
    label maps and the category and delivery-status filters. */
module Listings {
  import opened Common
  import opened Cart

  /** getStatusText's map from an order status to its label. */
  const OrderStatusLabels: map<string, string> := map[
    "pendente" := "Pendente",
    "confirmado" := "Confirmado",
    "preparando" := "Preparando",
    "enviado" := "Enviado",
    "entregue" := "Entregue",
    "finalizado" := "Finalizado",
    "cancelado" := "Cancelado"]

  /** getFormaPagamentoText's map from a payment kind to its label. */
  const PaymentLabels: map<string, string> := map[
    "dinheiro" := "Dinheiro",
    "cartao-credito" := "Cartão de Crédito",
    "cartao-debito" := "Cartão de Débito",
    "pix" := "PIX",
    "boleto" := "Boleto"]

  /** `labels[key] || key`: the label when there is one, the key itself otherwise. */
  function Label(labels: map<string, string>, key: string): string {
    if key in labels && labels[key] != "" then labels[key] else key
  }

  /** getStatusText: a known status gets its own label, which differs from it; any
      other string is shown as it is. */
  function StatusText(status: string): (r: string)
    ensures status in OrderStatusLabels ==> r == OrderStatusLabels[status]
    ensures status !in OrderStatusLabels ==> r == status
    ensures r != status <==> status in OrderStatusLabels
  {
    Label(OrderStatusLabels, status)
  }

  /** getFormaPagamentoText, with the same shape as StatusText. */
  function PaymentMethodText(kind: string): (r: string)
    ensures kind in PaymentLabels ==> r == PaymentLabels[kind]
    ensures kind !in PaymentLabels ==> r == kind
    ensures r != kind <==> kind in PaymentLabels
  {
    Label(PaymentLabels, kind)
  }

  /** The delivery statuses the admin can pick; only the ones an order also uses
      get a label, so "transito" reaches the customer unlabelled. */
  lemma DeliveryStatusLabels()
    ensures StatusText("preparando") == "Preparando"
    ensures StatusText("enviado") == "Enviado"
    ensures StatusText("entregue") == "Entregue"
    ensures StatusText("transito") == "transito"
  {
  }

  /** One card of the admin's delivery list. */
  datatype ShipmentCard = ShipmentCard(id: int, pedidoId: int, status: string, codigoRastreio: string)

  /** filtrarProdutos: no category selected shows everything; otherwise exactly the
      products of that category, in catalogue order. */
  function FilterProducts(produtos: seq<CatalogEntry>, categoria: string): (r: seq<CatalogEntry>)
    ensures categoria == "" ==> r == produtos
    ensures categoria != "" ==> forall j :: 0 <= j < |r| ==> r[j] in produtos && r[j].categoria == categoria
    ensures forall j :: 0 <= j < |produtos| && produtos[j].categoria == categoria ==> produtos[j] in r
    ensures |r| <= |produtos|
    ensures forall p: CatalogEntry :: p.categoria == categoria ==> multiset(r)[p] == multiset(produtos)[p]
    ensures categoria != "" ==> forall p: CatalogEntry :: p.categoria != categoria ==> multiset(r)[p] == 0
  {
    if categoria == "" then produtos
    else
      FilterMultiplicity(produtos, (p: CatalogEntry) => p.categoria == categoria);
      Filter(produtos, (p: CatalogEntry) => p.categoria == categoria)
  }

  /** filtrarEntregas, with the same shape as FilterProducts. */
  function FilterShipments(entregas: seq<ShipmentCard>, status: string): (r: seq<ShipmentCard>)
    ensures status == "" ==> r == entregas
    ensures status != "" ==> forall j :: 0 <= j < |r| ==> r[j] in entregas && r[j].status == status
    ensures forall j :: 0 <= j < |entregas| && entregas[j].status == status ==> entregas[j] in r
    ensures |r| <= |entregas|
    ensures forall e: ShipmentCard :: e.status == status ==> multiset(r)[e] == multiset(entregas)[e]
    ensures status != "" ==> forall e: ShipmentCard :: e.status != status ==> multiset(r)[e] == 0
  {
    if status == "" then entregas
    else
      FilterMultiplicity(entregas, (e: ShipmentCard) => e.status == status);
      Filter(entregas, (e: ShipmentCard) => e.status == status)
  }

  /** Applying the same category filter twice shows the same list as applying it once. */
  lemma FilterProductsIdempotent(produtos: seq<CatalogEntry>, categoria: string)
    ensures FilterProducts(FilterProducts(produtos, categoria), categoria) == FilterProducts(produtos, categoria)
  {
    if categoria != "" {
      FilterIdempotent(produtos, (p: CatalogEntry) => p.categoria == categoria);
    }
  }

  /** A category filter keeps the relative order of the products: filtering two
      halves and joining them is filtering the whole. */
  lemma FilterProductsKeepsOrder(a: seq<CatalogEntry>, b: seq<CatalogEntry>, categoria: string)
    ensures FilterProducts(a + b, categoria) == FilterProducts(a, categoria) + FilterProducts(b, categoria)
  {
    if categoria != "" {
      FilterConcat(a, b, (p: CatalogEntry) => p.categoria == categoria);
    }
  }

  /** A status filter keeps the relative order of the shipments: filtering two
      halves and joining them is filtering the whole. */
  lemma FilterShipmentsKeepsOrder(a: seq<ShipmentCard>, b: seq<ShipmentCard>, status: string)
    ensures FilterShipments(a + b, status) == FilterShipments(a, status) + FilterShipments(b, status)
  {
    if status != "" {
      FilterConcat(a, b, (e: ShipmentCard) => e.status == status);
    }
  }
}
