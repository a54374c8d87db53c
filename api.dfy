/** The JSON bodies the storefront sends to the server's REST routes. Money is in
    integer cents and dates are day numbers; a field the client leaves out is the
    empty string. */
module Api {

  /** One entry of `produtos` in a POST /api/pedidos body. */
  datatype LineRequest = LineRequest(idProduto: int, quantidade: int)

  /** One entry of `formas_pagamento` in a POST /api/pedidos body. */
  datatype PaymentRequest = PaymentRequest(tipo: string, valor: int)

  /** The body of POST /api/pedidos. */
  datatype OrderRequest = OrderRequest(
    idConta: int,
    dataPedido: int,
    produtos: seq<LineRequest>,
    formasPagamento: seq<PaymentRequest>,
    observacoes: string)

  /** The body of POST /api/clientes; `tipo` is "PF" (individual) or "PJ" (corporate). */
  datatype CustomerRequest = CustomerRequest(
    tipo: string,
    nome: string, cpf: string, rg: string, dataNascimento: string,
    razaoSocial: string, nomeFantasia: string, cnpj: string, inscricaoEstadual: string,
    email: string, telefone: string, endereco: string)

  /** The body of PUT /api/produtos/:id. */
  datatype ProductRequest = ProductRequest(
    nome: string, categoria: string, descricao: string, preco: int, estoque: int, imagem: string)

  const PF := "PF"
  const PJ := "PJ"
}
