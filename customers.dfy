/** POST /api/clientes (create a PF or PJ profile and the account that points at it)
    and GET /api/clientes/:id (the account joined with both profile tables, shaped
    by the account kind). */
module Customers {
  import opened Common
  import opened Api
  import opened Store

  /** The kind-specific half of the GET response; a column of a missing joined row reads as null. */
  datatype Details =
    | IndividualDetails(nome: Option<string>, cpf: Option<string>, rg: Option<string>, dataNascimento: Option<string>)
    | CorporateDetails(razaoSocial: Option<string>, nomeFantasia: Option<string>, cnpj: Option<string>,
                       inscricaoEstadual: Option<string>)

  /** The body of a successful GET /api/clientes/:id. */
  datatype CustomerView = CustomerView(
    id: int, tipo: string, email: Option<string>, telefone: Option<string>, endereco: Option<string>, details: Details)

  /** The `cliente_pf` row the LEFT JOIN finds for an account, if any. */
  function JoinedPf(db: Db, c: Conta): (r: Option<ClientePf>)
    ensures r.Some? <==> c.idClientePf.Some? && c.idClientePf.value in db.clientesPf
    ensures r.Some? ==> r.value == db.clientesPf[c.idClientePf.value]
  {
    if c.idClientePf.Some? && c.idClientePf.value in db.clientesPf then Some(db.clientesPf[c.idClientePf.value]) else None
  }

  /** The `cliente_pj` row the LEFT JOIN finds for an account, if any. */
  function JoinedPj(db: Db, c: Conta): (r: Option<ClientePj>)
    ensures r.Some? <==> c.idClientePj.Some? && c.idClientePj.value in db.clientesPj
    ensures r.Some? ==> r.value == db.clientesPj[c.idClientePj.value]
  {
    if c.idClientePj.Some? && c.idClientePj.value in db.clientesPj then Some(db.clientesPj[c.idClientePj.value]) else None
  }

  function Column<T, U>(row: Option<T>, get: T -> U): Option<U> {
    if row.Some? then Some(get(row.value)) else None
  }

  /** GET /api/clientes/:id: nothing (404) for an unknown account; otherwise the contact
      fields and the detail fields come from the PF profile when the kind is 'PF' and
      from the PJ profile for every other kind. */
  function GetCustomer(db: Db, id: int): (r: Option<CustomerView>)
    ensures r.None? <==> id !in db.contas
    ensures r.Some? ==> r.value.id == id && r.value.tipo == db.contas[id].tipo
    ensures r.Some? ==> (r.value.details.IndividualDetails? <==> r.value.tipo == PF)
    ensures r.Some? && r.value.tipo == PF && JoinedPf(db, db.contas[id]).Some? ==>
              var p := JoinedPf(db, db.contas[id]).value;
              && r.value.email == Some(p.email) && r.value.telefone == Some(p.telefone)
              && r.value.endereco == Some(p.endereco)
              && r.value.details == IndividualDetails(Some(p.nome), Some(p.cpf), p.rg, p.dataNascimento)
    ensures r.Some? && r.value.tipo != PF && JoinedPj(db, db.contas[id]).Some? ==>
              var p := JoinedPj(db, db.contas[id]).value;
              && r.value.email == Some(p.email) && r.value.telefone == Some(p.telefone)
              && r.value.endereco == Some(p.endereco)
              && r.value.details == CorporateDetails(Some(p.razaoSocial), p.nomeFantasia, Some(p.cnpj), p.inscricaoEstadual)
    ensures r.Some? && r.value.tipo == PF && JoinedPf(db, db.contas[id]).None? ==>
              r.value.email.None? && r.value.telefone.None? && r.value.endereco.None? &&
              r.value.details == IndividualDetails(None, None, None, None)
    ensures r.Some? && r.value.tipo != PF && JoinedPj(db, db.contas[id]).None? ==>
              r.value.email.None? && r.value.telefone.None? && r.value.endereco.None? &&
              r.value.details == CorporateDetails(None, None, None, None)
  {
    if id !in db.contas then None
    else
      var c := db.contas[id];
      var pf := JoinedPf(db, c);
      var pj := JoinedPj(db, c);
      if c.tipo == PF then
        Some(CustomerView(id, c.tipo,
          Column(pf, (p: ClientePf) => p.email), Column(pf, (p: ClientePf) => p.telefone),
          Column(pf, (p: ClientePf) => p.endereco),
          IndividualDetails(Column(pf, (p: ClientePf) => p.nome), Column(pf, (p: ClientePf) => p.cpf),
                            if pf.Some? then pf.value.rg else None,
                            if pf.Some? then pf.value.dataNascimento else None)))
      else
        Some(CustomerView(id, c.tipo,
          Column(pj, (p: ClientePj) => p.email), Column(pj, (p: ClientePj) => p.telefone),
          Column(pj, (p: ClientePj) => p.endereco),
          CorporateDetails(Column(pj, (p: ClientePj) => p.razaoSocial),
                           if pj.Some? then pj.value.nomeFantasia else None,
                           Column(pj, (p: ClientePj) => p.cnpj),
                           if pj.Some? then pj.value.inscricaoEstadual else None)))
  }

  /** The view of a PF account does not depend on the PJ table, and the other way round. */
  lemma ViewReadsOnlyItsKind(db: Db, id: int, pj: map<int, ClientePj>, pf: map<int, ClientePf>)
    ensures id in db.contas && db.contas[id].tipo == PF ==>
              GetCustomer(db.(clientesPj := pj), id) == GetCustomer(db, id)
    ensures id in db.contas && db.contas[id].tipo != PF ==>
              GetCustomer(db.(clientesPf := pf), id) == GetCustomer(db, id)
  {
  }

  /** The `cliente_pf` row POST /api/clientes inserts: optional columns become null when empty. */
  function IndividualProfile(req: CustomerRequest): (r: ClientePf)
    ensures r.nome == req.nome && r.cpf == req.cpf
    ensures r.email == req.email && r.telefone == req.telefone && r.endereco == req.endereco
    ensures r.rg == OrNull(req.rg) && r.dataNascimento == OrNull(req.dataNascimento)
  {
    ClientePf(req.nome, req.cpf, OrNull(req.rg), OrNull(req.dataNascimento), req.email, req.telefone, req.endereco)
  }

  /** The `cliente_pj` row POST /api/clientes inserts. */
  function CorporateProfile(req: CustomerRequest): (r: ClientePj)
    ensures r.razaoSocial == req.razaoSocial && r.cnpj == req.cnpj
    ensures r.email == req.email && r.telefone == req.telefone && r.endereco == req.endereco
    ensures r.nomeFantasia == OrNull(req.nomeFantasia) && r.inscricaoEstadual == OrNull(req.inscricaoEstadual)
  {
    ClientePj(req.razaoSocial, OrNull(req.nomeFantasia), req.cnpj, OrNull(req.inscricaoEstadual),
              req.email, req.telefone, req.endereco)
  }

  /** The store after POST /api/clientes: the profile of the requested kind under the
      next id of its table (none for a kind other than 'PF' and 'PJ'), and the account
      pointing at it under the next account id. */
  ghost function Created(db: Db, req: CustomerRequest): Db {
    var pfId := if req.tipo == PF then Some(db.nextClientePf) else None;
    var pjId := if req.tipo == PJ then Some(db.nextClientePj) else None;
    db.(clientesPf := if req.tipo == PF then db.clientesPf[db.nextClientePf := IndividualProfile(req)] else db.clientesPf,
        clientesPj := if req.tipo == PJ then db.clientesPj[db.nextClientePj := CorporateProfile(req)] else db.clientesPj,
        contas := db.contas[db.nextConta := Conta(req.tipo, pfId, pjId)],
        nextClientePf := if req.tipo == PF then db.nextClientePf + 1 else db.nextClientePf,
        nextClientePj := if req.tipo == PJ then db.nextClientePj + 1 else db.nextClientePj,
        nextConta := db.nextConta + 1)
  }

  /** POST /api/clientes: inserts the profile of the requested kind and then the account
      pointing at it, in one transaction. `clienteId` is the new profile's id, absent for a
      kind other than 'PF' and 'PJ'. */
  method CreateCustomer(db: Db, req: CustomerRequest) returns (db': Db, contaId: int, clienteId: Option<int>)
    ensures contaId == db.nextConta
    ensures req.tipo == PF ==> clienteId == Some(db.nextClientePf)
    ensures req.tipo == PJ ==> clienteId == Some(db.nextClientePj)
    ensures req.tipo != PF && req.tipo != PJ ==> clienteId.None?
    ensures db' == Created(db, req)
    ensures Valid(db) ==> Valid(db')
  {
    var tx := db;
    var contaClientePf: Option<int> := None;
    var contaClientePj: Option<int> := None;
    clienteId := None;
    if req.tipo == PF {
      clienteId := Some(tx.nextClientePf);
      tx := tx.(clientesPf := tx.clientesPf[tx.nextClientePf := IndividualProfile(req)], nextClientePf := tx.nextClientePf + 1);
      contaClientePf := clienteId;
    } else if req.tipo == PJ {
      clienteId := Some(tx.nextClientePj);
      tx := tx.(clientesPj := tx.clientesPj[tx.nextClientePj := CorporateProfile(req)], nextClientePj := tx.nextClientePj + 1);
      contaClientePj := clienteId;
    }
    contaId := tx.nextConta;
    tx := tx.(contas := tx.contas[contaId := Conta(req.tipo, contaClientePf, contaClientePj)], nextConta := contaId + 1);
    db' := tx;
    CreateCustomerKeepsValid(db, req);
  }

  /** Only the customer tables change; the new account refers to a profile exactly of its
      own kind, and that profile holds the request. */
  lemma CreatedAccount(db: Db, req: CustomerRequest)
    ensures var c := Created(db, req);
            && c.produtos == db.produtos && c.pedidos == db.pedidos && c.itens == db.itens
            && c.pagamentos == db.pagamentos && c.entregas == db.entregas
    ensures var c := Created(db, req);
            && db.nextConta in c.contas && c.contas[db.nextConta].tipo == req.tipo
            && (forall k :: k in db.contas && k != db.nextConta ==> k in c.contas && c.contas[k] == db.contas[k])
    ensures var a := Created(db, req).contas[db.nextConta];
            && (a.idClientePf.Some? <==> req.tipo == PF)
            && (a.idClientePj.Some? <==> req.tipo == PJ)
    ensures var c := Created(db, req);
            var a := c.contas[db.nextConta];
            && (a.idClientePf.Some? ==> a.idClientePf.value in c.clientesPf &&
                                        c.clientesPf[a.idClientePf.value] == IndividualProfile(req))
            && (a.idClientePj.Some? ==> a.idClientePj.value in c.clientesPj &&
                                        c.clientesPj[a.idClientePj.value] == CorporateProfile(req))
  {
  }

  /** Reading a new PF account back returns the request's fields, empty optional ones as null. */
  lemma CreatedIndividualReadsBack(db: Db, req: CustomerRequest)
    requires req.tipo == PF
    ensures GetCustomer(Created(db, req), db.nextConta) ==
            Some(CustomerView(db.nextConta, PF, Some(req.email), Some(req.telefone), Some(req.endereco),
                              IndividualDetails(Some(req.nome), Some(req.cpf), OrNull(req.rg), OrNull(req.dataNascimento))))
  {
    ReadBackIndividual(Created(db, req), db.nextConta, db.nextClientePf, req);
  }

  /** Reading a new PJ account back returns the request's fields, empty optional ones as null. */
  lemma CreatedCorporateReadsBack(db: Db, req: CustomerRequest)
    requires req.tipo == PJ
    ensures GetCustomer(Created(db, req), db.nextConta) ==
            Some(CustomerView(db.nextConta, PJ, Some(req.email), Some(req.telefone), Some(req.endereco),
                              CorporateDetails(Some(req.razaoSocial), OrNull(req.nomeFantasia), Some(req.cnpj),
                                               OrNull(req.inscricaoEstadual))))
  {
    ReadBackCorporate(Created(db, req), db.nextConta, db.nextClientePj, req);
  }

  /** Reading back a PF account whose profile row was built from `req` returns the request's fields. */
  lemma ReadBackIndividual(db: Db, contaId: int, pfId: int, req: CustomerRequest)
    requires contaId in db.contas && db.contas[contaId] == Conta(PF, Some(pfId), None)
    requires pfId in db.clientesPf && db.clientesPf[pfId] == IndividualProfile(req)
    ensures GetCustomer(db, contaId) ==
            Some(CustomerView(contaId, PF, Some(req.email), Some(req.telefone), Some(req.endereco),
                              IndividualDetails(Some(req.nome), Some(req.cpf), OrNull(req.rg), OrNull(req.dataNascimento))))
  {
  }

  /** Reading back a PJ account whose profile row was built from `req` returns the request's fields. */
  lemma ReadBackCorporate(db: Db, contaId: int, pjId: int, req: CustomerRequest)
    requires contaId in db.contas && db.contas[contaId] == Conta(PJ, None, Some(pjId))
    requires pjId in db.clientesPj && db.clientesPj[pjId] == CorporateProfile(req)
    ensures GetCustomer(db, contaId) ==
            Some(CustomerView(contaId, PJ, Some(req.email), Some(req.telefone), Some(req.endereco),
                              CorporateDetails(Some(req.razaoSocial), OrNull(req.nomeFantasia), Some(req.cnpj),
                                               OrNull(req.inscricaoEstadual))))
  {
  }

  /** The new profile and account take the next ids, so ids stay below the counters. */
  lemma CreatedIdsBelowCounters(db: Db, req: CustomerRequest)
    requires IdsBelowCounters(db)
    ensures IdsBelowCounters(Created(db, req))
  {
  }

  /** Creating a customer keeps the store invariants: the new profile and account take
      the next ids, and the account references only the profile of its own kind. */
  lemma CreateCustomerKeepsValid(db: Db, req: CustomerRequest)
    ensures Valid(db) ==> Valid(Created(db, req))
  {
    if !Valid(db) { return; }
    var c := Created(db, req);
    CreatedAccount(db, req);
    CreatedIdsBelowCounters(db, req);
    assert AccountKindsMatch(c);
    assert RowsReferenceParents(c);
    assert OneShipmentPerOrder(c);
  }
}
