/** The sign-up form of the storefront: it builds the POST /api/clientes body from
    the fields of the chosen customer kind and refuses to send it while a required
    field is empty. */
module Registration {
  import opened Common
  import opened Api

  /** The two radio buttons of the form: individual (PF) or corporate (PJ). */
  datatype Kind = Individual | Corporate

  datatype RegistrationForm = RegistrationForm(
    tipo: Kind,
    email: string, telefone: string, endereco: string,
    nome: string, cpf: string, dataNascimento: string,
    razaoSocial: string, cnpj: string, inscricaoEstadual: string, nomeFantasia: string)

  /** The three messages the form can show instead of sending. */
  datatype FormError = MissingContact | MissingIndividualFields | MissingCorporateFields

  /** `clienteData`: the contact fields plus only the fields of the chosen kind. */
  function Payload(form: RegistrationForm): (r: CustomerRequest)
    ensures r.email == form.email && r.telefone == form.telefone && r.endereco == form.endereco
    ensures form.tipo.Individual? ==> r.tipo == PF && r.nome == form.nome && r.cpf == form.cpf
    ensures form.tipo.Individual? ==> r.dataNascimento == form.dataNascimento
    ensures form.tipo.Individual? ==>
              r.rg == "" && r.razaoSocial == "" && r.cnpj == "" && r.inscricaoEstadual == "" && r.nomeFantasia == ""
    ensures form.tipo.Corporate? ==> r.tipo == PJ && r.razaoSocial == form.razaoSocial && r.cnpj == form.cnpj
    ensures form.tipo.Corporate? ==> r.inscricaoEstadual == form.inscricaoEstadual && r.nomeFantasia == form.nomeFantasia
    ensures form.tipo.Corporate? ==> r.nome == "" && r.cpf == "" && r.rg == "" && r.dataNascimento == ""
  {
    match form.tipo
    case Individual =>
      CustomerRequest(PF, form.nome, form.cpf, "", form.dataNascimento, "", "", "", "",
                      form.email, form.telefone, form.endereco)
    case Corporate =>
      CustomerRequest(PJ, "", "", "", "", form.razaoSocial, form.nomeFantasia, form.cnpj, form.inscricaoEstadual,
                      form.email, form.telefone, form.endereco)
  }

  /** The form is sent exactly when every required field is filled in. */
  ghost predicate RequiredFieldsPresent(form: RegistrationForm) {
    && form.email != "" && form.telefone != "" && form.endereco != ""
    && (form.tipo.Individual? ==> form.nome != "" && form.cpf != "")
    && (form.tipo.Corporate? ==> form.razaoSocial != "" && form.cnpj != "" && form.inscricaoEstadual != "")
  }

  /** The checks run before the form is sent, in the order the form runs them. */
  function Validate(form: RegistrationForm): (r: Result<CustomerRequest, FormError>)
    ensures r.Ok? <==> RequiredFieldsPresent(form)
    ensures r.Ok? ==> r.value == Payload(form)
    ensures r == Err(MissingContact) <==> form.email == "" || form.telefone == "" || form.endereco == ""
    ensures r == Err(MissingIndividualFields) ==> form.tipo.Individual?
    ensures r == Err(MissingCorporateFields) ==> form.tipo.Corporate?
  {
    var data := Payload(form);
    if data.email == "" || data.telefone == "" || data.endereco == "" then Err(MissingContact)
    else if form.tipo.Individual? && (data.nome == "" || data.cpf == "") then Err(MissingIndividualFields)
    else if form.tipo.Corporate? && (data.razaoSocial == "" || data.cnpj == "" || data.inscricaoEstadual == "") then
      Err(MissingCorporateFields)
    else Ok(data)
  }
}
