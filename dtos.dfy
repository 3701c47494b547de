/**
 * The request and response shapes the services exchange with the HTTP
 * layer. Identifiers in requests are raw text, parsed by the services;
 * dates in requests arrive already parsed (`None` is a text that is not a
 * valid RFC 3339 instant); dates in responses are instants, not formatted
 * text.
 */
module Dtos {
  import opened Common
  import opened Entities

  // ---- appointments ----

  datatype ItemAgendamentoRequest = ItemAgendamentoRequest(servicoId: string, precoPrevisto: Money)

  datatype AgendamentoCreate = AgendamentoCreate(
    donoId: string, petId: string, petshopId: string, dataAgendada: Option<Time>,
    observacoes: string, totalPrevisto: Money, itens: seq<ItemAgendamentoRequest>)

  datatype AgendamentoUpdate = AgendamentoUpdate(
    dataAgendada: Option<Time>, observacoes: string, totalPrevisto: Money,
    itens: seq<ItemAgendamentoRequest>)

  datatype ItemAgendamentoView = ItemAgendamentoView(
    id: Id, servicoId: Id, nomeServico: string, precoPrevisto: Money)

  datatype AgendamentoView = AgendamentoView(
    id: Id, donoId: Id, nomeDono: string, petId: Id, nomePet: string,
    petshopId: Id, nomePetshop: string, dataAgendada: Time, status: string,
    observacoes: string, totalPrevisto: Money, itens: seq<ItemAgendamentoView>)

  // ---- procedures ----

  datatype ItemProcedimentoRequest = ItemProcedimentoRequest(servicoId: string, precoFinal: Money)

  datatype ProcedimentoCreate = ProcedimentoCreate(
    petId: string, petshopId: string, dataRealizacao: Option<Time>,
    observacoes: string, total: Money, itens: seq<ItemProcedimentoRequest>)

  datatype ItemProcedimentoView = ItemProcedimentoView(
    id: Id, servicoId: Id, nomeServico: string, precoFinal: Money)

  datatype ProcedimentoView = ProcedimentoView(
    id: Id, petId: Id, nomePet: string, petshopId: Id, nomePetshop: string,
    dataRealizacao: Time, observacoes: string, total: Money, itens: seq<ItemProcedimentoView>)

  // ---- services offered by a petshop ----

  /** The body of both the create and the update request of a service. */
  datatype ServicoInput = ServicoInput(nome: string, descricao: string, precoBase: Money)

  datatype ServicoView = ServicoView(
    id: Id, petshopId: Id, nome: string, descricao: string, precoBase: Money, ativo: bool)

  // ---- petshops ----

  datatype PetshopCreate = PetshopCreate(
    nome: string, email: string, password: string, telefone: string,
    address: Address, descricao: string)

  datatype PetshopUpdate = PetshopUpdate(
    nome: string, email: string, telefone: string, descricao: string)

  datatype PetshopDetail = PetshopDetail(
    id: Id, nome: string, email: string, telefone: string, address: Address,
    descricao: string, nota: real, ativo: bool)

  datatype PetshopListItem = PetshopListItem(
    id: Id, nome: string, cidade: string, estado: string, nota: real, descricao: string)

  // ---- pets ----

  datatype PetCreate = PetCreate(
    nome: string, especie: string, raca: string, nascimento: string, donoId: string)

  datatype PetView = PetView(
    id: Id, nome: string, especie: string, raca: string, nascimento: string, donoId: Id)

  // ---- owners ----

  datatype DonoCreate = DonoCreate(
    nome: string, email: string, password: string, telefone: string, address: Address)

  datatype DonoUpdate = DonoUpdate(nome: string, email: string, telefone: string)

  datatype DonoDetail = DonoDetail(
    id: Id, nome: string, email: string, telefone: string, address: Address)

  // ---- authentication ----

  datatype Login = Login(email: string, password: string)

  /** Who a successful login is: the fields the login response carries. */
  datatype Identity =
    | DonoIdentity(id: Id, email: string, nome: string, telefone: string)
    | PetshopIdentity(id: Id, email: string, nome: string, telefone: string,
                      descricao: string, nota: real)
  {
    /** The `tipo` field of the response. */
    function Tipo(): string
    {
      if DonoIdentity? then "dono" else "petshop"
    }
  }
}
